/** The part of the UAST syntax tree that the naming-convention visitor looks at.
    A node is a class declaration (`UClass`), a method declaration (`UMethod`) or
    any other element; every node has an identifier (standing for the host's PSI
    element, which locations point into) and its children in the order the
    host's `accept` visits them. */
module Uast {

  datatype Option<+T> = None | Some(value: T)

  /** A declared identifier. Java identifiers are never empty, and the visitor
      reads `charAt(0)` of every name it classifies without a guard. */
  type Identifier = s: string | |s| > 0 witness "x"

  type NodeId = nat

  datatype Node =
    | ClassDecl(id: NodeId, className: Option<Identifier>, kids: seq<Node>)
    | MethodDecl(id: NodeId, methodName: Identifier, isConstructor: bool, kids: seq<Node>)
    | OtherElement(id: NodeId, kids: seq<Node>)

  /** `getNameLocation` (the identifier token) versus `getLocation` (the whole element). */
  datatype LocationKind = NameLocation | WholeLocation

  /** A source span, abstracted to which span of which node it is. */
  datatype Location = Location(kind: LocationKind, node: NodeId)

  /** One call of `context.report(ISSUE, location, message)`. */
  datatype Diagnostic = Diagnostic(location: Location, message: string)

  /** Number of class and method declarations in a tree. */
  function Declarations(n: Node): nat
    decreases n
  {
    (if n.OtherElement? then 0 else 1) + DeclarationsAll(n.kids)
  }

  function DeclarationsAll(ns: seq<Node>): nat
    decreases ns
  {
    if ns == [] then 0 else Declarations(ns[0]) + DeclarationsAll(ns[1..])
  }

  /** Number of nodes of any kind in a tree. */
  function Size(n: Node): nat
    decreases n
  {
    1 + SizeAll(n.kids)
  }

  function SizeAll(ns: seq<Node>): nat
    decreases ns
  {
    if ns == [] then 0 else Size(ns[0]) + SizeAll(ns[1..])
  }
}
