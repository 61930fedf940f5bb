/** NamingConventionDetector as objects: the host's report sink, the visitor
    that `createUastHandler` hands to `node.accept`, and the handler itself.
    Each walk is proved to append to the sink exactly `Traversal.Walk` of the
    class it was started on. */
module Detector {
  import opened Uast
  import opened NamingRule
  import opened Traversal

  /** The part of the host's `JavaContext` the detector uses: `report`, which
      appends one diagnostic to the host's list of findings. */
  class JavaContext {
    var reports: seq<Diagnostic>

    constructor ()
      ensures reports == []
    {
      reports := [];
    }

    method Report(location: Location, message: string)
      modifies this
      ensures reports == old(reports) + [Diagnostic(location, message)]
    {
      reports := reports + [Diagnostic(location, message)];
    }
  }

  /** `NamingConventionVisitor`: both fields are set once, by the constructor,
      and `uClass` is never read afterwards. */
  class NamingConventionVisitor {
    const context: JavaContext
    const uClass: Node

    constructor (context: JavaContext, uClass: Node)
      requires uClass.ClassDecl?
      ensures this.context == context && this.uClass == uClass
    {
      this.context := context;
      this.uClass := uClass;
    }

    /** Returns `true`, keeping the walk out of the class body, exactly when it reported. */
    method VisitClass(node: Node) returns (skipChildren: bool)
      requires node.ClassDecl?
      modifies context
      ensures skipChildren == Violates(node)
      ensures context.reports == old(context.reports) + (if skipChildren then [ReportFor(node)] else [])
    {
      if node.className.None? {
        return false;
      }
      var name := node.className.value;
      var code := name[0] as int;
      if 97 < code && code < 122 {
        context.Report(Location(NameLocation, node.id), ClassMessagePrefix + name);
        return true;
      }
      return false;
    }

    /** Constructors are exempt; other methods are checked on their initial. */
    method VisitMethod(node: Node) returns (skipChildren: bool)
      requires node.MethodDecl?
      modifies context
      ensures skipChildren == Violates(node)
      ensures context.reports == old(context.reports) + (if skipChildren then [ReportFor(node)] else [])
    {
      if !node.isConstructor {
        var code := node.methodName[0] as int;
        if 65 < code && code < 90 {
          context.Report(Location(WholeLocation, node.id), MethodMessagePrefix + node.methodName);
          return true;
        }
      }
      return false;
    }

    /** `node.accept(this)`: visit the node, then its children unless the visit returned `true`. */
    method Accept(node: Node)
      modifies context
      ensures context.reports == old(context.reports) + Walk(node)
      decreases node
    {
      var skipChildren: bool;
      match node {
        case ClassDecl(_, _, _) =>
          skipChildren := VisitClass(node);
        case MethodDecl(_, _, _, _) =>
          skipChildren := VisitMethod(node);
        case OtherElement(_, _) =>
          skipChildren := false;
      }
      if !skipChildren {
        AcceptChildren(node.kids);
      }
    }

    /** Accepts the sibling subtrees `kids` one after another. */
    method AcceptChildren(kids: seq<Node>)
      modifies context
      ensures context.reports == old(context.reports) + WalkAll(kids)
      decreases kids
    {
      if kids != [] {
        Accept(kids[0]);
        AcceptChildren(kids[1..]);
      }
    }
  }

  /** The `UElementHandler` that `createUastHandler(context)` returns. */
  class UastHandler {
    const context: JavaContext

    constructor (context: JavaContext)
      ensures this.context == context
    {
      this.context := context;
    }

    /** Walks the class the host hands over with a new visitor. */
    method VisitClass(node: Node)
      requires node.ClassDecl?
      modifies context
      ensures context.reports == old(context.reports) + Walk(node)
    {
      var visitor := new NamingConventionVisitor(context, node);
      visitor.Accept(node);
    }
  }

  method CreateUastHandler(context: JavaContext) returns (handler: UastHandler)
    ensures fresh(handler) && handler.context == context
  {
    handler := new UastHandler(context);
  }

  /** Two walks of the same class, each reported into a fresh context, give the
      same diagnostics in the same order: the detector keeps no state between walks. */
  method WalkTwice(node: Node) returns (first: seq<Diagnostic>, second: seq<Diagnostic>)
    requires node.ClassDecl?
    ensures first == second
    ensures first == Walk(node)
  {
    var context1 := new JavaContext();
    var handler1 := CreateUastHandler(context1);
    handler1.VisitClass(node);
    first := context1.reports;

    var context2 := new JavaContext();
    var handler2 := CreateUastHandler(context2);
    handler2.VisitClass(node);
    second := context2.reports;
  }
}
