/** The two first-character tests of the naming-convention rule and the
    diagnostic each produces. The tests compare the character code with
    exclusive bounds, so the boundary letters 'a', 'z', 'A' and 'Z' pass. */
module NamingRule {
  import opened Uast

  const ClassMessagePrefix := "the  name of class must start with uppercase:"
  const MethodMessagePrefix := "the method must start with lowercase:"

  /** visitClass: the code of the first character lies strictly between 97 and 122. */
  predicate ClassInitialFlagged(c: char) {
    97 < c as int && c as int < 122
  }

  /** visitMethod: the code of the first character lies strictly between 65 and 90. */
  predicate MethodInitialFlagged(c: char) {
    65 < c as int && c as int < 90
  }

  predicate IsAsciiLower(c: char) { 'a' <= c <= 'z' }
  predicate IsAsciiUpper(c: char) { 'A' <= c <= 'Z' }
  predicate IsAsciiDigit(c: char) { '0' <= c <= '9' }

  /** The class test flags exactly the lower-case ASCII letters other than 'a' and 'z'. */
  lemma ClassTestIsInteriorLowercase(c: char)
    ensures ClassInitialFlagged(c) <==> IsAsciiLower(c) && c != 'a' && c != 'z'
  {
  }

  /** The method test flags exactly the upper-case ASCII letters other than 'A' and 'Z'. */
  lemma MethodTestIsInteriorUppercase(c: char)
    ensures MethodInitialFlagged(c) <==> IsAsciiUpper(c) && c != 'A' && c != 'Z'
  {
  }

  /** The 24 letters the class test flags, listed out. */
  lemma ClassFlaggedLetters(c: char)
    ensures ClassInitialFlagged(c) <==> c in "bcdefghijklmnopqrstuvwxy"
  {
  }

  /** The 24 letters the method test flags, listed out. */
  lemma MethodFlaggedLetters(c: char)
    ensures MethodInitialFlagged(c) <==> c in "BCDEFGHIJKLMNOPQRSTUVWXY"
  {
  }

  /** Initials the class test lets through: the boundary letters, upper case,
      digits, the underscore and everything outside ASCII. */
  lemma ClassTestSpares(c: char)
    requires c == 'a' || c == 'z' || IsAsciiUpper(c) || IsAsciiDigit(c) || c == '_' || c as int > 127
    ensures !ClassInitialFlagged(c)
  {
  }

  /** Initials the method test lets through. */
  lemma MethodTestSpares(c: char)
    requires c == 'A' || c == 'Z' || IsAsciiLower(c) || IsAsciiDigit(c) || c == '_' || c as int > 127
    ensures !MethodInitialFlagged(c)
  {
  }

  /** A node the visitor reports: a named class whose initial the class test
      flags, or a non-constructor method whose initial the method test flags.
      Other elements and unnamed classes are never reported. */
  predicate Violates(n: Node) {
    match n
    case ClassDecl(_, name, _) => name.Some? && ClassInitialFlagged(name.value[0])
    case MethodDecl(_, name, isConstructor, _) => !isConstructor && MethodInitialFlagged(name[0])
    case OtherElement(_, _) => false
  }

  /** The diagnostic reported for a violating node. */
  function ReportFor(n: Node): (d: Diagnostic)
    requires Violates(n)
    ensures d.location.node == n.id
    ensures d.location.kind == NameLocation <==> n.ClassDecl?
    ensures n.ClassDecl? ==> NameOfClassMessage(d.message) == Some(n.className.value)
    ensures n.MethodDecl? ==> NameOfMethodMessage(d.message) == Some(n.methodName)
  {
    match n
    case ClassDecl(id, name, _) => Diagnostic(Location(NameLocation, id), ClassMessagePrefix + name.value)
    case MethodDecl(id, name, _, _) => Diagnostic(Location(WholeLocation, id), MethodMessagePrefix + name)
  }

  /** Reads the declaration name back out of a class message, if it is one. */
  function NameOfClassMessage(message: string): Option<string> {
    if |ClassMessagePrefix| <= |message| && message[..|ClassMessagePrefix|] == ClassMessagePrefix
    then Some(message[|ClassMessagePrefix|..])
    else None
  }

  /** Reads the declaration name back out of a method message, if it is one. */
  function NameOfMethodMessage(message: string): Option<string> {
    if |MethodMessagePrefix| <= |message| && message[..|MethodMessagePrefix|] == MethodMessagePrefix
    then Some(message[|MethodMessagePrefix|..])
    else None
  }

  /** A class message is never mistaken for a method message and vice versa. */
  lemma MessagesDistinguishable(name: string)
    ensures NameOfMethodMessage(ClassMessagePrefix + name) == None
    ensures NameOfClassMessage(MethodMessagePrefix + name) == None
  {
    var c := ClassMessagePrefix + name;
    var m := MethodMessagePrefix + name;
    if |MethodMessagePrefix| <= |c| {
      assert c[4] != MethodMessagePrefix[4];
    }
    if |ClassMessagePrefix| <= |m| {
      assert m[4] != ClassMessagePrefix[4];
    }
  }
}
