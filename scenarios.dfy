/** Concrete trees and the diagnostics the walk gives for them. */
module Scenarios {
  import opened Uast
  import opened NamingRule
  import opened Traversal

  /** A lower-case class name is reported once, with the two-space message and no space before the name. */
  lemma LowercaseClassReported()
    ensures Walk(ClassDecl(1, Some("myClass"), []))
         == [Diagnostic(Location(NameLocation, 1), "the  name of class must start with uppercase:myClass")]
  {
    FlaggedClassReportedOnce(1, "myClass", []);
    assert "the  name of class must start with uppercase:" + "myClass"
        == "the  name of class must start with uppercase:myClass";
  }

  /** Class names starting with an upper-case letter, or with the boundary letters 'a' and 'z', are not reported. */
  lemma UnreportedClasses()
    ensures Walk(ClassDecl(1, Some("MyClass"), [])) == []
    ensures Walk(ClassDecl(1, Some("aClass"), [])) == []
    ensures Walk(ClassDecl(1, Some("zClass"), [])) == []
  {
  }

  /** An upper-case method name is reported once, at the whole method. */
  lemma UppercaseMethodReported()
    ensures Walk(ClassDecl(1, Some("Worker"), [MethodDecl(2, "DoWork", false, [])]))
         == [Diagnostic(Location(WholeLocation, 2), "the method must start with lowercase:DoWork")]
  {
    var doWork := MethodDecl(2, "DoWork", false, []);
    FlaggedMethodReportedOnce(2, "DoWork", []);
    assert "the method must start with lowercase:" + "DoWork" == "the method must start with lowercase:DoWork";
    assert WalkAll([doWork]) == Walk(doWork) + WalkAll([]);
  }

  /** Lower-case methods, constructors, and methods starting with 'A' or 'Z' are not reported. */
  lemma UnreportedMethods()
    ensures Walk(ClassDecl(1, Some("MyClass"), [
                   MethodDecl(2, "doWork", false, []),
                   MethodDecl(3, "MyClass", true, []),
                   MethodDecl(4, "Apply", false, []),
                   MethodDecl(5, "Zip", false, [])])) == []
  {
  }

  /** A reported class hides the upper-case method inside it; its unreported
      sibling class is still walked, after it. */
  lemma ReportedClassHidesItsBody()
    ensures Walk(ClassDecl(1, Some("Outer"), [
                   ClassDecl(2, Some("inner"), [MethodDecl(3, "Run", false, [])]),
                   ClassDecl(4, Some("Other"), [MethodDecl(5, "Stop", false, [])])]))
         == [Diagnostic(Location(NameLocation, 2), "the  name of class must start with uppercase:inner"),
             Diagnostic(Location(WholeLocation, 5), "the method must start with lowercase:Stop")]
  {
    var inner := ClassDecl(2, Some("inner"), [MethodDecl(3, "Run", false, [])]);
    var stop := MethodDecl(5, "Stop", false, []);
    var other := ClassDecl(4, Some("Other"), [stop]);
    FlaggedClassReportedOnce(2, "inner", [MethodDecl(3, "Run", false, [])]);
    assert "the  name of class must start with uppercase:" + "inner"
        == "the  name of class must start with uppercase:inner";
    FlaggedMethodReportedOnce(5, "Stop", []);
    assert "the method must start with lowercase:" + "Stop" == "the method must start with lowercase:Stop";
    assert WalkAll([stop]) == Walk(stop) + WalkAll([]);
    assert Walk(other) == WalkAll([stop]);
    assert WalkAll([inner, other]) == Walk(inner) + WalkAll([other]);
    assert WalkAll([other]) == Walk(other) + WalkAll([]);
  }
}
