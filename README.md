# Naming-convention lint rule, modelled in Dafny

This project models the Android Lint detector `NamingConventionDetector` of
LintDemo. For each class the lint host hands over, the detector's handler
starts a UAST visitor at that class (`node.accept(visitor)`). The visitor
checks two things. A class whose name starts with a character of code strictly
between 97 and 122 is reported at its name. A non-constructor method whose name
starts with a character of code strictly between 65 and 90 is reported at the
whole method. A visit that reports returns `true`, which in the UAST visitor
convention means the walk does not go into that declaration's children.
Because the bounds are exclusive, names starting with `a`, `z`, `A` or `Z` are
never reported. The model keeps this as written.

Files:

- `uast.dfy` (module `Uast`): the syntax tree as a closed datatype
  (`ClassDecl`, `MethodDecl`, `OtherElement`). It also holds abstract locations:
  the name span or the whole node, plus the node's id. A `Diagnostic` is one
  `context.report` call.
- `naming_rule.dfy` (module `NamingRule`): the two first-character tests, the
  exact messages, `Violates` and `ReportFor`, with lemmas that say which
  characters the tests flag.
- `traversal.dfy` (module `Traversal`): `Walk`, the pre-order walk that emits
  diagnostics and prunes each reported subtree. `Entries` is an independent
  reference: the full pre-order of the tree, with no pruning, where each node
  is tagged with whether a violating node lies above it. The main lemma says
  `Walk` emits exactly the diagnostics of the untagged violating nodes, in
  order.
- `detector.dfy` (module `Detector`): the objects. `JavaContext` is the report
  sink. `NamingConventionVisitor` has `VisitClass`, `VisitMethod` and the
  recursive `Accept`. `UastHandler` is what `createUastHandler` returns.
  `Accept` and `UastHandler.VisitClass` are proved to append exactly
  `Walk(node)` to the sink. `VisitClass` and `VisitMethod` append the node's
  own diagnostic exactly when they return `true`.
- `scenarios.dfy` (module `Scenarios`): concrete trees and the diagnostics
  they produce.

Details the model keeps exactly as the code has them:

- The class message has two spaces after "the" and no space before the name.
- The class diagnostic is placed at the class name (`getNameLocation`).
- The method diagnostic is placed at the whole method (`getLocation`).
- A reported declaration's subtree is not walked, so nested declarations of a
  reported one are never checked.
- `charAt(0)` is read without a guard, so names are non-empty by type
  (`Identifier`).

## Model

| member | source | states |
|---|---|---|
| NamingRule.ClassTestIsInteriorLowercase | lintlib/src/main/java/me/gindoc/lintlib/NamingConventionDetector.java:79-81 | the class test flags an initial exactly when it is an ASCII lower-case letter other than 'a' and 'z' |
| NamingRule.MethodTestIsInteriorUppercase | lintlib/src/main/java/me/gindoc/lintlib/NamingConventionDetector.java:95-97 | the method test flags an initial exactly when it is an ASCII upper-case letter other than 'A' and 'Z' |
| NamingRule.ClassFlaggedLetters | lintlib/src/main/java/me/gindoc/lintlib/NamingConventionDetector.java:79-81 | the class test flags exactly the 24 letters b through y, listed out |
| NamingRule.MethodFlaggedLetters | lintlib/src/main/java/me/gindoc/lintlib/NamingConventionDetector.java:95-97 | the method test flags exactly the 24 letters B through Y, listed out |
| NamingRule.ClassTestSpares | lintlib/src/main/java/me/gindoc/lintlib/NamingConventionDetector.java:81 | 'a', 'z', upper-case letters, digits, '_' and non-ASCII initials are never flagged as class initials |
| NamingRule.MethodTestSpares | lintlib/src/main/java/me/gindoc/lintlib/NamingConventionDetector.java:97 | 'A', 'Z', lower-case letters, digits, '_' and non-ASCII initials are never flagged as method initials |
| NamingRule.ReportFor | lintlib/src/main/java/me/gindoc/lintlib/NamingConventionDetector.java:82-83 | a diagnostic points at the reported node; it uses the name span exactly for classes; the declaration's name can be read back from the message after the class or method prefix |
| NamingRule.MessagesDistinguishable | lintlib/src/main/java/me/gindoc/lintlib/NamingConventionDetector.java:98-99 | a class message never parses as a method message, nor the reverse |
| Traversal.Walk | lintlib/src/main/java/me/gindoc/lintlib/NamingConventionDetector.java:76-106 | a walk emits at most one diagnostic per class or method declaration in the tree |
| Traversal.WalkAll | lintlib/src/main/java/me/gindoc/lintlib/NamingConventionDetector.java:88 | walking sibling subtrees emits at most one diagnostic per declaration among them |
| Traversal.WalkMatchesReference | lintlib/src/main/java/me/gindoc/lintlib/NamingConventionDetector.java:76-106 | the pruning walk emits exactly the diagnostics of the violating nodes with no violating ancestor, in pre-order |
| Traversal.ReportCount | lintlib/src/main/java/me/gindoc/lintlib/NamingConventionDetector.java:76-106 | the number of diagnostics equals the number of violating declarations that have no violating ancestor |
| Traversal.EntriesCoverTree | lintlib/src/main/java/me/gindoc/lintlib/NamingConventionDetector.java:58 | the reference pre-order has one entry per node of the tree (its length is the tree's size) |
| Traversal.EntriesContainTree | lintlib/src/main/java/me/gindoc/lintlib/NamingConventionDetector.java:58 | every node lying within the tree appears in the reference pre-order, at the returned position |
| Traversal.CleanTreeSilent | lintlib/src/main/java/me/gindoc/lintlib/NamingConventionDetector.java:76-106 | a tree with no violating declaration yields no diagnostic |
| Traversal.ReportedPrunesSubtree | lintlib/src/main/java/me/gindoc/lintlib/NamingConventionDetector.java:85 | a reported node yields only its own diagnostic, and every node beneath it lies under a violating ancestor |
| Traversal.FlaggedClassReportedOnce | lintlib/src/main/java/me/gindoc/lintlib/NamingConventionDetector.java:79-85 | a named class with initial code in (97,122) yields exactly one diagnostic: the two-space class message at its name location |
| Traversal.UnflaggedClassDescends | lintlib/src/main/java/me/gindoc/lintlib/NamingConventionDetector.java:81-88 | a named class with initial code outside (97,122) yields only what its children yield |
| Traversal.AnonymousClassDescends | lintlib/src/main/java/me/gindoc/lintlib/NamingConventionDetector.java:77 | a class with a null name yields only what its children yield |
| Traversal.ConstructorDescends | lintlib/src/main/java/me/gindoc/lintlib/NamingConventionDetector.java:94-104 | a constructor of any name yields only what its children yield |
| Traversal.FlaggedMethodReportedOnce | lintlib/src/main/java/me/gindoc/lintlib/NamingConventionDetector.java:95-101 | a non-constructor method with initial code in (65,90) yields exactly one diagnostic: the method message at the whole-method location |
| Traversal.UnflaggedMethodDescends | lintlib/src/main/java/me/gindoc/lintlib/NamingConventionDetector.java:97-104 | a non-constructor method with initial code outside (65,90) yields only what its children yield |
| Traversal.OtherElementDescends | lintlib/src/main/java/me/gindoc/lintlib/NamingConventionDetector.java:64 | any other element is not checked and yields only what its children yield |
| Detector.JavaContext.Report | lintlib/src/main/java/me/gindoc/lintlib/NamingConventionDetector.java:82 | `context.report` appends one diagnostic to the host's findings |
| Detector.NamingConventionVisitor.constructor | lintlib/src/main/java/me/gindoc/lintlib/NamingConventionDetector.java:70-73 | the visitor's two fields are set once, to the given context and class |
| Detector.NamingConventionVisitor.VisitClass | lintlib/src/main/java/me/gindoc/lintlib/NamingConventionDetector.java:76-89 | returns true exactly when the class violates the rule, and reports exactly then, once |
| Detector.NamingConventionVisitor.VisitMethod | lintlib/src/main/java/me/gindoc/lintlib/NamingConventionDetector.java:92-106 | returns true exactly when the non-constructor method violates the rule, and reports exactly then, once |
| Detector.NamingConventionVisitor.Accept | lintlib/src/main/java/me/gindoc/lintlib/NamingConventionDetector.java:58 | accepting the visitor at a node appends exactly `Walk(node)` to the sink |
| Detector.NamingConventionVisitor.AcceptChildren | lintlib/src/main/java/me/gindoc/lintlib/NamingConventionDetector.java:88 | accepting sibling subtrees in order appends exactly `WalkAll(kids)` |
| Detector.UastHandler.VisitClass | lintlib/src/main/java/me/gindoc/lintlib/NamingConventionDetector.java:57-59 | handling a class appends exactly `Walk(node)` to the context's findings |
| Detector.CreateUastHandler | lintlib/src/main/java/me/gindoc/lintlib/NamingConventionDetector.java:54-61 | returns a new handler bound to the given context |
| Detector.WalkTwice | lintlib/src/main/java/me/gindoc/lintlib/NamingConventionDetector.java:66-73 | two walks of the same class give the same diagnostics in the same order, both equal to `Walk(node)` |
| Scenarios.LowercaseClassReported | lintlib/src/main/java/me/gindoc/lintlib/NamingConventionDetector.java:81-83 | class `myClass` gives one diagnostic with the message `the  name of class must start with uppercase:myClass` |
| Scenarios.UnreportedClasses | lintlib/src/main/java/me/gindoc/lintlib/NamingConventionDetector.java:81 | classes `MyClass`, `aClass` and `zClass` give no diagnostic |
| Scenarios.UppercaseMethodReported | lintlib/src/main/java/me/gindoc/lintlib/NamingConventionDetector.java:97-99 | method `DoWork` gives one diagnostic with the message `the method must start with lowercase:DoWork` |
| Scenarios.UnreportedMethods | lintlib/src/main/java/me/gindoc/lintlib/NamingConventionDetector.java:94-97 | methods `doWork`, `Apply` and `Zip`, and constructor `MyClass`, give no diagnostic |
| Scenarios.ReportedClassHidesItsBody | lintlib/src/main/java/me/gindoc/lintlib/NamingConventionDetector.java:85-88 | a reported nested class hides its upper-case method, while a later unreported sibling class is still walked |

## Left out

- Issue registration metadata (id, descriptions, category, priority, severity, scope): it is constant data for the host, with no behaviour.
- `getApplicableUastTypes` and the host's choice of which classes to hand to the handler. The host may also call the handler separately on nested classes. That is host scheduling and lies outside the model.
- How `context.report`, `getLocation` and `getNameLocation` compute and render spans: locations are abstract tags (name span or whole node) on a node id.
- UAST and PSI node internals, and the visitor's other `visitX` methods. The tree has three kinds of node; every element other than a class or method is walked into without a check, as the default visit methods return `false`.
- Empty names: `charAt(0)` would throw on `""`. Names are non-empty by type rather than modelling the exception.
- Character codes: `charAt(0)` gives a UTF-16 code unit, while a Dafny `char` is a Unicode scalar value. The two agree on every code the tests compare against. A character outside the Basic Multilingual Plane starts with a surrogate unit, which is above 122, so it is never flagged either way.
- Threading: the host may analyse files concurrently. Each walk here uses its own visitor and touches only the context it was given.
