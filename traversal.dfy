/** The walk that `node.accept(visitor)` performs: pre-order, where a visit that
    reports returns `true` and so keeps the walk out of that node's children.
    `Walk` is the sequence of diagnostics one walk emits. `Entries` is an
    independent reference: the full pre-order of the tree, with no pruning,
    where each node is tagged with whether some proper ancestor violates. */
module Traversal {
  import opened Uast
  import opened NamingRule

  /** Diagnostics emitted by walking the tree rooted at `n`, in emission order. */
  function Walk(n: Node): (r: seq<Diagnostic>)
    ensures |r| <= Declarations(n)
    decreases n
  {
    if Violates(n) then [ReportFor(n)] else WalkAll(n.kids)
  }

  /** Diagnostics emitted by walking the sibling subtrees `ns` in order. */
  function WalkAll(ns: seq<Node>): (r: seq<Diagnostic>)
    ensures |r| <= DeclarationsAll(ns)
    decreases ns
  {
    if ns == [] then [] else Walk(ns[0]) + WalkAll(ns[1..])
  }

  /** A node of the tree with whether it lies beneath a violating node. */
  datatype Entry = Entry(node: Node, shadowed: bool)

  /** Every node of the tree in pre-order, none skipped. */
  function Entries(n: Node, shadowed: bool): seq<Entry>
    decreases n
  {
    [Entry(n, shadowed)] + EntriesAll(n.kids, shadowed || Violates(n))
  }

  function EntriesAll(ns: seq<Node>, shadowed: bool): seq<Entry>
    decreases ns
  {
    if ns == [] then [] else Entries(ns[0], shadowed) + EntriesAll(ns[1..], shadowed)
  }

  /** The diagnostic of every violating entry with no violating ancestor, in order. */
  function Expected(es: seq<Entry>): seq<Diagnostic> {
    if es == [] then []
    else (if !es[0].shadowed && Violates(es[0].node) then [ReportFor(es[0].node)] else []) + Expected(es[1..])
  }

  /** The number of violating entries with no violating ancestor. */
  function CountExposedViolations(es: seq<Entry>): nat {
    if es == [] then 0
    else (if !es[0].shadowed && Violates(es[0].node) then 1 else 0) + CountExposedViolations(es[1..])
  }

  lemma {:induction false} ExpectedAppend(a: seq<Entry>, b: seq<Entry>)
    ensures Expected(a + b) == Expected(a) + Expected(b)
  {
    if a != [] {
      assert (a + b)[1..] == a[1..] + b;
      ExpectedAppend(a[1..], b);
    } else {
      assert a + b == b;
    }
  }

  /** The reference has one entry per node of the tree. */
  lemma {:induction false} EntriesCoverTree(n: Node, shadowed: bool)
    ensures |Entries(n, shadowed)| == Size(n)
    decreases n
  {
    EntriesAllCoverTrees(n.kids, shadowed || Violates(n));
  }

  lemma {:induction false} EntriesAllCoverTrees(ns: seq<Node>, shadowed: bool)
    ensures |EntriesAll(ns, shadowed)| == SizeAll(ns)
    decreases ns
  {
    if ns != [] {
      EntriesCoverTree(ns[0], shadowed);
      EntriesAllCoverTrees(ns[1..], shadowed);
    }
  }

  /** `m` is `n` itself or lies in the subtree of one of `n`'s children. */
  predicate Within(m: Node, n: Node)
    decreases n
  {
    m == n || exists k :: 0 <= k < |n.kids| && Within(m, n.kids[k])
  }

  /** Every node of the tree appears in the reference pre-order; `i` is its position. */
  lemma {:induction false} EntriesContainTree(m: Node, n: Node, shadowed: bool) returns (i: nat)
    requires Within(m, n)
    ensures i < |Entries(n, shadowed)| && Entries(n, shadowed)[i].node == m
    decreases n
  {
    if m == n {
      i := 0;
    } else {
      var k :| 0 <= k < |n.kids| && Within(m, n.kids[k]);
      var j := EntriesAllContainTrees(m, n.kids, k, shadowed || Violates(n));
      i := j + 1;
    }
  }

  lemma {:induction false} EntriesAllContainTrees(m: Node, ns: seq<Node>, k: nat, shadowed: bool) returns (i: nat)
    requires k < |ns| && Within(m, ns[k])
    ensures i < |EntriesAll(ns, shadowed)| && EntriesAll(ns, shadowed)[i].node == m
    decreases ns
  {
    var head := Entries(ns[0], shadowed);
    assert EntriesAll(ns, shadowed) == head + EntriesAll(ns[1..], shadowed);
    if k == 0 {
      i := EntriesContainTree(m, ns[0], shadowed);
    } else {
      var j := EntriesAllContainTrees(m, ns[1..], k - 1, shadowed);
      i := |head| + j;
    }
  }

  /** Entries of a subtree that lies beneath a violating node are all shadowed. */
  lemma {:induction false} ShadowedSubtreeSilent(n: Node)
    ensures Expected(Entries(n, true)) == []
    decreases n
  {
    ShadowedSubtreesSilent(n.kids);
    ExpectedAppend([Entry(n, true)], EntriesAll(n.kids, true));
  }

  lemma {:induction false} ShadowedSubtreesSilent(ns: seq<Node>)
    ensures Expected(EntriesAll(ns, true)) == []
    decreases ns
  {
    if ns != [] {
      ShadowedSubtreeSilent(ns[0]);
      ShadowedSubtreesSilent(ns[1..]);
      ExpectedAppend(Entries(ns[0], true), EntriesAll(ns[1..], true));
    }
  }

  /** The pruning walk emits exactly the diagnostics of the violating nodes
      that have no violating ancestor, in pre-order. */
  lemma {:induction false} WalkMatchesReference(n: Node)
    ensures Walk(n) == Expected(Entries(n, false))
    decreases n
  {
    ExpectedAppend([Entry(n, false)], EntriesAll(n.kids, Violates(n)));
    if Violates(n) {
      ShadowedSubtreesSilent(n.kids);
    } else {
      WalkAllMatchesReference(n.kids);
    }
  }

  lemma {:induction false} WalkAllMatchesReference(ns: seq<Node>)
    ensures WalkAll(ns) == Expected(EntriesAll(ns, false))
    decreases ns
  {
    if ns != [] {
      WalkMatchesReference(ns[0]);
      WalkAllMatchesReference(ns[1..]);
      ExpectedAppend(Entries(ns[0], false), EntriesAll(ns[1..], false));
    }
  }

  lemma {:induction false} ExpectedLength(es: seq<Entry>)
    ensures |Expected(es)| == CountExposedViolations(es)
  {
    if es != [] {
      ExpectedLength(es[1..]);
    }
  }

  /** One diagnostic per violating declaration that has no violating ancestor. */
  lemma ReportCount(n: Node)
    ensures |Walk(n)| == CountExposedViolations(Entries(n, false))
  {
    WalkMatchesReference(n);
    ExpectedLength(Entries(n, false));
  }

  lemma {:induction false} NoExposedViolationsNothingExpected(es: seq<Entry>)
    requires forall i :: 0 <= i < |es| ==> es[i].shadowed || !Violates(es[i].node)
    ensures Expected(es) == []
  {
    if es != [] {
      NoExposedViolationsNothingExpected(es[1..]);
    }
  }

  /** A tree in which no declaration violates the convention yields no diagnostic. */
  lemma CleanTreeSilent(n: Node)
    requires forall i :: 0 <= i < |Entries(n, false)| ==> !Violates(Entries(n, false)[i].node)
    ensures Walk(n) == []
  {
    WalkMatchesReference(n);
    NoExposedViolationsNothingExpected(Entries(n, false));
  }

  /** Below a reported node every entry is shadowed: nothing there is checked. */
  lemma {:induction false} ReportedPrunesSubtree(n: Node)
    requires Violates(n)
    ensures Walk(n) == [ReportFor(n)]
    ensures forall i :: 1 <= i < |Entries(n, false)| ==> Entries(n, false)[i].shadowed
  {
    AllShadowed(n.kids);
  }

  lemma {:induction false} AllShadowed(ns: seq<Node>)
    ensures forall i :: 0 <= i < |EntriesAll(ns, true)| ==> EntriesAll(ns, true)[i].shadowed
    decreases ns
  {
    if ns != [] {
      AllShadowedOne(ns[0]);
      AllShadowed(ns[1..]);
    }
  }

  lemma {:induction false} AllShadowedOne(n: Node)
    ensures forall i :: 0 <= i < |Entries(n, true)| ==> Entries(n, true)[i].shadowed
    decreases n
  {
    AllShadowed(n.kids);
  }

  /** A named class whose initial has a code strictly between 97 and 122
      yields exactly the class message at its name location. */
  lemma FlaggedClassReportedOnce(id: NodeId, name: Identifier, kids: seq<Node>)
    requires 97 < name[0] as int < 122
    ensures Walk(ClassDecl(id, Some(name), kids))
         == [Diagnostic(Location(NameLocation, id), "the  name of class must start with uppercase:" + name)]
  {
  }

  /** Any other named class yields nothing itself and its children are walked. */
  lemma UnflaggedClassDescends(id: NodeId, name: Identifier, kids: seq<Node>)
    requires name[0] as int <= 97 || 122 <= name[0] as int
    ensures Walk(ClassDecl(id, Some(name), kids)) == WalkAll(kids)
  {
  }

  /** A class with no name is not checked and its children are walked. */
  lemma AnonymousClassDescends(id: NodeId, kids: seq<Node>)
    ensures Walk(ClassDecl(id, None, kids)) == WalkAll(kids)
  {
  }

  /** A constructor is never reported, whatever its name, and its children are walked. */
  lemma ConstructorDescends(id: NodeId, name: Identifier, kids: seq<Node>)
    ensures Walk(MethodDecl(id, name, true, kids)) == WalkAll(kids)
  {
  }

  /** A non-constructor method whose initial has a code strictly between 65
      and 90 yields exactly the method message at the whole-method location. */
  lemma FlaggedMethodReportedOnce(id: NodeId, name: Identifier, kids: seq<Node>)
    requires 65 < name[0] as int < 90
    ensures Walk(MethodDecl(id, name, false, kids))
         == [Diagnostic(Location(WholeLocation, id), "the method must start with lowercase:" + name)]
  {
  }

  /** Any other non-constructor method yields nothing itself and its children are walked. */
  lemma UnflaggedMethodDescends(id: NodeId, name: Identifier, kids: seq<Node>)
    requires name[0] as int <= 65 || 90 <= name[0] as int
    ensures Walk(MethodDecl(id, name, false, kids)) == WalkAll(kids)
  {
  }

  /** An element that is neither a class nor a method only passes the walk on. */
  lemma OtherElementDescends(id: NodeId, kids: seq<Node>)
    ensures Walk(OtherElement(id, kids)) == WalkAll(kids)
  {
  }
}
