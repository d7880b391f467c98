/** When the blocks and stacks that `flattenInto` recurses through form a tree, a pass
    puts every block into the table once and sets every `next` once, so that with
    distinct ids each block ends with the parent, table entry and `next` its own
    position gives it (the `Unshared` condition of `FlattenFacts`).

    The builder does not make this so by itself: an expression that is not one of the
    copied kinds can be put into two sockets, and then the later row wins.  The tree
    shape is therefore stated here as a condition on the object graph, and the
    distinctness of deterministic ids is proved from the id counter. */
module FlattenTree {
  import opened Wrappers
  import opened Ordered
  import opened Ids
  import opened Graph
  import opened Flatten
  import FlattenFacts
  import Scripts

  // ---- The graph `flattenInto` walks ----

  /** An allocated block or stack. */
  ghost predicate IsNode(f: Forest, n: Child)
  {
    match n
    case Into(r) => r in f.shapes
    case IntoStack(s) => s in f.stacks
  }

  /** What `flattenInto` recurses into from a node: a block's independent socket
      expressions and nested stacks, an isolated hat's stack, a stack's elements. */
  ghost function Edges(f: Forest, n: Child): seq<Child>
    requires IsNode(f, n)
  {
    match n
    case Into(r) =>
      if f.shapes[r].kind.Isolated? then [IntoStack(f.shapes[r].kind.own)]
      else Children(f.shapes, f.stacks, f.shapes[r], true)
    case IntoStack(s) => seq(|f.stacks[s].contents|, k requires 0 <= k < |f.stacks[s].contents| => Into(f.stacks[s].contents[k]))
  }

  /** Edge `i` of node `n`: the only term the tree condition below is instantiated on. */
  ghost function EdgeAt(f: Forest, n: Child, i: nat): Child
    requires IsNode(f, n) && i < |Edges(f, n)|
  {
    Edges(f, n)[i]
  }

  /** A node's place in the ranking that witnesses the graph is acyclic. */
  ghost function Height(f: Forest, n: Child): nat
    requires Ranked(f) && IsNode(f, n)
  {
    match n
    case Into(r) => 2 * f.rank[r] + 1
    case IntoStack(s) => 2 * f.srank[s]
  }

  lemma EdgesBelow(f: Forest, n: Child)
    requires Ranked(f) && IsNode(f, n)
    ensures forall e | e in Edges(f, n) :: IsNode(f, e) && Height(f, e) < Height(f, n)
  {
    match n
    case Into(r) =>
      assert RankedBlock(f, r);
      ChildrenBelow(f, r);
    case IntoStack(s) =>
      assert RankedStack(f, s);
  }

  /** The nodes reached from `n`, `n` included. */
  ghost function Sub(f: Forest, n: Child): set<Child>
    requires Ranked(f) && IsNode(f, n)
    decreases Height(f, n)
  {
    EdgesBelow(f, n);
    {n} + (set e, m | e in Edges(f, n) && m in Sub(f, e) :: m)
  }

  /** Every node reached along at most one edge: no node lists a child twice, and no
      two nodes share a child. */
  ghost predicate Tree(f: Forest)
  {
    forall n1, n2, i, j | IsNode(f, n1) && IsNode(f, n2) && 0 <= i < |Edges(f, n1)| && 0 <= j < |Edges(f, n2)|
                          && EdgeAt(f, n1, i) == EdgeAt(f, n2, j) :: n1 == n2 && i == j
  }

  // ---- Facts about the nodes below a node ----

  /** The nodes below an edge are below its source. */
  lemma SubOf(f: Forest, n: Child, e: Child)
    requires Ranked(f) && IsNode(f, n) && e in Edges(f, n)
    ensures IsNode(f, e) && e in Sub(f, e) && Sub(f, e) <= Sub(f, n)
  {
    EdgesBelow(f, n);
  }

  /** Every node below `n` is a node no higher than `n`. */
  lemma {:induction false} SubHeight(f: Forest, n: Child)
    requires Ranked(f) && IsNode(f, n)
    ensures forall y | y in Sub(f, n) :: IsNode(f, y) && Height(f, y) <= Height(f, n)
    decreases Height(f, n)
  {
    EdgesBelow(f, n);
    forall e | e in Edges(f, n) {
      SubHeight(f, e);
    }
  }

  /** A node below `n` other than `n` is reached along an edge from a node below `n`. */
  lemma {:induction false} Up(f: Forest, n: Child, y: Child)
    requires Ranked(f) && IsNode(f, n)
    ensures y in Sub(f, n) && y != n ==>
              exists z, i | IsNode(f, z) && z in Sub(f, n) && 0 <= i < |Edges(f, z)| :: EdgeAt(f, z, i) == y
    decreases Height(f, n)
  {
    EdgesBelow(f, n);
    if y in Sub(f, n) && y != n {
      var e :| e in Edges(f, n) && y in Sub(f, e);
      SubOf(f, n, e);
      if y == e {
        var i :| 0 <= i < |Edges(f, n)| && Edges(f, n)[i] == e;
        assert EdgeAt(f, n, i) == e && n in Sub(f, n);
      } else {
        Up(f, e, y);
      }
    }
  }

  /** In a tree, a child's only way in is its parent: whatever holds an edge's target
      below it, other than the target itself, holds the edge's source. */
  lemma Parent(f: Forest, n: Child, i: nat, b: Child)
    requires Ranked(f) && Tree(f) && IsNode(f, n) && i < |Edges(f, n)| && IsNode(f, b)
    ensures EdgeAt(f, n, i) in Sub(f, b) && EdgeAt(f, n, i) != b ==> n in Sub(f, b)
  {
    Up(f, b, EdgeAt(f, n, i));
  }

  /** In a tree, two nodes with a common node below them are one below the other. */
  lemma {:induction false} Nested(f: Forest, a: Child, b: Child, y: Child)
    requires Ranked(f) && Tree(f) && IsNode(f, a) && IsNode(f, b)
    ensures y in Sub(f, a) && y in Sub(f, b) ==> a in Sub(f, b) || b in Sub(f, a)
    decreases if y in Sub(f, a) && IsNode(f, y) then Height(f, a) - Height(f, y) else 0
  {
    if y in Sub(f, a) && y in Sub(f, b) && y != a && y != b {
      Up(f, a, y);
      Up(f, b, y);
      var za, ia :| IsNode(f, za) && za in Sub(f, a) && 0 <= ia < |Edges(f, za)| && EdgeAt(f, za, ia) == y;
      var zb, ib :| IsNode(f, zb) && zb in Sub(f, b) && 0 <= ib < |Edges(f, zb)| && EdgeAt(f, zb, ib) == y;
      assert za == zb;
      SubHeight(f, a);
      EdgesBelow(f, za);
      assert Edges(f, za)[ia] in Edges(f, za);
      Nested(f, a, b, za);
    }
  }

  /** In a tree, what two different edges of a node lead to is disjoint. */
  lemma Siblings(f: Forest, n: Child, i: nat, j: nat)
    requires Ranked(f) && Tree(f) && IsNode(f, n) && i < |Edges(f, n)| && j < |Edges(f, n)| && i != j
    ensures IsNode(f, Edges(f, n)[i]) && IsNode(f, Edges(f, n)[j])
    ensures Sub(f, Edges(f, n)[i]) !! Sub(f, Edges(f, n)[j])
  {
    EdgesBelow(f, n);
    var a, b := EdgeAt(f, n, i), EdgeAt(f, n, j);
    assert a in Edges(f, n) && b in Edges(f, n);
    SubHeight(f, a);
    SubHeight(f, b);
    Parent(f, n, i, b);
    Parent(f, n, j, a);
    forall y
      ensures !(y in Sub(f, a) && y in Sub(f, b))
    {
      Nested(f, a, b, y);
    }
  }

  // ---- What the first `n` of a list of nodes hold ----

  /** The nodes below the first `n` of `es`. */
  ghost function Under(f: Forest, es: seq<Child>, n: nat): set<Child>
    requires Ranked(f) && n <= |es| && forall e | e in es :: IsNode(f, e)
  {
    if n == 0 then {} else Under(f, es, n - 1) + Sub(f, es[n - 1])
  }

  /** A node is below itself. */
  lemma SubSelf(f: Forest, n: Child)
    requires Ranked(f) && IsNode(f, n)
    ensures n in Sub(f, n)
  {
  }

  /** The last of the first `n` nodes, and what is below it, is held. */
  lemma UnderHas(f: Forest, es: seq<Child>, n: nat)
    requires Ranked(f) && 0 < n <= |es| && forall e | e in es :: IsNode(f, e)
    ensures es[n - 1] in Sub(f, es[n - 1]) && Sub(f, es[n - 1]) <= Under(f, es, n)
  {
    assert es[n - 1] in es;
    SubSelf(f, es[n - 1]);
  }

  /** A prefix holds no more than a longer prefix. */
  lemma {:induction false} UnderGrows(f: Forest, es: seq<Child>, m: nat, n: nat)
    requires Ranked(f) && m <= n <= |es| && forall e | e in es :: IsNode(f, e)
    ensures Under(f, es, m) <= Under(f, es, n)
    decreases n
  {
    if m < n {
      UnderGrows(f, es, m, n - 1);
    }
  }

  /** Below a node's edges lies only what is strictly below the node. */
  lemma {:induction false} UnderInside(f: Forest, n: Child, m: nat)
    requires Ranked(f) && IsNode(f, n) && m <= |Edges(f, n)|
    ensures forall e | e in Edges(f, n) :: IsNode(f, e)
    ensures Under(f, Edges(f, n), m) <= Sub(f, n) && n !in Under(f, Edges(f, n), m)
    decreases m
  {
    EdgesBelow(f, n);
    if m > 0 {
      var e := Edges(f, n)[m - 1];
      assert e in Edges(f, n);
      UnderInside(f, n, m - 1);
      SubOf(f, n, e);
      SubHeight(f, e);
    }
  }

  /** In a tree, the first `m` edges of a node lead apart from any later edge. */
  lemma {:induction false} UnderApart(f: Forest, n: Child, m: nat, j: nat)
    requires Ranked(f) && Tree(f) && IsNode(f, n) && m <= j < |Edges(f, n)|
    ensures forall e | e in Edges(f, n) :: IsNode(f, e)
    ensures Under(f, Edges(f, n), m) !! Sub(f, Edges(f, n)[j])
    decreases m
  {
    EdgesBelow(f, n);
    if m > 0 {
      UnderApart(f, n, m - 1, j);
      Siblings(f, n, m - 1, j);
    }
  }

  // ---- A pass over a tree repeats nothing ----

  lemma Apart<T>(a: set<T>, b: set<T>, c: set<T>, d: set<T>)
    requires a <= c && b <= d && c !! d
    ensures a !! b
  {
  }

  /** The blocks the rows put. */
  ghost function BlocksOf(rows: seq<Row>): set<Child>
  {
    set r | r in rows :: Into(r.block)
  }

  /** The blocks whose `next` the links set. */
  ghost function SourcesOf(links: seq<(Ref, Ref)>): set<Child>
  {
    set l | l in links :: Into(l.0)
  }

  /** No two rows put the same block, and no two links set the same block's `next`. */
  ghost predicate Once(tr: Trace)
  {
    && (forall i, j | 0 <= i < j < |tr.rows| :: tr.rows[i].block != tr.rows[j].block)
    && (forall i, j | 0 <= i < j < |tr.links| :: tr.links[i].0 != tr.links[j].0)
  }

  /** Two traces over disjoint blocks, each repeating nothing, repeat nothing together. */
  lemma OnceThen(a: Trace, b: Trace)
    requires Once(a) && Once(b) && BlocksOf(a.rows) !! BlocksOf(b.rows) && SourcesOf(a.links) !! SourcesOf(b.links)
    ensures Then(Some(a), Some(b)).Some? && Once(Then(Some(a), Some(b)).value)
    ensures BlocksOf(a.rows + b.rows) == BlocksOf(a.rows) + BlocksOf(b.rows)
    ensures SourcesOf(a.links + b.links) == SourcesOf(a.links) + SourcesOf(b.links)
  {
    var rs, ls := a.rows + b.rows, a.links + b.links;
    forall i, j | 0 <= i < j < |rs|
      ensures rs[i].block != rs[j].block
    {
      if i < |a.rows| <= j {
        assert rs[i] in a.rows && rs[j] in b.rows;
        assert Into(rs[i].block) in BlocksOf(a.rows) && Into(rs[j].block) in BlocksOf(b.rows);
      } else if j < |a.rows| {
        assert rs[i] == a.rows[i] && rs[j] == a.rows[j];
      } else {
        assert rs[i] == b.rows[i - |a.rows|] && rs[j] == b.rows[j - |a.rows|];
      }
    }
    forall i, j | 0 <= i < j < |ls|
      ensures ls[i].0 != ls[j].0
    {
      if i < |a.links| <= j {
        assert ls[i] in a.links && ls[j] in b.links;
        assert Into(ls[i].0) in SourcesOf(a.links) && Into(ls[j].0) in SourcesOf(b.links);
      } else if j < |a.links| {
        assert ls[i] == a.links[i] && ls[j] == a.links[j];
      } else {
        assert ls[i] == b.links[i - |a.links|] && ls[j] == b.links[j - |a.links|];
      }
    }
    forall c | c in BlocksOf(rs) ensures c in BlocksOf(a.rows) + BlocksOf(b.rows) {
      var r :| r in rs && c == Into(r.block);
      assert r in a.rows || r in b.rows;
    }
    forall c | c in SourcesOf(ls) ensures c in SourcesOf(a.links) + SourcesOf(b.links) {
      var l :| l in ls && c == Into(l.0);
      assert l in a.links || l in b.links;
    }
  }

  /** The pass from block `x` over a tree puts each block and sets each `next` at most
      once, and only for blocks below `x`; `x`'s own `next` is not among them. */
  lemma {:induction false} OnceB(f: Forest, x: Ref, p: Option<Ref>)
    requires Ranked(f) && Tree(f) && x in f.shapes && FlatB(f, x, p).Some?
    ensures Once(FlatB(f, x, p).value)
    ensures BlocksOf(FlatB(f, x, p).value.rows) <= Sub(f, Into(x))
    ensures SourcesOf(FlatB(f, x, p).value.links) <= Sub(f, Into(x)) - {Into(x)}
    decreases 2 * f.rank[x] + 1, 1, 0
  {
    if f.shapes[x].kind.Isolated? {
      OnceIsolated(f, x, p);
    } else {
      OnceNormal(f, x, p);
    }
  }

  /** An isolated hat passes on to its stack's first block. */
  lemma {:induction false} OnceIsolated(f: Forest, x: Ref, p: Option<Ref>)
    requires Ranked(f) && Tree(f) && x in f.shapes && f.shapes[x].kind.Isolated? && FlatB(f, x, p).Some?
    ensures Once(FlatB(f, x, p).value)
    ensures BlocksOf(FlatB(f, x, p).value.rows) <= Sub(f, Into(x))
    ensures SourcesOf(FlatB(f, x, p).value.links) <= Sub(f, Into(x)) - {Into(x)}
    decreases 2 * f.rank[x] + 1, 0, 0
  {
    var n := Into(x);
    var s := f.shapes[x].kind.own;
    FlatIsolated(f, x, p);
    var c := f.stacks[s].contents;
    assert RankedBlock(f, x) && RankedStack(f, s) && c[0] in c;
    OnceB(f, c[0], None);
    assert Edges(f, n) == [IntoStack(s)];
    SubOf(f, n, IntoStack(s));
    assert Edges(f, IntoStack(s))[0] == Into(c[0]);
    SubOf(f, IntoStack(s), Into(c[0]));
    EdgesBelow(f, n);
    SubHeight(f, IntoStack(s));
  }

  /** Any other block is its own row, followed by its children's passes. */
  lemma {:induction false} OnceNormal(f: Forest, x: Ref, p: Option<Ref>)
    requires Ranked(f) && Tree(f) && x in f.shapes && !f.shapes[x].kind.Isolated? && FlatB(f, x, p).Some?
    ensures Once(FlatB(f, x, p).value)
    ensures BlocksOf(FlatB(f, x, p).value.rows) <= Sub(f, Into(x))
    ensures SourcesOf(FlatB(f, x, p).value.links) <= Sub(f, Into(x)) - {Into(x)}
    decreases 2 * f.rank[x] + 1, 0, |Children(f.shapes, f.stacks, f.shapes[x], true)| + 1
  {
    var n := Into(x);
    var cs := Children(f.shapes, f.stacks, f.shapes[x], true);
    FlatNormal(f, x, p);
    assert cs == Edges(f, n);
    OnceCs(f, x, |cs|);
    UnderInside(f, n, |cs|);
    SubSelf(f, n);
    OnceHead(x, p, FlatCs(f, x, cs, |cs|).value, Under(f, Edges(f, n), |cs|));
  }

  /** A block's own row in front of a trace over blocks other than it. */
  lemma OnceHead(x: Ref, p: Option<Ref>, tr: Trace, below: set<Child>)
    requires Once(tr) && BlocksOf(tr.rows) <= below && SourcesOf(tr.links) <= below && Into(x) !in below
    ensures var t := Then(Some(Trace([Row(x, p)], [])), Some(tr)).value;
            && Once(t) && BlocksOf(t.rows) <= below + {Into(x)} && SourcesOf(t.links) <= below
  {
    var head := Trace([Row(x, p)], []);
    assert BlocksOf(head.rows) == {Into(x)};
    assert SourcesOf(head.links) == {};
    OnceThen(head, tr);
  }

  /** The children of `x` so far: each block once, all below the first `m` edges. */
  lemma {:induction false} OnceCs(f: Forest, x: Ref, m: nat)
    requires Ranked(f) && Tree(f) && x in f.shapes && !f.shapes[x].kind.Isolated?
    requires m <= |Children(f.shapes, f.stacks, f.shapes[x], true)|
    requires forall c | c in Children(f.shapes, f.stacks, f.shapes[x], true) :: Below(f, c, f.rank[x])
    requires FlatCs(f, x, Children(f.shapes, f.stacks, f.shapes[x], true), m).Some?
    ensures forall e | e in Edges(f, Into(x)) :: IsNode(f, e)
    ensures var tr := FlatCs(f, x, Children(f.shapes, f.stacks, f.shapes[x], true), m).value;
            && Once(tr)
            && BlocksOf(tr.rows) <= Under(f, Edges(f, Into(x)), m)
            && SourcesOf(tr.links) <= Under(f, Edges(f, Into(x)), m)
    decreases 2 * f.rank[x] + 1, 0, m
  {
    var cs := Children(f.shapes, f.stacks, f.shapes[x], true);
    var n := Into(x);
    EdgesBelow(f, n);
    assert cs == Edges(f, n);
    ChildrenBelow(f, x);
    if m == 0 {
      assert BlocksOf(NOTHING.rows) == {} && SourcesOf(NOTHING.links) == {};
    } else {
      var c := cs[m - 1];
      assert c in cs;
      OnceCs(f, x, m - 1);
      OnceChild(f, x, c);
      UnderApart(f, n, m - 1, m - 1);
      var a, b := FlatCs(f, x, cs, m - 1).value, FlatChild(f, x, c).value;
      Apart(BlocksOf(a.rows), BlocksOf(b.rows), Under(f, cs, m - 1), Sub(f, c));
      Apart(SourcesOf(a.links), SourcesOf(b.links), Under(f, cs, m - 1), Sub(f, c));
      OnceThen(a, b);
    }
  }

  /** One child of `x`: each block once, all below the child. */
  lemma {:induction false} OnceChild(f: Forest, x: Ref, c: Child)
    requires Ranked(f) && Tree(f) && x in f.shapes && Below(f, c, f.rank[x]) && FlatChild(f, x, c).Some?
    ensures IsNode(f, c)
    ensures Once(FlatChild(f, x, c).value)
    ensures BlocksOf(FlatChild(f, x, c).value.rows) <= Sub(f, c)
    ensures SourcesOf(FlatChild(f, x, c).value.links) <= Sub(f, c)
    decreases 2 * f.rank[x] + 1, 0, 0
  {
    match c
    case Into(r) =>
      OnceB(f, r, Some(x));
    case IntoStack(s) =>
      var k := |f.stacks[s].contents|;
      assert FlatChild(f, x, c) == FlatContents(f, s, Some(x), k);
      OnceContents(f, s, Some(x), k);
      UnderInside(f, c, k);
  }

  /** The first `m` elements of stack `s`: each block once, all below those elements,
      and the `next` of the last of them not yet set. */
  lemma {:induction false} OnceContents(f: Forest, s: StackRef, p: Option<Ref>, m: nat)
    requires Ranked(f) && Tree(f) && s in f.stacks && m <= |f.stacks[s].contents| && FlatContents(f, s, p, m).Some?
    ensures forall e | e in Edges(f, IntoStack(s)) :: IsNode(f, e)
    ensures var tr := FlatContents(f, s, p, m).value;
            && Once(tr)
            && BlocksOf(tr.rows) <= Under(f, Edges(f, IntoStack(s)), m)
            && SourcesOf(tr.links) <= Under(f, Edges(f, IntoStack(s)), m)
            && (m > 0 ==> Into(f.stacks[s].contents[m - 1]) !in SourcesOf(tr.links))
    decreases 2 * f.srank[s], 0, m
  {
    var n := IntoStack(s);
    var c := f.stacks[s].contents;
    var es := Edges(f, n);
    EdgesBelow(f, n);
    if m == 0 {
      assert BlocksOf(NOTHING.rows) == {} && SourcesOf(NOTHING.links) == {};
    } else {
      assert RankedStack(f, s) && c[m - 1] in c;
      var link := Trace([], LinkAt(f, c, m - 1));
      assert Then(Some(link), FlatB(f, c[m - 1], p)).Some?;
      OnceContents(f, s, p, m - 1);
      OnceB(f, c[m - 1], p);
      var a := FlatContents(f, s, p, m - 1).value;
      var b := FlatB(f, c[m - 1], p).value;
      assert es[m - 1] == Into(c[m - 1]);
      UnderHas(f, es, m);
      UnderApart(f, n, m - 1, m - 1);
      assert BlocksOf(link.rows) == {};
      if m >= 2 {
        assert es[m - 2] == Into(c[m - 2]);
        UnderHas(f, es, m - 1);
        Siblings(f, n, m - 2, m - 1);
        assert SourcesOf(link.links) <= {Into(c[m - 2])};
      } else {
        assert link.links == [];
      }
      OnceThen(link, b);
      OnceThen(a, Then(Some(link), Some(b)).value);
      UnderGrows(f, es, m - 1, m);
      assert FlatContents(f, s, p, m) == Then(Some(a), Then(Some(link), Some(b)));
    }
  }

  // ---- Distinct ids ----

  /** No two blocks share an id. */
  ghost predicate IdsDistinct(ids: map<Ref, string>)
  {
    forall a, b | a in ids && b in ids && a != b :: ids[a] != ids[b]
  }

  /** Every id is the spelling of a counter value below `n`. */
  ghost predicate Counted(ids: map<Ref, string>, n: nat)
  {
    forall a | a in ids :: exists k | 0 <= k < n :: ids[a] == Base62(k)
  }

  /** In deterministic mode `GetId` gives a block without an id the spelling of the
      counter, which then moves on: the ids stay distinct and counted. */
  lemma CounterIdsDistinct(ids: map<Ref, string>, n: nat, r: Ref)
    requires IdsDistinct(ids) && Counted(ids, n) && r !in ids
    ensures IdsDistinct(ids[r := Base62(n)]) && Counted(ids[r := Base62(n)], n + 1)
  {
    forall a | a in ids
      ensures ids[a] != Base62(n)
    {
      var k :| 0 <= k < n && ids[a] == Base62(k);
      Base62Injective(k, n);
    }
  }

  /** A pass whose rows and links repeat nothing, with distinct ids, is unshared. */
  lemma OnceUnshared(tr: Trace, ids: map<Ref, string>)
    requires Once(tr) && HasIds(tr.rows, ids) && IdsDistinct(ids)
    ensures FlattenFacts.Unshared(tr, ids)
  {
    forall i, j ensures FlattenFacts.RowsApart(tr.rows, ids, i, j) {
      if 0 <= i < j < |tr.rows| {
        assert tr.rows[i] in tr.rows && tr.rows[j] in tr.rows;
      }
    }
  }

  // ---- The passes over a tree are unshared ----

  /** `flattenInto(map, p)` on a block of a tree with distinct ids is unshared, and the
      `next` of the block itself is left alone. */
  lemma BlockUnshared(f: Forest, x: Ref, p: Option<Ref>, ids: map<Ref, string>)
    requires Ranked(f) && Tree(f) && x in f.shapes && FlatB(f, x, p).Some?
    requires HasIds(FlatB(f, x, p).value.rows, ids) && IdsDistinct(ids)
    ensures FlattenFacts.Unshared(FlatB(f, x, p).value, ids)
    ensures forall l | l in FlatB(f, x, p).value.links :: l.0 != x
  {
    OnceB(f, x, p);
    OnceUnshared(FlatB(f, x, p).value, ids);
    forall l | l in FlatB(f, x, p).value.links ensures l.0 != x {
      assert Into(l.0) in SourcesOf(FlatB(f, x, p).value.links);
    }
  }

  /** `BlockStack.flattenInto(map, p)` on a stack of a tree with distinct ids is
      unshared, and the `next` of its last element keeps the value it had. */
  lemma StackUnshared(f: Forest, s: StackRef, p: Option<Ref>, ids: map<Ref, string>, ns0: map<Ref, Ref>)
    requires Ranked(f) && Tree(f) && s in f.stacks && FlatS(f, s, p).Some?
    requires HasIds(FlatS(f, s, p).value.rows, ids) && IdsDistinct(ids)
    ensures FlattenFacts.Unshared(FlatS(f, s, p).value, ids)
    ensures var c := f.stacks[s].contents;
            var ns1 := Links(ns0, FlatS(f, s, p).value.links);
            |c| > 0 ==> (c[|c| - 1] in ns1 <==> c[|c| - 1] in ns0) && (c[|c| - 1] in ns0 ==> ns1[c[|c| - 1]] == ns0[c[|c| - 1]])
  {
    var c := f.stacks[s].contents;
    var tr := FlatS(f, s, p).value;
    OnceContents(f, s, p, |c|);
    OnceUnshared(tr, ids);
    if |c| > 0 {
      forall k | 0 <= k < |tr.links| ensures tr.links[k].0 != c[|c| - 1] {
        assert tr.links[k] in tr.links;
        assert Into(tr.links[k].0) in SourcesOf(tr.links);
      }
      FlattenFacts.LinksUntouched(ns0, tr.links, c[|c| - 1]);
    }
  }

  /** The hats' own stacks are roots: distinct, and no edge leads to one. */
  ghost predicate Roots(f: Forest, hats: seq<Ref>)
    requires Scripts.HatsStacked(f, hats)
  {
    && (forall i, j | 0 <= i < j < |hats| :: f.shapes[hats[i]].kind.own != f.shapes[hats[j]].kind.own)
    && (forall i, n, k | 0 <= i < |hats| && IsNode(f, n) && 0 <= k < |Edges(f, n)| :: EdgeAt(f, n, k) != IntoStack(f.shapes[hats[i]].kind.own))
  }

  /** The hats' own stacks, as nodes. */
  ghost function HatStacks(f: Forest, hats: seq<Ref>): (es: seq<Child>)
    requires Scripts.HatsStacked(f, hats)
    ensures |es| == |hats| && forall e | e in es :: IsNode(f, e)
  {
    seq(|hats|, i requires 0 <= i < |hats| => IntoStack(f.shapes[hats[i]].kind.own))
  }

  /** In a tree, what two different hats' stacks hold is disjoint. */
  lemma HatStacksApart(f: Forest, hats: seq<Ref>, i: nat, j: nat)
    requires Ranked(f) && Tree(f) && Scripts.HatsStacked(f, hats) && Roots(f, hats) && i < |hats| && j < |hats| && i != j
    ensures Sub(f, HatStacks(f, hats)[i]) !! Sub(f, HatStacks(f, hats)[j])
  {
    var es := HatStacks(f, hats);
    var a, b := es[i], es[j];
    assert a in es && b in es;
    Up(f, a, b);
    Up(f, b, a);
    forall y
      ensures !(y in Sub(f, a) && y in Sub(f, b))
    {
      Nested(f, a, b, y);
    }
  }

  /** In a tree, the first `m` hats' stacks lead apart from any later hat's stack. */
  lemma {:induction false} HatsApart(f: Forest, hats: seq<Ref>, m: nat, j: nat)
    requires Ranked(f) && Tree(f) && Scripts.HatsStacked(f, hats) && Roots(f, hats) && m <= j < |hats|
    ensures Under(f, HatStacks(f, hats), m) !! Sub(f, HatStacks(f, hats)[j])
    decreases m
  {
    if m > 0 {
      HatsApart(f, hats, m - 1, j);
      HatStacksApart(f, hats, m - 1, j);
    }
  }

  /** The first `m` hats' stacks: each block once, all below those stacks. */
  lemma {:induction false} OnceHats(f: Forest, hats: seq<Ref>, m: nat)
    requires Ranked(f) && Tree(f) && Scripts.HatsStacked(f, hats) && Roots(f, hats) && m <= |hats|
    requires Scripts.FlatHats(f, hats, m).Some?
    ensures var tr := Scripts.FlatHats(f, hats, m).value;
            Once(tr) && BlocksOf(tr.rows) <= Under(f, HatStacks(f, hats), m) && SourcesOf(tr.links) <= Under(f, HatStacks(f, hats), m)
    decreases m
  {
    var es := HatStacks(f, hats);
    if m == 0 {
      assert BlocksOf(NOTHING.rows) == {} && SourcesOf(NOTHING.links) == {};
    } else {
      var s := f.shapes[hats[m - 1]].kind.own;
      OnceHats(f, hats, m - 1);
      OnceContents(f, s, None, |f.stacks[s].contents|);
      UnderInside(f, IntoStack(s), |f.stacks[s].contents|);
      assert es[m - 1] == IntoStack(s);
      HatsApart(f, hats, m - 1, m - 1);
      OnceThen(Scripts.FlatHats(f, hats, m - 1).value, FlatS(f, s, None).value);
    }
  }

  /** The pass over all the hats' stacks of a tree with distinct ids is unshared. */
  lemma HatsUnshared(f: Forest, hats: seq<Ref>, ids: map<Ref, string>)
    requires Ranked(f) && Tree(f) && Scripts.HatsStacked(f, hats) && Roots(f, hats)
    requires Scripts.FlatHats(f, hats, |hats|).Some? && HasIds(Scripts.FlatHats(f, hats, |hats|).value.rows, ids) && IdsDistinct(ids)
    ensures FlattenFacts.Unshared(Scripts.FlatHats(f, hats, |hats|).value, ids)
  {
    OnceHats(f, hats, |hats|);
    OnceUnshared(Scripts.FlatHats(f, hats, |hats|).value, ids);
  }
}
