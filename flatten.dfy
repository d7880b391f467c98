/** `flattenInto` (Blocks.kt, Build.kt): the pass that turns the object graph into the
    id-keyed block table.  A block records its parent's id, puts itself into the shared
    table under its own id, and recurses into its independent expressions and nested
    stacks; a stack links each element to the following one through `next`.

    The effect of a pass is specified by a `Trace` (the table rows in the order they
    are put, each with the block whose id becomes the row's `parent`, and the `next`
    assignments in the order they are made), computed by ghost functions over the
    unchanged shapes and stacks; the methods are proved to apply exactly that trace. */
module Flatten {
  import opened Wrappers
  import opened Ordered
  import opened Ids
  import opened Graph

  /** Something `flattenInto` recurses into: an expression or a nested stack. */
  datatype Child = Into(r: Ref) | IntoStack(s: StackRef)

  /** The expression in one socket, when present (and independent, if `indep`). */
  function ExprChild(shapes: map<Ref, Shape>, v: Option<Ref>, indep: bool): seq<Child>
  {
    if v.Some? && v.value in shapes && (!indep || Independent(shapes[v.value].kind)) then [Into(v.value)] else []
  }

  function SocketChildren(shapes: map<Ref, Shape>, m: Entries<Option<Ref>>, indep: bool): seq<Child>
  {
    if m == [] then [] else ExprChild(shapes, m[0].1, indep) + SocketChildren(shapes, m[1..], indep)
  }

  function PairChildren(shapes: map<Ref, Shape>, m: Entries<(Ref, Option<Ref>)>, indep: bool): seq<Child>
  {
    if m == [] then []
    else ExprChild(shapes, Some(m[0].1.0), indep) + ExprChild(shapes, m[0].1.1, indep) + PairChildren(shapes, m[1..], indep)
  }

  function StackChildren(stacks: map<StackRef, Stack>, m: Entries<Option<StackRef>>): seq<Child>
  {
    if m == [] then []
    else (if m[0].1.Some? && m[0].1.value in stacks then [IntoStack(m[0].1.value)] else []) + StackChildren(stacks, m[1..])
  }

  /** The non-null entries of the three socket maps, in the order the three `forEach`
      loops visit them; with `indep`, only the expressions whose `independent` is true. */
  function Children(shapes: map<Ref, Shape>, stacks: map<StackRef, Stack>, sh: Shape, indep: bool): seq<Child>
  {
    SocketChildren(shapes, sh.shadowless, indep) + PairChildren(shapes, sh.paired, indep) + StackChildren(stacks, sh.nested)
  }

  /** The object graph together with a ranking that witnesses it is acyclic. */
  datatype Forest = Forest(shapes: map<Ref, Shape>, stacks: map<StackRef, Stack>, rank: map<Ref, nat>, srank: map<StackRef, nat>)

  ghost predicate Below(f: Forest, c: Child, n: nat)
  {
    match c
    case Into(r) => r in f.shapes && r in f.rank && f.rank[r] < n
    case IntoStack(s) => s in f.stacks && s in f.srank && f.srank[s] < n
  }

  /** Every socket and nested stack of block `x`, and the stack an isolated hat stands
      for, rank below `x`. */
  ghost predicate RankedBlock(f: Forest, x: Ref)
    requires x in f.shapes && x in f.rank
  {
    && (forall c | c in Children(f.shapes, f.stacks, f.shapes[x], false) :: Below(f, c, f.rank[x]))
    && (f.shapes[x].kind.Isolated? ==>
          f.shapes[x].kind.own in f.stacks && f.shapes[x].kind.own in f.srank && f.srank[f.shapes[x].kind.own] < f.rank[x])
  }

  /** Every block of stack `s` ranks below `s`. */
  ghost predicate RankedStack(f: Forest, s: StackRef)
    requires s in f.stacks && s in f.srank
  {
    forall y | y in f.stacks[s].contents :: y in f.shapes && y in f.rank && f.rank[y] < f.srank[s]
  }

  /** A ranking of every object and stack that witnesses the graph is acyclic; the
      source recurses without bound on a graph that has none. */
  ghost predicate Ranked(f: Forest)
  {
    && (forall x | x in f.shapes :: x in f.rank)
    && (forall s | s in f.stacks :: s in f.srank)
    && (forall x {:trigger RankedBlock(f, x)} | x in f.shapes :: RankedBlock(f, x))
    && (forall s {:trigger RankedStack(f, s)} | s in f.stacks :: RankedStack(f, s))
  }

  lemma {:induction false} ExprChildSub(shapes: map<Ref, Shape>, v: Option<Ref>)
    ensures forall c | c in ExprChild(shapes, v, true) :: c in ExprChild(shapes, v, false)
  {
  }

  lemma {:induction false} SocketChildrenSub(shapes: map<Ref, Shape>, m: Entries<Option<Ref>>)
    ensures forall c | c in SocketChildren(shapes, m, true) :: c in SocketChildren(shapes, m, false)
    decreases |m|
  {
    if m != [] {
      ExprChildSub(shapes, m[0].1);
      SocketChildrenSub(shapes, m[1..]);
    }
  }

  lemma {:induction false} PairChildrenSub(shapes: map<Ref, Shape>, m: Entries<(Ref, Option<Ref>)>)
    ensures forall c | c in PairChildren(shapes, m, true) :: c in PairChildren(shapes, m, false)
    decreases |m|
  {
    if m != [] {
      ExprChildSub(shapes, Some(m[0].1.0));
      ExprChildSub(shapes, m[0].1.1);
      PairChildrenSub(shapes, m[1..]);
    }
  }

  /** What `flattenInto` recurses into is among the block's sockets and stacks. */
  lemma ChildrenSub(shapes: map<Ref, Shape>, stacks: map<StackRef, Stack>, sh: Shape)
    ensures forall c | c in Children(shapes, stacks, sh, true) :: c in Children(shapes, stacks, sh, false)
  {
    SocketChildrenSub(shapes, sh.shadowless);
    PairChildrenSub(shapes, sh.paired);
  }

  lemma ChildrenBelow(f: Forest, x: Ref)
    requires Ranked(f) && x in f.shapes
    ensures forall c | c in Children(f.shapes, f.stacks, f.shapes[x], true) :: Below(f, c, f.rank[x])
  {
    assert RankedBlock(f, x);
    ChildrenSub(f.shapes, f.stacks, f.shapes[x]);
  }

  /** A socket entry enters the recursion exactly when it is non-null and independent. */
  lemma {:induction false} SocketChildrenExact(shapes: map<Ref, Shape>, m: Entries<Option<Ref>>)
    requires forall v | v in Values(m) && v.Some? :: v.value in shapes
    ensures forall r :: Into(r) in SocketChildren(shapes, m, true) <==> Some(r) in Values(m) && Independent(shapes[r].kind)
    ensures forall c | c in SocketChildren(shapes, m, true) :: c.Into?
    decreases |m|
  {
    if m != [] {
      assert forall v | v in Values(m[1..]) :: v in Values(m) by {
        forall v | v in Values(m[1..]) ensures v in Values(m) { var i :| 0 <= i < |m[1..]| && m[1..][i].1 == v; assert m[i + 1].1 == v; }
      }
      SocketChildrenExact(shapes, m[1..]);
      assert Values(m) == {m[0].1} + Values(m[1..]) by {
        forall v | v in Values(m) ensures v == m[0].1 || v in Values(m[1..]) {
          var i :| 0 <= i < |m| && m[i].1 == v;
          if i > 0 { assert m[1..][i - 1].1 == v; }
        }
      }
    }
  }

  /** A VLB or a literal is never independent, so the pass never recurses into one:
      declarations and literal shadows are inlined and never become table rows. */
  lemma {:induction false} ChildrenIndependent(shapes: map<Ref, Shape>, stacks: map<StackRef, Stack>, sh: Shape)
    ensures forall c | c in Children(shapes, stacks, sh, true) && c.Into? ::
              c.r in shapes && Independent(shapes[c.r].kind) && !shapes[c.r].kind.DeclK? && !shapes[c.r].kind.LiteralK?
  {
    IndependentSockets(shapes, sh.shadowless);
    IndependentPairs(shapes, sh.paired);
    NoExprInStacks(stacks, sh.nested);
  }

  lemma {:induction false} IndependentSockets(shapes: map<Ref, Shape>, m: Entries<Option<Ref>>)
    ensures forall c | c in SocketChildren(shapes, m, true) :: c.Into? && c.r in shapes && Independent(shapes[c.r].kind)
    decreases |m|
  {
    if m != [] {
      IndependentSockets(shapes, m[1..]);
    }
  }

  lemma {:induction false} IndependentPairs(shapes: map<Ref, Shape>, m: Entries<(Ref, Option<Ref>)>)
    ensures forall c | c in PairChildren(shapes, m, true) :: c.Into? && c.r in shapes && Independent(shapes[c.r].kind)
    decreases |m|
  {
    if m != [] {
      IndependentPairs(shapes, m[1..]);
    }
  }

  lemma {:induction false} NoExprInStacks(stacks: map<StackRef, Stack>, m: Entries<Option<StackRef>>)
    ensures forall c | c in StackChildren(stacks, m) :: c.IntoStack?
    decreases |m|
  {
    if m != [] {
      NoExprInStacks(stacks, m[1..]);
    }
  }

  /** One table row: a block, and the block whose id becomes its `parent` (none: null). */
  datatype Row = Row(block: Ref, parent: Option<Ref>)

  /** The effect of a pass: rows put into the table and `next` links set, in order. */
  datatype Trace = Trace(rows: seq<Row>, links: seq<(Ref, Ref)>)

  const NOTHING: Trace := Trace([], [])

  /** Sequencing: an exception in either part is an exception of the whole. */
  function Then(a: Option<Trace>, b: Option<Trace>): (t: Option<Trace>)
    ensures t.Some? <==> a.Some? && b.Some?
  {
    if a.Some? && b.Some? then Some(Trace(a.value.rows + b.value.rows, a.value.links + b.value.links)) else None
  }

  /** `previous?.next = it`: nothing for the first element, and nothing when the previous
      element is an isolated hat, whose `next` setter ignores its argument. */
  ghost function LinkAt(f: Forest, c: seq<Ref>, i: nat): seq<(Ref, Ref)>
    requires i < |c|
  {
    if i > 0 && c[i - 1] in f.shapes && !f.shapes[c[i - 1]].kind.Isolated? then [(c[i - 1], c[i])] else []
  }

  /** The trace of `flattenInto(map, p)` on block `x`: an isolated hat flattens its first
      block with a null parent (and throws when its stack is empty); any other block
      is a row under `p`, followed by the traces of its children under itself. */
  ghost function FlatB(f: Forest, x: Ref, p: Option<Ref>): Option<Trace>
    requires Ranked(f) && x in f.shapes
    decreases 2 * f.rank[x] + 1, 1, 0
  {
    assert RankedBlock(f, x);
    if f.shapes[x].kind.Isolated? then
      var c := f.stacks[f.shapes[x].kind.own].contents;
      assert RankedStack(f, f.shapes[x].kind.own);
      if |c| == 0 then None else FlatB(f, c[0], None)
    else
      var cs := Children(f.shapes, f.stacks, f.shapes[x], true);
      ChildrenBelow(f, x);
      Then(Some(Trace([Row(x, p)], [])), FlatCs(f, x, cs, |cs|))
  }

  /** The traces of the first `n` children of `x`, flattened under `x`. */
  ghost function FlatCs(f: Forest, x: Ref, cs: seq<Child>, n: nat): Option<Trace>
    requires Ranked(f) && x in f.shapes && n <= |cs|
    requires forall c | c in cs :: Below(f, c, f.rank[x])
    decreases 2 * f.rank[x] + 1, 0, n
  {
    if n == 0 then Some(NOTHING)
    else
      assert cs[n - 1] in cs;
      Then(FlatCs(f, x, cs, n - 1), FlatChild(f, x, cs[n - 1]))
  }

  /** The trace of one child of `x`, flattened with `x`'s id as parent. */
  ghost function FlatChild(f: Forest, x: Ref, c: Child): Option<Trace>
    requires Ranked(f) && x in f.shapes && Below(f, c, f.rank[x])
    decreases 2 * f.rank[x] + 1, 0, 0
  {
    match c
    case Into(r) => FlatB(f, r, Some(x))
    case IntoStack(s) => FlatS(f, s, Some(x))
  }

  /** The trace of `BlockStack.flattenInto(map, p)`. */
  ghost function FlatS(f: Forest, s: StackRef, p: Option<Ref>): Option<Trace>
    requires Ranked(f) && s in f.stacks
    decreases 2 * f.srank[s], 1, 0
  {
    FlatContents(f, s, p, |f.stacks[s].contents|)
  }

  /** The trace of the first `n` iterations of the stack's loop. */
  ghost function FlatContents(f: Forest, s: StackRef, p: Option<Ref>, n: nat): Option<Trace>
    requires Ranked(f) && s in f.stacks && n <= |f.stacks[s].contents|
    decreases 2 * f.srank[s], 0, n
  {
    var c := f.stacks[s].contents;
    if n == 0 then Some(NOTHING)
    else
      assert c[n - 1] in c && RankedStack(f, s);
      Then(FlatContents(f, s, p, n - 1), Then(Some(Trace([], LinkAt(f, c, n - 1))), FlatB(f, c[n - 1], p)))
  }

  /** Once a prefix of the children throws, so does every longer prefix. */
  lemma {:induction false} FlatCsFails(f: Forest, x: Ref, cs: seq<Child>, i: nat, n: nat)
    requires Ranked(f) && x in f.shapes && i <= n <= |cs|
    requires forall c | c in cs :: Below(f, c, f.rank[x])
    requires FlatCs(f, x, cs, i).None?
    ensures FlatCs(f, x, cs, n).None?
    decreases n
  {
    if n > i {
      FlatCsFails(f, x, cs, i, n - 1);
    }
  }

  lemma {:induction false} FlatContentsFails(f: Forest, s: StackRef, p: Option<Ref>, i: nat, n: nat)
    requires Ranked(f) && s in f.stacks && i <= n <= |f.stacks[s].contents|
    requires FlatContents(f, s, p, i).None?
    ensures FlatContents(f, s, p, n).None?
    decreases n
  {
    if n > i {
      FlatContentsFails(f, s, p, i, n - 1);
    }
  }

  // ---- Applying a trace to the state ----

  /** Every row's block and parent has an id. */
  ghost predicate HasIds(rows: seq<Row>, ids: map<Ref, string>)
  {
    forall r | r in rows :: r.block in ids && (r.parent.Some? ==> r.parent.value in ids)
  }

  /** Ids are only ever added, never changed, by the pass. */
  ghost predicate IdsGrow(ids: map<Ref, string>, ids': map<Ref, string>)
  {
    forall x | x in ids :: x in ids' && ids'[x] == ids[x]
  }

  /** The `parent` string a row sets: the id of its parent block, or null. */
  ghost function ParentId(p: Option<Ref>, ids: map<Ref, string>): Option<string>
    requires p.Some? ==> p.value in ids
  {
    if p.Some? then Some(ids[p.value]) else None
  }

  /** The table after `map[id] = this` for each row in turn. */
  ghost function Table(t: Entries<Ref>, rows: seq<Row>, ids: map<Ref, string>): Entries<Ref>
    requires HasIds(rows, ids)
    decreases |rows|
  {
    if rows == [] then t
    else
      assert rows[0] in rows;
      Table(Put(t, ids[rows[0].block], rows[0].block), rows[1..], ids)
  }

  /** The `parent` fields after `parent = parentId` for each row in turn. */
  ghost function Parents(ps: map<Ref, Option<string>>, rows: seq<Row>, ids: map<Ref, string>): map<Ref, Option<string>>
    requires HasIds(rows, ids)
    decreases |rows|
  {
    if rows == [] then ps
    else
      assert rows[0] in rows;
      Parents(ps[rows[0].block := ParentId(rows[0].parent, ids)], rows[1..], ids)
  }

  /** The `next` fields after each link in turn. */
  ghost function Links(ns: map<Ref, Ref>, links: seq<(Ref, Ref)>): map<Ref, Ref>
    decreases |links|
  {
    if links == [] then ns else Links(ns[links[0].0 := links[0].1], links[1..])
  }

  /** The state `(t1, ps1, ns1)` is the state `(t0, ps0, ns0)` with the trace applied. */
  ghost predicate Applied(tr: Trace, t0: Entries<Ref>, t1: Entries<Ref>, ps0: map<Ref, Option<string>>, ps1: map<Ref, Option<string>>,
                          ns0: map<Ref, Ref>, ns1: map<Ref, Ref>, ids: map<Ref, string>)
  {
    && HasIds(tr.rows, ids)
    && t1 == Table(t0, tr.rows, ids)
    && ps1 == Parents(ps0, tr.rows, ids)
    && ns1 == Links(ns0, tr.links)
  }

  lemma HasIdsCat(a: seq<Row>, b: seq<Row>, ids: map<Ref, string>)
    requires HasIds(a, ids) && HasIds(b, ids)
    ensures HasIds(a + b, ids)
  {
    forall r | r in a + b
      ensures r.block in ids && (r.parent.Some? ==> r.parent.value in ids)
    {
      assert r in a || r in b;
    }
  }

  lemma {:induction false} TableCat(t: Entries<Ref>, a: seq<Row>, b: seq<Row>, ids: map<Ref, string>)
    requires HasIds(a, ids) && HasIds(b, ids) && HasIds(a + b, ids)
    ensures Table(t, a + b, ids) == Table(Table(t, a, ids), b, ids)
    decreases |a|
  {
    if a != [] {
      assert (a + b)[0] == a[0] && (a + b)[1..] == a[1..] + b;
      assert a[0] in a;
      TableCat(Put(t, ids[a[0].block], a[0].block), a[1..], b, ids);
    } else {
      assert a + b == b;
    }
  }

  lemma {:induction false} ParentsCat(ps: map<Ref, Option<string>>, a: seq<Row>, b: seq<Row>, ids: map<Ref, string>)
    requires HasIds(a, ids) && HasIds(b, ids) && HasIds(a + b, ids)
    ensures Parents(ps, a + b, ids) == Parents(Parents(ps, a, ids), b, ids)
    decreases |a|
  {
    if a != [] {
      assert (a + b)[0] == a[0] && (a + b)[1..] == a[1..] + b;
      assert a[0] in a;
      ParentsCat(ps[a[0].block := ParentId(a[0].parent, ids)], a[1..], b, ids);
    } else {
      assert a + b == b;
    }
  }

  lemma {:induction false} LinksCat(ns: map<Ref, Ref>, a: seq<(Ref, Ref)>, b: seq<(Ref, Ref)>)
    ensures Links(ns, a + b) == Links(Links(ns, a), b)
    decreases |a|
  {
    if a != [] {
      assert (a + b)[0] == a[0] && (a + b)[1..] == a[1..] + b;
      LinksCat(ns[a[0].0 := a[0].1], a[1..], b);
    } else {
      assert a + b == b;
    }
  }

  /** Ids added later do not change what earlier rows did. */
  lemma {:induction false} RowsStable(t: Entries<Ref>, ps: map<Ref, Option<string>>, rows: seq<Row>, ids: map<Ref, string>, ids': map<Ref, string>)
    requires HasIds(rows, ids) && IdsGrow(ids, ids')
    ensures HasIds(rows, ids')
    ensures Table(t, rows, ids') == Table(t, rows, ids)
    ensures Parents(ps, rows, ids') == Parents(ps, rows, ids)
    decreases |rows|
  {
    if rows != [] {
      assert rows[0] in rows;
      RowsStable(Put(t, ids[rows[0].block], rows[0].block), ps[rows[0].block := ParentId(rows[0].parent, ids)], rows[1..], ids, ids');
    }
  }

  /** The row a block puts for itself. */
  lemma HeadApplied(x: Ref, p: Option<Ref>, t0: Entries<Ref>, ps0: map<Ref, Option<string>>, ns0: map<Ref, Ref>,
                    ids0: map<Ref, string>, ids1: map<Ref, string>)
    requires (p.Some? ==> p.value in ids0) && IdsGrow(ids0, ids1) && x in ids1
    ensures Applied(Trace([Row(x, p)], []), t0, Put(t0, ids1[x], x), ps0, ps0[x := ParentId(p, ids0)], ns0, ns0, ids1)
  {
    assert [Row(x, p)][1..] == [];
    assert ParentId(p, ids1) == ParentId(p, ids0);
    LinkOne(ns0, x, x);
  }

  lemma LinkOne(ns: map<Ref, Ref>, a: Ref, b: Ref)
    ensures Links(ns, [(a, b)]) == ns[a := b] && Links(ns, []) == ns
  {
    assert [(a, b)][1..] == [];
  }

  /** Applying two traces in turn applies their concatenation. */
  lemma AppliedThen(a: Trace, b: Trace, t0: Entries<Ref>, t1: Entries<Ref>, t2: Entries<Ref>,
                    ps0: map<Ref, Option<string>>, ps1: map<Ref, Option<string>>, ps2: map<Ref, Option<string>>,
                    ns0: map<Ref, Ref>, ns1: map<Ref, Ref>, ns2: map<Ref, Ref>, ids1: map<Ref, string>, ids2: map<Ref, string>)
    requires Applied(a, t0, t1, ps0, ps1, ns0, ns1, ids1) && IdsGrow(ids1, ids2)
    requires Applied(b, t1, t2, ps1, ps2, ns1, ns2, ids2)
    ensures Applied(Then(Some(a), Some(b)).value, t0, t2, ps0, ps2, ns0, ns2, ids2)
  {
    RowsStable(t0, ps0, a.rows, ids1, ids2);
    HasIdsCat(a.rows, b.rows, ids2);
    TableCat(t0, a.rows, b.rows, ids2);
    ParentsCat(ps0, a.rows, b.rows, ids2);
    LinksCat(ns0, a.links, b.links);
  }

  /** Sequencing is associative. */
  lemma ThenAssoc(a: Option<Trace>, b: Option<Trace>, c: Option<Trace>)
    ensures Then(a, Then(b, c)) == Then(Then(a, b), c)
  {
    if a.Some? && b.Some? && c.Some? {
      assert a.value.rows + (b.value.rows + c.value.rows) == (a.value.rows + b.value.rows) + c.value.rows;
      assert a.value.links + (b.value.links + c.value.links) == (a.value.links + b.value.links) + c.value.links;
    }
  }

  /** Nothing applied changes nothing. */
  lemma AppliedNothing(t: Entries<Ref>, ps: map<Ref, Option<string>>, ns: map<Ref, Ref>, ids: map<Ref, string>)
    ensures Applied(NOTHING, t, t, ps, ps, ns, ns, ids)
  {
    assert Parents(ps, [], ids) == ps;
  }

  /** The loop over a block's children keeps its invariant. */
  lemma ChildStep(f: Forest, x: Ref, cs: seq<Child>, i: nat, t0: Entries<Ref>, t1: Entries<Ref>, t2: Entries<Ref>,
                  ps0: map<Ref, Option<string>>, ps1: map<Ref, Option<string>>, ps2: map<Ref, Option<string>>,
                  ns0: map<Ref, Ref>, ns1: map<Ref, Ref>, ns2: map<Ref, Ref>, ids1: map<Ref, string>, ids2: map<Ref, string>)
    requires Ranked(f) && x in f.shapes && i < |cs| && forall c | c in cs :: Below(f, c, f.rank[x])
    requires FlatCs(f, x, cs, i).Some? && Applied(FlatCs(f, x, cs, i).value, t0, t1, ps0, ps1, ns0, ns1, ids1)
    requires IdsGrow(ids1, ids2) && cs[i] in cs
    requires FlatChild(f, x, cs[i]).Some? && Applied(FlatChild(f, x, cs[i]).value, t1, t2, ps1, ps2, ns1, ns2, ids2)
    ensures FlatCs(f, x, cs, i + 1).Some?
    ensures Applied(FlatCs(f, x, cs, i + 1).value, t0, t2, ps0, ps2, ns0, ns2, ids2)
  {
    AppliedThen(FlatCs(f, x, cs, i).value, FlatChild(f, x, cs[i]).value, t0, t1, t2, ps0, ps1, ps2, ns0, ns1, ns2, ids1, ids2);
  }

  /** The loop over a stack's elements keeps its invariant. */
  lemma ElementStep(f: Forest, s: StackRef, p: Option<Ref>, c: seq<Ref>, i: nat, t0: Entries<Ref>, t1: Entries<Ref>, t2: Entries<Ref>,
                    ps0: map<Ref, Option<string>>, ps1: map<Ref, Option<string>>, ps2: map<Ref, Option<string>>,
                    ns0: map<Ref, Ref>, ns1: map<Ref, Ref>, ns2: map<Ref, Ref>, ns3: map<Ref, Ref>, ids1: map<Ref, string>, ids2: map<Ref, string>)
    requires Ranked(f) && s in f.stacks && c == f.stacks[s].contents && i < |c|
    requires FlatContents(f, s, p, i).Some? && Applied(FlatContents(f, s, p, i).value, t0, t1, ps0, ps1, ns0, ns1, ids1)
    requires c[i] in f.shapes
    requires ns2 == Links(ns1, LinkAt(f, c, i)) && IdsGrow(ids1, ids2)
    requires FlatB(f, c[i], p).Some?
    requires Applied(FlatB(f, c[i], p).value, t1, t2, ps1, ps2, ns2, ns3, ids2)
    ensures FlatContents(f, s, p, i + 1).Some?
    ensures Applied(FlatContents(f, s, p, i + 1).value, t0, t2, ps0, ps2, ns0, ns3, ids2)
  {
    var link := Trace([], LinkAt(f, c, i));
    assert Applied(link, t1, t1, ps1, ps1, ns1, ns2, ids1) by {
      assert Parents(ps1, [], ids1) == ps1;
    }
    AppliedThen(FlatContents(f, s, p, i).value, link, t0, t1, t1, ps0, ps1, ps1, ns0, ns1, ns2, ids1, ids1);
    AppliedThen(Then(FlatContents(f, s, p, i), Some(link)).value, FlatB(f, c[i], p).value, t0, t1, t2, ps0, ps1, ps2, ns0, ns2, ns3, ids1, ids2);
    ThenAssoc(FlatContents(f, s, p, i), Some(link), FlatB(f, c[i], p));
  }

  /** How `FlatB` unfolds for a block that is not an isolated hat. */
  lemma FlatNormal(f: Forest, x: Ref, p: Option<Ref>)
    requires Ranked(f) && x in f.shapes && !f.shapes[x].kind.Isolated?
    ensures forall c | c in Children(f.shapes, f.stacks, f.shapes[x], true) :: Below(f, c, f.rank[x])
    ensures FlatB(f, x, p)
         == Then(Some(Trace([Row(x, p)], [])), FlatCs(f, x, Children(f.shapes, f.stacks, f.shapes[x], true), |Children(f.shapes, f.stacks, f.shapes[x], true)|))
  {
    ChildrenBelow(f, x);
  }

  /** How `FlatB` unfolds for an isolated hat. */
  lemma FlatIsolated(f: Forest, x: Ref, p: Option<Ref>)
    requires Ranked(f) && x in f.shapes && f.shapes[x].kind.Isolated?
    ensures f.shapes[x].kind.own in f.stacks
    ensures forall y | y in f.stacks[f.shapes[x].kind.own].contents :: y in f.shapes
    ensures var c := f.stacks[f.shapes[x].kind.own].contents;
            FlatB(f, x, p) == if |c| == 0 then None else FlatB(f, c[0], None)
  {
    assert RankedBlock(f, x) && RankedStack(f, f.shapes[x].kind.own);
  }

  /** `flattenInto(map, p)` on any block: the isolated hat's override, or `NormalBlock`'s. */
  method FlattenBlock(g: Graph, x: Ref, p: Option<Ref>, table: Entries<Ref>, ghost f: Forest) returns (table': Entries<Ref>, o: Outcome)
    requires NextsIn(g.nexts, g.shapes) && x in g.shapes && f.shapes == g.shapes && f.stacks == g.stacks && Ranked(f)
    requires p.Some? ==> p.value in g.ids
    modifies g`parents, g`nexts, g`ids, g.gen
    ensures NextsIn(g.nexts, g.shapes) && IdsGrow(old(g.ids), g.ids) && g.gen.isModifying == old(g.gen.isModifying)
    ensures o.Pass? <==> FlatB(f, x, p).Some?
    ensures o.Fail? ==> o.error.IllegalState?
    ensures o.Pass? ==> Applied(FlatB(f, x, p).value, table, table', old(g.parents), g.parents, old(g.nexts), g.nexts, g.ids)
    decreases 2 * f.rank[x] + 1, 2
  {
    if g.shapes[x].kind.Isolated? {
      table', o := FlattenIsolated(g, x, p, table, f);
    } else {
      table', o := FlattenNormal(g, x, p, table, f);
    }
  }

  /** `IsolatedBlockStackHat.flattenInto`: flattens the first block of its stack with a
      null parent, and throws when the stack is empty. */
  method FlattenIsolated(g: Graph, x: Ref, p: Option<Ref>, table: Entries<Ref>, ghost f: Forest) returns (table': Entries<Ref>, o: Outcome)
    requires NextsIn(g.nexts, g.shapes) && x in g.shapes && f.shapes == g.shapes && f.stacks == g.stacks && Ranked(f)
    requires g.shapes[x].kind.Isolated?
    modifies g`parents, g`nexts, g`ids, g.gen
    ensures NextsIn(g.nexts, g.shapes) && IdsGrow(old(g.ids), g.ids) && g.gen.isModifying == old(g.gen.isModifying)
    ensures o.Pass? <==> FlatB(f, x, p).Some?
    ensures o.Fail? ==> o.error.IllegalState?
    ensures o.Pass? ==> Applied(FlatB(f, x, p).value, table, table', old(g.parents), g.parents, old(g.nexts), g.nexts, g.ids)
    decreases 2 * f.rank[x] + 1, 1
  {
    FlatIsolated(f, x, p);
    assert RankedBlock(f, x);
    var c := g.stacks[g.shapes[x].kind.own].contents;
    if |c| == 0 {
      table' := table;
      o := Fail(IllegalState("You need to add blocks to the BlockStack before doing that."));
      return;
    }
    assert RankedStack(f, g.shapes[x].kind.own) && c[0] in c;
    table', o := FlattenBlock(g, c[0], None, table, f);
  }

  /** `NormalBlock.flattenInto`: `parent = parentId`, `map[id] = this`, then every
      independent expression and every nested stack, flattened under this block's id. */
  method FlattenNormal(g: Graph, x: Ref, p: Option<Ref>, table: Entries<Ref>, ghost f: Forest) returns (table': Entries<Ref>, o: Outcome)
    requires NextsIn(g.nexts, g.shapes) && x in g.shapes && f.shapes == g.shapes && f.stacks == g.stacks && Ranked(f)
    requires !g.shapes[x].kind.Isolated? && (p.Some? ==> p.value in g.ids)
    modifies g`parents, g`nexts, g`ids, g.gen
    ensures NextsIn(g.nexts, g.shapes) && IdsGrow(old(g.ids), g.ids) && g.gen.isModifying == old(g.gen.isModifying)
    ensures o.Pass? <==> FlatB(f, x, p).Some?
    ensures o.Fail? ==> o.error.IllegalState?
    ensures o.Pass? ==> Applied(FlatB(f, x, p).value, table, table', old(g.parents), g.parents, old(g.nexts), g.nexts, g.ids)
    decreases 2 * f.rank[x] + 1, 1
  {
    ghost var ps0, ns0 := g.parents, g.nexts;
    var t1 := PutSelf(g, x, p, table);
    ghost var head := Trace([Row(x, p)], []);
    ghost var ps1, ns1, ids1 := g.parents, g.nexts, g.ids;
    var cs := Children(g.shapes, g.stacks, g.shapes[x], true);
    FlatNormal(f, x, p);
    table', o := FlattenChildren(g, x, cs, t1, f);
    if o.Pass? {
      AppliedThen(head, FlatCs(f, x, cs, |cs|).value, table, t1, table', ps0, ps1, g.parents, ns0, ns1, g.nexts, ids1, g.ids);
    }
  }

  /** `parent = parentId` and `map[id] = this`: the block's own row. */
  method PutSelf(g: Graph, x: Ref, p: Option<Ref>, table: Entries<Ref>) returns (table': Entries<Ref>)
    requires x in g.shapes && (p.Some? ==> p.value in g.ids)
    modifies g`parents, g`ids, g.gen
    ensures IdsGrow(old(g.ids), g.ids) && x in g.ids && g.gen.isModifying == old(g.gen.isModifying)
    ensures Applied(Trace([Row(x, p)], []), table, table', old(g.parents), g.parents, g.nexts, g.nexts, g.ids)
  {
    ghost var ps0, ids0 := g.parents, g.ids;
    g.SetParent(x, if p.Some? then Some(g.ids[p.value]) else None);
    var id := g.GetId(x);
    table' := Put(table, id, x);
    HeadApplied(x, p, table, ps0, g.nexts, ids0, g.ids);
  }

  /** The three `forEach` loops of `NormalBlock.flattenInto`, over the children in order. */
  method FlattenChildren(g: Graph, x: Ref, cs: seq<Child>, table: Entries<Ref>, ghost f: Forest) returns (table': Entries<Ref>, o: Outcome)
    requires NextsIn(g.nexts, g.shapes) && x in g.shapes && f.shapes == g.shapes && f.stacks == g.stacks && Ranked(f)
    requires x in g.ids && forall c | c in cs :: Below(f, c, f.rank[x])
    modifies g`parents, g`nexts, g`ids, g.gen
    ensures NextsIn(g.nexts, g.shapes) && IdsGrow(old(g.ids), g.ids) && g.gen.isModifying == old(g.gen.isModifying)
    ensures o.Pass? <==> FlatCs(f, x, cs, |cs|).Some?
    ensures o.Fail? ==> o.error.IllegalState?
    ensures o.Pass? ==> Applied(FlatCs(f, x, cs, |cs|).value, table, table', old(g.parents), g.parents, old(g.nexts), g.nexts, g.ids)
    decreases 2 * f.rank[x] + 1, 0, |cs|
  {
    ghost var ps0, ns0, ids0 := g.parents, g.nexts, g.ids;
    AppliedNothing(table, ps0, ns0, ids0);
    table' := table;
    o := Pass;
    for i := 0 to |cs|
      invariant NextsIn(g.nexts, g.shapes) && IdsGrow(ids0, g.ids) && x in g.ids && g.gen.isModifying == old(g.gen.isModifying)
      invariant o.Pass? && FlatCs(f, x, cs, i).Some?
      invariant Applied(FlatCs(f, x, cs, i).value, table, table', ps0, g.parents, ns0, g.nexts, g.ids)
    {
      ghost var t1, ps1, ns1, ids1 := table', g.parents, g.nexts, g.ids;
      assert cs[i] in cs;
      var t2;
      t2, o := FlattenChild(g, x, cs[i], table', f);
      if o.Fail? {
        FlatCsFails(f, x, cs, i + 1, |cs|);
        table' := t2;
        return;
      }
      ChildStep(f, x, cs, i, table, t1, t2, ps0, ps1, g.parents, ns0, ns1, g.nexts, ids1, g.ids);
      table' := t2;
    }
  }

  /** One iteration of the three `forEach` loops: the child is flattened with `x`'s id
      as its parent. */
  method FlattenChild(g: Graph, x: Ref, c: Child, table: Entries<Ref>, ghost f: Forest) returns (table': Entries<Ref>, o: Outcome)
    requires NextsIn(g.nexts, g.shapes) && x in g.shapes && f.shapes == g.shapes && f.stacks == g.stacks && Ranked(f)
    requires x in g.ids && Below(f, c, f.rank[x])
    modifies g`parents, g`nexts, g`ids, g.gen
    ensures NextsIn(g.nexts, g.shapes) && IdsGrow(old(g.ids), g.ids) && g.gen.isModifying == old(g.gen.isModifying)
    ensures o.Pass? <==> FlatChild(f, x, c).Some?
    ensures o.Fail? ==> o.error.IllegalState?
    ensures o.Pass? ==> Applied(FlatChild(f, x, c).value, table, table', old(g.parents), g.parents, old(g.nexts), g.nexts, g.ids)
    decreases 2 * f.rank[x] + 1, 0, 0
  {
    match c
    case Into(r) =>
      table', o := FlattenBlock(g, r, Some(x), table, f);
    case IntoStack(s) =>
      table', o := FlattenStack(g, s, Some(x), table, f);
  }

  /** `BlockStack.flattenInto`: each element is linked from the previous one and then
      flattened under `p`. */
  method FlattenStack(g: Graph, s: StackRef, p: Option<Ref>, table: Entries<Ref>, ghost f: Forest) returns (table': Entries<Ref>, o: Outcome)
    requires NextsIn(g.nexts, g.shapes) && s in g.stacks && f.shapes == g.shapes && f.stacks == g.stacks && Ranked(f)
    requires p.Some? ==> p.value in g.ids
    modifies g`parents, g`nexts, g`ids, g.gen
    ensures NextsIn(g.nexts, g.shapes) && IdsGrow(old(g.ids), g.ids) && g.gen.isModifying == old(g.gen.isModifying)
    ensures o.Pass? <==> FlatS(f, s, p).Some?
    ensures o.Fail? ==> o.error.IllegalState?
    ensures o.Pass? ==> Applied(FlatS(f, s, p).value, table, table', old(g.parents), g.parents, old(g.nexts), g.nexts, g.ids)
    decreases 2 * f.srank[s], 1
  {
    var c := g.stacks[s].contents;
    var previous: Option<Ref> := None;
    table' := table;
    o := Pass;
    ghost var ps0, ns0, ids0 := g.parents, g.nexts, g.ids;
    assert RankedStack(f, s);
    AppliedNothing(table, ps0, ns0, ids0);
    for i := 0 to |c|
      invariant NextsIn(g.nexts, g.shapes) && IdsGrow(ids0, g.ids) && g.gen.isModifying == old(g.gen.isModifying)
      invariant previous == (if i == 0 then None else Some(c[i - 1]))
      invariant o.Pass? && FlatContents(f, s, p, i).Some?
      invariant Applied(FlatContents(f, s, p, i).value, table, table', ps0, g.parents, ns0, g.nexts, g.ids)
    {
      ghost var t1, ps1, ns1, ids1 := table', g.parents, g.nexts, g.ids;
      assert c[i] in c;
      LinkFrom(g, previous, c[i], f, c, i);
      ghost var ns2 := g.nexts;
      previous := Some(c[i]);
      var t2;
      t2, o := FlattenBlock(g, c[i], p, table', f);
      if o.Fail? {
        FlatContentsFails(f, s, p, i + 1, |c|);
        table' := t2;
        return;
      }
      ElementStep(f, s, p, c, i, table, t1, t2, ps0, ps1, g.parents, ns0, ns1, ns2, g.nexts, ids1, g.ids);
      table' := t2;
    }
  }

  /** `previous?.next = it`, where the isolated hat's `next` setter does nothing. */
  method LinkFrom(g: Graph, previous: Option<Ref>, y: Ref, ghost f: Forest, ghost c: seq<Ref>, ghost i: nat)
    requires NextsIn(g.nexts, g.shapes) && f.shapes == g.shapes && i < |c| && y == c[i] && y in g.shapes
    requires previous == (if i == 0 then None else Some(c[i - 1])) && (i > 0 ==> c[i - 1] in g.shapes)
    modifies g`nexts
    ensures NextsIn(g.nexts, g.shapes) && g.nexts == Links(old(g.nexts), LinkAt(f, c, i))
  {
    if previous.Some? && !g.shapes[previous.value].kind.Isolated? {
      LinkOne(g.nexts, previous.value, y);
      g.SetNext(previous.value, y);
    } else {
      LinkOne(g.nexts, y, y);
    }
  }
}
