/** The invariant of the `prepareRepresent` pass of `Prepare`: a layered ranking of
    the arena, what the pass may change (sockets only grow, declarations stay put)
    and the one-step lemmas showing that every kind of rewrite keeps it. */
module PrepareInv {
  import opened Wrappers
  import opened Ordered
  import opened Graph
  import opened Represent
  import opened Special
  import opened Flatten
  import FlattenFacts
  import opened Prepare

  // ---- The ranking, index-wise ----

  lemma ValuesCons<V>(m: Entries<V>)
    requires m != []
    ensures Values(m) == {m[0].1} + Values(m[1..])
  {
    forall v | v in Values(m) ensures v == m[0].1 || v in Values(m[1..]) {
      var i :| 0 <= i < |m| && m[i].1 == v;
      if i > 0 { assert m[1..][i - 1].1 == v; }
    }
    forall v | v in Values(m[1..]) ensures v in Values(m) {
      var i :| 0 <= i < |m[1..]| && m[1..][i].1 == v;
      assert m[i + 1].1 == v;
    }
  }

  /** Replacing one entry's value adds at most that value. */
  lemma ValuesReplace<V>(m: Entries<V>, i: nat, k: string, v: V)
    requires i < |m|
    ensures Values(m[i := (k, v)]) <= Values(m) + {v}
  {
    forall w | w in Values(m[i := (k, v)]) ensures w in Values(m) + {v} {
      var j :| 0 <= j < |m| && m[i := (k, v)][j].1 == w;
      if j != i { assert m[j].1 == w; }
    }
  }

  /** Without the independence filter, the pass over the shadowless sockets visits
      exactly their non-null entries. */
  lemma {:induction false} SocketChildrenAll(shapes: map<Ref, Shape>, m: Entries<Option<Ref>>)
    requires forall v | v in Values(m) && v.Some? :: v.value in shapes
    ensures forall c | c in SocketChildren(shapes, m, false) :: c.Into? && Some(c.r) in Values(m)
    ensures forall v | v in Values(m) && v.Some? :: Into(v.value) in SocketChildren(shapes, m, false)
    decreases |m|
  {
    if m != [] {
      ValuesCons(m);
      SocketChildrenAll(shapes, m[1..]);
    }
  }

  lemma {:induction false} PairChildrenAll(shapes: map<Ref, Shape>, m: Entries<(Ref, Option<Ref>)>)
    requires forall v | v in Values(m) :: v.0 in shapes && (v.1.Some? ==> v.1.value in shapes)
    ensures forall c | c in PairChildren(shapes, m, false) :: c.Into? && exists v | v in Values(m) :: v.0 == c.r || v.1 == Some(c.r)
    ensures forall v | v in Values(m) :: Into(v.0) in PairChildren(shapes, m, false)
                                        && (v.1.Some? ==> Into(v.1.value) in PairChildren(shapes, m, false))
    decreases |m|
  {
    if m != [] {
      ValuesCons(m);
      PairChildrenAll(shapes, m[1..]);
      var v0 := m[0].1;
      assert v0 in Values(m);
      forall c | c in PairChildren(shapes, m, false)
        ensures c.Into? && exists v | v in Values(m) :: v.0 == c.r || v.1 == Some(c.r)
      {
        if c in ExprChild(shapes, Some(v0.0), false) + ExprChild(shapes, v0.1, false) {
          assert v0.0 == c.r || v0.1 == Some(c.r);
        }
      }
    }
  }

  /** `RankedBlock` read entry by entry: every expression a socket holds (both halves of
      a pair), every nested stack, and an isolated hat's own stack rank below `x`. */
  ghost predicate BlockBelow(f: Forest, x: Ref)
    requires x in f.shapes && x in f.rank
  {
    var sh, n := f.shapes[x], f.rank[x];
    && (forall v | v in Values(sh.shadowless) && v.Some? :: Below(f, Into(v.value), n))
    && (forall v | v in Values(sh.paired) :: Below(f, Into(v.0), n) && (v.1.Some? ==> Below(f, Into(v.1.value), n)))
    && (forall v | v in Values(sh.nested) && v.Some? :: Below(f, IntoStack(v.value), n))
    && (sh.kind.Isolated? ==> Below(f, IntoStack(sh.kind.own), n))
  }

  lemma BelowRanked(f: Forest, x: Ref)
    requires x in f.shapes && x in f.rank
    requires BlockBelow(f, x)
    ensures RankedBlock(f, x)
  {
    var sh, n := f.shapes[x], f.rank[x];
    var a, b, c := SocketChildren(f.shapes, sh.shadowless, false), PairChildren(f.shapes, sh.paired, false), StackChildren(f.stacks, sh.nested);
    assert Children(f.shapes, f.stacks, sh, false) == a + b + c;
    SocketsBelow(f, sh.shadowless, n);
    PairsBelow(f, sh.paired, n);
    StacksBelow(f, sh.nested, n);
  }

  lemma SocketsBelow(f: Forest, m: Entries<Option<Ref>>, n: nat)
    requires forall v | v in Values(m) && v.Some? :: Below(f, Into(v.value), n)
    ensures forall ch | ch in SocketChildren(f.shapes, m, false) :: Below(f, ch, n)
  {
    SocketChildrenAll(f.shapes, m);
  }

  lemma {:induction false} PairsBelow(f: Forest, m: Entries<(Ref, Option<Ref>)>, n: nat)
    requires forall v | v in Values(m) :: Below(f, Into(v.0), n) && (v.1.Some? ==> Below(f, Into(v.1.value), n))
    ensures forall ch | ch in PairChildren(f.shapes, m, false) :: Below(f, ch, n)
    decreases |m|
  {
    if m != [] {
      ValuesCons(m);
      PairsBelow(f, m[1..], n);
    }
  }

  lemma StacksBelow(f: Forest, m: Entries<Option<StackRef>>, n: nat)
    requires forall v | v in Values(m) && v.Some? :: Below(f, IntoStack(v.value), n)
    ensures forall ch | ch in StackChildren(f.stacks, m) :: Below(f, ch, n)
  {
    FlattenFacts.StackChildrenExact(f.stacks, m);
    NoExprInStacks(f.stacks, m);
    forall ch | ch in StackChildren(f.stacks, m) ensures Below(f, ch, n) {
      assert Some(ch.s) in Values(m);
    }
  }

  lemma RankedBelow(f: Forest, x: Ref)
    requires x in f.shapes && x in f.rank && ShapeClosed(f.shapes[x], f.shapes, f.stacks)
    requires RankedBlock(f, x)
    ensures BlockBelow(f, x)
  {
    var sh, n := f.shapes[x], f.rank[x];
    var a, b, c := SocketChildren(f.shapes, sh.shadowless, false), PairChildren(f.shapes, sh.paired, false), StackChildren(f.stacks, sh.nested);
    assert Children(f.shapes, f.stacks, sh, false) == a + b + c;
    SocketChildrenAll(f.shapes, sh.shadowless);
    PairChildrenAll(f.shapes, sh.paired);
    FlattenFacts.StackChildrenExact(f.stacks, sh.nested);
  }

  /** `Ranked`, with `RankedBlock` read entry by entry. */
  ghost predicate Layered(f: Forest)
  {
    && (forall x | x in f.shapes :: x in f.rank)
    && (forall s | s in f.stacks :: s in f.srank)
    && (forall x {:trigger BlockBelow(f, x)} | x in f.shapes :: BlockBelow(f, x))
    && (forall s {:trigger RankedStack(f, s)} | s in f.stacks :: RankedStack(f, s))
  }

  /** A layered arena is ranked as `flattenInto` needs it. */
  lemma LayeredIsRanked(f: Forest)
    requires Layered(f)
    ensures Ranked(f)
  {
    forall x | x in f.shapes ensures RankedBlock(f, x) {
      assert BlockBelow(f, x);
      BelowRanked(f, x);
    }
  }

  /** On a closed graph, `Layered` is the ranking `flattenInto` needs. */
  lemma LayeredRanked(f: Forest, nexts: map<Ref, Ref>)
    requires Closed(f.shapes, f.stacks, nexts)
    ensures Layered(f) <==> Ranked(f)
  {
    if Layered(f) || Ranked(f) {
      forall x | x in f.shapes ensures RankedBlock(f, x) <==> BlockBelow(f, x) {
        assert ShapeClosed(f.shapes[x], f.shapes, f.stacks);
        if BlockBelow(f, x) { BelowRanked(f, x); }
        if RankedBlock(f, x) { RankedBelow(f, x); }
      }
    }
  }

  /** The blocks of a hat's own stack, other hats apart, rank below the hat: the hat
      prepares them after itself. */
  ghost predicate HatsRanked(shapes: map<Ref, Shape>, stacks: map<StackRef, Stack>, rank: map<Ref, nat>)
  {
    forall x | x in shapes && x in rank && shapes[x].kind.Hat? ::
      && shapes[x].kind.own in stacks
      && forall y | y in stacks[shapes[x].kind.own].contents :: y in shapes && (IsHat(shapes[y].kind) || (y in rank && rank[y] < rank[x]))
  }

  /** Objects whose kinds are kept, and rank kept, keep `HatsRanked`. */
  lemma HatsRankedGrow(shapes: map<Ref, Shape>, s1: map<Ref, Shape>, stacks: map<StackRef, Stack>, rank: map<Ref, nat>, r1: map<Ref, nat>)
    requires HatsRanked(shapes, stacks, rank) && rank.Keys == shapes.Keys
    requires forall z | z in rank :: z in r1 && r1[z] == rank[z]
    requires forall z | z in shapes :: z in s1 && s1[z].kind == shapes[z].kind
    requires forall z | z in s1 && z !in shapes :: !s1[z].kind.Hat?
    ensures HatsRanked(s1, stacks, r1)
  {
  }

  // ---- What the pass keeps and what it promises ----

  /** The pass changes an object's socket entries and top-level flag and nothing
      else: the rest, and how many sockets of each sort it has, agree. */
  predicate SameHead(a: Shape, b: Shape)
  {
    && a.kind == b.kind && a.opcode == b.opcode && a.shadow == b.shadow
    && a.nested == b.nested && a.fields == b.fields && a.mutation == b.mutation
    && |a.shadowless| == |b.shadowless| && |a.paired| == |b.paired|
  }



  // ---- What a step keeps ----

  /** What the pass runs against: the stacks, their ranking and the sprite. */
  datatype Scope = Scope(stacks: map<StackRef, Stack>, srank: map<StackRef, nat>, sp: SpriteView)

  /** Declarations have no sockets and rank lowest. */
  ghost predicate DeclsLow(shapes: map<Ref, Shape>, rank: map<Ref, nat>)
  {
    forall z | z in shapes && shapes[z].kind.DeclK? :: z in rank && rank[z] == 0
  }

  /** The state the pass works in: the ranking covers exactly the objects, hats rank
      above their stacks, every object is below the allocation counter, and the sprite's
      broadcasts and the resolved broadcast are declarations. */
  ghost predicate Inv(c: Scope, s: PState, rank: map<Ref, nat>)
  {
    && rank.Keys == s.shapes.Keys
    && Layered(Forest(s.shapes, c.stacks, rank, c.srank))
    && HatsRanked(s.shapes, c.stacks, rank)
    && (forall z | z in s.shapes :: z < s.nextRef)
    && DeclsLow(s.shapes, rank)
    && ViewTyped(s.shapes, c.sp)
    && SlotsTyped(s.shapes, s.slots)
    && Anchors(s.shapes, c.stacks)
  }

  /** What the ranking leaves out of `ShapeClosed`: every field object is allocated, and
      so is a container's stack. */
  ghost predicate Anchors(shapes: map<Ref, Shape>, stacks: map<StackRef, Stack>)
  {
    forall z | z in shapes ::
      && (forall v | v in Values(shapes[z].fields) && v.Of? :: v.obj in shapes)
      && (shapes[z].kind.Host? && shapes[z].kind.sub.Some? ==> shapes[z].kind.sub.value in stacks)
  }

  lemma AnchorsReplace(shapes: map<Ref, Shape>, stacks: map<StackRef, Stack>, x: Ref, sh: Shape)
    requires Anchors(shapes, stacks) && x in shapes
    requires sh.kind == shapes[x].kind && sh.fields == shapes[x].fields
    ensures Anchors(shapes[x := sh], stacks)
  {
  }

  lemma AnchorsGrow(shapes: map<Ref, Shape>, stacks: map<StackRef, Stack>, r: Ref, sh: Shape)
    requires Anchors(shapes, stacks) && !sh.kind.Host?
    requires forall v | v in Values(sh.fields) && v.Of? :: v.obj == r
    ensures Anchors(shapes[r := sh], stacks)
  {
  }

  /** Every object stays, with its head. */
  ghost predicate Keeps(s0: map<Ref, Shape>, s1: map<Ref, Shape>)
  {
    forall z | z in s0 ::
      z in s1 && SameHead(s1[z], s0[z])
  }

  ghost predicate RankGrows(r0: map<Ref, nat>, r1: map<Ref, nat>)
  {
    forall z | z in r0 :: z in r1 && r1[z] == r0[z]
  }

  /** The slot that a copy of placeholder `p` reads is set (a copy of the first sound
      reads an unset slot as a blank sound). */
  predicate Filled(slots: Slots, p: Placeholder)
  {
    match p
    case FirstBackdrop => slots.backdrop.Some?
    case FirstSprite => slots.costume.Some?
    case FirstSound => true
    case FirstBroadcast => slots.broadcast.Some?
  }

  /** No slot that was set is unset. */
  predicate SlotsGrow(a: Slots, b: Slots)
  {
    forall p :: Filled(a, p) ==> Filled(b, p)
  }

  /** `u` can be copied without reading an unset slot. */
  predicate Ready(s: PState, u: Ref)
  {
    u in s.shapes && (s.shapes[u].kind.FirstK? ==> Filled(s.slots, s.shapes[u].kind.which))
  }

  /** What a run may throw: an index out of bounds or an illegal state, never the read
      of an unset `lateinit` slot. */
  predicate Anticipated(r: Run)
  {
    r.Done? && r.o.Fail? ==> r.o.error.OutOfBounds? || r.o.error.IllegalState?
  }

  /** One step of the pass: objects kept with their heads, ranking grown, slots never
      unset. */
  ghost predicate Went(s0: PState, s1: PState, r0: map<Ref, nat>, r1: map<Ref, nat>)
  {
    Keeps(s0.shapes, s1.shapes) && RankGrows(r0, r1) && SlotsGrow(s0.slots, s1.slots)
  }

  lemma ReadyKept(s0: PState, s1: PState, r0: map<Ref, nat>, r1: map<Ref, nat>, u: Ref)
    requires Went(s0, s1, r0, r1) && Ready(s0, u)
    ensures Ready(s1, u)
  {
    assert SameHead(s1.shapes[u], s0.shapes[u]);
    if s0.shapes[u].kind.FirstK? {
      assert Filled(s0.slots, s0.shapes[u].kind.which);
    }
  }

  lemma WentTrans(s0: PState, s1: PState, s2: PState, r0: map<Ref, nat>, r1: map<Ref, nat>, r2: map<Ref, nat>)
    requires Went(s0, s1, r0, r1) && Went(s1, s2, r1, r2)
    ensures Went(s0, s2, r0, r2)
  {
  }

  lemma LayeredReplace(f: Forest, x: Ref, sh: Shape)
    requires Layered(f) && x in f.shapes
    requires sh.kind == f.shapes[x].kind && sh.nested == f.shapes[x].nested
    requires BlockBelow(f.(shapes := f.shapes[x := sh]), x)
    ensures Layered(f.(shapes := f.shapes[x := sh]))
  {
    var f1 := f.(shapes := f.shapes[x := sh]);
    forall z | z in f1.shapes ensures BlockBelow(f1, z) {
      if z != x {
        assert BlockBelow(f, z);
      }
    }
    forall s | s in f1.stacks ensures RankedStack(f1, s) {
      assert RankedStack(f, s);
    }
  }

  lemma LayeredGrow(f: Forest, r: Ref, sh: Shape)
    requires Layered(f) && r !in f.shapes
    requires sh.shadowless == [] && sh.paired == [] && sh.nested == [] && !sh.kind.Isolated?
    ensures Layered(Forest(f.shapes[r := sh], f.stacks, f.rank[r := 0], f.srank))
  {
    var f1 := Forest(f.shapes[r := sh], f.stacks, f.rank[r := 0], f.srank);
    assert Values(sh.shadowless) == {} && Values(sh.paired) == {} && Values(sh.nested) == {};
    forall z | z in f1.shapes ensures BlockBelow(f1, z) {
      if z != r {
        assert BlockBelow(f, z);
      }
    }
    forall s | s in f1.stacks ensures RankedStack(f1, s) {
      assert RankedStack(f, s);
    }
  }

  /** Replacing the state of `x` by one with the same head and sockets still ranked
      below `x` keeps the invariant. */
  lemma ReplaceStep(c: Scope, s: PState, rank: map<Ref, nat>, x: Ref, sh: Shape)
    requires Inv(c, s, rank) && x in s.shapes && SameHead(sh, s.shapes[x])
    requires BlockBelow(Forest(s.shapes[x := sh], c.stacks, rank, c.srank), x)
    ensures var s1 := s.(shapes := s.shapes[x := sh]);
      Inv(c, s1, rank) && Went(s, s1, rank, rank)
  {
    LayeredReplace(Forest(s.shapes, c.stacks, rank, c.srank), x, sh);
    HatsRankedGrow(s.shapes, s.shapes[x := sh], c.stacks, rank, rank);
    AnchorsReplace(s.shapes, c.stacks, x, sh);
  }

  /** Writing an expression ranked below `x` into shadowless socket `i` of `x`. */
  lemma ShadowlessStep(c: Scope, s: PState, rank: map<Ref, nat>, x: Ref, i: nat, v: Ref)
    requires Inv(c, s, rank) && x in s.shapes && i < |s.shapes[x].shadowless|
    requires v in s.shapes && rank[v] < rank[x]
    ensures var s1 := SetShadowless(s, x, i, v);
      Inv(c, s1, rank) && Went(s, s1, rank, rank)
  {
    var cur := s.shapes[x];
    var sh := cur.(shadowless := cur.shadowless[i := (cur.shadowless[i].0, Some(v))]);
    ValuesReplace(cur.shadowless, i, cur.shadowless[i].0, Some(v));
    assert BlockBelow(Forest(s.shapes, c.stacks, rank, c.srank), x);
    assert BlockBelow(Forest(s.shapes[x := sh], c.stacks, rank, c.srank), x);
    ReplaceStep(c, s, rank, x, sh);
  }

  /** Writing a pair ranked below `x` into shadow/value socket `i` of `x`. */
  lemma PairedStep(c: Scope, s: PState, rank: map<Ref, nat>, x: Ref, i: nat, a: Ref, e: Option<Ref>)
    requires Inv(c, s, rank) && x in s.shapes && i < |s.shapes[x].paired|
    requires a in s.shapes && rank[a] < rank[x]
    requires e.Some? ==> e.value in s.shapes && rank[e.value] < rank[x]
    ensures var s1 := SetPaired(s, x, i, a, e);
      Inv(c, s1, rank) && Went(s, s1, rank, rank)
  {
    var cur := s.shapes[x];
    var sh := cur.(paired := cur.paired[i := (cur.paired[i].0, (a, e))]);
    ValuesReplace(cur.paired, i, cur.paired[i].0, (a, e));
    assert BlockBelow(Forest(s.shapes, c.stacks, rank, c.srank), x);
    assert BlockBelow(Forest(s.shapes[x := sh], c.stacks, rank, c.srank), x);
    ReplaceStep(c, s, rank, x, sh);
  }

  /** Marking block `y` top level. */
  lemma TopLevelStep(c: Scope, s: PState, rank: map<Ref, nat>, y: Ref)
    requires Inv(c, s, rank) && y in s.shapes
    ensures var s1 := s.(shapes := s.shapes[y := s.shapes[y].(topLevel := true)]);
      Inv(c, s1, rank) && Went(s, s1, rank, rank)
  {
    var sh := s.shapes[y].(topLevel := true);
    assert BlockBelow(Forest(s.shapes, c.stacks, rank, c.srank), y);
    assert BlockBelow(Forest(s.shapes[y := sh], c.stacks, rank, c.srank), y);
    ReplaceStep(c, s, rank, y, sh);
  }

  /** A fresh copy has no sockets and no stacks, and is neither a hat nor a
      declaration nor a placeholder. */
  lemma CopyBare(k: Kind, opcode: Option<string>, slots: Slots, self: Ref)
    requires ShouldCopy(k)
    ensures var c := CopyOf(k, opcode, slots, self);
      c.Ok? && c.value.Fresh? ==>
        var sh := c.value.sh;
        && sh.shadowless == [] && sh.paired == [] && sh.nested == [] && !sh.topLevel
        && !IsHat(sh.kind) && !sh.kind.DeclK? && !sh.kind.FirstK? && !sh.kind.Host?
        && forall v | v in Values(sh.fields) && v.Of? :: v.obj == self
  {
  }

  /** Allocating a fresh copy under the next free ref, ranked lowest. */
  lemma FreshStep(c: Scope, s: PState, rank: map<Ref, nat>, sh: Shape, k: Kind, opcode: Option<string>)
    requires Inv(c, s, rank) && ShouldCopy(k)
    requires CopyOf(k, opcode, s.slots, s.nextRef) == Ok(Fresh(sh))
    ensures var s1 := s.(shapes := s.shapes[s.nextRef := sh], nextRef := s.nextRef + 1);
      Inv(c, s1, rank[s.nextRef := 0]) && Went(s, s1, rank, rank[s.nextRef := 0]) && Grows(s.shapes, s1.shapes)
  {
    var r := s.nextRef;
    CopyBare(k, opcode, s.slots, r);
    LayeredGrow(Forest(s.shapes, c.stacks, rank, c.srank), r, sh);
    HatsRankedGrow(s.shapes, s.shapes[r := sh], c.stacks, rank, rank[r := 0]);
    AnchorsGrow(s.shapes, c.stacks, r, sh);
  }

  /** The copy step keeps the invariant and every existing object; what it yields ranks
      no higher than what it copies. */
  lemma CopyGoes(c: Scope, s: PState, rank: map<Ref, nat>, u: Ref) returns (rank': map<Ref, nat>)
    requires Inv(c, s, rank) && u in s.shapes
    ensures var (r, v) := CopyRun(s, u);
      && r.Done? && Inv(c, r.st, rank') && Went(s, r.st, rank, rank') && Grows(s.shapes, r.st.shapes)
      && r.st.slots == s.slots && (Ready(s, u) ==> Passed(r))
      && (Passed(r) ==> v in r.st.shapes && v in rank' && rank'[v] <= rank[u])
  {
    rank' := rank;
    var k := s.shapes[u].kind;
    if ShouldCopy(k) {
      var cp := CopyOf(k, s.shapes[u].opcode, s.slots, s.nextRef);
      if cp.Ok? && cp.value.Fresh? {
        FreshStep(c, s, rank, cp.value.sh, k, s.shapes[u].opcode);
        rank' := rank[s.nextRef := 0];
      }
    }
  }

  // ---- Where a step's children stand ----

  /** Every block of stack `st` is a hat or ranks below `m`. */
  ghost predicate StackBelow(c: Scope, shapes: map<Ref, Shape>, rank: map<Ref, nat>, st: StackRef, m: nat)
  {
    && st in c.stacks
    && forall y | y in c.stacks[st].contents :: y in shapes && (IsHat(shapes[y].kind) || (y in rank && rank[y] < m))
  }

  /** A step that keeps the objects and their ranks keeps `StackBelow`. */
  lemma StackKept(c: Scope, s0: PState, s1: PState, r0: map<Ref, nat>, r1: map<Ref, nat>, st: StackRef, m: nat)
    requires StackBelow(c, s0.shapes, r0, st, m) && Went(s0, s1, r0, r1)
    ensures StackBelow(c, s1.shapes, r1, st, m)
  {
    forall y | y in c.stacks[st].contents
      ensures y in s1.shapes && (IsHat(s1.shapes[y].kind) || (y in r1 && r1[y] < m))
    {
      assert SameHead(s1.shapes[y], s0.shapes[y]);
    }
  }

  /** The expression in shadowless socket `i` of `x` ranks below `x`. */
  lemma ShadowlessChild(c: Scope, s: PState, rank: map<Ref, nat>, x: Ref, i: nat)
    requires Inv(c, s, rank) && x in s.shapes && i < |s.shapes[x].shadowless| && s.shapes[x].shadowless[i].1.Some?
    ensures var u := s.shapes[x].shadowless[i].1.value; u in s.shapes && rank[u] < rank[x]
  {
    assert s.shapes[x].shadowless[i].1 in Values(s.shapes[x].shadowless);
    assert BlockBelow(Forest(s.shapes, c.stacks, rank, c.srank), x);
  }

  /** Both expressions of shadow/value socket `i` of `x` rank below `x`. */
  lemma PairedChild(c: Scope, s: PState, rank: map<Ref, nat>, x: Ref, i: nat)
    requires Inv(c, s, rank) && x in s.shapes && i < |s.shapes[x].paired|
    ensures var (a, e) := s.shapes[x].paired[i].1;
      && a in s.shapes && rank[a] < rank[x]
      && (e.Some? ==> e.value in s.shapes && rank[e.value] < rank[x])
  {
    assert s.shapes[x].paired[i].1 in Values(s.shapes[x].paired);
    assert BlockBelow(Forest(s.shapes, c.stacks, rank, c.srank), x);
  }

  /** Nested stack `i` of `x` holds blocks ranked below `x`. */
  lemma NestedChild(c: Scope, s: PState, rank: map<Ref, nat>, x: Ref, i: nat)
    requires Inv(c, s, rank) && x in s.shapes && i < |s.shapes[x].nested| && s.shapes[x].nested[i].1.Some?
    ensures StackBelow(c, s.shapes, rank, s.shapes[x].nested[i].1.value, rank[x])
  {
    var f := Forest(s.shapes, c.stacks, rank, c.srank);
    assert s.shapes[x].nested[i].1 in Values(s.shapes[x].nested);
    assert BlockBelow(f, x);
    assert RankedStack(f, s.shapes[x].nested[i].1.value);
  }

  /** The stack an isolated hat stands for holds blocks ranked below the hat. */
  lemma IsolatedChild(c: Scope, s: PState, rank: map<Ref, nat>, x: Ref)
    requires Inv(c, s, rank) && x in s.shapes && s.shapes[x].kind.Isolated?
    ensures StackBelow(c, s.shapes, rank, s.shapes[x].kind.own, rank[x])
  {
    var f := Forest(s.shapes, c.stacks, rank, c.srank);
    assert BlockBelow(f, x);
    assert RankedStack(f, s.shapes[x].kind.own);
  }

  /** A hat's own stack holds other hats and blocks ranked below it. */
  lemma HatChild(c: Scope, s: PState, rank: map<Ref, nat>, x: Ref)
    requires Inv(c, s, rank) && x in s.shapes && s.shapes[x].kind.Hat?
    ensures StackBelow(c, s.shapes, rank, s.shapes[x].kind.own, rank[x])
  {
  }

  /** The copy steps of a shadow/value socket keep the invariant; the copies rank no
      higher than what they copy. */
  lemma CopyPairGoes(c: Scope, s: PState, rank: map<Ref, nat>, a: Ref, e: Option<Ref>, m: nat, rp: (Run, Ref, Option<Ref>)) returns (rank': map<Ref, nat>)
    requires Inv(c, s, rank) && a in s.shapes && rank[a] < m
    requires e.Some? ==> e.value in s.shapes && rank[e.value] < m
    requires rp == CopyPair(s, a, e)
    requires Ready(s, a) && (e.Some? ==> Ready(s, e.value))
    ensures var (r, ca, ce) := rp;
      && Passed(r) && Inv(c, r.st, rank') && Went(s, r.st, rank, rank')
      && (Passed(r) ==> ca in r.st.shapes && rank'[ca] < m)
      && (Passed(r) && ce.Some? ==> ce.value in r.st.shapes && rank'[ce.value] < m)
  {
    var (r1, ca) := CopyRun(s, a);
    rank' := CopyGoes(c, s, rank, a);
    if Passed(r1) && e.Some? {
      var q := CopyGoes(c, r1.st, rank', e.value);
      WentTrans(s, r1.st, rp.0.st, rank, rank', q);
      rank' := q;
    }
  }

  /** The pass keeps the arena invariant: what the ranking and `Anchors` hold of the
      new state is all `ShapeClosed` asks, and the kinds of the placeholder singletons
      are kept. */
  lemma PassKeepsStructure(c: Scope, s0: PState, s1: PState, r0: map<Ref, nat>, r1: map<Ref, nat>,
                           nexts: map<Ref, Ref>, nextStack: nat, singletons: map<Placeholder, Ref>)
    requires Structure(s0.shapes, c.stacks, nexts, s0.nextRef, nextStack) && Anchored(s0.shapes, s0.slots.broadcast, singletons)
    requires Inv(c, s1, r1) && Went(s0, s1, r0, r1)
    ensures Structure(s1.shapes, c.stacks, nexts, s1.nextRef, nextStack) && Anchored(s1.shapes, s1.slots.broadcast, singletons)
  {
    var f := Forest(s1.shapes, c.stacks, r1, c.srank);
    forall z | z in s1.shapes ensures ShapeClosed(s1.shapes[z], s1.shapes, c.stacks) {
      assert BlockBelow(f, z);
      var sh := s1.shapes[z];
      assert forall v | v in Values(sh.shadowless) && v.Some? :: Below(f, Into(v.value), r1[z]);
    }
    forall x | x in nexts ensures nexts[x] in s1.shapes {
      assert nexts[x] in s0.shapes;
    }
    forall st | st in c.stacks ensures forall x | x in c.stacks[st].contents :: x in s1.shapes {
      forall x | x in c.stacks[st].contents ensures x in s1.shapes {
        assert x in s0.shapes;
      }
    }
    forall p | p in singletons ensures singletons[p] in s1.shapes && s1.shapes[singletons[p]].kind == FirstK(p) {
      assert SameHead(s1.shapes[singletons[p]], s0.shapes[singletons[p]]);
    }
  }
}
