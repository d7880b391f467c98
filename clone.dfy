/** `cloneBlock`, `cloneExpression`, `cloneShadowExpression` (Blocks.kt, Expressions.kt,
    VLB.kt) and `cloneBlockStack` (Build.kt): a deep copy of a script.  A block or reporter
    becomes a new `NormalBlock` or `NormalExpression` with the same opcode, whose socket
    maps hold clones of the originals' expressions and stacks; a literal becomes a new
    `ValueShadowExpression` with the same value and opcode; an isolated hat wraps a clone
    of its stack; variables, lists and broadcasts are shared, not copied.

    The result is specified by `ClonedTo`, a relation between an object of the original
    graph and its clone in the grown graph, defined by recursion over the original's
    ranking; the methods are proved to establish it. */
module Cloning {
  import opened Wrappers
  import opened Ordered
  import opened Ids
  import opened Graph
  import opened Blocks
  import opened Flatten

  /** The original graph: acyclic (ranked) and without dangling references. */
  ghost predicate Source(f: Forest)
  {
    Ranked(f) && Closed(f.shapes, f.stacks, map[])
  }

  /** Every object and stack of the first state is in the second, unchanged. */
  ghost predicate Kept(s1: map<Ref, Shape>, t1: map<StackRef, Stack>, s2: map<Ref, Shape>, t2: map<StackRef, Stack>)
  {
    Grows(s1, s2) && forall s | s in t1 :: s in t2 && t2[s] == t1[s]
  }

  /** Objects whose clone is the object itself: variables and lists (`VLB.cloneExpression`
      returns `this`), broadcasts (`Broadcast.cloneShadowExpression` returns `this`), and
      the remaining shadows, for which no `cloneShadowExpression` is defined. */
  predicate Shared(k: Kind)
  {
    !(k.Plain? || k.Host? || k.Hat? || k.Isolated? || k.Reporter? || k.LiteralK?)
  }

  /** The class of a deep copy: `NormalExpression` for a reporter, `NormalBlock` for every
      other block (hats and block hosts included: they inherit `NormalBlock.cloneBlock`). */
  function CopyKind(k: Kind): Kind
  {
    if k.Reporter? then Reporter else Plain
  }

  /** The state of `IsolatedBlockStackHat(t)`. */
  function IsolatedShape(t: StackRef): Shape
  {
    Blank(Isolated(t), None, false).(topLevel := true)
  }

  // ---- The clone relation ----

  /** `y`, in the grown graph `s2`/`t2`, is the clone of the original object `x`. */
  ghost predicate ClonedTo(f: Forest, s2: map<Ref, Shape>, t2: map<StackRef, Stack>, x: Ref, y: Ref)
    requires Ranked(f) && x in f.shapes
    decreases f.rank[x], 4
  {
    var k := f.shapes[x].kind;
    if Shared(k) then y == x
    else
      && y !in f.shapes && y in s2
      && (if k.LiteralK? then s2[y] == LiteralShape(k.lit)
          else if k.Isolated? then
            && s2[y].kind.Isolated? && s2[y] == IsolatedShape(s2[y].kind.own)
            && Below(f, IntoStack(k.own), f.rank[x]) && StackClonedTo(f, s2, t2, k.own, s2[y].kind.own)
          else CopiedTo(f, s2, t2, x, s2[y]))
  }

  /** `sh2` is a deep copy of block or reporter `x`: same opcode, not a shadow, not top
      level, no mutation, the fields of a block (a reporter's clone gets none), and socket
      maps with the same keys in the same order whose entries are clones. */
  ghost predicate CopiedTo(f: Forest, s2: map<Ref, Shape>, t2: map<StackRef, Stack>, x: Ref, sh2: Shape)
    requires Ranked(f) && x in f.shapes
    decreases f.rank[x], 3
  {
    var sh := f.shapes[x];
    && sh2 == Shape(CopyKind(sh.kind), sh.opcode, false, false, sh2.shadowless, sh2.paired, sh2.nested,
                    if sh.kind.Reporter? then [] else sh.fields, [])
    && |sh2.shadowless| == |sh.shadowless| && SocketsCloned(f, s2, t2, x, sh2.shadowless)
    && |sh2.paired| == |sh.paired| && PairsCloned(f, s2, t2, x, sh2.paired)
    && |sh2.nested| == |sh.nested| && NestedCloned(f, s2, t2, x, sh2.nested)
  }

  /** One socket entry: null stays null, an expression becomes its clone. */
  ghost predicate SlotCloned(f: Forest, s2: map<Ref, Shape>, t2: map<StackRef, Stack>, x: Ref, v: Option<Ref>, w: Option<Ref>)
    requires Ranked(f) && x in f.shapes
    decreases f.rank[x], 0
  {
    if v.None? then w.None?
    else w.Some? && Below(f, Into(v.value), f.rank[x]) && ClonedTo(f, s2, t2, v.value, w.value)
  }

  /** One nested-stack entry: null stays null, a stack becomes its clone. */
  ghost predicate NestCloned(f: Forest, s2: map<Ref, Shape>, t2: map<StackRef, Stack>, x: Ref, v: Option<StackRef>, w: Option<StackRef>)
    requires Ranked(f) && x in f.shapes
    decreases f.rank[x], 0
  {
    if v.None? then w.None?
    else w.Some? && Below(f, IntoStack(v.value), f.rank[x]) && StackClonedTo(f, s2, t2, v.value, w.value)
  }

  /** The first `|ws|` entries of `shadowlessExpressionInputs`, cloned. */
  ghost predicate SocketsCloned(f: Forest, s2: map<Ref, Shape>, t2: map<StackRef, Stack>, x: Ref, ws: Entries<Option<Ref>>)
    requires Ranked(f) && x in f.shapes
    decreases f.rank[x], 2
  {
    var m := f.shapes[x].shadowless;
    |ws| <= |m| && forall j | 0 <= j < |ws| :: ws[j].0 == m[j].0 && SlotCloned(f, s2, t2, x, m[j].1, ws[j].1)
  }

  /** The first `|ps|` entries of `expressionInputs`: the shadow and the value cloned. */
  ghost predicate PairsCloned(f: Forest, s2: map<Ref, Shape>, t2: map<StackRef, Stack>, x: Ref, ps: Entries<(Ref, Option<Ref>)>)
    requires Ranked(f) && x in f.shapes
    decreases f.rank[x], 2
  {
    var m := f.shapes[x].paired;
    |ps| <= |m| && forall j | 0 <= j < |ps| :: ps[j].0 == m[j].0 && PairCloned(f, s2, t2, x, m[j].1, ps[j].1)
  }

  /** One `expressionInputs` entry: the shadow becomes its clone, the value (if any) too. */
  ghost predicate PairCloned(f: Forest, s2: map<Ref, Shape>, t2: map<StackRef, Stack>, x: Ref, v: (Ref, Option<Ref>), w: (Ref, Option<Ref>))
    requires Ranked(f) && x in f.shapes
    decreases f.rank[x], 1
  {
    SlotCloned(f, s2, t2, x, Some(v.0), Some(w.0)) && SlotCloned(f, s2, t2, x, v.1, w.1)
  }

  /** The first `|ns|` entries of `blockStackInputs`, cloned. */
  ghost predicate NestedCloned(f: Forest, s2: map<Ref, Shape>, t2: map<StackRef, Stack>, x: Ref, ns: Entries<Option<StackRef>>)
    requires Ranked(f) && x in f.shapes
    decreases f.rank[x], 2
  {
    var m := f.shapes[x].nested;
    |ns| <= |m| && forall j | 0 <= j < |ns| :: ns[j].0 == m[j].0 && NestCloned(f, s2, t2, x, m[j].1, ns[j].1)
  }

  /** Stack `t` is a new stack of the same length as `s` whose elements are the clones of
      the elements of `s`, in order. */
  ghost predicate StackClonedTo(f: Forest, s2: map<Ref, Shape>, t2: map<StackRef, Stack>, s: StackRef, t: StackRef)
    requires Ranked(f) && s in f.stacks
    decreases f.srank[s], 2
  {
    && t !in f.stacks && t in t2
    && |t2[t].contents| == |f.stacks[s].contents| && PrefixCloned(f, s2, t2, s, t2[t].contents)
  }

  /** `cs` are the clones of the first `|cs|` elements of `s`. */
  ghost predicate PrefixCloned(f: Forest, s2: map<Ref, Shape>, t2: map<StackRef, Stack>, s: StackRef, cs: seq<Ref>)
    requires Ranked(f) && s in f.stacks
    decreases f.srank[s], 1
  {
    var c := f.stacks[s].contents;
    |cs| <= |c| && forall i | 0 <= i < |cs| :: Below(f, Into(c[i]), f.srank[s]) && ClonedTo(f, s2, t2, c[i], cs[i])
  }

  // ---- The relation survives growth of the graph ----

  lemma {:induction false} ClonedKept(f: Forest, s1: map<Ref, Shape>, t1: map<StackRef, Stack>, s2: map<Ref, Shape>, t2: map<StackRef, Stack>, x: Ref, y: Ref)
    requires Ranked(f) && x in f.shapes && Kept(s1, t1, s2, t2)
    requires ClonedTo(f, s1, t1, x, y)
    ensures ClonedTo(f, s2, t2, x, y)
    decreases f.rank[x], 4
  {
    var k := f.shapes[x].kind;
    if Shared(k) || k.LiteralK? {
    } else if k.Isolated? {
      StackKept(f, s1, t1, s2, t2, k.own, s1[y].kind.own);
    } else {
      CopiedKept(f, s1, t1, s2, t2, x, s1[y]);
    }
  }

  lemma {:induction false} CopiedKept(f: Forest, s1: map<Ref, Shape>, t1: map<StackRef, Stack>, s2: map<Ref, Shape>, t2: map<StackRef, Stack>, x: Ref, sh2: Shape)
    requires Ranked(f) && x in f.shapes && Kept(s1, t1, s2, t2)
    requires CopiedTo(f, s1, t1, x, sh2)
    ensures CopiedTo(f, s2, t2, x, sh2)
    decreases f.rank[x], 3
  {
    SocketsKept(f, s1, t1, s2, t2, x, sh2.shadowless);
    PairsKept(f, s1, t1, s2, t2, x, sh2.paired);
    NestedKept(f, s1, t1, s2, t2, x, sh2.nested);
  }

  lemma {:induction false} SlotKept(f: Forest, s1: map<Ref, Shape>, t1: map<StackRef, Stack>, s2: map<Ref, Shape>, t2: map<StackRef, Stack>, x: Ref, v: Option<Ref>, w: Option<Ref>)
    requires Ranked(f) && x in f.shapes && Kept(s1, t1, s2, t2)
    requires SlotCloned(f, s1, t1, x, v, w)
    ensures SlotCloned(f, s2, t2, x, v, w)
    decreases f.rank[x], 0
  {
    if v.Some? {
      ClonedKept(f, s1, t1, s2, t2, v.value, w.value);
    }
  }

  lemma {:induction false} NestKept(f: Forest, s1: map<Ref, Shape>, t1: map<StackRef, Stack>, s2: map<Ref, Shape>, t2: map<StackRef, Stack>, x: Ref, v: Option<StackRef>, w: Option<StackRef>)
    requires Ranked(f) && x in f.shapes && Kept(s1, t1, s2, t2)
    requires NestCloned(f, s1, t1, x, v, w)
    ensures NestCloned(f, s2, t2, x, v, w)
    decreases f.rank[x], 0
  {
    if v.Some? {
      StackKept(f, s1, t1, s2, t2, v.value, w.value);
    }
  }

  lemma {:induction false} SocketsKept(f: Forest, s1: map<Ref, Shape>, t1: map<StackRef, Stack>, s2: map<Ref, Shape>, t2: map<StackRef, Stack>, x: Ref, ws: Entries<Option<Ref>>)
    requires Ranked(f) && x in f.shapes && Kept(s1, t1, s2, t2)
    requires SocketsCloned(f, s1, t1, x, ws)
    ensures SocketsCloned(f, s2, t2, x, ws)
    decreases f.rank[x], 2
  {
    var m := f.shapes[x].shadowless;
    forall j | 0 <= j < |ws| ensures SlotCloned(f, s2, t2, x, m[j].1, ws[j].1) {
      SlotKept(f, s1, t1, s2, t2, x, m[j].1, ws[j].1);
    }
  }

  lemma {:induction false} PairsKept(f: Forest, s1: map<Ref, Shape>, t1: map<StackRef, Stack>, s2: map<Ref, Shape>, t2: map<StackRef, Stack>, x: Ref, ps: Entries<(Ref, Option<Ref>)>)
    requires Ranked(f) && x in f.shapes && Kept(s1, t1, s2, t2)
    requires PairsCloned(f, s1, t1, x, ps)
    ensures PairsCloned(f, s2, t2, x, ps)
    decreases f.rank[x], 2
  {
    var m := f.shapes[x].paired;
    forall j | 0 <= j < |ps| ensures PairCloned(f, s2, t2, x, m[j].1, ps[j].1) {
      SlotKept(f, s1, t1, s2, t2, x, Some(m[j].1.0), Some(ps[j].1.0));
      SlotKept(f, s1, t1, s2, t2, x, m[j].1.1, ps[j].1.1);
    }
  }

  lemma {:induction false} NestedKept(f: Forest, s1: map<Ref, Shape>, t1: map<StackRef, Stack>, s2: map<Ref, Shape>, t2: map<StackRef, Stack>, x: Ref, ns: Entries<Option<StackRef>>)
    requires Ranked(f) && x in f.shapes && Kept(s1, t1, s2, t2)
    requires NestedCloned(f, s1, t1, x, ns)
    ensures NestedCloned(f, s2, t2, x, ns)
    decreases f.rank[x], 2
  {
    var m := f.shapes[x].nested;
    forall j | 0 <= j < |ns| ensures NestCloned(f, s2, t2, x, m[j].1, ns[j].1) {
      NestKept(f, s1, t1, s2, t2, x, m[j].1, ns[j].1);
    }
  }

  lemma {:induction false} StackKept(f: Forest, s1: map<Ref, Shape>, t1: map<StackRef, Stack>, s2: map<Ref, Shape>, t2: map<StackRef, Stack>, s: StackRef, t: StackRef)
    requires Ranked(f) && s in f.stacks && Kept(s1, t1, s2, t2)
    requires StackClonedTo(f, s1, t1, s, t)
    ensures StackClonedTo(f, s2, t2, s, t)
    decreases f.srank[s], 2
  {
    PrefixKept(f, s1, t1, s2, t2, s, t1[t].contents);
  }

  lemma {:induction false} PrefixKept(f: Forest, s1: map<Ref, Shape>, t1: map<StackRef, Stack>, s2: map<Ref, Shape>, t2: map<StackRef, Stack>, s: StackRef, cs: seq<Ref>)
    requires Ranked(f) && s in f.stacks && Kept(s1, t1, s2, t2)
    requires PrefixCloned(f, s1, t1, s, cs)
    ensures PrefixCloned(f, s2, t2, s, cs)
    decreases f.srank[s], 1
  {
    var c := f.stacks[s].contents;
    forall i | 0 <= i < |cs| ensures ClonedTo(f, s2, t2, c[i], cs[i]) {
      ClonedKept(f, s1, t1, s2, t2, c[i], cs[i]);
    }
  }

  lemma KeptTrans(s0: map<Ref, Shape>, t0: map<StackRef, Stack>, s1: map<Ref, Shape>, t1: map<StackRef, Stack>, s2: map<Ref, Shape>, t2: map<StackRef, Stack>)
    requires Kept(s0, t0, s1, t1) && Kept(s1, t1, s2, t2)
    ensures Kept(s0, t0, s2, t2)
  {
  }

  /** One more iteration of a cloning loop: the earlier entries stay clones in the grown
      graph, and the new entry is one. */
  lemma SocketsStep(f: Forest, s1: map<Ref, Shape>, t1: map<StackRef, Stack>, s2: map<Ref, Shape>, t2: map<StackRef, Stack>, x: Ref, ws: Entries<Option<Ref>>, w: Option<Ref>)
    requires Ranked(f) && x in f.shapes && Kept(s1, t1, s2, t2)
    requires SocketsCloned(f, s1, t1, x, ws) && |ws| < |f.shapes[x].shadowless|
    requires SlotCloned(f, s2, t2, x, f.shapes[x].shadowless[|ws|].1, w)
    ensures SocketsCloned(f, s2, t2, x, ws + [(f.shapes[x].shadowless[|ws|].0, w)])
  {
    SocketsKept(f, s1, t1, s2, t2, x, ws);
    var m := f.shapes[x].shadowless;
    var ws' := ws + [(m[|ws|].0, w)];
    forall j | 0 <= j < |ws'| ensures ws'[j].0 == m[j].0 && SlotCloned(f, s2, t2, x, m[j].1, ws'[j].1) {
      if j < |ws| {
        assert ws'[j] == ws[j];
      }
    }
  }

  lemma PairsStep(f: Forest, s1: map<Ref, Shape>, t1: map<StackRef, Stack>, s2: map<Ref, Shape>, t2: map<StackRef, Stack>, x: Ref, ps: Entries<(Ref, Option<Ref>)>, a: Ref, b: Option<Ref>)
    requires Ranked(f) && x in f.shapes && Kept(s1, t1, s2, t2)
    requires PairsCloned(f, s1, t1, x, ps) && |ps| < |f.shapes[x].paired|
    requires PairCloned(f, s2, t2, x, f.shapes[x].paired[|ps|].1, (a, b))
    ensures PairsCloned(f, s2, t2, x, ps + [(f.shapes[x].paired[|ps|].0, (a, b))])
  {
    PairsKept(f, s1, t1, s2, t2, x, ps);
    var m := f.shapes[x].paired;
    var ps' := ps + [(m[|ps|].0, (a, b))];
    forall j | 0 <= j < |ps'| ensures ps'[j].0 == m[j].0 && PairCloned(f, s2, t2, x, m[j].1, ps'[j].1) {
      if j < |ps| {
        assert ps'[j] == ps[j];
      }
    }
  }

  lemma NestedStep(f: Forest, s1: map<Ref, Shape>, t1: map<StackRef, Stack>, s2: map<Ref, Shape>, t2: map<StackRef, Stack>, x: Ref, ns: Entries<Option<StackRef>>, w: Option<StackRef>)
    requires Ranked(f) && x in f.shapes && Kept(s1, t1, s2, t2)
    requires NestedCloned(f, s1, t1, x, ns) && |ns| < |f.shapes[x].nested|
    requires NestCloned(f, s2, t2, x, f.shapes[x].nested[|ns|].1, w)
    ensures NestedCloned(f, s2, t2, x, ns + [(f.shapes[x].nested[|ns|].0, w)])
  {
    NestedKept(f, s1, t1, s2, t2, x, ns);
    var m := f.shapes[x].nested;
    var ns' := ns + [(m[|ns|].0, w)];
    forall j | 0 <= j < |ns'| ensures ns'[j].0 == m[j].0 && NestCloned(f, s2, t2, x, m[j].1, ns'[j].1) {
      if j < |ns| {
        assert ns'[j] == ns[j];
      }
    }
  }

  lemma PrefixStep(f: Forest, s1: map<Ref, Shape>, t1: map<StackRef, Stack>, s2: map<Ref, Shape>, t2: map<StackRef, Stack>, s: StackRef, cs: seq<Ref>, y: Ref)
    requires Ranked(f) && s in f.stacks && Kept(s1, t1, s2, t2)
    requires PrefixCloned(f, s1, t1, s, cs) && |cs| < |f.stacks[s].contents|
    requires Below(f, Into(f.stacks[s].contents[|cs|]), f.srank[s]) && ClonedTo(f, s2, t2, f.stacks[s].contents[|cs|], y)
    ensures PrefixCloned(f, s2, t2, s, cs + [y])
  {
    PrefixKept(f, s1, t1, s2, t2, s, cs);
  }

  // ---- Where the recursion goes ----

  lemma {:induction false} SocketHas(shapes: map<Ref, Shape>, m: Entries<Option<Ref>>, i: nat)
    requires i < |m| && m[i].1.Some? && m[i].1.value in shapes
    ensures Into(m[i].1.value) in SocketChildren(shapes, m, false)
    decreases i
  {
    if i > 0 {
      SocketHas(shapes, m[1..], i - 1);
    }
  }

  lemma {:induction false} PairHas(shapes: map<Ref, Shape>, m: Entries<(Ref, Option<Ref>)>, i: nat)
    requires i < |m| && m[i].1.0 in shapes
    ensures Into(m[i].1.0) in PairChildren(shapes, m, false)
    ensures m[i].1.1.Some? && m[i].1.1.value in shapes ==> Into(m[i].1.1.value) in PairChildren(shapes, m, false)
    decreases i
  {
    if i > 0 {
      PairHas(shapes, m[1..], i - 1);
    }
  }

  lemma {:induction false} StackHas(stacks: map<StackRef, Stack>, m: Entries<Option<StackRef>>, i: nat)
    requires i < |m| && m[i].1.Some? && m[i].1.value in stacks
    ensures IntoStack(m[i].1.value) in StackChildren(stacks, m)
    decreases i
  {
    if i > 0 {
      StackHas(stacks, m[1..], i - 1);
    }
  }

  lemma ShadowlessBelow(f: Forest, x: Ref, i: nat)
    requires Source(f) && x in f.shapes && i < |f.shapes[x].shadowless| && f.shapes[x].shadowless[i].1.Some?
    ensures Below(f, Into(f.shapes[x].shadowless[i].1.value), f.rank[x])
  {
    var sh := f.shapes[x];
    assert sh.shadowless[i].1 in Values(sh.shadowless);
    SocketHas(f.shapes, sh.shadowless, i);
    assert RankedBlock(f, x);
  }

  lemma PairedBelow(f: Forest, x: Ref, i: nat)
    requires Source(f) && x in f.shapes && i < |f.shapes[x].paired|
    ensures Below(f, Into(f.shapes[x].paired[i].1.0), f.rank[x])
    ensures f.shapes[x].paired[i].1.1.Some? ==> Below(f, Into(f.shapes[x].paired[i].1.1.value), f.rank[x])
  {
    var sh := f.shapes[x];
    assert sh.paired[i].1 in Values(sh.paired);
    PairHas(f.shapes, sh.paired, i);
    assert RankedBlock(f, x);
  }

  lemma NestedBelow(f: Forest, x: Ref, i: nat)
    requires Source(f) && x in f.shapes && i < |f.shapes[x].nested| && f.shapes[x].nested[i].1.Some?
    ensures Below(f, IntoStack(f.shapes[x].nested[i].1.value), f.rank[x])
  {
    var sh := f.shapes[x];
    assert sh.nested[i].1 in Values(sh.nested);
    StackHas(f.stacks, sh.nested, i);
    assert RankedBlock(f, x);
  }

  lemma IsolatedBelow(f: Forest, x: Ref)
    requires Ranked(f) && x in f.shapes && f.shapes[x].kind.Isolated?
    ensures Below(f, IntoStack(f.shapes[x].kind.own), f.rank[x])
  {
    assert RankedBlock(f, x);
  }

  /** A new isolated hat around the clone of `x`'s stack is the clone of `x`. */
  lemma IsolatedCloned(f: Forest, s1: map<Ref, Shape>, t1: map<StackRef, Stack>, x: Ref, y: Ref, t: StackRef)
    requires Ranked(f) && x in f.shapes && f.shapes[x].kind.Isolated?
    requires Kept(f.shapes, f.stacks, s1, t1) && y !in s1
    requires f.shapes[x].kind.own in f.stacks && StackClonedTo(f, s1, t1, f.shapes[x].kind.own, t)
    ensures Kept(s1, t1, s1[y := IsolatedShape(t)], t1) && Kept(f.shapes, f.stacks, s1[y := IsolatedShape(t)], t1)
    ensures ClonedTo(f, s1[y := IsolatedShape(t)], t1, x, y)
  {
    var s2 := s1[y := IsolatedShape(t)];
    IsolatedBelow(f, x);
    StackKept(f, s1, t1, s2, t1, f.shapes[x].kind.own, t);
  }

  lemma ElementBelow(f: Forest, s: StackRef, i: nat)
    requires Ranked(f) && s in f.stacks && i < |f.stacks[s].contents|
    ensures Below(f, Into(f.stacks[s].contents[i]), f.srank[s])
  {
    assert RankedStack(f, s) && f.stacks[s].contents[i] in f.stacks[s].contents;
  }

  /** A clone is an object of the grown graph. */
  lemma ClonedIn(f: Forest, s2: map<Ref, Shape>, t2: map<StackRef, Stack>, x: Ref, y: Ref)
    requires Ranked(f) && x in f.shapes && Grows(f.shapes, s2) && ClonedTo(f, s2, t2, x, y)
    ensures y in s2
  {
  }

  /** A deep copy refers only to objects and stacks of the grown graph. */
  lemma CopyClosed(f: Forest, s2: map<Ref, Shape>, t2: map<StackRef, Stack>, x: Ref, sh2: Shape)
    requires Source(f) && x in f.shapes && Kept(f.shapes, f.stacks, s2, t2) && !f.shapes[x].kind.Isolated?
    requires CopiedTo(f, s2, t2, x, sh2)
    ensures ShapeClosed(sh2, s2, t2)
  {
    var sh := f.shapes[x];
    assert ShapeClosed(sh, f.shapes, f.stacks);
    forall v | v in Values(sh2.shadowless) && v.Some? ensures v.value in s2 {
      var j :| 0 <= j < |sh2.shadowless| && sh2.shadowless[j].1 == v;
      assert SlotCloned(f, s2, t2, x, sh.shadowless[j].1, v);
      ClonedIn(f, s2, t2, sh.shadowless[j].1.value, v.value);
    }
    forall v | v in Values(sh2.paired) ensures v.0 in s2 && (v.1.Some? ==> v.1.value in s2) {
      var j :| 0 <= j < |sh2.paired| && sh2.paired[j].1 == v;
      assert PairCloned(f, s2, t2, x, sh.paired[j].1, v);
      assert SlotCloned(f, s2, t2, x, Some(sh.paired[j].1.0), Some(v.0));
      ClonedIn(f, s2, t2, sh.paired[j].1.0, v.0);
      if v.1.Some? {
        assert SlotCloned(f, s2, t2, x, sh.paired[j].1.1, v.1);
        ClonedIn(f, s2, t2, sh.paired[j].1.1.value, v.1.value);
      }
    }
    forall v | v in Values(sh2.nested) && v.Some? ensures v.value in t2 {
      var j :| 0 <= j < |sh2.nested| && sh2.nested[j].1 == v;
      assert NestCloned(f, s2, t2, x, sh.nested[j].1, v);
      assert StackClonedTo(f, s2, t2, sh.nested[j].1.value, v.value);
    }
  }

  // ---- The operations ----

  /** The id made last by a counter now at `idx`. */
  lemma LastId(n0: nat, idx: nat)
    requires idx == n0 + 1
    ensures Base62(idx - 1) == Base62(n0)
  {
    assert idx - 1 == n0;
  }

  /** The id generator's mode is unchanged, and its counter has not gone back. */
  ghost predicate Counted(m0: bool, i0: nat, m: bool, i: nat)
  {
    m == m0 && (!m ==> i0 <= i)
  }

  /** What every cloning step keeps: the graph valid and the original graph in it, unchanged. */
  ghost predicate Ready(g: Graph, f: Forest)
    reads g
  {
    g.Valid() && Source(f) && Kept(f.shapes, f.stacks, g.shapes, g.stacks)
  }

  /** `cloneBlock` (and, for an expression, `cloneExpression` and `cloneShadowExpression`,
      to which it delegates): dispatches on the class of `x`. */
  method CloneBlock(g: Graph, ghost f: Forest, x: Ref) returns (y: Ref)
    requires Ready(g, f) && x in f.shapes
    modifies g`shapes, g`nextRef, g`stacks, g`nextStack, g.gen
    ensures Ready(g, f) && Kept(old(g.shapes), old(g.stacks), g.shapes, g.stacks)
    ensures y in g.shapes && ClonedTo(f, g.shapes, g.stacks, x, y)
    ensures Counted(old(g.gen.isModifying), old(g.gen.currentIdIdx), g.gen.isModifying, g.gen.currentIdIdx)
    decreases f.rank[x], 5
  {
    var k := g.shapes[x].kind;
    if Shared(k) {
      y := x;
    } else if k.LiteralK? {
      y := NewLiteral(g, k.lit);
    } else if k.Isolated? {
      y := CloneIsolated(g, f, x);
    } else {
      y := CloneCopy(g, f, x);
    }
  }

  /** `IsolatedBlockStackHat.cloneBlock`: a new isolated hat around a clone of its stack. */
  method CloneIsolated(g: Graph, ghost f: Forest, x: Ref) returns (y: Ref)
    requires Ready(g, f) && x in f.shapes
    requires f.shapes[x].kind.Isolated?
    modifies g`shapes, g`nextRef, g`stacks, g`nextStack, g.gen
    ensures Ready(g, f) && Kept(old(g.shapes), old(g.stacks), g.shapes, g.stacks)
    ensures y !in old(g.shapes) && y in g.shapes && ClonedTo(f, g.shapes, g.stacks, x, y)
    ensures Counted(old(g.gen.isModifying), old(g.gen.currentIdIdx), g.gen.isModifying, g.gen.currentIdIdx)
    decreases f.rank[x], 4
  {
    var own := g.shapes[x].kind.own;
    IsolatedBelow(f, x);
    var t := CloneBlockStack(g, f, own);
    ghost var s1, t1 := g.shapes, g.stacks;
    y := WrapIsolated(g, f, x, t);
    KeptTrans(old(g.shapes), old(g.stacks), s1, t1, g.shapes, g.stacks);
  }

  /** The new isolated hat itself, once its stack is cloned. */
  method WrapIsolated(g: Graph, ghost f: Forest, x: Ref, t: StackRef) returns (y: Ref)
    requires Ready(g, f) && x in f.shapes && f.shapes[x].kind.Isolated? && f.shapes[x].kind.own in f.stacks
    requires StackClonedTo(f, g.shapes, g.stacks, f.shapes[x].kind.own, t)
    modifies g`shapes, g`nextRef
    ensures Ready(g, f) && Kept(old(g.shapes), old(g.stacks), g.shapes, g.stacks)
    ensures y !in old(g.shapes) && y in g.shapes && ClonedTo(f, g.shapes, g.stacks, x, y)
  {
    ghost var s1, t1 := g.shapes, g.stacks;
    y := NewIsolated(g, t);
    IsolatedCloned(f, s1, t1, x, y, t);
  }

  /** `NormalBlock.cloneBlock` and `NormalExpression.cloneExpression`: a new object with
      the same opcode whose three socket maps are filled, in order, with clones. */
  method CloneCopy(g: Graph, ghost f: Forest, x: Ref) returns (y: Ref)
    requires Ready(g, f) && x in f.shapes
    requires !Shared(f.shapes[x].kind) && !f.shapes[x].kind.LiteralK? && !f.shapes[x].kind.Isolated?
    modifies g`shapes, g`nextRef, g`stacks, g`nextStack, g.gen
    ensures Ready(g, f) && Kept(old(g.shapes), old(g.stacks), g.shapes, g.stacks)
    ensures y !in old(g.shapes) && y in g.shapes && CopiedTo(f, g.shapes, g.stacks, x, g.shapes[y])
    ensures Counted(old(g.gen.isModifying), old(g.gen.currentIdIdx), g.gen.isModifying, g.gen.currentIdIdx)
    decreases f.rank[x], 4
  {
    var ws := CloneSockets(g, f, x);
    ghost var s1, t1 := g.shapes, g.stacks;
    var ps := ClonePairs(g, f, x);
    SocketsKept(f, s1, t1, g.shapes, g.stacks, x, ws);
    ghost var s2, t2 := g.shapes, g.stacks;
    var ns := CloneNested(g, f, x);
    SocketsKept(f, s2, t2, g.shapes, g.stacks, x, ws);
    PairsKept(f, s2, t2, g.shapes, g.stacks, x, ps);
    y := AllocCopy(g, f, x, ws, ps, ns);
  }

  /** The copy itself, once its socket maps are filled. */
  method AllocCopy(g: Graph, ghost f: Forest, x: Ref, ws: Entries<Option<Ref>>, ps: Entries<(Ref, Option<Ref>)>, ns: Entries<Option<StackRef>>)
      returns (y: Ref)
    requires Ready(g, f) && x in f.shapes
    requires !f.shapes[x].kind.Isolated?
    requires |ws| == |f.shapes[x].shadowless| && SocketsCloned(f, g.shapes, g.stacks, x, ws)
    requires |ps| == |f.shapes[x].paired| && PairsCloned(f, g.shapes, g.stacks, x, ps)
    requires |ns| == |f.shapes[x].nested| && NestedCloned(f, g.shapes, g.stacks, x, ns)
    modifies g`shapes, g`nextRef
    ensures Ready(g, f) && Kept(old(g.shapes), old(g.stacks), g.shapes, g.stacks)
    ensures y !in old(g.shapes) && y in g.shapes && CopiedTo(f, g.shapes, g.stacks, x, g.shapes[y])
  {
    var sh := g.shapes[x];
    var copy := Shape(CopyKind(sh.kind), sh.opcode, false, false, ws, ps, ns, if sh.kind.Reporter? then [] else sh.fields, []);
    ghost var s1, t1 := g.shapes, g.stacks;
    assert CopiedTo(f, s1, t1, x, copy);
    CopyClosed(f, s1, t1, x, copy);
    y := g.Alloc(copy);
    CopiedKept(f, s1, t1, g.shapes, g.stacks, x, copy);
  }

  /** One `shadowlessExpressionInputs` entry: null stays null, an expression is cloned. */
  method CloneSlot(g: Graph, ghost f: Forest, x: Ref, v: Option<Ref>) returns (w: Option<Ref>)
    requires Ready(g, f) && x in f.shapes
    requires v.Some? ==> Below(f, Into(v.value), f.rank[x])
    modifies g`shapes, g`nextRef, g`stacks, g`nextStack, g.gen
    ensures Ready(g, f) && Kept(old(g.shapes), old(g.stacks), g.shapes, g.stacks)
    ensures SlotCloned(f, g.shapes, g.stacks, x, v, w)
    ensures Counted(old(g.gen.isModifying), old(g.gen.currentIdIdx), g.gen.isModifying, g.gen.currentIdIdx)
    decreases f.rank[x], 1
  {
    w := None;
    if v.Some? {
      var c := CloneBlock(g, f, v.value);
      w := Some(c);
    }
  }

  /** One `expressionInputs` entry: the shadow cloned, then the value if any. */
  method ClonePair(g: Graph, ghost f: Forest, x: Ref, v: (Ref, Option<Ref>)) returns (w: (Ref, Option<Ref>))
    requires Ready(g, f) && x in f.shapes
    requires Below(f, Into(v.0), f.rank[x]) && (v.1.Some? ==> Below(f, Into(v.1.value), f.rank[x]))
    modifies g`shapes, g`nextRef, g`stacks, g`nextStack, g.gen
    ensures Ready(g, f) && Kept(old(g.shapes), old(g.stacks), g.shapes, g.stacks)
    ensures PairCloned(f, g.shapes, g.stacks, x, v, w)
    ensures Counted(old(g.gen.isModifying), old(g.gen.currentIdIdx), g.gen.isModifying, g.gen.currentIdIdx)
    decreases f.rank[x], 2
  {
    var a := CloneSlot(g, f, x, Some(v.0));
    ghost var s1, t1 := g.shapes, g.stacks;
    KeptTrans(f.shapes, f.stacks, old(g.shapes), old(g.stacks), s1, t1);
    var b := CloneSlot(g, f, x, v.1);
    SlotKept(f, s1, t1, g.shapes, g.stacks, x, Some(v.0), a);
    w := (a.value, b);
  }

  /** One `blockStackInputs` entry: null stays null, a stack is cloned. */
  method CloneNest(g: Graph, ghost f: Forest, x: Ref, v: Option<StackRef>) returns (w: Option<StackRef>)
    requires Ready(g, f) && x in f.shapes
    requires v.Some? ==> Below(f, IntoStack(v.value), f.rank[x])
    modifies g`shapes, g`nextRef, g`stacks, g`nextStack, g.gen
    ensures Ready(g, f) && Kept(old(g.shapes), old(g.stacks), g.shapes, g.stacks)
    ensures NestCloned(f, g.shapes, g.stacks, x, v, w)
    ensures Counted(old(g.gen.isModifying), old(g.gen.currentIdIdx), g.gen.isModifying, g.gen.currentIdIdx)
    decreases f.rank[x], 1
  {
    w := None;
    if v.Some? {
      var t := CloneBlockStack(g, f, v.value);
      w := Some(t);
    }
  }

  /** The `shadowlessExpressionInputs.forEach` loop. */
  method CloneSockets(g: Graph, ghost f: Forest, x: Ref) returns (ws: Entries<Option<Ref>>)
    requires Ready(g, f) && x in f.shapes
    modifies g`shapes, g`nextRef, g`stacks, g`nextStack, g.gen
    ensures Ready(g, f) && Kept(old(g.shapes), old(g.stacks), g.shapes, g.stacks)
    ensures |ws| == |f.shapes[x].shadowless| && SocketsCloned(f, g.shapes, g.stacks, x, ws)
    ensures Counted(old(g.gen.isModifying), old(g.gen.currentIdIdx), g.gen.isModifying, g.gen.currentIdIdx)
    decreases f.rank[x], 2
  {
    var m := g.shapes[x].shadowless;
    ws := [];
    var i := 0;
    while i < |m|
      invariant i <= |m| && |ws| == i
      invariant Ready(g, f) && Kept(old(g.shapes), old(g.stacks), g.shapes, g.stacks)
      invariant SocketsCloned(f, g.shapes, g.stacks, x, ws)
      invariant Counted(old(g.gen.isModifying), old(g.gen.currentIdIdx), g.gen.isModifying, g.gen.currentIdIdx)
    {
      ghost var s1, t1 := g.shapes, g.stacks;
      if m[i].1.Some? {
        ShadowlessBelow(f, x, i);
      }
      var w := CloneSlot(g, f, x, m[i].1);
      SocketsStep(f, s1, t1, g.shapes, g.stacks, x, ws, w);
      KeptTrans(old(g.shapes), old(g.stacks), s1, t1, g.shapes, g.stacks);
      ws := ws + [(m[i].0, w)];
      i := i + 1;
    }
  }

  /** The `expressionInputs.forEach` loop. */
  method ClonePairs(g: Graph, ghost f: Forest, x: Ref) returns (ps: Entries<(Ref, Option<Ref>)>)
    requires Ready(g, f) && x in f.shapes
    modifies g`shapes, g`nextRef, g`stacks, g`nextStack, g.gen
    ensures Ready(g, f) && Kept(old(g.shapes), old(g.stacks), g.shapes, g.stacks)
    ensures |ps| == |f.shapes[x].paired| && PairsCloned(f, g.shapes, g.stacks, x, ps)
    ensures Counted(old(g.gen.isModifying), old(g.gen.currentIdIdx), g.gen.isModifying, g.gen.currentIdIdx)
    decreases f.rank[x], 3
  {
    var m := g.shapes[x].paired;
    ps := [];
    var i := 0;
    while i < |m|
      invariant i <= |m| && |ps| == i
      invariant Ready(g, f) && Kept(old(g.shapes), old(g.stacks), g.shapes, g.stacks)
      invariant PairsCloned(f, g.shapes, g.stacks, x, ps)
      invariant Counted(old(g.gen.isModifying), old(g.gen.currentIdIdx), g.gen.isModifying, g.gen.currentIdIdx)
    {
      ghost var s1, t1 := g.shapes, g.stacks;
      PairedBelow(f, x, i);
      var w := ClonePair(g, f, x, m[i].1);
      PairsStep(f, s1, t1, g.shapes, g.stacks, x, ps, w.0, w.1);
      KeptTrans(old(g.shapes), old(g.stacks), s1, t1, g.shapes, g.stacks);
      ps := ps + [(m[i].0, w)];
      i := i + 1;
    }
  }

  /** The `blockStackInputs.forEach` loop. */
  method CloneNested(g: Graph, ghost f: Forest, x: Ref) returns (ns: Entries<Option<StackRef>>)
    requires Ready(g, f) && x in f.shapes
    modifies g`shapes, g`nextRef, g`stacks, g`nextStack, g.gen
    ensures Ready(g, f) && Kept(old(g.shapes), old(g.stacks), g.shapes, g.stacks)
    ensures |ns| == |f.shapes[x].nested| && NestedCloned(f, g.shapes, g.stacks, x, ns)
    ensures Counted(old(g.gen.isModifying), old(g.gen.currentIdIdx), g.gen.isModifying, g.gen.currentIdIdx)
    decreases f.rank[x], 2
  {
    var m := g.shapes[x].nested;
    ns := [];
    var i := 0;
    while i < |m|
      invariant i <= |m| && |ns| == i
      invariant Ready(g, f) && Kept(old(g.shapes), old(g.stacks), g.shapes, g.stacks)
      invariant NestedCloned(f, g.shapes, g.stacks, x, ns)
      invariant Counted(old(g.gen.isModifying), old(g.gen.currentIdIdx), g.gen.isModifying, g.gen.currentIdIdx)
    {
      ghost var s1, t1 := g.shapes, g.stacks;
      if m[i].1.Some? {
        NestedBelow(f, x, i);
      }
      var w := CloneNest(g, f, x, m[i].1);
      NestedStep(f, s1, t1, g.shapes, g.stacks, x, ns, w);
      KeptTrans(old(g.shapes), old(g.stacks), s1, t1, g.shapes, g.stacks);
      ns := ns + [(m[i].0, w)];
      i := i + 1;
    }
  }

  /** `cloneBlockStack`: a new stack of the clones of the elements in order, whose id is
      made after all of the elements' clones. */
  method CloneBlockStack(g: Graph, ghost f: Forest, s: StackRef) returns (t: StackRef)
    requires Ready(g, f) && s in f.stacks
    modifies g`shapes, g`nextRef, g`stacks, g`nextStack, g.gen
    ensures Ready(g, f) && Kept(old(g.shapes), old(g.stacks), g.shapes, g.stacks)
    ensures t !in old(g.stacks) && StackClonedTo(f, g.shapes, g.stacks, s, t)
    ensures Counted(old(g.gen.isModifying), old(g.gen.currentIdIdx), g.gen.isModifying, g.gen.currentIdIdx)
    ensures !g.gen.isModifying ==>
              old(g.gen.currentIdIdx) < g.gen.currentIdIdx && g.stacks[t].id == Base62(g.gen.currentIdIdx - 1)
              && forall n: nat | n < old(g.gen.currentIdIdx) :: g.stacks[t].id != Base62(n)
    decreases f.srank[s], 2
  {
    var cs := CloneElements(g, f, s);
    ghost var s1, t1 := g.shapes, g.stacks;
    t := NewClonedStack(g, f, s, cs);
    KeptTrans(old(g.shapes), old(g.stacks), s1, t1, g.shapes, g.stacks);
  }

  /** The `BlockStack` of the clones, with an id made now. */
  method NewClonedStack(g: Graph, ghost f: Forest, s: StackRef, cs: seq<Ref>) returns (t: StackRef)
    requires Ready(g, f) && s in f.stacks
    requires |cs| == |f.stacks[s].contents| && PrefixCloned(f, g.shapes, g.stacks, s, cs)
    requires forall y | y in cs :: y in g.shapes
    modifies g`stacks, g`nextStack, g.gen
    ensures Ready(g, f) && Kept(old(g.shapes), old(g.stacks), g.shapes, g.stacks)
    ensures t !in old(g.stacks) && StackClonedTo(f, g.shapes, g.stacks, s, t)
    ensures Counted(old(g.gen.isModifying), old(g.gen.currentIdIdx), g.gen.isModifying, g.gen.currentIdIdx)
    ensures !g.gen.isModifying ==>
              old(g.gen.currentIdIdx) < g.gen.currentIdIdx && g.stacks[t].id == Base62(g.gen.currentIdIdx - 1)
              && forall n: nat | n < old(g.gen.currentIdIdx) :: g.stacks[t].id != Base62(n)
  {
    ghost var s1, t1, n0 := g.shapes, g.stacks, g.gen.currentIdIdx;
    t := g.NewStack(cs);
    PrefixKept(f, s1, t1, g.shapes, g.stacks, s, cs);
    if !g.gen.isModifying {
      LastId(n0, g.gen.currentIdIdx);
      forall n: nat | n < old(g.gen.currentIdIdx) ensures g.stacks[t].id != Base62(n) {
        Base62Injective(n0, n);
      }
    }
  }

  /** The `blockStack.blocks.map` loop of `cloneBlockStack`: each element cloned in order. */
  method CloneElements(g: Graph, ghost f: Forest, s: StackRef) returns (cs: seq<Ref>)
    requires Ready(g, f) && s in f.stacks
    modifies g`shapes, g`nextRef, g`stacks, g`nextStack, g.gen
    ensures Ready(g, f) && Kept(old(g.shapes), old(g.stacks), g.shapes, g.stacks)
    ensures |cs| == |f.stacks[s].contents| && PrefixCloned(f, g.shapes, g.stacks, s, cs)
    ensures forall y | y in cs :: y in g.shapes
    ensures Counted(old(g.gen.isModifying), old(g.gen.currentIdIdx), g.gen.isModifying, g.gen.currentIdIdx)
    decreases f.srank[s], 1
  {
    var c := g.stacks[s].contents;
    cs := [];
    var i := 0;
    while i < |c|
      invariant i <= |c| && |cs| == i
      invariant Ready(g, f) && Kept(old(g.shapes), old(g.stacks), g.shapes, g.stacks)
      invariant PrefixCloned(f, g.shapes, g.stacks, s, cs) && forall y | y in cs :: y in g.shapes
      invariant Counted(old(g.gen.isModifying), old(g.gen.currentIdIdx), g.gen.isModifying, g.gen.currentIdIdx)
    {
      ghost var s1, t1 := g.shapes, g.stacks;
      ElementBelow(f, s, i);
      var y := CloneBlock(g, f, c[i]);
      PrefixStep(f, s1, t1, g.shapes, g.stacks, s, cs, y);
      KeptTrans(old(g.shapes), old(g.stacks), s1, t1, g.shapes, g.stacks);
      cs := cs + [y];
      i := i + 1;
    }
  }
}
