/** `prepareRepresent` (Blocks.kt, Build.kt, SpecialInputs.kt): the pass run over a
    sprite's scripts just before serialisation.  Every socket's expression is prepared
    first; an expression that should be copied is then replaced by its copy, and every
    nested stack is prepared element by element, hats skipped.  A placeholder resolves
    itself against the sprite, so its copy is a copy of the sprite's first costume,
    sound, backdrop or broadcast; an isolated hat marks its stack's first block top
    level.

    The pass is given twice: as functions that run it step by step on the part of the
    arena it changes (`PState`), and as the methods that change the arena in place,
    each proved to end in the state and outcome its function computes.  The functions
    take a fuel bound and are `Stuck` when it runs out or an object is missing; the
    properties of the pass, among them that a ranked arena never gets stuck, are the
    lemmas of `PrepareFacts`. */
module Prepare {
  import opened Wrappers
  import opened Graph
  import opened Represent
  import opened Special

  /** What the pass reads and writes: the objects, the placeholders' slots and the
      allocation counter. */
  datatype PState = PState(shapes: map<Ref, Shape>, slots: Slots, nextRef: nat)

  /** How (part of) the pass ends: in a state, with an outcome (a thrown exception is a
      `Fail`), or stuck. */
  datatype Run = Done(st: PState, o: Outcome) | Stuck

  function StateOf(g: Graph): PState
    reads g`shapes, g`nextRef, g`backdropSlot, g`costumeSlot, g`soundSlot, g`broadcastSlot
  {
    PState(g.shapes, SlotsOf(g), g.nextRef)
  }

  predicate Passed(r: Run)
  {
    r.Done? && r.o.Pass?
  }

  const EmptyStack := "You need to add blocks to the BlockStack before doing that."

  // ---- The pass, step by step ----

  /** The copy step after preparing `u`: `makeCopy` when `u` should be copied (a new
      object under the next free ref, or the resolved broadcast), else `u` itself. */
  function CopyRun(s: PState, u: Ref): (Run, Ref)
  {
    if u !in s.shapes then (Stuck, u)
    else if !ShouldCopy(s.shapes[u].kind) then (Done(s, Pass), u)
    else
      match CopyOf(s.shapes[u].kind, s.shapes[u].opcode, s.slots, s.nextRef)
      case Err(e) => (Done(s, Fail(e)), u)
      case Ok(Same(b)) => (Done(s, Pass), b)
      case Ok(Fresh(sh)) => (Done(s.(shapes := s.shapes[s.nextRef := sh], nextRef := s.nextRef + 1), Pass), s.nextRef)
  }

  /** A placeholder's own step: it reads the sprite's first backdrop, costume, sound or
      broadcast, and `[0]` of an empty list throws. */
  function ResolveRun(s: PState, p: Placeholder, sp: SpriteView): Run
  {
    if ResolveFails(p, sp) then Done(s, Fail(OutOfBounds("Index 0 out of bounds for length 0")))
    else Done(s.(slots := Resolved(s.slots, p, sp)), Pass)
  }

  /** Shadowless socket `i` of `x` now holds `c`, under its key. */
  function SetShadowless(s: PState, x: Ref, i: nat, c: Ref): PState
    requires x in s.shapes && i < |s.shapes[x].shadowless|
  {
    var sh := s.shapes[x];
    s.(shapes := s.shapes[x := sh.(shadowless := sh.shadowless[i := (sh.shadowless[i].0, Some(c))])])
  }

  /** Shadow/value socket `i` of `x` now holds `(a, e)`, under its key. */
  function SetPaired(s: PState, x: Ref, i: nat, a: Ref, e: Option<Ref>): PState
    requires x in s.shapes && i < |s.shapes[x].paired|
  {
    var sh := s.shapes[x];
    s.(shapes := s.shapes[x := sh.(paired := sh.paired[i := (sh.paired[i].0, (a, e))])])
  }

  /** `x.prepareRepresent(sprite)` with fuel `n`.  An isolated hat marks the first block
      of its stack top level (an empty stack throws) and prepares the stack.  Any other
      object runs its three socket maps in order (`Shadowless`, then `PairedThen`); then
      a placeholder resolves itself and a hat prepares its own stack. */
  function Block(s: PState, x: Ref, n: nat, stacks: map<StackRef, Stack>, sp: SpriteView): Run
    decreases n, 3, 3
  {
    if x !in s.shapes then Stuck
    else
      var k := s.shapes[x].kind;
      if k.Isolated? then
        if k.own !in stacks then Stuck
        else if |stacks[k.own].contents| == 0 then Done(s, Fail(IllegalState(EmptyStack)))
        else
          var y := stacks[k.own].contents[0];
          if y !in s.shapes then Stuck
          else StackRun(s.(shapes := s.shapes[y := s.shapes[y].(topLevel := true)]), k.own, 0, n, stacks, sp)
      else
        var r1 := Shadowless(s, x, 0, |s.shapes[x].shadowless|, n, stacks, sp);
        if !Passed(r1) then r1 else PairedThen(r1.st, x, n, stacks, sp)
  }

  /** What `x` does once its shadowless sockets are done: its shadow/value sockets, then
      `NestedThen`. */
  function PairedThen(s: PState, x: Ref, n: nat, stacks: map<StackRef, Stack>, sp: SpriteView): Run
    decreases n, 3, 2
  {
    if x !in s.shapes then Stuck
    else
      var r := Paired(s, x, 0, |s.shapes[x].paired|, n, stacks, sp);
      if !Passed(r) then r else NestedThen(r.st, x, n, stacks, sp)
  }

  /** What `x` does once its expression sockets are done: its nested stacks, then
      `OwnStep`. */
  function NestedThen(s: PState, x: Ref, n: nat, stacks: map<StackRef, Stack>, sp: SpriteView): Run
    decreases n, 3, 1
  {
    if x !in s.shapes then Stuck
    else
      var r := Nested(s, x, 0, |s.shapes[x].nested|, n, stacks, sp);
      if !Passed(r) then r else OwnStep(r.st, x, n, stacks, sp)
  }

  /** The last part of `prepareRepresent`: a placeholder resolves itself, a hat prepares
      its own stack, anything else is done. */
  function OwnStep(s: PState, x: Ref, n: nat, stacks: map<StackRef, Stack>, sp: SpriteView): Run
    decreases n, 3, 0
  {
    if x !in s.shapes then Stuck
    else
      var k := s.shapes[x].kind;
      if k.FirstK? then ResolveRun(s, k.which, sp)
      else if k.Hat? then StackRun(s, k.own, 0, n, stacks, sp)
      else Done(s, Pass)
  }

  /** One shadowless socket's expression: prepared, then copied when it should be. */
  function EntryRun(s: PState, u: Ref, n: nat, stacks: map<StackRef, Stack>, sp: SpriteView): (Run, Ref)
    decreases n, 4, 0
  {
    var r := Block(s, u, n, stacks, sp);
    if !Passed(r) then (r, u) else CopyRun(r.st, u)
  }

  /** One shadow/value socket: the shadow prepared, then the value (if any); then the
      shadow copied, then the value. */
  function PairRun(s: PState, a: Ref, e: Option<Ref>, n: nat, stacks: map<StackRef, Stack>, sp: SpriteView): (Run, Ref, Option<Ref>)
    decreases n, 4, 0
  {
    var r1 := Block(s, a, n, stacks, sp);
    if !Passed(r1) then (r1, a, e)
    else
      var r2 := if e.Some? then Block(r1.st, e.value, n, stacks, sp) else r1;
      if !Passed(r2) then (r2, a, e) else CopyPair(r2.st, a, e)
  }

  /** The copy steps of a shadow/value socket: the shadow, then the value (if any). */
  function CopyPair(s: PState, a: Ref, e: Option<Ref>): (Run, Ref, Option<Ref>)
  {
    var (r1, ca) := CopyRun(s, a);
    if !Passed(r1) || e.None? then (r1, ca, e)
    else
      var (r2, ce) := CopyRun(r1.st, e.value);
      (r2, ca, Some(ce))
  }

  /** The shadowless sockets of `x` from `i` on (`len` of them in all): a null entry is
      skipped, any other is prepared and the entry rewritten to the copy. */
  function Shadowless(s: PState, x: Ref, i: nat, len: nat, n: nat, stacks: map<StackRef, Stack>, sp: SpriteView): Run
    decreases n, 2, len - i
  {
    if i >= len then Done(s, Pass)
    else if x !in s.shapes || i >= |s.shapes[x].shadowless| then Stuck
    else
      var u := s.shapes[x].shadowless[i].1;
      if u.None? then Shadowless(s, x, i + 1, len, n, stacks, sp)
      else if n == 0 then Stuck
      else
        var (r, c) := EntryRun(s, u.value, n - 1, stacks, sp);
        if !Passed(r) then r
        else if x !in r.st.shapes || i >= |r.st.shapes[x].shadowless| then Stuck
        else Shadowless(SetShadowless(r.st, x, i, c), x, i + 1, len, n, stacks, sp)
  }

  /** The shadow/value sockets of `x` from `i` on: each pair prepared and rewritten to
      the copies. */
  function Paired(s: PState, x: Ref, i: nat, len: nat, n: nat, stacks: map<StackRef, Stack>, sp: SpriteView): Run
    decreases n, 2, len - i
  {
    if i >= len then Done(s, Pass)
    else if x !in s.shapes || i >= |s.shapes[x].paired| || n == 0 then Stuck
    else
      var (a, e) := s.shapes[x].paired[i].1;
      var (r, ca, ce) := PairRun(s, a, e, n - 1, stacks, sp);
      if !Passed(r) then r
      else if x !in r.st.shapes || i >= |r.st.shapes[x].paired| then Stuck
      else Paired(SetPaired(r.st, x, i, ca, ce), x, i + 1, len, n, stacks, sp)
  }

  /** The nested stacks of `x` from `i` on: each non-null one prepared. */
  function Nested(s: PState, x: Ref, i: nat, len: nat, n: nat, stacks: map<StackRef, Stack>, sp: SpriteView): Run
    decreases n, 2, len - i
  {
    if i >= len then Done(s, Pass)
    else if x !in s.shapes || i >= |s.shapes[x].nested| then Stuck
    else
      var v := s.shapes[x].nested[i].1;
      if v.None? then Nested(s, x, i + 1, len, n, stacks, sp)
      else
        var r := StackRun(s, v.value, 0, n, stacks, sp);
        if !Passed(r) then r else Nested(r.st, x, i + 1, len, n, stacks, sp)
  }

  /** `BlockStack.prepareRepresent` from element `i` on: every block but a hat prepared. */
  function StackRun(s: PState, st: StackRef, i: nat, n: nat, stacks: map<StackRef, Stack>, sp: SpriteView): Run
    decreases n, 1, if st in stacks then |stacks[st].contents| - i else 0
  {
    if st !in stacks then Stuck
    else if i >= |stacks[st].contents| then Done(s, Pass)
    else
      var y := stacks[st].contents[i];
      if y !in s.shapes then Stuck
      else if IsHat(s.shapes[y].kind) then StackRun(s, st, i + 1, n, stacks, sp)
      else if n == 0 then Stuck
      else
        var r := Block(s, y, n - 1, stacks, sp);
        if !Passed(r) then r else StackRun(r.st, st, i + 1, n, stacks, sp)
  }

  // ---- The pass, in place ----

  /** `prepareRepresent(sprite)` of block or expression `x`. */
  method PrepareBlock(g: Graph, x: Ref, ghost n: nat, sp: SpriteView) returns (o: Outcome)
    requires Block(StateOf(g), x, n, g.stacks, sp) != Stuck
    modifies g`shapes, g`nextRef, g`backdropSlot, g`costumeSlot, g`soundSlot, g`broadcastSlot
    ensures Block(old(StateOf(g)), x, n, g.stacks, sp) == Done(StateOf(g), o)
    decreases n, 3
  {
    var k := g.shapes[x].kind;
    if k.Isolated? {
      o := PrepareIsolated(g, x, n, sp);
      return;
    }
    o := PrepareShadowless(g, x, n, sp);
    if o.Fail? {
      return;
    }
    ghost var s1 := StateOf(g);
    o := PreparePaired(g, x, n, sp);
    if o.Fail? {
      return;
    }
    assert PairedThen(s1, x, n, g.stacks, sp) == NestedThen(StateOf(g), x, n, g.stacks, sp);
    ghost var s2 := StateOf(g);
    o := PrepareNested(g, x, n, sp);
    if o.Fail? {
      return;
    }
    assert NestedThen(s2, x, n, g.stacks, sp) == OwnStep(StateOf(g), x, n, g.stacks, sp);
    k := g.shapes[x].kind;
    if k.FirstK? {
      o := ResolvePlaceholder(g, k.which, sp);
    } else if k.Hat? {
      o := PrepareStack(g, k.own, n, sp);
    }
  }

  /** `IsolatedBlockStackHat.prepareRepresent`: `actualBlock.topLevel = true`, then the
      stack. */
  method PrepareIsolated(g: Graph, x: Ref, ghost n: nat, sp: SpriteView) returns (o: Outcome)
    requires x in g.shapes && g.shapes[x].kind.Isolated?
    requires Block(StateOf(g), x, n, g.stacks, sp) != Stuck
    modifies g`shapes, g`nextRef, g`backdropSlot, g`costumeSlot, g`soundSlot, g`broadcastSlot
    ensures Block(old(StateOf(g)), x, n, g.stacks, sp) == Done(StateOf(g), o)
    decreases n, 2
  {
    var own := g.shapes[x].kind.own;
    var c := g.stacks[own].contents;
    if |c| == 0 {
      return Fail(IllegalState(EmptyStack));
    }
    g.shapes := g.shapes[c[0] := g.shapes[c[0]].(topLevel := true)];
    o := PrepareStack(g, own, n, sp);
  }

  /** The copy step: `makeCopy` when `u` should be copied, else `u` itself. */
  method CopyStep(g: Graph, u: Ref) returns (o: Outcome, c: Ref)
    requires u in g.shapes
    modifies g`shapes, g`nextRef
    ensures CopyRun(old(StateOf(g)), u) == (Done(StateOf(g), o), c)
  {
    c := u;
    o := Pass;
    if ShouldCopy(g.shapes[u].kind) {
      var res := MakeCopy(g, u);
      if res.Err? {
        o := Fail(res.error);
      } else {
        c := res.value;
      }
    }
  }

  /** The shadowless sockets of `x`, in order, each written back under its key. */
  method PrepareShadowless(g: Graph, x: Ref, ghost n: nat, sp: SpriteView) returns (o: Outcome)
    requires x in g.shapes
    requires Shadowless(StateOf(g), x, 0, |g.shapes[x].shadowless|, n, g.stacks, sp) != Stuck
    modifies g`shapes, g`nextRef, g`backdropSlot, g`costumeSlot, g`soundSlot, g`broadcastSlot
    ensures Shadowless(old(StateOf(g)), x, 0, old(|g.shapes[x].shadowless|), n, g.stacks, sp) == Done(StateOf(g), o)
    decreases n, 2
  {
    ghost var whole := Shadowless(StateOf(g), x, 0, |g.shapes[x].shadowless|, n, g.stacks, sp);
    var len := |g.shapes[x].shadowless|;
    var i := 0;
    while i < len
      invariant i <= len
      invariant whole == Shadowless(StateOf(g), x, i, len, n, g.stacks, sp)
    {
      var u := g.shapes[x].shadowless[i].1;
      if u.Some? {
        o := PrepareBlock(g, u.value, n - 1, sp);
        if o.Fail? {
          return;
        }
        var c;
        o, c := CopyStep(g, u.value);
        if o.Fail? {
          return;
        }
        var sh := g.shapes[x];
        g.shapes := g.shapes[x := sh.(shadowless := sh.shadowless[i := (sh.shadowless[i].0, Some(c))])];
      }
      i := i + 1;
    }
    o := Pass;
  }

  /** The shadow/value sockets of `x`, in order: shadow, then value, prepared; then
      both copied and the pair written back under its key. */
  method PreparePaired(g: Graph, x: Ref, ghost n: nat, sp: SpriteView) returns (o: Outcome)
    requires x in g.shapes
    requires Paired(StateOf(g), x, 0, |g.shapes[x].paired|, n, g.stacks, sp) != Stuck
    modifies g`shapes, g`nextRef, g`backdropSlot, g`costumeSlot, g`soundSlot, g`broadcastSlot
    ensures Paired(old(StateOf(g)), x, 0, old(|g.shapes[x].paired|), n, g.stacks, sp) == Done(StateOf(g), o)
    decreases n, 2
  {
    ghost var whole := Paired(StateOf(g), x, 0, |g.shapes[x].paired|, n, g.stacks, sp);
    var len := |g.shapes[x].paired|;
    var i := 0;
    while i < len
      invariant i <= len
      invariant whole == Paired(StateOf(g), x, i, len, n, g.stacks, sp)
    {
      var (a, e) := g.shapes[x].paired[i].1;
      var ca, ce;
      o, ca, ce := PreparePair(g, a, e, n - 1, sp);
      if o.Fail? {
        return;
      }
      var sh := g.shapes[x];
      g.shapes := g.shapes[x := sh.(paired := sh.paired[i := (sh.paired[i].0, (ca, ce))])];
      i := i + 1;
    }
    o := Pass;
  }

  /** One shadow/value socket. */
  method PreparePair(g: Graph, a: Ref, e: Option<Ref>, ghost n: nat, sp: SpriteView) returns (o: Outcome, ca: Ref, ce: Option<Ref>)
    requires PairRun(StateOf(g), a, e, n, g.stacks, sp).0 != Stuck
    modifies g`shapes, g`nextRef, g`backdropSlot, g`costumeSlot, g`soundSlot, g`broadcastSlot
    ensures PairRun(old(StateOf(g)), a, e, n, g.stacks, sp) == (Done(StateOf(g), o), ca, ce)
    decreases n, 4
  {
    ca, ce := a, e;
    o := PrepareBlock(g, a, n, sp);
    if o.Fail? {
      return;
    }
    if e.Some? {
      o := PrepareBlock(g, e.value, n, sp);
      if o.Fail? {
        return;
      }
    }
    o, ca := CopyStep(g, a);
    if o.Fail? || e.None? {
      return;
    }
    var c;
    o, c := CopyStep(g, e.value);
    ce := Some(c);
  }

  /** The nested stacks of `x`, in order, each non-null one prepared. */
  method PrepareNested(g: Graph, x: Ref, ghost n: nat, sp: SpriteView) returns (o: Outcome)
    requires x in g.shapes
    requires Nested(StateOf(g), x, 0, |g.shapes[x].nested|, n, g.stacks, sp) != Stuck
    modifies g`shapes, g`nextRef, g`backdropSlot, g`costumeSlot, g`soundSlot, g`broadcastSlot
    ensures Nested(old(StateOf(g)), x, 0, old(|g.shapes[x].nested|), n, g.stacks, sp) == Done(StateOf(g), o)
    decreases n, 2
  {
    ghost var whole := Nested(StateOf(g), x, 0, |g.shapes[x].nested|, n, g.stacks, sp);
    var len := |g.shapes[x].nested|;
    var i := 0;
    while i < len
      invariant i <= len
      invariant whole == Nested(StateOf(g), x, i, len, n, g.stacks, sp)
    {
      var v := g.shapes[x].nested[i].1;
      if v.Some? {
        o := PrepareStack(g, v.value, n, sp);
        if o.Fail? {
          return;
        }
      }
      i := i + 1;
    }
    o := Pass;
  }

  /** `BlockStack.prepareRepresent`: every block but a hat, in order. */
  method PrepareStack(g: Graph, st: StackRef, ghost n: nat, sp: SpriteView) returns (o: Outcome)
    requires StackRun(StateOf(g), st, 0, n, g.stacks, sp) != Stuck
    modifies g`shapes, g`nextRef, g`backdropSlot, g`costumeSlot, g`soundSlot, g`broadcastSlot
    ensures StackRun(old(StateOf(g)), st, 0, n, g.stacks, sp) == Done(StateOf(g), o)
    decreases n, 1
  {
    ghost var whole := StackRun(StateOf(g), st, 0, n, g.stacks, sp);
    var c := g.stacks[st].contents;
    var i := 0;
    while i < |c|
      invariant i <= |c|
      invariant whole == StackRun(StateOf(g), st, i, n, g.stacks, sp)
    {
      var y := c[i];
      if !IsHat(g.shapes[y].kind) {
        o := PrepareBlock(g, y, n - 1, sp);
        if o.Fail? {
          return;
        }
      }
      i := i + 1;
    }
    o := Pass;
  }
}
