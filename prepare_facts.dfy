/** The `prepareRepresent` pass of `Prepare` on a whole block, stack or socket map:
    given fuel at least an object's rank it never gets stuck and it keeps the invariant
    of `PrepareInv`; an isolated hat over an empty stack throws; what a bare block and
    a placeholder entry look like afterwards. */
module PrepareFacts {
  import opened Wrappers
  import opened Ordered
  import opened Graph
  import opened Represent
  import opened Special
  import opened Flatten
  import FlattenFacts
  import opened Prepare
  import opened Wire

  import opened PrepareInv

  // ---- Progress: a ranked arena never gets stuck ----
  //
  // Each lemma is handed the run it speaks about (`r == Block(...)` and so on) and
  // states what that run is; `rank'` ranks the objects the run created.

  /** With fuel at least its rank, `x` is prepared without getting stuck, and the
      invariant holds after. */
  lemma BlockGoes(c: Scope, s: PState, rank: map<Ref, nat>, x: Ref, n: nat, r: Run) returns (rank': map<Ref, nat>)
    requires Inv(c, s, rank) && x in s.shapes && rank[x] <= n
    requires r == Block(s, x, n, c.stacks, c.sp)
    ensures r.Done? && Inv(c, r.st, rank') && Went(s, r.st, rank, rank')
    ensures Anticipated(r) && (Passed(r) ==> Ready(r.st, x))
    decreases n, 3, 3
  {
    var k := s.shapes[x].kind;
    rank' := rank;
    if k.Isolated? {
      IsolatedChild(c, s, rank, x);
      var cs := c.stacks[k.own].contents;
      if |cs| > 0 {
        assert cs[0] in cs;
        var s1 := s.(shapes := s.shapes[cs[0] := s.shapes[cs[0]].(topLevel := true)]);
        TopLevelStep(c, s, rank, cs[0]);
        StackKept(c, s, s1, rank, rank, k.own, rank[x]);
        rank' := StackGoes(c, s1, rank, k.own, 0, n, rank[x], r);
        WentTrans(s, s1, r.st, rank, rank, rank');
      }
    } else {
      var r1 := Shadowless(s, x, 0, |s.shapes[x].shadowless|, n, c.stacks, c.sp);
      var q1 := ShadowlessGoes(c, s, rank, x, 0, |s.shapes[x].shadowless|, n, r1);
      rank' := q1;
      if Passed(r1) {
        rank' := PairedThenGoes(c, r1.st, q1, x, n, r);
        WentTrans(s, r1.st, r.st, rank, q1, rank');
      }
    }
  }

  /** The shadow/value sockets of `x` and what follows them. */
  lemma PairedThenGoes(c: Scope, s: PState, rank: map<Ref, nat>, x: Ref, n: nat, r: Run) returns (rank': map<Ref, nat>)
    requires Inv(c, s, rank) && x in s.shapes && rank[x] <= n
    requires r == PairedThen(s, x, n, c.stacks, c.sp)
    ensures r.Done? && Inv(c, r.st, rank') && Went(s, r.st, rank, rank')
    ensures Anticipated(r) && (Passed(r) ==> Ready(r.st, x))
    decreases n, 3, 2
  {
    var r1 := Paired(s, x, 0, |s.shapes[x].paired|, n, c.stacks, c.sp);
    var q1 := PairedGoes(c, s, rank, x, 0, |s.shapes[x].paired|, n, r1);
    rank' := q1;
    if Passed(r1) {
      rank' := NestedThenGoes(c, r1.st, q1, x, n, r);
      WentTrans(s, r1.st, r.st, rank, q1, rank');
    }
  }

  /** The nested stacks of `x` and its own step. */
  lemma NestedThenGoes(c: Scope, s: PState, rank: map<Ref, nat>, x: Ref, n: nat, r: Run) returns (rank': map<Ref, nat>)
    requires Inv(c, s, rank) && x in s.shapes && rank[x] <= n
    requires r == NestedThen(s, x, n, c.stacks, c.sp)
    ensures r.Done? && Inv(c, r.st, rank') && Went(s, r.st, rank, rank')
    ensures Anticipated(r) && (Passed(r) ==> Ready(r.st, x))
    decreases n, 3, 1
  {
    var r1 := Nested(s, x, 0, |s.shapes[x].nested|, n, c.stacks, c.sp);
    var q1 := NestedGoes(c, s, rank, x, 0, |s.shapes[x].nested|, n, r1);
    rank' := q1;
    if Passed(r1) {
      rank' := OwnGoes(c, r1.st, q1, x, n, r);
      WentTrans(s, r1.st, r.st, rank, q1, rank');
    }
  }

  /** A placeholder's resolution, a hat's own stack. */
  lemma OwnGoes(c: Scope, s: PState, rank: map<Ref, nat>, x: Ref, n: nat, r: Run) returns (rank': map<Ref, nat>)
    requires Inv(c, s, rank) && x in s.shapes && rank[x] <= n
    requires r == OwnStep(s, x, n, c.stacks, c.sp)
    ensures r.Done? && Inv(c, r.st, rank') && Went(s, r.st, rank, rank')
    ensures Anticipated(r) && (Passed(r) ==> Ready(r.st, x))
    decreases n, 3, 0
  {
    var k := s.shapes[x].kind;
    rank' := rank;
    if k.FirstK? {
      if !ResolveFails(k.which, c.sp) {
        ResolvedShows(s.shapes, map[], s.slots, k.which, c.sp, x);
      }
    } else if k.Hat? {
      HatChild(c, s, rank, x);
      rank' := StackGoes(c, s, rank, k.own, 0, n, rank[x], r);
    }
  }

  /** An expression ranked at most `n`: prepared and copied; its copy ranks no higher. */
  lemma EntryGoes(c: Scope, s: PState, rank: map<Ref, nat>, u: Ref, n: nat, rv: (Run, Ref)) returns (rank': map<Ref, nat>)
    requires Inv(c, s, rank) && u in s.shapes && rank[u] <= n
    requires rv == EntryRun(s, u, n, c.stacks, c.sp)
    ensures var (r, v) := rv;
      && r.Done? && Inv(c, r.st, rank') && Went(s, r.st, rank, rank') && Anticipated(r)
      && (Passed(r) ==> v in r.st.shapes && v in rank' && rank'[v] <= rank[u])
    decreases n, 4, 0
  {
    var r1 := Block(s, u, n, c.stacks, c.sp);
    var q1 := BlockGoes(c, s, rank, u, n, r1);
    rank' := q1;
    if Passed(r1) {
      rank' := CopyGoes(c, r1.st, q1, u);
      WentTrans(s, r1.st, rv.0.st, rank, q1, rank');
    }
  }

  /** A pair of expressions ranked below `m`: prepared and copied; the copies rank
      below `m` too. */
  lemma PairGoes(c: Scope, s: PState, rank: map<Ref, nat>, a: Ref, e: Option<Ref>, n: nat, m: nat, rp: (Run, Ref, Option<Ref>)) returns (rank': map<Ref, nat>)
    requires Inv(c, s, rank) && a in s.shapes && rank[a] < m && m <= n + 1
    requires e.Some? ==> e.value in s.shapes && rank[e.value] < m
    requires rp == PairRun(s, a, e, n, c.stacks, c.sp)
    ensures var (r, ca, ce) := rp;
      && r.Done? && Inv(c, r.st, rank') && Went(s, r.st, rank, rank') && Anticipated(r)
      && (Passed(r) ==> ca in r.st.shapes && rank'[ca] < m)
      && (Passed(r) && ce.Some? ==> ce.value in r.st.shapes && rank'[ce.value] < m)
    decreases n, 4, 0
  {
    var r1 := Block(s, a, n, c.stacks, c.sp);
    var q1 := BlockGoes(c, s, rank, a, n, r1);
    rank' := q1;
    if Passed(r1) {
      var r2, q2 := r1, q1;
      if e.Some? {
        r2 := Block(r1.st, e.value, n, c.stacks, c.sp);
        q2 := BlockGoes(c, r1.st, q1, e.value, n, r2);
        WentTrans(s, r1.st, r2.st, rank, q1, q2);
        ReadyKept(r1.st, r2.st, q1, q2, a);
      }
      rank' := q2;
      if Passed(r2) {
        rank' := CopyPairGoes(c, r2.st, q2, a, e, m, rp);
        WentTrans(s, r2.st, rp.0.st, rank, q2, rank');
      }
    }
  }

  /** The shadowless sockets of `x` from `i` on. */
  lemma {:induction false} ShadowlessGoes(c: Scope, s: PState, rank: map<Ref, nat>, x: Ref, i: nat, len: nat, n: nat, r: Run) returns (rank': map<Ref, nat>)
    requires Inv(c, s, rank) && x in s.shapes && len == |s.shapes[x].shadowless| && i <= len && rank[x] <= n
    requires r == Shadowless(s, x, i, len, n, c.stacks, c.sp)
    ensures r.Done? && Inv(c, r.st, rank') && Went(s, r.st, rank, rank')
    ensures Anticipated(r)
    decreases n, 2, len - i
  {
    rank' := rank;
    if i < len {
      var u := s.shapes[x].shadowless[i].1;
      if u.None? {
        rank' := ShadowlessGoes(c, s, rank, x, i + 1, len, n, r);
      } else {
        ShadowlessChild(c, s, rank, x, i);
        var rv := EntryRun(s, u.value, n - 1, c.stacks, c.sp);
        var q1 := EntryGoes(c, s, rank, u.value, n - 1, rv);
        var (r1, v) := rv;
        rank' := q1;
        if Passed(r1) {
          var s2 := SetShadowless(r1.st, x, i, v);
          ShadowlessStep(c, r1.st, q1, x, i, v);
          var q2 := ShadowlessGoes(c, s2, q1, x, i + 1, len, n, r);
          WentTrans(s, r1.st, s2, rank, q1, q1);
          WentTrans(s, s2, r.st, rank, q1, q2);
          rank' := q2;
        }
      }
    }
  }

  /** The shadow/value sockets of `x` from `i` on. */
  lemma {:induction false} PairedGoes(c: Scope, s: PState, rank: map<Ref, nat>, x: Ref, i: nat, len: nat, n: nat, r: Run) returns (rank': map<Ref, nat>)
    requires Inv(c, s, rank) && x in s.shapes && len == |s.shapes[x].paired| && i <= len && rank[x] <= n
    requires r == Paired(s, x, i, len, n, c.stacks, c.sp)
    ensures r.Done? && Inv(c, r.st, rank') && Went(s, r.st, rank, rank')
    ensures Anticipated(r)
    decreases n, 2, len - i, 1
  {
    rank' := rank;
    if i < len {
      var (a, e) := s.shapes[x].paired[i].1;
      PairedChild(c, s, rank, x, i);
      var rp := PairRun(s, a, e, n - 1, c.stacks, c.sp);
      var q1 := PairGoes(c, s, rank, a, e, n - 1, rank[x], rp);
      rank' := q1;
      if Passed(rp.0) {
        rank' := PairedNext(c, rp.0.st, q1, x, i, len, n, rp.1, rp.2, r);
        WentTrans(s, rp.0.st, r.st, rank, q1, rank');
      }
    }
  }

  /** `PairedGoes` once socket `i` of `x` has been prepared and copied to `(a, e)`. */
  lemma {:induction false} PairedNext(c: Scope, s: PState, rank: map<Ref, nat>, x: Ref, i: nat, len: nat, n: nat,
                                      a: Ref, e: Option<Ref>, r: Run) returns (rank': map<Ref, nat>)
    requires Inv(c, s, rank) && x in s.shapes && len == |s.shapes[x].paired| && i < len && rank[x] <= n
    requires a in s.shapes && rank[a] < rank[x]
    requires e.Some? ==> e.value in s.shapes && rank[e.value] < rank[x]
    requires r == Paired(SetPaired(s, x, i, a, e), x, i + 1, len, n, c.stacks, c.sp)
    ensures r.Done? && Inv(c, r.st, rank') && Went(s, r.st, rank, rank')
    ensures Anticipated(r)
    decreases n, 2, len - i, 0
  {
    var s1 := SetPaired(s, x, i, a, e);
    PairedStep(c, s, rank, x, i, a, e);
    rank' := PairedGoes(c, s1, rank, x, i + 1, len, n, r);
    WentTrans(s, s1, r.st, rank, rank, rank');
  }

  /** The nested stacks of `x` from `i` on. */
  lemma {:induction false} NestedGoes(c: Scope, s: PState, rank: map<Ref, nat>, x: Ref, i: nat, len: nat, n: nat, r: Run) returns (rank': map<Ref, nat>)
    requires Inv(c, s, rank) && x in s.shapes && len == |s.shapes[x].nested| && i <= len && rank[x] <= n
    requires r == Nested(s, x, i, len, n, c.stacks, c.sp)
    ensures r.Done? && Inv(c, r.st, rank') && Went(s, r.st, rank, rank')
    ensures Anticipated(r)
    decreases n, 2, len - i
  {
    rank' := rank;
    if i < len {
      var v := s.shapes[x].nested[i].1;
      if v.None? {
        rank' := NestedGoes(c, s, rank, x, i + 1, len, n, r);
      } else {
        NestedChild(c, s, rank, x, i);
        var r1 := StackRun(s, v.value, 0, n, c.stacks, c.sp);
        var q1 := StackGoes(c, s, rank, v.value, 0, n, rank[x], r1);
        rank' := q1;
        if Passed(r1) {
          var q2 := NestedGoes(c, r1.st, q1, x, i + 1, len, n, r);
          WentTrans(s, r1.st, r.st, rank, q1, q2);
          rank' := q2;
        }
      }
    }
  }

  /** A stack whose blocks, hats apart, rank below `m`, from element `i` on. */
  lemma {:induction false} StackGoes(c: Scope, s: PState, rank: map<Ref, nat>, st: StackRef, i: nat, n: nat, m: nat, r: Run) returns (rank': map<Ref, nat>)
    requires Inv(c, s, rank) && st in c.stacks && i <= |c.stacks[st].contents| && m <= n
    requires StackBelow(c, s.shapes, rank, st, m)
    requires r == StackRun(s, st, i, n, c.stacks, c.sp)
    ensures r.Done? && Inv(c, r.st, rank') && Went(s, r.st, rank, rank')
    ensures Anticipated(r)
    decreases n, 1, |c.stacks[st].contents| - i
  {
    rank' := rank;
    var cs := c.stacks[st].contents;
    if i < |cs| {
      var y := cs[i];
      assert y in cs;
      if IsHat(s.shapes[y].kind) {
        rank' := StackGoes(c, s, rank, st, i + 1, n, m, r);
      } else {
        var r1 := Block(s, y, n - 1, c.stacks, c.sp);
        var q1 := BlockGoes(c, s, rank, y, n - 1, r1);
        rank' := q1;
        if Passed(r1) {
          StackKept(c, s, r1.st, rank, q1, st, m);
          var q2 := StackGoes(c, r1.st, q1, st, i + 1, n, m, r);
          WentTrans(s, r1.st, r.st, rank, q1, q2);
          rank' := q2;
        }
      }
    }
  }

  // ---- What the pass promises ----

  /** `IsolatedBlockStackHat.prepareRepresent` on an empty stack throws, before it
      changes anything. */
  lemma IsolatedEmptyThrows(s: PState, x: Ref, n: nat, stacks: map<StackRef, Stack>, sp: SpriteView)
    requires x in s.shapes && s.shapes[x].kind.Isolated? && s.shapes[x].kind.own in stacks
    requires stacks[s.shapes[x].kind.own].contents == []
    ensures Block(s, x, n, stacks, sp) == Done(s, Fail(IllegalState(EmptyStack)))
  {
  }

  /** An object with no sockets goes straight to its own step. */
  lemma BareBlock(s: PState, u: Ref, n: nat, stacks: map<StackRef, Stack>, sp: SpriteView)
    requires u in s.shapes && !s.shapes[u].kind.Isolated?
    requires s.shapes[u].shadowless == [] && s.shapes[u].paired == [] && s.shapes[u].nested == []
    ensures Block(s, u, n, stacks, sp) == OwnStep(s, u, n, stacks, sp)
  {
    assert Shadowless(s, u, 0, 0, n, stacks, sp) == Done(s, Pass);
    assert Paired(s, u, 0, 0, n, stacks, sp) == Done(s, Pass);
    assert Nested(s, u, 0, 0, n, stacks, sp) == Done(s, Pass);
    assert Block(s, u, n, stacks, sp) == PairedThen(s, u, n, stacks, sp) == NestedThen(s, u, n, stacks, sp);
  }

  /** A placeholder in a socket (no sockets of its own, as `PlaceholderShape` builds
      it) is resolved before it is copied: it throws only when the sprite has nothing
      to resolve it to, and otherwise the socket ends up with an object that shows the
      first backdrop's, costume's or sound's name, or the first broadcast. */
  lemma PlaceholderEntry(s: PState, ids: map<Ref, string>, u: Ref, n: nat, stacks: map<StackRef, Stack>, sp: SpriteView)
    requires u in s.shapes && s.shapes[u].kind.FirstK?
    requires s.shapes[u].shadowless == [] && s.shapes[u].paired == [] && s.shapes[u].nested == []
    requires ViewTyped(s.shapes, sp) && SlotsTyped(s.shapes, s.slots) && s.nextRef !in s.shapes
    ensures var (r, v) := EntryRun(s, u, n, stacks, sp);
      var p := s.shapes[u].kind.which;
      && r.Done? && (r.o.Fail? <==> ResolveFails(p, sp))
      && (r.o.Fail? ==> r.st == s && r.o.error.OutOfBounds?)
      && (r.o.Pass? ==> Shows(r.st, ids, v, FirstShown(s.shapes, ids, p, sp)))
  {
    var p := s.shapes[u].kind.which;
    BareBlock(s, u, n, stacks, sp);
    if !ResolveFails(p, sp) {
      PlaceholderCopy(s, ids, u, sp);
    }
  }

  /** The socket's expression `v` serialises as a field that shows `f`. */
  ghost predicate Shows(s: PState, ids: map<Ref, string>, v: Ref, f: FieldValue)
  {
    && v in s.shapes && IsField(s.shapes[v].kind) && SlotsTyped(s.shapes, s.slots)
    && !FieldFails(s.shapes, s.slots, Of(v)) && FieldValueOf(s.shapes, ids, s.slots, Of(v)) == f
  }

  /** The copy of a placeholder just resolved shows what the placeholder does. */
  lemma PlaceholderCopy(s: PState, ids: map<Ref, string>, u: Ref, sp: SpriteView)
    requires u in s.shapes && s.shapes[u].kind.FirstK? && !ResolveFails(s.shapes[u].kind.which, sp)
    requires ViewTyped(s.shapes, sp) && SlotsTyped(s.shapes, s.slots) && s.nextRef !in s.shapes
    ensures var p := s.shapes[u].kind.which;
      var (r, v) := CopyRun(s.(slots := Resolved(s.slots, p, sp)), u);
      Passed(r) && Shows(r.st, ids, v, FirstShown(s.shapes, ids, p, sp))
  {
    var p := s.shapes[u].kind.which;
    var sl := Resolved(s.slots, p, sp);
    ResolvedShows(s.shapes, ids, s.slots, p, sp, u);
    var (r, v) := CopyRun(s.(slots := sl), u);
    CopyKeepsFieldValue(r.st.shapes, ids, sl, u, v);
  }
}
