/** The scripts of one target, as `SpriteBuilder.prepareRepresent` (Build.kt) walks
    them: every hat is prepared in turn, then every hat's own stack is flattened, with
    a null parent, into one block table.  The two passes are given as ghost functions
    over the hats in order; the methods of `Sprites` are proved to compute them. */
module Scripts {
  import opened Wrappers
  import opened Ordered
  import opened Graph
  import opened Represent
  import opened Special
  import opened Flatten
  import FlattenFacts
  import opened Prepare
  import opened PrepareInv
  import opened PrepareFacts

  // ---- Preparing the hats ----

  /** The sprite view the arena is ranked against before the sprite is known. */
  const NO_VIEW := SpriteView([], [], [], [])

  /** The arena is finite below every script and well formed: `rank` and `srank`
      rank every object and stack below what it holds, hats above their own stacks. */
  ghost predicate Acyclic(s: PState, stacks: map<StackRef, Stack>, rank: map<Ref, nat>, srank: map<StackRef, nat>)
  {
    Inv(Scope(stacks, srank, NO_VIEW), s, rank)
  }

  /** The invariant holds against any sprite whose broadcasts are `Broadcast` objects. */
  lemma InvView(c: Scope, s: PState, rank: map<Ref, nat>, sp: SpriteView)
    requires Inv(c, s, rank) && ViewTyped(s.shapes, sp)
    ensures Inv(c.(sp := sp), s, rank)
  {
  }

  /** A new declaration (no sockets, no fields), ranked lowest, keeps the invariant. */
  lemma DeclKeepsInv(c: Scope, s: PState, rank: map<Ref, nat>, sh: Shape)
    requires Inv(c, s, rank) && sh.kind.DeclK?
    requires sh.shadowless == [] && sh.paired == [] && sh.nested == [] && sh.fields == []
    ensures var s1 := s.(shapes := s.shapes[s.nextRef := sh], nextRef := s.nextRef + 1);
      Inv(c, s1, rank[s.nextRef := 0]) && Went(s, s1, rank, rank[s.nextRef := 0])
  {
    var r := s.nextRef;
    assert Values(sh.fields) == {};
    LayeredGrow(Forest(s.shapes, c.stacks, rank, c.srank), r, sh);
    HatsRankedGrow(s.shapes, s.shapes[r := sh], c.stacks, rank, rank[r := 0]);
    AnchorsGrow(s.shapes, c.stacks, r, sh);
  }

  /** The hats' `prepareRepresent(sprite)`, the first `n` of them in order, each with
      fuel `fuel`: the pass stops at the first exception. */
  ghost function HatsRun(s: PState, hats: seq<Ref>, n: nat, fuel: nat, stacks: map<StackRef, Stack>, sp: SpriteView): Run
    requires n <= |hats|
  {
    if n == 0 then Done(s, Pass)
    else
      var r := HatsRun(s, hats, n - 1, fuel, stacks, sp);
      if !Passed(r) then r else Block(r.st, hats[n - 1], fuel, stacks, sp)
  }

  /** Once a hat throws, the hats after it are not prepared. */
  lemma {:induction false} HatsRunStops(s: PState, hats: seq<Ref>, i: nat, n: nat, fuel: nat, stacks: map<StackRef, Stack>, sp: SpriteView)
    requires i <= n <= |hats| && !Passed(HatsRun(s, hats, i, fuel, stacks, sp))
    ensures HatsRun(s, hats, n, fuel, stacks, sp) == HatsRun(s, hats, i, fuel, stacks, sp)
    decreases n
  {
    if n > i {
      HatsRunStops(s, hats, i, n - 1, fuel, stacks, sp);
    }
  }

  /** A pass that does not get stuck does not get stuck on any prefix of the hats. */
  lemma {:induction false} HatsRunPrefix(s: PState, hats: seq<Ref>, i: nat, n: nat, fuel: nat, stacks: map<StackRef, Stack>, sp: SpriteView)
    requires i <= n <= |hats| && HatsRun(s, hats, n, fuel, stacks, sp).Done?
    ensures HatsRun(s, hats, i, fuel, stacks, sp).Done?
    decreases n
  {
    if i < n {
      HatsRunPrefix(s, hats, i, n - 1, fuel, stacks, sp);
    }
  }

  /** With fuel at least every hat's rank, preparing the hats never gets stuck, keeps
      the invariant and every object, and throws only what the pass anticipates. */
  lemma {:induction false} HatsRunGoes(c: Scope, s: PState, rank: map<Ref, nat>, hats: seq<Ref>, n: nat, fuel: nat)
    returns (rank': map<Ref, nat>)
    requires Inv(c, s, rank) && n <= |hats|
    requires forall i | 0 <= i < |hats| :: hats[i] in s.shapes && rank[hats[i]] <= fuel
    ensures var r := HatsRun(s, hats, n, fuel, c.stacks, c.sp);
      r.Done? && Inv(c, r.st, rank') && Went(s, r.st, rank, rank') && Anticipated(r)
    decreases n
  {
    if n == 0 {
      rank' := rank;
    } else {
      var q := HatsRunGoes(c, s, rank, hats, n - 1, fuel);
      var r := HatsRun(s, hats, n - 1, fuel, c.stacks, c.sp);
      rank' := q;
      if Passed(r) {
        var x := hats[n - 1];
        assert x in s.shapes && SameHead(r.st.shapes[x], s.shapes[x]);
        rank' := BlockGoes(c, r.st, q, x, fuel, Block(r.st, x, fuel, c.stacks, c.sp));
        WentTrans(s, r.st, Block(r.st, x, fuel, c.stacks, c.sp).st, rank, q, rank');
      }
    }
  }

  // ---- Flattening the hats' stacks ----

  /** Every hat is an allocated hat whose own stack exists. */
  ghost predicate HatsStacked(f: Forest, hats: seq<Ref>)
  {
    forall i | 0 <= i < |hats| :: hats[i] in f.shapes && IsHat(f.shapes[hats[i]].kind) && f.shapes[hats[i]].kind.own in f.stacks
  }

  /** The trace of `hatBlock.stacks.forEach { it.flattenInto(blocks) }` for the first
      `n` hats: each hat's own stack flattened with a null parent, in order. */
  ghost function FlatHats(f: Forest, hats: seq<Ref>, n: nat): Option<Trace>
    requires Ranked(f) && HatsStacked(f, hats) && n <= |hats|
  {
    if n == 0 then Some(NOTHING)
    else Then(FlatHats(f, hats, n - 1), FlatS(f, f.shapes[hats[n - 1]].kind.own, None))
  }

  /** Once a stack throws, so does the whole pass. */
  lemma {:induction false} FlatHatsFails(f: Forest, hats: seq<Ref>, i: nat, n: nat)
    requires Ranked(f) && HatsStacked(f, hats) && i <= n <= |hats| && FlatHats(f, hats, i).None?
    ensures FlatHats(f, hats, n).None?
    decreases n
  {
    if n > i {
      FlatHatsFails(f, hats, i, n - 1);
    }
  }

  /** The rows of each hat's stack are rows of the whole pass. */
  lemma {:induction false} FlatHatsHolds(f: Forest, hats: seq<Ref>, n: nat, i: nat)
    requires Ranked(f) && HatsStacked(f, hats) && i < n <= |hats| && FlatHats(f, hats, n).Some?
    ensures FlatS(f, f.shapes[hats[i]].kind.own, None).Some?
    ensures forall row | row in FlatS(f, f.shapes[hats[i]].kind.own, None).value.rows :: row in FlatHats(f, hats, n).value.rows
    decreases n
  {
    if i < n - 1 {
      FlatHatsHolds(f, hats, n - 1, i);
    }
  }

  /** After the pass over a tree of distinct ids, every block of every script (an
      isolated hat aside) has a null `parent` and is in the block table under its own
      id. */
  lemma ScriptsFlattened(f: Forest, hats: seq<Ref>, t: Entries<Ref>, ps0: map<Ref, Option<string>>, ps1: map<Ref, Option<string>>,
                         ns0: map<Ref, Ref>, ns1: map<Ref, Ref>, ids: map<Ref, string>)
    requires Ranked(f) && HatsStacked(f, hats) && FlatHats(f, hats, |hats|).Some?
    requires Applied(FlatHats(f, hats, |hats|).value, [], t, ps0, ps1, ns0, ns1, ids)
    requires FlattenFacts.Unshared(FlatHats(f, hats, |hats|).value, ids)
    ensures forall i, y | 0 <= i < |hats| && y in f.stacks[f.shapes[hats[i]].kind.own].contents ::
              y in f.shapes && (!f.shapes[y].kind.Isolated? ==>
                y in ps1 && ps1[y] == None && y in ids && Get(t, ids[y]) == Some(y))
  {
    var tr := FlatHats(f, hats, |hats|).value;
    forall i, y | 0 <= i < |hats| && y in f.stacks[f.shapes[hats[i]].kind.own].contents
      ensures y in f.shapes && (!f.shapes[y].kind.Isolated? ==>
                y in ps1 && ps1[y] == None && y in ids && Get(t, ids[y]) == Some(y))
    {
      var s := f.shapes[hats[i]].kind.own;
      FlatHatsHolds(f, hats, |hats|, i);
      FlattenFacts.StackRows(f, s, None);
      if !f.shapes[y].kind.Isolated? {
        var j :| 0 <= j < |f.stacks[s].contents| && f.stacks[s].contents[j] == y;
        FlattenFacts.RowApplied(tr, [], t, ps0, ps1, ns0, ns1, ids, Row(y, None));
      }
    }
  }
}
