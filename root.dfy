/** `BuildRoot` (Build.kt): the project — the stage, the sprites, the monitor data
    and the extensions — and its `represent`, which prepares every target before it
    writes any of them. */
module Projects {
  import opened Wrappers
  import opened Ordered
  import opened Json
  import opened Ids
  import opened Attachments
  import opened Graph
  import opened Blocks
  import opened Represent
  import opened Prepare
  import opened Scripts
  import opened Targets
  import opened Sprites
  import Flatten
  import opened Comments

  const TOOL_URL := "https://github.com/scratch-api/scratch-dsl"

  /** The `meta` object every project carries. */
  const META: Json := JObj([("agent", JStr("")), ("tool", JObj([("url", JStr(TOOL_URL))])),
                            ("semver", JStr("3.0.0")), ("vm", JStr("0.2.0"))])

  const PROJECT_KEYS := ["targets", "monitors", "extensions", "meta"]

  /** Reported when a prepared block table holds a block whose sockets do not hold what
      their declarations promise; Kotlin's types rule this out. */
  const ILL_TYPED := "A block's input does not have its declared type."

  /** The project object: the targets' objects in order, the monitor data, the
      extensions and `meta`, under four different keys. */
  function ProjectJson(targets: seq<Json>, monitors: Json, extensions: seq<Json>): (j: Json)
    ensures j.JObj? && KeySeq(j.members) == PROJECT_KEYS && NoDup(j.members)
    ensures Get(j.members, "targets") == Some(JArr(targets))
    ensures Get(j.members, "monitors") == Some(monitors)
    ensures Get(j.members, "extensions") == Some(JArr(extensions))
    ensures Get(j.members, "meta") == Some(META)
  {
    var m := [("targets", JArr(targets)), ("monitors", monitors), ("extensions", JArr(extensions)), ("meta", META)];
    IndexOfUnique(m, "monitors", 1);
    IndexOfUnique(m, "extensions", 2);
    IndexOfUnique(m, "meta", 3);
    JObj(m)
  }

  /** A fuel that covers every hat's rank. */
  ghost function MaxRank(rank: map<Ref, nat>, hats: seq<Ref>): (m: nat)
    requires forall i | 0 <= i < |hats| :: hats[i] in rank
    ensures forall i | 0 <= i < |hats| :: rank[hats[i]] <= m
  {
    if hats == [] then 0
    else
      var m := MaxRank(rank, hats[1..]);
      if rank[hats[0]] > m then rank[hats[0]] else m
  }

  /** Target `t` can be written against this arena: every comment's block is reached,
      the block table is set, its blocks are well typed, and every one of them can be
      written. */
  ghost predicate Writable(t: SpriteBuilder, shapes: map<Ref, Shape>, cs: map<StackRef, seq<Ref>>, nexts: map<Ref, Ref>, slots: Slots)
    reads t`comments, t`allBlocks
  {
    && (forall i | 0 <= i < |t.comments| :: Owned(shapes, cs, t.comments[i]))
    && t.allBlocks.Some? && TableTyped(shapes, slots, t.allBlocks.value)
    && (forall i | 0 <= i < |t.allBlocks.value| :: Serialisable(shapes, cs, nexts, slots, t.allBlocks.value[i].1))
  }

  /** `j` is target `t`'s object, written when the arena held ids `ids` and its comments
      were given ids `cids`. */
  ghost predicate Shown(t: SpriteBuilder, shapes: map<Ref, Shape>, cs: map<StackRef, seq<Ref>>, ids: map<Ref, string>,
                        nexts: map<Ref, Ref>, parents: map<Ref, Option<string>>, slots: Slots, cids: seq<string>, j: Json)
    reads t
  {
    && BroadcastsOk(shapes, t.broadcasts) && VarsOk(shapes, t.variables) && ListsOk(shapes, t.lists)
    && t.allBlocks.Some? && DeclsHaveIds(ids, t.broadcasts, t.variables, t.lists)
    && |cids| == |t.comments| && AllOwned(shapes, cs, ids, t.comments)
    && (forall i | 0 <= i < |t.allBlocks.value| ::
          Typed(shapes, slots, t.allBlocks.value[i].1) && Serialisable(shapes, cs, nexts, slots, t.allBlocks.value[i].1))
    && j == t.TargetJson(shapes, cs, ids, nexts, parents, slots, cids)
  }

  /** No target is listed twice. */
  ghost predicate Distinct(ts: seq<SpriteBuilder>)
  {
    forall i, j | 0 <= i < |ts| && 0 <= j < |ts| && i != j :: ts[i] != ts[j]
  }

  /** Every target is well formed in the arena. */
  ghost predicate AllValid(ts: seq<SpriteBuilder>, shapes: map<Ref, Shape>)
    reads ts`variables, ts`lists, ts`broadcasts, ts`hats, ts`comments
  {
    forall i | 0 <= i < |ts| :: ts[i].Valid(shapes)
  }

  /** The first `n` targets hold their block tables. */
  ghost predicate TablesSet(ts: seq<SpriteBuilder>, n: nat)
    reads ts`allBlocks
  {
    n <= |ts| && forall i | 0 <= i < n :: ts[i].allBlocks.Some?
  }

  /** The targets' comments, which writing gives ids. */
  ghost function Notes(ts: seq<SpriteBuilder>): set<Comment>
    reads ts`comments
  {
    set i, c | 0 <= i < |ts| && c in ts[i].comments :: c
  }

  /** The first `n` targets are writable. */
  ghost predicate AllWritable(ts: seq<SpriteBuilder>, shapes: map<Ref, Shape>, cs: map<StackRef, seq<Ref>>, nexts: map<Ref, Ref>, slots: Slots, n: nat)
    reads ts`comments, ts`allBlocks
  {
    n <= |ts| && forall i | 0 <= i < n :: Writable(ts[i], shapes, cs, nexts, slots)
  }

  /** `js[i]` is target `i`'s object, for the first `n` targets. */
  ghost predicate AllShown(ts: seq<SpriteBuilder>, shapes: map<Ref, Shape>, cs: map<StackRef, seq<Ref>>, idss: seq<map<Ref, string>>,
                           nexts: map<Ref, Ref>, parents: map<Ref, Option<string>>, slots: Slots, cidss: seq<seq<string>>, js: seq<Json>, n: nat)
    reads ts
  {
    && n <= |ts| && |idss| == n && |cidss| == n && |js| == n
    && forall i | 0 <= i < n :: Shown(ts[i], shapes, cs, idss[i], nexts, parents, slots, cidss[i], js[i])
  }

  lemma WritableStep(ts: seq<SpriteBuilder>, shapes: map<Ref, Shape>, cs: map<StackRef, seq<Ref>>, nexts: map<Ref, Ref>, slots: Slots, i: nat)
    requires i < |ts| && AllWritable(ts, shapes, cs, nexts, slots, i) && Writable(ts[i], shapes, cs, nexts, slots)
    ensures AllWritable(ts, shapes, cs, nexts, slots, i + 1)
  {
  }

  lemma ShownStep(ts: seq<SpriteBuilder>, shapes: map<Ref, Shape>, cs: map<StackRef, seq<Ref>>, idss: seq<map<Ref, string>>,
                  nexts: map<Ref, Ref>, parents: map<Ref, Option<string>>, slots: Slots, cidss: seq<seq<string>>, js: seq<Json>, i: nat,
                  ids: map<Ref, string>, cids: seq<string>, j: Json)
    requires i < |ts| && AllShown(ts, shapes, cs, idss, nexts, parents, slots, cidss, js, i)
    requires Shown(ts[i], shapes, cs, ids, nexts, parents, slots, cids, j)
    ensures AllShown(ts, shapes, cs, idss + [ids], nexts, parents, slots, cidss + [cids], js + [j], i + 1)
  {
  }

  /** Target `i`'s `prepareRepresent`: every target stays well formed in the arena,
      which stays ranked when the target passes. */
  method PrepareTarget(g: Graph, ts: seq<SpriteBuilder>, i: nat, t: SpriteBuilder, backdrops: seq<Backdrop>, globals: set<string>,
                       ghost r: map<Ref, nat>, ghost sr: map<StackRef, nat>)
    returns (o: Outcome, ghost r': map<Ref, nat>, ghost sr': map<StackRef, nat>)
    requires Distinct(ts) && i < |ts| && t == ts[i] && g.Valid() && Acyclic(StateOf(g), g.stacks, r, sr)
    requires AllValid(ts, g.shapes)
    modifies t`costumes, t`broadcasts, t`allBlocks
    modifies g`shapes, g`nextRef, g`backdropSlot, g`costumeSlot, g`soundSlot, g`broadcastSlot, g`parents, g`nexts, g`ids, g.gen
    ensures g.Valid() && AllValid(ts, g.shapes)
    ensures DefaultsAdded(old(t.costumes), t.costumes, old(t.broadcasts), t.broadcasts, t.isStage, t.scramble, o.Pass?)
    ensures o.Fail? ==> o.error.IllegalArgument? || o.error.OutOfBounds? || o.error.IllegalState?
    ensures o.Pass? ==> t.allBlocks.Some? && Acyclic(StateOf(g), g.stacks, r', sr')
  {
    ghost var s0 := g.shapes;
    assert t.Valid(g.shapes);
    assert forall k | 0 <= k < |t.hats| :: t.hats[k] in r by {
      assert HatsOk(g.shapes, t.hats);
    }
    ghost var f;
    o, f := t.PrepareRepresent(g, backdrops, globals, MaxRank(r, t.hats), r, sr);
    r', sr' := f.rank, f.srank;
    forall j | 0 <= j < |ts|
      ensures ts[j].Valid(g.shapes)
    {
      if j != i {
        TablesKept(s0, g.shapes, ts[j].variables, ts[j].lists, ts[j].broadcasts, ts[j].hats, ts[j].comments);
      }
    }
  }

  /** `targets.forEach(SpriteBuilder::prepareRepresent)`, up to the first exception:
      on success every target holds its block table, and every target is still well
      formed in the arena. */
  method PrepareTargets(g: Graph, ts: seq<SpriteBuilder>, backdrops: seq<Backdrop>, globals: set<string>,
                        ghost rank: map<Ref, nat>, ghost srank: map<StackRef, nat>)
    returns (o: Outcome)
    requires Distinct(ts) && g.Valid() && Acyclic(StateOf(g), g.stacks, rank, srank) && AllValid(ts, g.shapes)
    modifies ts`costumes, ts`broadcasts, ts`allBlocks
    modifies g`shapes, g`nextRef, g`backdropSlot, g`costumeSlot, g`soundSlot, g`broadcastSlot, g`parents, g`nexts, g`ids, g.gen
    ensures g.Valid() && AllValid(ts, g.shapes)
    ensures o.Fail? ==> o.error.IllegalArgument? || o.error.OutOfBounds? || o.error.IllegalState?
    ensures o.Pass? ==> TablesSet(ts, |ts|)
  {
    o := Pass;
    ghost var r, sr := rank, srank;
    for i := 0 to |ts|
      invariant o.Pass? && g.Valid() && Acyclic(StateOf(g), g.stacks, r, sr)
      invariant AllValid(ts, g.shapes) && TablesSet(ts, i)
    {
      o, r, sr := PrepareTarget(g, ts, i, ts[i], backdrops, globals, r, sr);
      if o.Fail? {
        return;
      }
    }
  }

  /** One target's `represent` against a prepared arena: it succeeds exactly when the
      target is writable, and then its object is the one `Shown` describes. */
  method RepresentTarget(g: Graph, t: SpriteBuilder, ghost shapes: map<Ref, Shape>, ghost cs: map<StackRef, seq<Ref>>,
                         ghost nexts: map<Ref, Ref>, ghost parents: map<Ref, Option<string>>, ghost slots: Slots)
    returns (res: Result<Json>, ghost ids: map<Ref, string>, ghost cids: seq<string>)
    requires g.Valid() && shapes == g.shapes && cs == Contents(g.stacks) && nexts == g.nexts && parents == g.parents && slots == SlotsOf(g)
    requires t.Valid(shapes)
    modifies g`ids, g.gen, g`stacks, t.comments
    ensures g.Valid() && Contents(g.stacks) == cs && Flatten.IdsGrow(old(g.ids), g.ids)
    ensures res.Ok? <==> Writable(t, shapes, cs, nexts, slots)
    ensures res.Err? ==> res.error.IllegalState? || res.error.Uninitialized?
    ensures res.Ok? ==> Shown(t, shapes, cs, ids, nexts, parents, slots, cids, res.value)
  {
    ids, cids := g.ids, [];
    if t.allBlocks.Some? && !TableTyped(g.shapes, SlotsOf(g), t.allBlocks.value) {
      res := Err(IllegalState(ILL_TYPED));
      return;
    }
    res, cids := t.Represent(g, shapes, cs, nexts, parents, slots);
    ids := g.ids;
  }

  /** `targets.forEach { add(it.represent()) }`, up to the first exception: writing
      succeeds exactly when every target is writable, and then `js[i]` is target `i`'s
      object, written with the ids the arena held at that point. */
  method RepresentTargets(g: Graph, ts: seq<SpriteBuilder>, ghost shapes: map<Ref, Shape>, ghost cs: map<StackRef, seq<Ref>>,
                          ghost nexts: map<Ref, Ref>, ghost parents: map<Ref, Option<string>>, ghost slots: Slots)
    returns (res: Result<seq<Json>>, ghost idss: seq<map<Ref, string>>, ghost cidss: seq<seq<string>>)
    requires g.Valid() && shapes == g.shapes && cs == Contents(g.stacks) && nexts == g.nexts && parents == g.parents && slots == SlotsOf(g)
    requires AllValid(ts, shapes)
    modifies g`ids, g.gen, g`stacks, Notes(ts)
    ensures g.Valid() && shapes == g.shapes && cs == Contents(g.stacks) && nexts == g.nexts && parents == g.parents && slots == SlotsOf(g)
    ensures Flatten.IdsGrow(old(g.ids), g.ids)
    ensures res.Ok? <==> AllWritable(ts, shapes, cs, nexts, slots, |ts|)
    ensures res.Err? ==> res.error.IllegalState? || res.error.Uninitialized?
    ensures res.Ok? ==> AllShown(ts, shapes, cs, idss, nexts, parents, slots, cidss, res.value, |ts|)
  {
    var js := [];
    idss, cidss := [], [];
    ghost var notes := Notes(ts);
    for i := 0 to |ts|
      invariant g.Valid() && shapes == g.shapes && cs == Contents(g.stacks) && nexts == g.nexts && parents == g.parents && slots == SlotsOf(g)
      invariant Flatten.IdsGrow(old(g.ids), g.ids)
      invariant AllWritable(ts, shapes, cs, nexts, slots, i)
      invariant AllShown(ts, shapes, cs, idss, nexts, parents, slots, cidss, js, i)
    {
      assert ts[i].Valid(shapes);
      assert forall c | c in ts[i].comments :: c in notes;
      var r;
      ghost var ids, cids;
      r, ids, cids := RepresentTarget(g, ts[i], shapes, cs, nexts, parents, slots);
      if r.Err? {
        res := Err(r.error);
        return;
      }
      WritableStep(ts, shapes, cs, nexts, slots, i);
      ShownStep(ts, shapes, cs, idss, nexts, parents, slots, cidss, js, i, ids, cids, r.value);
      js := js + [r.value];
      idss := idss + [ids];
      cidss := cidss + [cids];
    }
    res := Ok(js);
  }

  class BuildRoot {
    /** The names in `globalVariables`, `globalLists` and `globalBroadcasts`: the
        declaring checks read them, and nothing in the builder adds to them. */
    var globalVariables: set<string>
    var globalLists: set<string>
    var globalBroadcasts: set<string>
    const stage: StageBuilder
    var sprites: seq<SpriteBuilder>
    var monitorData: Json
    var extensions: seq<Json>

    /** `targets`: the stage's target, then the sprites in the order they were made. */
    function Targets(): (ts: seq<SpriteBuilder>)
      reads this
      ensures |ts| == |sprites| + 1 && ts[0] == stage.sprite && ts[1..] == sprites
    {
      [stage.sprite] + sprites
    }

    /** No target is listed twice. */
    ghost predicate Valid()
      reads this
    {
      Distinct(Targets())
    }

    /** A project with a fresh stage, no sprites, an empty monitor array and no
        extensions. */
    constructor (gen: IdGenerator)
      modifies gen
      ensures Valid() && fresh(stage) && fresh(stage.sprite) && stage.sprite.isStage && stage.backdropList == []
      ensures sprites == [] && monitorData == JArr([]) && extensions == []
      ensures globalVariables == {} && globalLists == {} && globalBroadcasts == {}
    {
      globalVariables, globalLists, globalBroadcasts := {}, {}, {};
      stage := new StageBuilder(gen);
      sprites := [];
      monitorData := JArr([]);
      extensions := [];
    }

    /** `sprite`: a new target appended to the sprites; its configuration block runs
        later and is not part of this model. */
    method Sprite(gen: IdGenerator) returns (s: SpriteBuilder)
      requires Valid()
      modifies this`sprites, gen
      ensures fresh(s) && sprites == old(sprites) + [s] && Valid()
      ensures !s.isStage && s.hats == [] && s.variables == [] && s.lists == [] && s.broadcasts == []
      ensures s.costumes == [] && s.sounds == [] && s.comments == [] && s.allBlocks.None?
    {
      ghost var ts := Targets();
      s := new SpriteBuilder(gen);
      assert forall k | 0 <= k < |ts| :: ts[k] != s;
      sprites := sprites + [s];
      assert Targets() == ts + [s];
    }

    /** `attachMonitorData`, given the already decoded monitor data. */
    method AttachMonitorData(json: Json)
      modifies this`monitorData
      ensures monitorData == json
    {
      monitorData := json;
    }

    /** `addExtension`: appended to the extensions. */
    method AddExtension(e: Json)
      modifies this`extensions
      ensures extensions == old(extensions) + [e]
    {
      extensions := extensions + [e];
    }

    /** `represent`: every target prepared, then every target written, in the order
        of `targets`; the project object holds their objects in that order. */
    method Represent(g: Graph, ghost rank: map<Ref, nat>, ghost srank: map<StackRef, nat>)
      returns (res: Result<Json>, js: seq<Json>, ghost idss: seq<map<Ref, string>>, ghost cidss: seq<seq<string>>)
      requires Valid() && g.Valid() && Acyclic(StateOf(g), g.stacks, rank, srank) && AllValid(Targets(), g.shapes)
      modifies Targets()`costumes, Targets()`broadcasts, Targets()`allBlocks
      modifies g`shapes, g`nextRef, g`backdropSlot, g`costumeSlot, g`soundSlot, g`broadcastSlot, g`parents, g`nexts, g`ids, g.gen, g`stacks
      modifies Notes(Targets())
      ensures g.Valid()
      ensures res.Err? ==> res.error.IllegalArgument? || res.error.OutOfBounds? || res.error.IllegalState? || res.error.Uninitialized?
      ensures res.Ok? ==>
                && res.value == ProjectJson(js, monitorData, extensions)
                && AllWritable(Targets(), g.shapes, Contents(g.stacks), g.nexts, SlotsOf(g), |Targets()|)
                && AllShown(Targets(), g.shapes, Contents(g.stacks), idss, g.nexts, g.parents, SlotsOf(g), cidss, js, |Targets()|)
    {
      js, idss, cidss := [], [], [];
      var ts := Targets();
      var o := PrepareTargets(g, ts, stage.backdropList, globalBroadcasts, rank, srank);
      if o.Fail? {
        res := Err(o.error);
        return;
      }
      var r;
      r, idss, cidss := RepresentTargets(g, ts, g.shapes, Contents(g.stacks), g.nexts, g.parents, SlotsOf(g));
      if r.Err? {
        res := Err(r.error);
        return;
      }
      js := r.value;
      res := Ok(ProjectJson(js, monitorData, extensions));
      assert Targets() == ts;
    }
  }
}
