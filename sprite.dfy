/** `SpriteBuilder` and `StageBuilder` (Build.kt): a target's declarations, assets and
    scripts, and the checks that keep the names it declares unique. */
module Sprites {
  import opened Wrappers
  import opened Ordered
  import opened Json
  import opened Ids
  import opened Wire
  import opened Attachments
  import opened Graph
  import opened Blocks
  import opened Comments
  import opened Represent
  import opened Special
  import opened Flatten
  import opened Prepare
  import opened PrepareInv
  import opened PrepareFacts
  import opened Scripts
  import opened Targets

  /** The message of the exception `makeVar`, `makeList` and `makeLocalBroadcast` throw. */
  const NAME_USED := "This name is already used."

  /** The name `prepareRepresent` gives the stage's default broadcast. */
  const DEFAULT_BROADCAST := "message1"

  /** A variable's entry: the declaration, its initial value and its cloud flag. */
  datatype VarEntry = VarEntry(decl: Ref, value: Json, cloud: bool)

  /** A list's entry: the declaration and its initial contents. */
  datatype ListEntry = ListEntry(decl: Ref, value: seq<Json>)

  /** Object `r` is the declaration of kind `v` named `name`. */
  predicate Declares(shapes: map<Ref, Shape>, r: Ref, v: Variant, name: string)
  {
    r in shapes && shapes[r].kind == DeclK(v, name)
  }

  /** The state of a fresh `Variable`, `ScratchList` or `Broadcast`. */
  function DeclShape(v: Variant, name: string): (sh: Shape)
    ensures sh.kind == DeclK(v, name) && Standalone(sh.kind)
  {
    Blank(DeclK(v, name), None, false)
  }

  // ---- The default sprite name ----

  /** `"Sprite-" + makeId().substring(0..<8)` as written: `substring` throws when the id
      has fewer than eight characters. */
  function SpriteNameAsWritten(id: string): Result<string>
  {
    if |id| < 8 then Err(OutOfBounds("begin 0, end 8, length " + NatText(|id|)))
    else Ok("Sprite-" + id[..8])
  }

  /** In deterministic mode every id a 32-bit counter can reach has at most six
      characters, so building any target (the stage included) throws. */
  lemma SpriteNameAsWrittenThrows(n: nat)
    requires n < 0x8000_0000
    ensures SpriteNameAsWritten(Base62(n)).Err?
    ensures SpriteNameAsWritten(Base62(n)).error.OutOfBounds?
  {
    Base62OfIntCounter(n);
  }

  /** The default name with the id's first eight characters, or all of a shorter id. */
  function SpriteName(id: string): (name: string)
    ensures |name| == 7 + (if |id| < 8 then |id| else 8)
    ensures name[..7] == "Sprite-" && name[7..] == id[..|name| - 7]
  {
    "Sprite-" + id[..if |id| < 8 then |id| else 8]
  }

  /** Wherever the name as written does not throw, it is the corrected one. */
  lemma SpriteNameAgrees(id: string)
    ensures SpriteNameAsWritten(id).Ok? <==> |id| >= 8
    ensures SpriteNameAsWritten(id).Ok? ==> SpriteNameAsWritten(id).value == SpriteName(id)
  {
  }

  /** In deterministic mode the corrected names are pairwise different: they keep the
      whole id, and distinct counters spell distinct ids. */
  lemma SpriteNamesDistinct(m: nat, n: nat)
    requires m < 0x8000_0000 && n < 0x8000_0000
    ensures SpriteName(Base62(m)) == SpriteName(Base62(n)) <==> m == n
  {
    Base62OfIntCounter(m);
    Base62OfIntCounter(n);
    var a, b := SpriteName(Base62(m)), SpriteName(Base62(n));
    assert a[7..] == Base62(m) && b[7..] == Base62(n);
    Base62Injective(m, n);
  }

  // ---- What a target's tables hold ----

  ghost predicate VarsOk(shapes: map<Ref, Shape>, m: Entries<VarEntry>)
  {
    NoDup(m) && forall i | 0 <= i < |m| :: Declares(shapes, m[i].1.decl, VariableV, m[i].0)
  }

  ghost predicate ListsOk(shapes: map<Ref, Shape>, m: Entries<ListEntry>)
  {
    NoDup(m) && forall i | 0 <= i < |m| :: Declares(shapes, m[i].1.decl, ListV, m[i].0)
  }

  ghost predicate BroadcastsOk(shapes: map<Ref, Shape>, m: Entries<Ref>)
  {
    NoDup(m) && forall i | 0 <= i < |m| :: Declares(shapes, m[i].1, BroadcastV, m[i].0)
  }

  ghost predicate HatsOk(shapes: map<Ref, Shape>, hats: seq<Ref>)
  {
    forall i | 0 <= i < |hats| :: hats[i] in shapes && IsHat(shapes[hats[i]].kind)
  }

  ghost predicate CommentsOk(shapes: map<Ref, Shape>, comments: seq<Comment>)
  {
    forall i | 0 <= i < |comments| :: comments[i].block.Some? ==> comments[i].block.value in shapes
  }

  /** Names are keys, each entry's declaration is an object of its kind under that
      name, every hat is a hat, and every comment's block exists. */
  ghost predicate Tables(shapes: map<Ref, Shape>, vars: Entries<VarEntry>, lists: Entries<ListEntry>,
                         broadcasts: Entries<Ref>, hats: seq<Ref>, comments: seq<Comment>)
  {
    && VarsOk(shapes, vars) && ListsOk(shapes, lists) && BroadcastsOk(shapes, broadcasts)
    && HatsOk(shapes, hats) && CommentsOk(shapes, comments)
  }

  /** Every object keeps its kind. */
  ghost predicate KindsKept(s0: map<Ref, Shape>, s1: map<Ref, Shape>)
  {
    forall x | x in s0 :: x in s1 && s1[x].kind == s0[x].kind
  }

  lemma KindsKeptTrans(s0: map<Ref, Shape>, s1: map<Ref, Shape>, s2: map<Ref, Shape>)
    requires KindsKept(s0, s1) && KindsKept(s1, s2)
    ensures KindsKept(s0, s2)
  {
  }

  /** Objects that keep their kinds keep the tables valid. */
  lemma TablesKept(s0: map<Ref, Shape>, s1: map<Ref, Shape>, vars: Entries<VarEntry>, lists: Entries<ListEntry>,
                   broadcasts: Entries<Ref>, hats: seq<Ref>, comments: seq<Comment>)
    requires Tables(s0, vars, lists, broadcasts, hats, comments) && KindsKept(s0, s1)
    ensures Tables(s1, vars, lists, broadcasts, hats, comments)
  {
  }

  /** A name not yet present goes to the end, and the names stay unique. */
  lemma PutNew<V>(m: Entries<V>, k: string, v: V)
    requires Get(m, k).None?
    ensures Put(m, k, v) == m + [(k, v)]
    ensures NoDup(m) ==> NoDup(m + [(k, v)])
  {
    PutFacts(m, k, v);
  }

  /** A new declaration keeps the tables valid. */
  lemma Declared(s0: map<Ref, Shape>, d: Ref, v: Variant, n: string, vars: Entries<VarEntry>, lists: Entries<ListEntry>,
                 broadcasts: Entries<Ref>, hats: seq<Ref>, comments: seq<Comment>)
    requires Tables(s0, vars, lists, broadcasts, hats, comments) && d !in s0
    ensures Tables(s0[d := DeclShape(v, n)], vars, lists, broadcasts, hats, comments)
  {
    TablesKept(s0, s0[d := DeclShape(v, n)], vars, lists, broadcasts, hats, comments);
  }

  /** An entry under a name not yet taken, for a declaration of that name, keeps the
      variables valid. */
  lemma VarAdded(shapes: map<Ref, Shape>, vars: Entries<VarEntry>, n: string, e: VarEntry)
    requires VarsOk(shapes, vars) && Get(vars, n).None? && Declares(shapes, e.decl, VariableV, n)
    ensures Put(vars, n, e) == vars + [(n, e)] && VarsOk(shapes, vars + [(n, e)])
  {
    PutNew(vars, n, e);
  }

  lemma ListAdded(shapes: map<Ref, Shape>, lists: Entries<ListEntry>, n: string, e: ListEntry)
    requires ListsOk(shapes, lists) && Get(lists, n).None? && Declares(shapes, e.decl, ListV, n)
    ensures Put(lists, n, e) == lists + [(n, e)] && ListsOk(shapes, lists + [(n, e)])
  {
    PutNew(lists, n, e);
  }

  lemma BroadcastAdded(shapes: map<Ref, Shape>, broadcasts: Entries<Ref>, n: string, d: Ref)
    requires BroadcastsOk(shapes, broadcasts) && Get(broadcasts, n).None? && Declares(shapes, d, BroadcastV, n)
    ensures Put(broadcasts, n, d) == broadcasts + [(n, d)] && BroadcastsOk(shapes, broadcasts + [(n, d)])
  {
    PutNew(broadcasts, n, d);
  }

  /** The broadcasts a valid target holds are `Broadcast` objects, whatever it shows. */
  lemma BroadcastsTyped(shapes: map<Ref, Shape>, m: Entries<Ref>, backdrops: seq<Backdrop>, costumes: seq<Costume>, sounds: seq<Sound>)
    requires BroadcastsOk(shapes, m)
    ensures ViewTyped(shapes, SpriteView(backdrops, costumes, sounds, ValueSeq(m)))
  {
    forall i | 0 <= i < |m| ensures m[i].1 in shapes && shapes[m[i].1].kind.DeclK? && shapes[m[i].1].kind.variant == BroadcastV {
      assert Declares(shapes, m[i].1, BroadcastV, m[i].0);
    }
  }

  /** In a closed arena every hat's own stack exists. */
  lemma HatsStackedOf(shapes: map<Ref, Shape>, stacks: map<StackRef, Stack>, nexts: map<Ref, Ref>, hats: seq<Ref>,
                      rank: map<Ref, nat>, srank: map<StackRef, nat>)
    requires Closed(shapes, stacks, nexts) && HatsOk(shapes, hats)
    ensures HatsStacked(Forest(shapes, stacks, rank, srank), hats)
  {
    forall i | 0 <= i < |hats| ensures shapes[hats[i]].kind.own in stacks {
      assert ShapeClosed(shapes[hats[i]], shapes, stacks);
    }
  }

  /** The prepare pass keeps every object's kind. */
  lemma KeepsKinds(s0: map<Ref, Shape>, s1: map<Ref, Shape>)
    requires Keeps(s0, s1)
    ensures KindsKept(s0, s1)
  {
    forall x | x in s0 ensures x in s1 && s1[x].kind == s0[x].kind {
      assert SameHead(s1[x], s0[x]);
    }
  }

  // ---- The builder ----

  /** What `prepareRepresent` adds before preparing: a target without costumes gets the
      default costume, and a stage without broadcasts gets one broadcast, named
      `message1` unless names are scrambled; otherwise both are left alone. */
  predicate DefaultsAdded(c0: Entries<Costume>, c1: Entries<Costume>, b0: Entries<Ref>, b1: Entries<Ref>,
                          isStage: bool, scramble: bool, passed: bool)
  {
    && c1 == (if c0 == [] then [(DEFAULT_COSTUME.name, DEFAULT_COSTUME)] else c0)
    && (!(b0 == [] && isStage) ==> b1 == b0)
    && (b0 == [] && isStage && passed ==> |b1| == 1 && (!scramble ==> b1[0].0 == DEFAULT_BROADCAST))
  }

  /** Adding the default broadcast (a declaration with no sockets, at `nextRef`) keeps
      the arena ranked, now against the target's view, with the hats' ranks unchanged. */
  lemma DefaultsRanked(s0: PState, s1: PState, sh: Shape, stacks: map<StackRef, Stack>, rank: map<Ref, nat>,
                       srank: map<StackRef, nat>, sp: SpriteView, hats: seq<Ref>, fuel: nat)
    returns (rank1: map<Ref, nat>)
    requires Acyclic(s0, stacks, rank, srank) && ViewTyped(s1.shapes, sp)
    requires forall i | 0 <= i < |hats| :: hats[i] in s0.shapes && rank[hats[i]] <= fuel
    requires s1 == s0 || (sh.kind.DeclK? && sh == DeclShape(BroadcastV, sh.kind.name) && s1 == s0.(shapes := s0.shapes[s0.nextRef := sh], nextRef := s0.nextRef + 1))
    ensures Inv(Scope(stacks, srank, sp), s1, rank1)
    ensures forall i | 0 <= i < |hats| :: rank1[hats[i]] <= fuel
  {
    rank1 := rank;
    if s1 != s0 {
      DeclKeepsInv(Scope(stacks, srank, NO_VIEW), s0, rank, sh);
      rank1 := rank[s0.nextRef := 0];
    }
    InvView(Scope(stacks, srank, NO_VIEW), s1, rank1, sp);
  }

  /** Preparing the hats of a well-formed target in order never gets stuck, throws only
      what the pass anticipates, and leaves a target that is still well formed, whose
      arena is ranked and whose hats each own a stack. */
  lemma HatsReady(c: Scope, s: PState, rank: map<Ref, nat>, fuel: nat, nexts: map<Ref, Ref>, nextStack: nat,
                  singletons: map<Placeholder, Ref>, vars: Entries<VarEntry>, lists: Entries<ListEntry>,
                  broadcasts: Entries<Ref>, hats: seq<Ref>, comments: seq<Comment>)
    returns (f: Forest)
    requires Inv(c, s, rank) && Tables(s.shapes, vars, lists, broadcasts, hats, comments)
    requires Structure(s.shapes, c.stacks, nexts, s.nextRef, nextStack) && Anchored(s.shapes, s.slots.broadcast, singletons)
    requires forall i | 0 <= i < |hats| :: rank[hats[i]] <= fuel
    ensures var r := HatsRun(s, hats, |hats|, fuel, c.stacks, c.sp);
      && r.Done? && Anticipated(r)
      && Structure(r.st.shapes, c.stacks, nexts, r.st.nextRef, nextStack) && Anchored(r.st.shapes, r.st.slots.broadcast, singletons)
      && Tables(r.st.shapes, vars, lists, broadcasts, hats, comments)
      && f.shapes == r.st.shapes && f.stacks == c.stacks && Ranked(f) && HatsStacked(f, hats)
      && KindsKept(s.shapes, r.st.shapes) && f.srank == c.srank && Acyclic(r.st, c.stacks, f.rank, f.srank)
  {
    var rank' := HatsRunGoes(c, s, rank, hats, |hats|, fuel);
    var r := HatsRun(s, hats, |hats|, fuel, c.stacks, c.sp);
    InvView(c, r.st, rank', NO_VIEW);
    KeepsKinds(s.shapes, r.st.shapes);
    TablesKept(s.shapes, r.st.shapes, vars, lists, broadcasts, hats, comments);
    PassKeepsStructure(c, s, r.st, rank, rank', nexts, nextStack, singletons);
    f := Forest(r.st.shapes, c.stacks, rank', c.srank);
    LayeredIsRanked(f);
    HatsStackedOf(r.st.shapes, c.stacks, nexts, hats, rank', c.srank);
  }

  // ---- The rows of `represent` ----

  /** The name a declaration object carries (`u.name`). */
  function DeclName(shapes: map<Ref, Shape>, d: Ref): string
    requires d in shapes && shapes[d].kind.DeclK?
  {
    shapes[d].kind.name
  }

  /** `broadcasts`, each as its object and its name; the name is the table's key. */
  function BroadcastRows(shapes: map<Ref, Shape>, m: Entries<Ref>): (rows: seq<(Ref, Json)>)
    requires BroadcastsOk(shapes, m)
    ensures |rows| == |m|
    ensures forall i | 0 <= i < |m| :: rows[i] == (m[i].1, JStr(m[i].0)) && rows[i].0 in shapes
  {
    seq(|m|, i requires 0 <= i < |m| => (m[i].1, JStr(DeclName(shapes, m[i].1))))
  }

  /** A variable's array: its name, its value, and `true` after them for a cloud
      variable only. */
  function VariableJson(name: string, value: Json, cloud: bool): (j: Json)
    ensures j.JArr? && |j.items| >= 2 && j.items[0] == JStr(name) && j.items[1] == value
    ensures |j.items| == 3 <==> cloud
    ensures |j.items| == 3 ==> j.items[2] == JBool(true)
  {
    JArr([JStr(name), value] + (if cloud then [JBool(true)] else []))
  }

  /** A list's array: its name and its contents. */
  function ListJson(name: string, value: seq<Json>): Json
  {
    JArr([JStr(name), JArr(value)])
  }

  /** `variables`, each as its declaration and its array, named by the table's key. */
  function VariableRows(shapes: map<Ref, Shape>, m: Entries<VarEntry>): (rows: seq<(Ref, Json)>)
    requires VarsOk(shapes, m)
    ensures |rows| == |m|
    ensures forall i | 0 <= i < |m| :: rows[i] == (m[i].1.decl, VariableJson(m[i].0, m[i].1.value, m[i].1.cloud)) && rows[i].0 in shapes
  {
    seq(|m|, i requires 0 <= i < |m| =>
      (m[i].1.decl, VariableJson(DeclName(shapes, m[i].1.decl), m[i].1.value, m[i].1.cloud)))
  }

  /** `lists`, each as its declaration and its array, named by the table's key. */
  function ListRows(shapes: map<Ref, Shape>, m: Entries<ListEntry>): (rows: seq<(Ref, Json)>)
    requires ListsOk(shapes, m)
    ensures |rows| == |m|
    ensures forall i | 0 <= i < |m| :: rows[i] == (m[i].1.decl, ListJson(m[i].0, m[i].1.value)) && rows[i].0 in shapes
  {
    seq(|m|, i requires 0 <= i < |m| => (m[i].1.decl, ListJson(DeclName(shapes, m[i].1.decl), m[i].1.value)))
  }

  /** The costumes' descriptors, in table order. */
  function CostumesJson(m: Entries<Costume>): (j: Json)
    ensures j.JArr? && |j.items| == |m|
    ensures forall i | 0 <= i < |m| :: j.items[i] == RepresentAsset(CostumeAsset(m[i].1))
  {
    JArr(seq(|m|, i requires 0 <= i < |m| => RepresentAsset(CostumeAsset(m[i].1))))
  }

  /** The sounds' descriptors, in table order. */
  function SoundsJson(m: Entries<Sound>): (j: Json)
    ensures j.JArr? && |j.items| == |m|
    ensures forall i | 0 <= i < |m| :: j.items[i] == RepresentAsset(SoundAsset(m[i].1))
  {
    JArr(seq(|m|, i requires 0 <= i < |m| => RepresentAsset(SoundAsset(m[i].1))))
  }

  /** The keys of a target's object, in the order `represent` writes them. */
  const TARGET_KEYS := ["broadcasts", "variables", "lists", "comments", "costumes", "sounds", "name", "currentCostume",
                        "isStage", "layerOrder", "tempo", "textToSpeechLanguage", "videoState", "videoTransparency",
                        "volume", "blocks"]

  /** The message reading `allBlocks` before `prepareRepresent` set it throws. */
  const ALL_BLOCKS_UNSET := "lateinit property allBlocks has not been initialized"

  /** Every declaration holds an id. */
  ghost predicate DeclsHaveIds(ids: map<Ref, string>, broadcasts: Entries<Ref>, variables: Entries<VarEntry>, lists: Entries<ListEntry>)
  {
    && (forall i | 0 <= i < |broadcasts| :: broadcasts[i].1 in ids)
    && (forall i | 0 <= i < |variables| :: variables[i].1.decl in ids)
    && (forall i | 0 <= i < |lists| :: lists[i].1.decl in ids)
  }

  /** The broadcasts', variables' and lists' objects, keyed by the ids in `ids`. */
  ghost predicate DeclObjectsAt(shapes: map<Ref, Shape>, ids: map<Ref, string>, broadcasts: Entries<Ref>, variables: Entries<VarEntry>,
                                lists: Entries<ListEntry>, bobj: Entries<Json>, vobj: Entries<Json>, lobj: Entries<Json>)
  {
    && BroadcastsOk(shapes, broadcasts) && VarsOk(shapes, variables) && ListsOk(shapes, lists)
    && DeclsHaveIds(ids, broadcasts, variables, lists)
    && bobj == PutAll([], Keyed(ids, BroadcastRows(shapes, broadcasts)))
    && vobj == PutAll([], Keyed(ids, VariableRows(shapes, variables)))
    && lobj == PutAll([], Keyed(ids, ListRows(shapes, lists)))
  }

  /** Objects keyed by ids read the same after more ids are made. */
  lemma DeclObjectsStable(shapes: map<Ref, Shape>, ids: map<Ref, string>, ids': map<Ref, string>, broadcasts: Entries<Ref>,
                          variables: Entries<VarEntry>, lists: Entries<ListEntry>, bobj: Entries<Json>, vobj: Entries<Json>, lobj: Entries<Json>)
    requires DeclObjectsAt(shapes, ids, broadcasts, variables, lists, bobj, vobj, lobj) && Flatten.IdsGrow(ids, ids')
    ensures DeclObjectsAt(shapes, ids', broadcasts, variables, lists, bobj, vobj, lobj)
  {
    KeyedStable(ids, ids', BroadcastRows(shapes, broadcasts));
    KeyedStable(ids, ids', VariableRows(shapes, variables));
    KeyedStable(ids, ids', ListRows(shapes, lists));
  }

  /** Where the broadcasts hold pairwise different ids, entry `i` of their object is
      broadcast `i`'s id and name. */
  lemma BroadcastObject(shapes: map<Ref, Shape>, ids: map<Ref, string>, broadcasts: Entries<Ref>, i: nat)
    requires BroadcastsOk(shapes, broadcasts) && (forall j | 0 <= j < |broadcasts| :: broadcasts[j].1 in ids)
    requires forall a, b | 0 <= a < b < |broadcasts| :: ids[broadcasts[a].1] != ids[broadcasts[b].1]
    requires i < |broadcasts|
    ensures |PutAll([], Keyed(ids, BroadcastRows(shapes, broadcasts)))| == |broadcasts|
    ensures PutAll([], Keyed(ids, BroadcastRows(shapes, broadcasts)))[i] == (ids[broadcasts[i].1], JStr(broadcasts[i].0))
  {
    KeyedObject(ids, BroadcastRows(shapes, broadcasts), i);
  }

  /** Where the variables hold pairwise different ids, entry `i` of their object is
      variable `i`'s id and array, which has a third item exactly for a cloud variable. */
  lemma VariableObject(shapes: map<Ref, Shape>, ids: map<Ref, string>, variables: Entries<VarEntry>, i: nat)
    requires VarsOk(shapes, variables) && (forall j | 0 <= j < |variables| :: variables[j].1.decl in ids)
    requires forall a, b | 0 <= a < b < |variables| :: ids[variables[a].1.decl] != ids[variables[b].1.decl]
    requires i < |variables|
    ensures |PutAll([], Keyed(ids, VariableRows(shapes, variables)))| == |variables|
    ensures PutAll([], Keyed(ids, VariableRows(shapes, variables)))[i]
            == (ids[variables[i].1.decl], VariableJson(variables[i].0, variables[i].1.value, variables[i].1.cloud))
  {
    KeyedObject(ids, VariableRows(shapes, variables), i);
  }

  /** Where the lists hold pairwise different ids, entry `i` of their object is list
      `i`'s id and array. */
  lemma ListObject(shapes: map<Ref, Shape>, ids: map<Ref, string>, lists: Entries<ListEntry>, i: nat)
    requires ListsOk(shapes, lists) && (forall j | 0 <= j < |lists| :: lists[j].1.decl in ids)
    requires forall a, b | 0 <= a < b < |lists| :: ids[lists[a].1.decl] != ids[lists[b].1.decl]
    requires i < |lists|
    ensures |PutAll([], Keyed(ids, ListRows(shapes, lists)))| == |lists|
    ensures PutAll([], Keyed(ids, ListRows(shapes, lists)))[i] == (ids[lists[i].1.decl], ListJson(lists[i].0, lists[i].1.value))
  {
    KeyedObject(ids, ListRows(shapes, lists), i);
  }

  /** How `represent` ends: it returns only when every comment is owned, `allBlocks`
      is set and every block can be written; an unowned comment throws
      `IllegalStateException` first, an unset `allBlocks` throws next, and nothing
      else is thrown. */
  predicate Raised(res: Result<Json>, owned: bool, isSet: bool, written: bool)
  {
    && (res.Ok? <==> owned && isSet && written)
    && (!owned ==> res.Err? && res.error.IllegalState?)
    && (owned && !isSet ==> res == Err(Uninitialized(ALL_BLOCKS_UNSET)))
    && (res.Err? ==> res.error.IllegalState? || res.error.Uninitialized?)
  }

  class SpriteBuilder {
    /** `hatBlocks`, in the order they were added. */
    var hats: seq<Ref>
    var variables: Entries<VarEntry>
    var lists: Entries<ListEntry>
    var broadcasts: Entries<Ref>
    var costumes: Entries<Costume>
    var sounds: Entries<Sound>
    var comments: seq<Comment>
    var name: string
    var startCostume: int
    var isStage: bool
    var startLayer: int
    var startAudioTempo: int
    var startTextToSpeechLanguage: Option<string>
    var startVideoState: string
    var startVideoTransparency: int
    var startVolume: int
    /** `allBlocks` (lateinit: `None` until `prepareRepresent` sets it). */
    var allBlocks: Option<Entries<Ref>>
    /** `shouldScrambleNames`. */
    var scramble: bool

    /** Names are keys, each entry's declaration is an object of its kind under that
        name, every hat is a hat, and every comment's block exists. */
    ghost predicate Valid(shapes: map<Ref, Shape>)
      reads this`variables, this`lists, this`broadcasts, this`hats, this`comments
    {
      Tables(shapes, variables, lists, broadcasts, hats, comments)
    }

    /** The declared names of each kind are pairwise different. */
    lemma NamesUnique(shapes: map<Ref, Shape>)
      requires Valid(shapes)
      ensures forall i, j | 0 <= i < j < |variables| ::
        shapes[variables[i].1.decl].kind.name != shapes[variables[j].1.decl].kind.name
      ensures forall i, j | 0 <= i < j < |lists| ::
        shapes[lists[i].1.decl].kind.name != shapes[lists[j].1.decl].kind.name
      ensures forall i, j | 0 <= i < j < |broadcasts| ::
        shapes[broadcasts[i].1].kind.name != shapes[broadcasts[j].1].kind.name
    {
      forall i, j | 0 <= i < j < |variables|
        ensures shapes[variables[i].1.decl].kind.name != shapes[variables[j].1.decl].kind.name
      {
        assert Declares(shapes, variables[i].1.decl, VariableV, variables[i].0);
        assert Declares(shapes, variables[j].1.decl, VariableV, variables[j].0);
      }
      forall i, j | 0 <= i < j < |lists|
        ensures shapes[lists[i].1.decl].kind.name != shapes[lists[j].1.decl].kind.name
      {
        assert Declares(shapes, lists[i].1.decl, ListV, lists[i].0);
        assert Declares(shapes, lists[j].1.decl, ListV, lists[j].0);
      }
      forall i, j | 0 <= i < j < |broadcasts|
        ensures shapes[broadcasts[i].1].kind.name != shapes[broadcasts[j].1].kind.name
      {
        assert Declares(shapes, broadcasts[i].1, BroadcastV, broadcasts[i].0);
        assert Declares(shapes, broadcasts[j].1, BroadcastV, broadcasts[j].0);
      }
    }

    /** A new target: empty tables, the default start values, and a name made from a
        fresh id (with the corrected prefix, see `SpriteName`). */
    constructor (gen: IdGenerator)
      modifies gen
      ensures gen.isModifying == old(gen.isModifying)
      ensures !gen.isModifying ==> name == SpriteName(Base62(old(gen.currentIdIdx))) && gen.currentIdIdx == old(gen.currentIdIdx) + 1
      ensures gen.isModifying ==> |name| == 15 && name[..7] == "Sprite-"
      ensures hats == [] && variables == [] && lists == [] && broadcasts == [] && costumes == [] && sounds == [] && comments == []
      ensures startCostume == 0 && !isStage && startLayer == 1 && startAudioTempo == 60 && startTextToSpeechLanguage.None?
      ensures startVideoState == "on" && startVideoTransparency == 50 && startVolume == 100
      ensures allBlocks.None? && !scramble
    {
      var id := gen.MakeId();
      hats := [];
      variables := [];
      lists := [];
      broadcasts := [];
      costumes := [];
      sounds := [];
      comments := [];
      name := SpriteName(id);
      startCostume := 0;
      isStage := false;
      startLayer := 1;
      startAudioTempo := 60;
      startTextToSpeechLanguage := None;
      startVideoState := "on";
      startVideoTransparency := 50;
      startVolume := 100;
      allBlocks := None;
      scramble := false;
    }

    /** `addHatBlock`: appended to `hatBlocks`. */
    method AddHatBlock(shapes: map<Ref, Shape>, h: Ref)
      requires Valid(shapes) && h in shapes && IsHat(shapes[h].kind)
      modifies this`hats
      ensures hats == old(hats) + [h] && Valid(shapes)
    {
      hats := hats + [h];
    }

    /** `comments.add`. */
    method AddComment(shapes: map<Ref, Shape>, c: Comment)
      requires Valid(shapes) && (c.block.Some? ==> c.block.value in shapes)
      modifies this`comments
      ensures comments == old(comments) + [c] && Valid(shapes)
    {
      comments := comments + [c];
    }

    /** `scrambleLocalNamesAfter`. */
    method ScrambleLocalNamesAfter()
      modifies this`scramble
      ensures scramble
    {
      scramble := true;
    }

    /** `+costume` (and `addCostume`): the costume is put under its name, replacing a
        costume of the same name in place. */
    method AddCostume(c: Costume) returns (c': Costume)
      modifies this`costumes
      ensures c' == c && costumes == Put(old(costumes), c.name, c)
    {
      costumes := Put(costumes, c.name, c);
      c' := c;
    }

    /** `+sound` (and `addSound`). */
    method AddSound(s: Sound) returns (s': Sound)
      modifies this`sounds
      ensures s' == s && sounds == Put(old(sounds), s.name, s)
    {
      sounds := Put(sounds, s.name, s);
      s' := s;
    }

    /** The declaration object of `makeVar`, `makeList` or `makeLocalBroadcast`: under
        the given name, or a random six-character one once names are scrambled. */
    method NewDecl(g: Graph, v: Variant, name: string) returns (d: Ref, n: string)
      requires g.Valid()
      modifies g`shapes, g`nextRef
      ensures g.Valid() && d == old(g.nextRef) && g.nextRef == d + 1 && d !in old(g.shapes)
      ensures g.shapes == old(g.shapes)[d := DeclShape(v, n)]
      ensures !scramble ==> n == name
      ensures scramble ==> |n| == 6 && forall c | c in n :: c in ALLOWED_CHARS
    {
      n := name;
      if scramble {
        n := g.gen.MakeRandomId(6);
      }
      d := NewExpression(g, DeclK(v, n), None, false);
    }

    /** `makeVar`: throws when the name is taken by a variable of this target or a
        global one; otherwise adds exactly one entry under the name. */
    method MakeVar(g: Graph, name: string, value: Json, cloud: bool, globals: set<string>) returns (d: Ref, n: string, o: Outcome)
      requires g.Valid() && Valid(g.shapes)
      modifies this`variables, g`shapes, g`nextRef
      ensures g.Valid() && Valid(g.shapes)
      ensures d == old(g.nextRef) && g.nextRef == d + 1 && d !in old(g.shapes)
      ensures g.shapes == old(g.shapes)[d := DeclShape(VariableV, n)]
      ensures !scramble ==> n == name
      ensures scramble ==> |n| == 6 && forall c | c in n :: c in ALLOWED_CHARS
      ensures o.Fail? <==> n in Keys(old(variables)) || n in globals
      ensures o.Fail? ==> o.error == IllegalArgument(NAME_USED) && variables == old(variables)
      ensures o.Pass? ==> variables == old(variables) + [(n, VarEntry(d, value, cloud))]
    {
      ghost var s0 := g.shapes;
      d, n := NewDecl(g, VariableV, name);
      Declared(s0, d, VariableV, n, variables, lists, broadcasts, hats, comments);
      if Get(variables, n).Some? || n in globals {
        o := Fail(IllegalArgument(NAME_USED));
        return;
      }
      VarAdded(g.shapes, variables, n, VarEntry(d, value, cloud));
      variables := Put(variables, n, VarEntry(d, value, cloud));
      o := Pass;
    }

    /** `makeList`. */
    method MakeList(g: Graph, name: string, value: seq<Json>, globals: set<string>) returns (d: Ref, n: string, o: Outcome)
      requires g.Valid() && Valid(g.shapes)
      modifies this`lists, g`shapes, g`nextRef
      ensures g.Valid() && Valid(g.shapes)
      ensures d == old(g.nextRef) && g.nextRef == d + 1 && d !in old(g.shapes)
      ensures g.shapes == old(g.shapes)[d := DeclShape(ListV, n)]
      ensures !scramble ==> n == name
      ensures scramble ==> |n| == 6 && forall c | c in n :: c in ALLOWED_CHARS
      ensures o.Fail? <==> n in Keys(old(lists)) || n in globals
      ensures o.Fail? ==> o.error == IllegalArgument(NAME_USED) && lists == old(lists)
      ensures o.Pass? ==> lists == old(lists) + [(n, ListEntry(d, value))]
    {
      ghost var s0 := g.shapes;
      d, n := NewDecl(g, ListV, name);
      Declared(s0, d, ListV, n, variables, lists, broadcasts, hats, comments);
      if Get(lists, n).Some? || n in globals {
        o := Fail(IllegalArgument(NAME_USED));
        return;
      }
      ListAdded(g.shapes, lists, n, ListEntry(d, value));
      lists := Put(lists, n, ListEntry(d, value));
      o := Pass;
    }

    /** `makeLocalBroadcast` (and the stage's `makeBroadcast`). */
    method MakeLocalBroadcast(g: Graph, name: string, globals: set<string>) returns (d: Ref, n: string, o: Outcome)
      requires g.Valid() && Valid(g.shapes)
      modifies this`broadcasts, g`shapes, g`nextRef
      ensures g.Valid() && Valid(g.shapes)
      ensures d == old(g.nextRef) && g.nextRef == d + 1 && d !in old(g.shapes)
      ensures g.shapes == old(g.shapes)[d := DeclShape(BroadcastV, n)]
      ensures !scramble ==> n == name
      ensures scramble ==> |n| == 6 && forall c | c in n :: c in ALLOWED_CHARS
      ensures o.Fail? <==> n in Keys(old(broadcasts)) || n in globals
      ensures o.Fail? ==> o.error == IllegalArgument(NAME_USED) && broadcasts == old(broadcasts)
      ensures o.Pass? ==> broadcasts == old(broadcasts) + [(n, d)]
    {
      ghost var s0 := g.shapes;
      d, n := NewDecl(g, BroadcastV, name);
      Declared(s0, d, BroadcastV, n, variables, lists, broadcasts, hats, comments);
      if Get(broadcasts, n).Some? || n in globals {
        o := Fail(IllegalArgument(NAME_USED));
        return;
      }
      BroadcastAdded(g.shapes, broadcasts, n, d);
      broadcasts := Put(broadcasts, n, d);
      o := Pass;
    }

    /** `makeVar(variableSlot)`: a variable under the slot's name, value and cloud flag
        that takes the slot's id (reading it, which may generate it). */
    method MakeVarFromSlot(g: Graph, slot: Ref, value: Json, cloud: bool, globals: set<string>) returns (d: Ref, o: Outcome)
      requires g.Valid() && Valid(g.shapes) && slot in g.shapes && g.shapes[slot].kind.DeclK?
      modifies this`variables, g`shapes, g`nextRef, g`ids, g.gen
      ensures g.Valid() && Valid(g.shapes) && d !in old(g.shapes) && Grows(old(g.shapes), g.shapes)
      ensures o.Fail? ==> variables == old(variables) && o.error == IllegalArgument(NAME_USED)
      ensures o.Pass? ==> |variables| == |old(variables)| + 1 && variables[..|old(variables)|] == old(variables)
                          && variables[|old(variables)|].1 == VarEntry(d, value, cloud)
                          && slot in g.ids && d in g.ids && g.ids[d] == g.ids[slot]
    {
      var n;
      d, n, o := MakeVar(g, g.shapes[slot].kind.name, value, cloud, globals);
      if o.Pass? {
        var id := g.GetId(slot);
        g.SetId(d, id);
      }
    }

    /** `makeList(listSlot)`. */
    method MakeListFromSlot(g: Graph, slot: Ref, value: seq<Json>, globals: set<string>) returns (d: Ref, o: Outcome)
      requires g.Valid() && Valid(g.shapes) && slot in g.shapes && g.shapes[slot].kind.DeclK?
      modifies this`lists, g`shapes, g`nextRef, g`ids, g.gen
      ensures g.Valid() && Valid(g.shapes) && d !in old(g.shapes) && Grows(old(g.shapes), g.shapes)
      ensures o.Fail? ==> lists == old(lists) && o.error == IllegalArgument(NAME_USED)
      ensures o.Pass? ==> |lists| == |old(lists)| + 1 && lists[..|old(lists)|] == old(lists)
                          && lists[|old(lists)|].1 == ListEntry(d, value)
                          && slot in g.ids && d in g.ids && g.ids[d] == g.ids[slot]
    {
      var n;
      d, n, o := MakeList(g, g.shapes[slot].kind.name, value, globals);
      if o.Pass? {
        var id := g.GetId(slot);
        g.SetId(d, id);
      }
    }

    /** `makeBroadcast(broadcastSlot)`. */
    method MakeBroadcastFromSlot(g: Graph, slot: Ref, globals: set<string>) returns (d: Ref, o: Outcome)
      requires g.Valid() && Valid(g.shapes) && slot in g.shapes && g.shapes[slot].kind.DeclK?
      modifies this`broadcasts, g`shapes, g`nextRef, g`ids, g.gen
      ensures g.Valid() && Valid(g.shapes) && d !in old(g.shapes) && Grows(old(g.shapes), g.shapes)
      ensures o.Fail? ==> broadcasts == old(broadcasts) && o.error == IllegalArgument(NAME_USED)
      ensures o.Pass? ==> |broadcasts| == |old(broadcasts)| + 1 && broadcasts[..|old(broadcasts)|] == old(broadcasts)
                          && broadcasts[|old(broadcasts)|].1 == d
                          && slot in g.ids && d in g.ids && g.ids[d] == g.ids[slot]
    {
      var n;
      d, n, o := MakeLocalBroadcast(g, g.shapes[slot].kind.name, globals);
      if o.Pass? {
        var id := g.GetId(slot);
        g.SetId(d, id);
      }
    }

    /** What the placeholders read while this target is prepared: the stage's backdrops
        and this target's costumes, sounds and broadcasts, in insertion order. */
    function View(stageBackdrops: seq<Backdrop>): SpriteView
      reads this
    {
      SpriteView(stageBackdrops, ValueSeq(costumes), ValueSeq(sounds), ValueSeq(broadcasts))
    }

    /** The defaults of `prepareRepresent`: the blank `"costume1"` when there is no
        costume, and the stage's `"message1"` broadcast when it has no broadcast. */
    method AddDefaults(g: Graph, globals: set<string>) returns (o: Outcome)
      requires g.Valid() && Valid(g.shapes)
      modifies this`costumes, this`broadcasts, g`shapes, g`nextRef
      ensures g.Valid() && Valid(g.shapes)
      ensures costumes == if old(costumes) == [] then [(DEFAULT_COSTUME.name, DEFAULT_COSTUME)] else old(costumes)
      ensures !(old(broadcasts) == [] && isStage) ==>
                o.Pass? && broadcasts == old(broadcasts) && g.shapes == old(g.shapes) && g.nextRef == old(g.nextRef)
      ensures old(broadcasts) == [] && isStage ==>
                var d := old(g.nextRef);
                && d !in old(g.shapes) && d in g.shapes && g.shapes[d].kind.DeclK? && g.nextRef == d + 1
                && (var n := g.shapes[d].kind.name;
                    && g.shapes == old(g.shapes)[d := DeclShape(BroadcastV, n)]
                    && (!scramble ==> n == DEFAULT_BROADCAST)
                    && (o.Fail? <==> n in globals)
                    && (o.Fail? ==> o.error == IllegalArgument(NAME_USED) && broadcasts == [])
                    && (o.Pass? ==> broadcasts == [(n, d)]))
    {
      o := Pass;
      if costumes == [] {
        var _ := AddCostume(DEFAULT_COSTUME);
      }
      if broadcasts == [] && isStage {
        var d, n;
        d, n, o := MakeLocalBroadcast(g, DEFAULT_BROADCAST, globals);
      }
    }

    /** `hatBlocks.forEach { it.prepareRepresent(this) }`: the hats in order, up to the
        first exception, as `HatsRun` computes. */
    method PrepareHats(g: Graph, sp: SpriteView, ghost fuel: nat) returns (o: Outcome)
      requires HatsRun(StateOf(g), hats, |hats|, fuel, g.stacks, sp).Done?
      modifies g`shapes, g`nextRef, g`backdropSlot, g`costumeSlot, g`soundSlot, g`broadcastSlot
      ensures HatsRun(old(StateOf(g)), hats, |hats|, fuel, g.stacks, sp) == Done(StateOf(g), o)
    {
      ghost var s0 := StateOf(g);
      o := Pass;
      var i := 0;
      while i < |hats|
        invariant 0 <= i <= |hats|
        invariant o.Pass? && HatsRun(s0, hats, i, fuel, g.stacks, sp) == Done(StateOf(g), Pass)
      {
        HatsRunPrefix(s0, hats, i + 1, |hats|, fuel, g.stacks, sp);
        o := PrepareBlock(g, hats[i], fuel, sp);
        if o.Fail? {
          HatsRunStops(s0, hats, i + 1, |hats|, fuel, g.stacks, sp);
          break;
        }
        i := i + 1;
      }
    }

    /** The hats prepared in a well-formed target: the target stays well formed, the
        exceptions are those the pass anticipates, and on success the arena is ranked
        (`f`) and every hat owns a stack, ready to be flattened. */
    method PrepareScripts(g: Graph, sp: SpriteView, ghost fuel: nat, ghost c: Scope, ghost rank: map<Ref, nat>)
      returns (o: Outcome, ghost f: Forest)
      requires g.Valid() && Valid(g.shapes) && Inv(c, StateOf(g), rank) && c.stacks == g.stacks && c.sp == sp
      requires forall i | 0 <= i < |hats| :: rank[hats[i]] <= fuel
      modifies g`shapes, g`nextRef, g`backdropSlot, g`costumeSlot, g`soundSlot, g`broadcastSlot
      ensures HatsRun(old(StateOf(g)), hats, |hats|, fuel, g.stacks, sp) == Done(StateOf(g), o)
      ensures g.Valid() && Valid(g.shapes)
      ensures o.Fail? ==> o.error.OutOfBounds? || o.error.IllegalState?
      ensures o.Pass? ==> f.shapes == g.shapes && f.stacks == g.stacks && Ranked(f) && HatsStacked(f, hats)
      ensures KindsKept(old(g.shapes), g.shapes) && (o.Pass? ==> Acyclic(StateOf(g), g.stacks, f.rank, f.srank))
    {
      ghost var s0 := StateOf(g);
      f := HatsReady(c, s0, rank, fuel, g.nexts, g.nextStack, g.singletons, variables, lists, broadcasts, hats, comments);
      ghost var st := HatsRun(s0, hats, |hats|, fuel, c.stacks, c.sp).st;
      assert KindsKept(s0.shapes, st.shapes) && Acyclic(st, g.stacks, f.rank, f.srank);
      o := PrepareHats(g, sp, fuel);
      assert StateOf(g) == st;
    }

    /** `hatBlocks.forEach { it.stacks.forEach { s -> s.flattenInto(blocks) } }` into a
        fresh table: the trace `FlatHats` applied. */
    method FlattenHats(g: Graph, ghost f: Forest) returns (table: Entries<Ref>, o: Outcome)
      requires NextsIn(g.nexts, g.shapes) && f.shapes == g.shapes && f.stacks == g.stacks && Ranked(f) && HatsStacked(f, hats)
      modifies g`parents, g`nexts, g`ids, g.gen
      ensures NextsIn(g.nexts, g.shapes) && Flatten.IdsGrow(old(g.ids), g.ids) && g.gen.isModifying == old(g.gen.isModifying)
      ensures o.Pass? <==> FlatHats(f, hats, |hats|).Some?
      ensures o.Fail? ==> o.error.IllegalState?
      ensures o.Pass? ==> Applied(FlatHats(f, hats, |hats|).value, [], table, old(g.parents), g.parents, old(g.nexts), g.nexts, g.ids)
    {
      table := [];
      o := Pass;
      ghost var ps0, ns0 := g.parents, g.nexts;
      AppliedNothing([], ps0, ns0, g.ids);
      for i := 0 to |hats|
        invariant NextsIn(g.nexts, g.shapes) && Flatten.IdsGrow(old(g.ids), g.ids) && g.gen.isModifying == old(g.gen.isModifying)
        invariant o.Pass? && FlatHats(f, hats, i).Some?
        invariant Applied(FlatHats(f, hats, i).value, [], table, ps0, g.parents, ns0, g.nexts, g.ids)
      {
        ghost var ps1, ns1, ids1 := g.parents, g.nexts, g.ids;
        var own := g.shapes[hats[i]].kind.own;
        var t2;
        t2, o := FlattenStack(g, own, None, table, f);
        if o.Fail? {
          FlatHatsFails(f, hats, i + 1, |hats|);
          return;
        }
        AppliedThen(FlatHats(f, hats, i).value, FlatS(f, own, None).value, [], table, t2,
                    ps0, ps1, g.parents, ns0, ns1, g.nexts, ids1, g.ids);
        table := t2;
      }
    }

    /** The hats' stacks flattened in a well-formed target, which stays well formed. */
    method FlattenScripts(g: Graph, ghost f: Forest) returns (table: Entries<Ref>, o: Outcome)
      requires g.Valid() && Valid(g.shapes) && f.shapes == g.shapes && f.stacks == g.stacks && Ranked(f) && HatsStacked(f, hats)
      modifies g`parents, g`nexts, g`ids, g.gen
      ensures g.Valid() && Valid(g.shapes)
      ensures o.Fail? ==> o.error.IllegalState?
      ensures o.Pass? <==> FlatHats(f, hats, |hats|).Some?
      ensures o.Pass? ==> Applied(FlatHats(f, hats, |hats|).value, [], table, old(g.parents), g.parents, old(g.nexts), g.nexts, g.ids)
    {
      ghost var n0 := g.nexts;
      table, o := FlattenHats(g, f);
      Relinked(g.shapes, g.stacks, n0, g.nexts, g.nextRef, g.nextStack);
    }

    /** The defaults added, then the target's view taken: the arena stays ranked, now
        against that view, with the hats' ranks unchanged. */
    method PrepareDefaults(g: Graph, stageBackdrops: seq<Backdrop>, globals: set<string>, ghost fuel: nat,
                           ghost rank: map<Ref, nat>, ghost srank: map<StackRef, nat>)
      returns (o: Outcome, sp: SpriteView, ghost rank1: map<Ref, nat>)
      requires g.Valid() && Valid(g.shapes) && Acyclic(StateOf(g), g.stacks, rank, srank)
      requires forall i | 0 <= i < |hats| :: rank[hats[i]] <= fuel
      modifies this`costumes, this`broadcasts, g`shapes, g`nextRef
      ensures g.Valid() && Valid(g.shapes) && KindsKept(old(g.shapes), g.shapes)
      ensures DefaultsAdded(old(costumes), costumes, old(broadcasts), broadcasts, isStage, scramble, o.Pass?)
      ensures o.Fail? ==> o.error.IllegalArgument?
      ensures o.Pass? ==> sp == View(stageBackdrops) && Inv(Scope(g.stacks, srank, sp), StateOf(g), rank1)
      ensures o.Pass? ==> forall i | 0 <= i < |hats| :: rank1[hats[i]] <= fuel
    {
      ghost var s0 := StateOf(g);
      o := AddDefaults(g, globals);
      assert KindsKept(s0.shapes, g.shapes);
      sp := View(stageBackdrops);
      rank1 := rank;
      if o.Fail? {
        return;
      }
      BroadcastsTyped(g.shapes, broadcasts, stageBackdrops, ValueSeq(costumes), ValueSeq(sounds));
      ghost var sh := if s0.nextRef in g.shapes then g.shapes[s0.nextRef] else DeclShape(BroadcastV, []);
      rank1 := DefaultsRanked(s0, StateOf(g), sh, g.stacks, rank, srank, sp, hats, fuel);
    }

    /** The first half of `prepareRepresent`: the default costume and broadcast, then
        every hat prepared against the target's view.  On success the arena is ranked
        (`f`) and every hat owns a stack. */
    method PrepareTarget(g: Graph, stageBackdrops: seq<Backdrop>, globals: set<string>, ghost fuel: nat,
                         ghost rank: map<Ref, nat>, ghost srank: map<StackRef, nat>)
      returns (o: Outcome, ghost f: Forest)
      requires g.Valid() && Valid(g.shapes) && Acyclic(StateOf(g), g.stacks, rank, srank)
      requires forall i | 0 <= i < |hats| :: rank[hats[i]] <= fuel
      modifies this`costumes, this`broadcasts
      modifies g`shapes, g`nextRef, g`backdropSlot, g`costumeSlot, g`soundSlot, g`broadcastSlot
      ensures g.Valid() && Valid(g.shapes)
      ensures DefaultsAdded(old(costumes), costumes, old(broadcasts), broadcasts, isStage, scramble, o.Pass?)
      ensures o.Fail? ==> o.error.IllegalArgument? || o.error.OutOfBounds? || o.error.IllegalState?
      ensures o.Pass? ==> f.shapes == g.shapes && f.stacks == g.stacks && Ranked(f) && HatsStacked(f, hats)
      ensures KindsKept(old(g.shapes), g.shapes) && (o.Pass? ==> Acyclic(StateOf(g), g.stacks, f.rank, f.srank))
    {
      f := Forest(g.shapes, g.stacks, rank, srank);
      ghost var s0 := g.shapes;
      var sp;
      ghost var rank1;
      o, sp, rank1 := PrepareDefaults(g, stageBackdrops, globals, fuel, rank, srank);
      if o.Fail? {
        return;
      }
      ghost var s1 := g.shapes;
      o, f := PrepareScripts(g, sp, fuel, Scope(g.stacks, srank, sp), rank1);
      KindsKeptTrans(s0, s1, g.shapes);
    }

    /** `prepareRepresent`: the defaults, then every hat prepared, then every hat's own
        stack flattened with a null parent into the new `allBlocks`.  On an exception
        `allBlocks` keeps its old value. */
    method PrepareRepresent(g: Graph, stageBackdrops: seq<Backdrop>, globals: set<string>, ghost fuel: nat,
                            ghost rank: map<Ref, nat>, ghost srank: map<StackRef, nat>)
      returns (o: Outcome, ghost f: Forest)
      requires g.Valid() && Valid(g.shapes) && Acyclic(StateOf(g), g.stacks, rank, srank)
      requires forall i | 0 <= i < |hats| :: rank[hats[i]] <= fuel
      modifies this`costumes, this`broadcasts, this`allBlocks
      modifies g`shapes, g`nextRef, g`backdropSlot, g`costumeSlot, g`soundSlot, g`broadcastSlot, g`parents, g`nexts, g`ids, g.gen
      ensures g.Valid() && Valid(g.shapes)
      ensures DefaultsAdded(old(costumes), costumes, old(broadcasts), broadcasts, isStage, scramble, o.Pass?)
      ensures o.Fail? ==> allBlocks == old(allBlocks)
      ensures o.Fail? ==> o.error.IllegalArgument? || o.error.OutOfBounds? || o.error.IllegalState?
      ensures o.Pass? ==>
                && f.shapes == g.shapes && f.stacks == g.stacks && Ranked(f) && HatsStacked(f, hats)
                && FlatHats(f, hats, |hats|).Some? && allBlocks.Some?
                && Applied(FlatHats(f, hats, |hats|).value, [], allBlocks.value, old(g.parents), g.parents, old(g.nexts), g.nexts, g.ids)
      ensures KindsKept(old(g.shapes), g.shapes) && (o.Pass? ==> Acyclic(StateOf(g), g.stacks, f.rank, f.srank))
    {
      o, f := PrepareTarget(g, stageBackdrops, globals, fuel, rank, srank);
      if o.Fail? {
        return;
      }
      var table;
      table, o := FlattenScripts(g, f);
      if o.Pass? {
        allBlocks := Some(table);
      }
    }

    /** The target's object, given its seven computed parts and its start values in
        `represent`'s order of keys. */
    function Assemble(bobj: Entries<Json>, vobj: Entries<Json>, lobj: Entries<Json>, cobj: Entries<Json>,
                      blocks: Entries<Json>): (j: Json)
      ensures j.JObj? && KeySeq(j.members) == TARGET_KEYS
      reads this`costumes, this`sounds, this`name, this`startCostume, this`isStage, this`startLayer, this`startAudioTempo
      reads this`startTextToSpeechLanguage, this`startVideoState, this`startVideoTransparency, this`startVolume
    {
      JObj([("broadcasts", JObj(bobj)), ("variables", JObj(vobj)), ("lists", JObj(lobj)),
            ("comments", JObj(cobj)), ("costumes", CostumesJson(costumes)), ("sounds", SoundsJson(sounds)),
            ("name", JStr(name)), ("currentCostume", JInt(startCostume)), ("isStage", JBool(isStage)),
            ("layerOrder", JInt(startLayer)), ("tempo", JInt(startAudioTempo)),
            ("textToSpeechLanguage", StrOrNull(startTextToSpeechLanguage)),
            ("videoState", JStr(startVideoState)), ("videoTransparency", JInt(startVideoTransparency)),
            ("volume", JInt(startVolume)), ("blocks", JObj(blocks))])
    }

    /** `represent` in a state where every declaration, every comment's owner and every
        block the table reads hold ids `ids`: the target's declarations keyed by their
        ids, its comments by `cids`, its assets in order, its start values, and its
        block table mapped to block objects. */
    ghost function TargetJson(shapes: map<Ref, Shape>, cs: map<StackRef, seq<Ref>>, ids: map<Ref, string>, nexts: map<Ref, Ref>,
                              parents: map<Ref, Option<string>>, slots: Slots, cids: seq<string>): Json
      reads this
      requires BroadcastsOk(shapes, broadcasts) && VarsOk(shapes, variables) && ListsOk(shapes, lists)
      requires allBlocks.Some? && DeclsHaveIds(ids, broadcasts, variables, lists)
      requires |cids| == |comments| && AllOwned(shapes, cs, ids, comments)
      requires forall i | 0 <= i < |allBlocks.value| ::
                 Typed(shapes, slots, allBlocks.value[i].1) && Serialisable(shapes, cs, nexts, slots, allBlocks.value[i].1)
    {
      Assemble(PutAll([], Keyed(ids, BroadcastRows(shapes, broadcasts))),
               PutAll([], Keyed(ids, VariableRows(shapes, variables))),
               PutAll([], Keyed(ids, ListRows(shapes, lists))),
               PutAll([], CommentRows(shapes, cs, ids, comments, cids)),
               BlockRows(shapes, cs, ids, nexts, parents, slots, allBlocks.value))
    }

    /** The first three objects of `represent`: each declaration's id is read (made if
        missing) and put with its row, broadcasts first, then variables, then lists. */
    method DeclObjects(g: Graph, ghost shapes: map<Ref, Shape>) returns (bobj: Entries<Json>, vobj: Entries<Json>, lobj: Entries<Json>)
      requires shapes == g.shapes && BroadcastsOk(shapes, broadcasts) && VarsOk(shapes, variables) && ListsOk(shapes, lists)
      modifies g`ids, g.gen
      ensures Flatten.IdsGrow(old(g.ids), g.ids) && g.gen.isModifying == old(g.gen.isModifying)
      ensures DeclObjectsAt(shapes, g.ids, broadcasts, variables, lists, bobj, vobj, lobj)
    {
      var brows := BroadcastRows(g.shapes, broadcasts);
      bobj := IdObject(g, brows);
      ghost var ids1 := g.ids;
      var vrows := VariableRows(g.shapes, variables);
      vobj := IdObject(g, vrows);
      ghost var ids2 := g.ids;
      var lrows := ListRows(g.shapes, lists);
      lobj := IdObject(g, lrows);
      KeyedStable(ids1, g.ids, brows);
      KeyedStable(ids2, g.ids, vrows);
    }

    /** The parts computed at earlier ids are those of `TargetJson` at the final ids. */
    lemma Assembled(shapes: map<Ref, Shape>, cs: map<StackRef, seq<Ref>>, ids1: map<Ref, string>, ids2: map<Ref, string>,
                    ids: map<Ref, string>, nexts: map<Ref, Ref>, parents: map<Ref, Option<string>>, slots: Slots, cids: seq<string>,
                    bobj: Entries<Json>, vobj: Entries<Json>, lobj: Entries<Json>, cobj: Entries<Json>, blocks: Entries<Json>)
      requires DeclObjectsAt(shapes, ids1, broadcasts, variables, lists, bobj, vobj, lobj) && Flatten.IdsGrow(ids1, ids2) && Flatten.IdsGrow(ids2, ids)
      requires |cids| == |comments| && AllOwned(shapes, cs, ids2, comments)
      requires cobj == PutAll([], CommentRows(shapes, cs, ids2, comments, cids))
      requires allBlocks.Some? && forall i | 0 <= i < |allBlocks.value| ::
                 Typed(shapes, slots, allBlocks.value[i].1) && Serialisable(shapes, cs, nexts, slots, allBlocks.value[i].1)
      requires blocks == BlockRows(shapes, cs, ids, nexts, parents, slots, allBlocks.value)
      ensures DeclsHaveIds(ids, broadcasts, variables, lists) && AllOwned(shapes, cs, ids, comments)
      ensures Assemble(bobj, vobj, lobj, cobj, blocks) == TargetJson(shapes, cs, ids, nexts, parents, slots, cids)
    {
      DeclObjectsStable(shapes, ids1, ids, broadcasts, variables, lists, bobj, vobj, lobj);
      CommentRowsStable(shapes, cs, ids2, ids, comments, cids);
    }

    /** The end of `represent`, once the declarations' and comments' objects are
        made: reading `allBlocks` throws before `prepareRepresent` has set it, then
        every block of the table is written, and the target's object is assembled. */
    method Finish(g: Graph, bobj: Entries<Json>, vobj: Entries<Json>, lobj: Entries<Json>, cobj: Entries<Json>,
                  ghost ids1: map<Ref, string>, ghost ids2: map<Ref, string>, ghost cids: seq<string>,
                  ghost shapes: map<Ref, Shape>, ghost cs: map<StackRef, seq<Ref>>, ghost nexts: map<Ref, Ref>,
                  ghost parents: map<Ref, Option<string>>, ghost slots: Slots)
      returns (res: Result<Json>)
      requires g.Valid() && shapes == g.shapes && cs == Contents(g.stacks) && nexts == g.nexts && parents == g.parents && slots == SlotsOf(g)
      requires allBlocks.Some? ==> TableTyped(shapes, slots, allBlocks.value)
      requires DeclObjectsAt(shapes, ids1, broadcasts, variables, lists, bobj, vobj, lobj)
      requires Flatten.IdsGrow(ids1, ids2) && ids2 == g.ids
      requires |cids| == |comments| && AllOwned(shapes, cs, ids2, comments)
      requires cobj == PutAll([], CommentRows(shapes, cs, ids2, comments, cids))
      modifies g`ids, g.gen, g`stacks
      ensures g.Valid() && Contents(g.stacks) == cs && Flatten.IdsGrow(ids2, g.ids)
      ensures Raised(res, true, allBlocks.Some?,
                     allBlocks.Some? && forall i | 0 <= i < |allBlocks.value| :: Serialisable(shapes, cs, nexts, slots, allBlocks.value[i].1))
      ensures res.Ok? ==>
                && DeclsHaveIds(g.ids, broadcasts, variables, lists) && AllOwned(shapes, cs, g.ids, comments)
                && res.value == TargetJson(shapes, cs, g.ids, nexts, parents, slots, cids)
    {
      if allBlocks.None? {
        return Err(Uninitialized(ALL_BLOCKS_UNSET));
      }
      var bres := BlocksObject(g, allBlocks.value, shapes, cs, nexts, parents, slots);
      if bres.Err? {
        return Err(bres.error);
      }
      Assembled(shapes, cs, ids1, ids2, g.ids, nexts, parents, slots, cids, bobj, vobj, lobj, cobj, bres.value);
      res := Ok(Assemble(bobj, vobj, lobj, cobj, bres.value));
    }

    /** `represent` after the declarations' objects: the comments' object, then the
        rest as `Finish` makes it. */
    method AfterDecls(g: Graph, bobj: Entries<Json>, vobj: Entries<Json>, lobj: Entries<Json>, ghost ids1: map<Ref, string>,
                      ghost shapes: map<Ref, Shape>, ghost cs: map<StackRef, seq<Ref>>, ghost nexts: map<Ref, Ref>,
                      ghost parents: map<Ref, Option<string>>, ghost slots: Slots)
      returns (res: Result<Json>, ghost cids: seq<string>)
      requires g.Valid() && shapes == g.shapes && cs == Contents(g.stacks) && nexts == g.nexts && parents == g.parents && slots == SlotsOf(g)
      requires CommentsOk(shapes, comments)
      requires allBlocks.Some? ==> TableTyped(shapes, slots, allBlocks.value)
      requires DeclObjectsAt(shapes, ids1, broadcasts, variables, lists, bobj, vobj, lobj) && ids1 == g.ids
      modifies g`ids, g.gen, g`stacks, comments
      ensures g.Valid() && Contents(g.stacks) == cs && Flatten.IdsGrow(ids1, g.ids)
      ensures Raised(res, forall i | 0 <= i < |comments| :: Owned(shapes, cs, comments[i]), allBlocks.Some?,
                     allBlocks.Some? && forall i | 0 <= i < |allBlocks.value| :: Serialisable(shapes, cs, nexts, slots, allBlocks.value[i].1))
      ensures res.Ok? ==>
                && DeclsHaveIds(g.ids, broadcasts, variables, lists) && |cids| == |comments| && AllOwned(shapes, cs, g.ids, comments)
                && (forall i | 0 <= i < |comments| :: comments[i].myId == Some(cids[i]))
                && res.value == TargetJson(shapes, cs, g.ids, nexts, parents, slots, cids)
    {
      var cres;
      cres, cids := CommentsObject(g, comments, shapes, cs);
      if cres.Err? {
        return Err(cres.error), cids;
      }
      res := Finish(g, bobj, vobj, lobj, cres.value, ids1, g.ids, cids, shapes, cs, nexts, parents, slots);
    }

    /** `represent`: the broadcasts', variables' and lists' ids are read (made if
        missing), then the comments', then the assets and start values are written, and
        last the block table is mapped.  It throws `IllegalStateException` for a comment
        whose block reports no object; reading `allBlocks` before `prepareRepresent`
        throws; and so does a block that cannot be written.  Otherwise the result is
        `TargetJson` at the final ids.  `shapes`, `cs`, `nexts`, `parents` and `slots`
        name the arena's objects, stack contents, links, parents and slots. */
    method Represent(g: Graph, ghost shapes: map<Ref, Shape>, ghost cs: map<StackRef, seq<Ref>>, ghost nexts: map<Ref, Ref>,
                     ghost parents: map<Ref, Option<string>>, ghost slots: Slots)
      returns (res: Result<Json>, ghost cids: seq<string>)
      requires g.Valid() && shapes == g.shapes && cs == Contents(g.stacks) && nexts == g.nexts && parents == g.parents && slots == SlotsOf(g)
      requires Tables(shapes, variables, lists, broadcasts, hats, comments)
      requires allBlocks.Some? ==> TableTyped(shapes, slots, allBlocks.value)
      modifies g`ids, g.gen, g`stacks, comments
      ensures g.Valid() && Contents(g.stacks) == cs && Flatten.IdsGrow(old(g.ids), g.ids)
      ensures Raised(res, forall i | 0 <= i < |comments| :: Owned(shapes, cs, comments[i]), allBlocks.Some?,
                     allBlocks.Some? && forall i | 0 <= i < |allBlocks.value| :: Serialisable(shapes, cs, nexts, slots, allBlocks.value[i].1))
      ensures res.Ok? ==>
                && DeclsHaveIds(g.ids, broadcasts, variables, lists) && |cids| == |comments| && AllOwned(shapes, cs, g.ids, comments)
                && (forall i | 0 <= i < |comments| :: comments[i].myId == Some(cids[i]))
                && res.value == TargetJson(shapes, cs, g.ids, nexts, parents, slots, cids)
    {
      var bobj, vobj, lobj := DeclObjects(g, shapes);
      res, cids := AfterDecls(g, bobj, vobj, lobj, g.ids, shapes, cs, nexts, parents, slots);
    }
  }

  /** `StageBuilder`: a target marked as the stage, and the list of its backdrops. */
  class StageBuilder {
    const sprite: SpriteBuilder
    var backdropList: seq<Backdrop>

    constructor (gen: IdGenerator)
      modifies gen
      ensures fresh(sprite) && sprite.isStage && backdropList == []
      ensures sprite.hats == [] && sprite.variables == [] && sprite.lists == [] && sprite.broadcasts == []
      ensures sprite.costumes == [] && sprite.sounds == [] && sprite.comments == [] && sprite.allBlocks.None? && !sprite.scramble
    {
      sprite := new SpriteBuilder(gen);
      backdropList := [];
      new;
      sprite.isStage := true;
    }

    /** `addBackdrop`: the costume is added to the stage's costumes, and its backdrop
        appended to the backdrop list and returned. */
    method AddBackdrop(c: Costume) returns (b: Backdrop)
      modifies this`backdropList, sprite`costumes
      ensures b == AsBackdrop(c) && b.name == c.name
      ensures backdropList == old(backdropList) + [b]
      ensures sprite.costumes == Put(old(sprite.costumes), c.name, c)
    {
      var c' := sprite.AddCostume(c);
      b := AsBackdrop(c');
      backdropList := backdropList + [b];
    }
  }
}
