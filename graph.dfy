/** The mutable object graph the builders create: every block and expression object
    is an arena entry. Its structural state (opcode, flags and socket maps) is a
    `Shape`; its `next`/`parent` links, its lazily generated id, and the `BlockStack`s
    it hangs are kept beside it, in the maps the methods update in place. */
module Graph {
  import opened Wrappers
  import opened Ordered
  import opened Json
  import opened Ids
  import opened Wire
  import opened Attachments

  type Ref = nat
  type StackRef = nat

  /** The menu shadows of SpecialInputs.kt. */
  datatype Menu = LocationMenu | CloneTargetMenu | TouchObjectMenu | DistanceObjectMenu | SensingKeyMenu | PropertyTargetMenu

  /** The singleton placeholders resolved against a sprite before serialisation. */
  datatype Placeholder = FirstBackdrop | FirstSprite | FirstSound | FirstBroadcast

  datatype ArgKind = StringNumberArg | BooleanArg

  /** What kind of object an arena entry is. */
  datatype Kind =
    | Plain                          // NormalBlock
    | Host(sub: Option<StackRef>)    // NormalBlockBlockHost and subclasses: the stack given at construction
    | Hat(own: StackRef)             // NormalHatBlock, ProcedureDefinitionBlock: own stack, itself first
    | Isolated(own: StackRef)        // IsolatedBlockStackHat: stands for its stack's first block
    | Reporter                       // NormalExpression (operators, reporters)
    | LiteralK(lit: Literal)         // ValueShadowExpression
    | DeclK(variant: Variant, name: string)   // Variable, ScratchList, Broadcast
    | MenuK(menu: Menu, target: string)
    | CostumeK(costume: Costume)
    | SoundK(sound: Sound)
    | BackdropK(backdrop: Backdrop)
    | FirstK(which: Placeholder)
    | PrototypeK                     // ProcedurePrototype
    | ArgumentK(arg: ArgKind, name: string, default: string, argumentId: string)

  /** `Expression`: everything that can fill a socket. */
  predicate IsExpression(k: Kind)
  {
    !(k.Plain? || k.Host? || k.Hat? || k.Isolated?)
  }

  /** `ShadowExpression`: literals, broadcasts, menus, assets, placeholders, the
      prototype and procedure arguments. */
  predicate IsShadowExpression(k: Kind)
  {
    k.LiteralK? || (k.DeclK? && k.variant == BroadcastV) || k.MenuK? || k.CostumeK? || k.SoundK?
    || k.BackdropK? || k.FirstK? || k.PrototypeK? || k.ArgumentK?
  }

  /** `Expression.independent`: false for literals and declarations, which are inlined. */
  predicate Independent(k: Kind)
  {
    IsExpression(k) && !k.LiteralK? && !k.DeclK?
  }

  /** `NonShadowShouldCopy` (and `ShadowShouldCopy`): replaced by a copy before serialisation. */
  predicate ShouldCopy(k: Kind)
  {
    k.MenuK? || k.CostumeK? || k.SoundK? || k.BackdropK? || k.FirstK?
  }

  /** `HatBlock`: skipped by `BlockStack.prepareRepresent`. */
  predicate IsHat(k: Kind)
  {
    k.Hat? || k.Isolated?
  }

  /** A field: a fixed value (`Field.of`, `Property`) or an object that is its own field
      (a declaration, costume, sound, backdrop or placeholder). */
  datatype FieldSrc = Fixed(value: FieldValue) | Of(obj: Ref)

  /** The state of one `NormalBlock`: its five socket maps, in insertion order. */
  datatype Shape = Shape(
    kind: Kind,
    opcode: Option<string>,
    shadow: bool,
    topLevel: bool,
    shadowless: Entries<Option<Ref>>,            // shadowlessExpressionInputs
    paired: Entries<(Ref, Option<Ref>)>,         // expressionInputs: shadow to value
    nested: Entries<Option<StackRef>>,           // blockStackInputs
    fields: Entries<FieldSrc>,
    mutation: Entries<Option<Json>>)

  /** A freshly constructed object of the given kind: empty maps, not top level. */
  function Blank(k: Kind, opcode: Option<string>, shadow: bool): (sh: Shape)
    ensures sh.kind == k && sh.opcode == opcode && sh.shadow == shadow && !sh.topLevel
    ensures sh.shadowless == [] && sh.paired == [] && sh.nested == [] && sh.fields == [] && sh.mutation == []
  {
    Shape(k, opcode, shadow, false, [], [], [], [], [])
  }

  /** A `BlockStack`: its id (generated when the stack is built) and its blocks. */
  datatype Stack = Stack(id: string, contents: seq<Ref>)

  /** A null entry, or a reference into `m`. */
  ghost predicate OptIn<K, V>(v: Option<K>, m: map<K, V>)
  {
    v.Some? ==> v.value in m
  }

  /** An `expressionInputs` entry whose shadow and value (if any) are objects of `shapes`. */
  ghost predicate PairIn(v: (Ref, Option<Ref>), shapes: map<Ref, Shape>)
  {
    v.0 in shapes && OptIn(v.1, shapes)
  }

  /** A field value that, when it is an object, is one of `shapes`. */
  ghost predicate FieldIn(v: FieldSrc, shapes: map<Ref, Shape>)
  {
    v.Of? ==> v.obj in shapes
  }

  /** Every reference a shape holds is to an allocated object or stack. */
  ghost predicate ShapeClosed(sh: Shape, shapes: map<Ref, Shape>, stacks: map<StackRef, Stack>)
  {
    && (forall v | v in Values(sh.shadowless) :: OptIn(v, shapes))
    && (forall v | v in Values(sh.paired) :: PairIn(v, shapes))
    && (forall v | v in Values(sh.nested) :: OptIn(v, stacks))
    && (forall v | v in Values(sh.fields) :: FieldIn(v, shapes))
    && ((sh.kind.Hat? || sh.kind.Isolated?) ==> sh.kind.own in stacks)
    && (sh.kind.Host? && sh.kind.sub.Some? ==> sh.kind.sub.value in stacks)
  }

  /** Refs and stack refs below the allocation counters. */
  ghost predicate Allocated(shapes: map<Ref, Shape>, stacks: map<StackRef, Stack>, nextRef: nat, nextStack: nat)
  {
    (forall r | r in shapes :: r < nextRef) && (forall s | s in stacks :: s < nextStack)
  }

  /** Every `next` link is to an allocated object. */
  ghost predicate NextsIn(nexts: map<Ref, Ref>, shapes: map<Ref, Shape>)
  {
    forall r | r in nexts :: nexts[r] in shapes
  }

  /** No reference in shapes, `next` links or stacks dangles. */
  ghost predicate Closed(shapes: map<Ref, Shape>, stacks: map<StackRef, Stack>, nexts: map<Ref, Ref>)
  {
    && (forall r {:trigger shapes[r]} | r in shapes :: ShapeClosed(shapes[r], shapes, stacks))
    && NextsIn(nexts, shapes)
    && (forall s, i | s in stacks && 0 <= i < |stacks[s].contents| :: stacks[s].contents[i] in shapes)
  }

  /** The placeholder objects as constructed: opcode, and the field pointing at the
      object itself (`FirstSound` uses the `COSTUME` field name; `FirstBroadcast` has none). */
  function PlaceholderShape(p: Placeholder, self: Ref): (sh: Shape)
    ensures sh.kind == FirstK(p) && sh.shadow
  {
    match p
    case FirstBackdrop => Blank(FirstK(p), Some("looks_backdrops"), true).(fields := [("BACKDROP", Of(self))])
    case FirstSprite => Blank(FirstK(p), Some("looks_costume"), true).(fields := [("COSTUME", Of(self))])
    case FirstSound => Blank(FirstK(p), Some("sound_sounds_menu"), true).(fields := [("COSTUME", Of(self))])
    case FirstBroadcast => Blank(FirstK(p), Some("sound_sounds_menu"), true)
  }

  lemma ShapeClosedGrow(sh: Shape, shapes: map<Ref, Shape>, shapes': map<Ref, Shape>, stacks: map<StackRef, Stack>, stacks': map<StackRef, Stack>)
    requires ShapeClosed(sh, shapes, stacks)
    requires shapes.Keys <= shapes'.Keys && stacks.Keys <= stacks'.Keys
    ensures ShapeClosed(sh, shapes', stacks')
  {
  }

  /** Growing the object and stack maps keeps every old shape closed; the caller
      shows the one replaced or added entry closed itself. */
  lemma GrowClosed(shapes: map<Ref, Shape>, shapes': map<Ref, Shape>, stacks: map<StackRef, Stack>, stacks': map<StackRef, Stack>, nexts: map<Ref, Ref>)
    requires Closed(shapes, stacks, nexts)
    requires shapes.Keys <= shapes'.Keys && stacks.Keys <= stacks'.Keys
    requires forall r | r in shapes' :: (r in shapes && shapes'[r] == shapes[r]) || ShapeClosed(shapes'[r], shapes', stacks)
    requires forall s | s in stacks' :: (s in stacks && stacks'[s] == stacks[s]) || forall x | x in stacks'[s].contents :: x in shapes
    ensures Closed(shapes', stacks', nexts)
  {
    forall r | r in shapes'
      ensures ShapeClosed(shapes'[r], shapes', stacks')
    {
      ShapeClosedGrow(shapes'[r], if r in shapes && shapes'[r] == shapes[r] then shapes else shapes', shapes', stacks, stacks');
    }
  }

  lemma AddShape(shapes: map<Ref, Shape>, stacks: map<StackRef, Stack>, nexts: map<Ref, Ref>, nextRef: nat, nextStack: nat, sh: Shape)
    requires Structure(shapes, stacks, nexts, nextRef, nextStack)
    requires ShapeClosed(sh, shapes[nextRef := sh], stacks)
    ensures nextRef !in shapes
    ensures Structure(shapes[nextRef := sh], stacks, nexts, nextRef + 1, nextStack)
  {
    GrowClosed(shapes, shapes[nextRef := sh], stacks, stacks, nexts);
  }

  lemma ReplaceShape(shapes: map<Ref, Shape>, stacks: map<StackRef, Stack>, nexts: map<Ref, Ref>, nextRef: nat, nextStack: nat, r: Ref, sh: Shape)
    requires Structure(shapes, stacks, nexts, nextRef, nextStack)
    requires r in shapes && ShapeClosed(sh, shapes, stacks)
    ensures Structure(shapes[r := sh], stacks, nexts, nextRef, nextStack)
  {
    ShapeClosedGrow(sh, shapes, shapes[r := sh], stacks, stacks);
    GrowClosed(shapes, shapes[r := sh], stacks, stacks, nexts);
  }

  lemma AddStack(shapes: map<Ref, Shape>, stacks: map<StackRef, Stack>, nexts: map<Ref, Ref>, nextRef: nat, nextStack: nat, st: Stack)
    requires Structure(shapes, stacks, nexts, nextRef, nextStack)
    requires forall x | x in st.contents :: x in shapes
    ensures nextStack !in stacks
    ensures Structure(shapes, stacks[nextStack := st], nexts, nextRef, nextStack + 1)
  {
    GrowClosed(shapes, shapes, stacks, stacks[nextStack := st], nexts);
  }

  lemma ReplaceStack(shapes: map<Ref, Shape>, stacks: map<StackRef, Stack>, nexts: map<Ref, Ref>, nextRef: nat, nextStack: nat, s: StackRef, st: Stack)
    requires Structure(shapes, stacks, nexts, nextRef, nextStack)
    requires s in stacks && forall x | x in st.contents :: x in shapes
    ensures Structure(shapes, stacks[s := st], nexts, nextRef, nextStack)
  {
    GrowClosed(shapes, shapes, stacks, stacks[s := st], nexts);
  }

  lemma PlaceholderClosed(p: Placeholder, r: Ref, shapes: map<Ref, Shape>, stacks: map<StackRef, Stack>)
    requires r in shapes
    ensures ShapeClosed(PlaceholderShape(p, r), shapes, stacks)
  {
    var sh := PlaceholderShape(p, r);
    assert Values(sh.fields) <= {Of(r)};
  }

  /** Every object of `s0` is in `s1` with the same state. */
  ghost predicate Grows(s0: map<Ref, Shape>, s1: map<Ref, Shape>)
  {
    forall x | x in s0 :: x in s1 && s1[x] == s0[x]
  }

  /** Two updates of one key: the later one wins. */
  lemma UpdateTwice<K, V>(m: map<K, V>, k: K, a: V, b: V)
    ensures m[k := a][k := b] == m[k := b]
  {
  }

  /** Updates of two different keys commute. */
  lemma UpdateSwap<K, V>(m: map<K, V>, k: K, a: V, k': K, b: V)
    requires k != k'
    ensures m[k := a][k' := b] == m[k' := b][k := a]
  {
  }

  ghost predicate Anchored(shapes: map<Ref, Shape>, broadcastSlot: Option<Ref>, singletons: map<Placeholder, Ref>)
  {
    && (broadcastSlot.Some? ==> broadcastSlot.value in shapes)
    && (forall p | p in singletons :: singletons[p] in shapes && shapes[singletons[p]].kind == FirstK(p))
  }

  lemma AnchoredUpdate(shapes: map<Ref, Shape>, broadcastSlot: Option<Ref>, singletons: map<Placeholder, Ref>, r: Ref, sh: Shape)
    requires Anchored(shapes, broadcastSlot, singletons)
    requires r in shapes ==> sh.kind == shapes[r].kind
    ensures Anchored(shapes[r := sh], broadcastSlot, singletons)
  {
  }

  lemma AddSingleton(shapes: map<Ref, Shape>, broadcastSlot: Option<Ref>, singletons: map<Placeholder, Ref>, p: Placeholder, r: Ref)
    requires Anchored(shapes, broadcastSlot, singletons) && r !in shapes
    ensures Anchored(shapes[r := PlaceholderShape(p, r)], broadcastSlot, singletons[p := r])
  {
  }

  /** Relinking `next` fields within the allocated objects keeps the structure. */
  lemma Relinked(shapes: map<Ref, Shape>, stacks: map<StackRef, Stack>, nexts: map<Ref, Ref>, nexts': map<Ref, Ref>, nextRef: nat, nextStack: nat)
    requires Structure(shapes, stacks, nexts, nextRef, nextStack) && NextsIn(nexts', shapes)
    ensures Structure(shapes, stacks, nexts', nextRef, nextStack)
  {
  }

  /** The invariant of the arena apart from ids and placeholder resolution. */
  ghost predicate Structure(shapes: map<Ref, Shape>, stacks: map<StackRef, Stack>, nexts: map<Ref, Ref>, nextRef: nat, nextStack: nat)
  {
    && Allocated(shapes, stacks, nextRef, nextStack)
    && Closed(shapes, stacks, nexts)
  }

  class Graph {
    const gen: IdGenerator
    var shapes: map<Ref, Shape>
    /** `next` of each block that has one (absent means null). */
    var nexts: map<Ref, Ref>
    /** `parent` of each block that was given one (absent means null). */
    var parents: map<Ref, Option<string>>
    /** `myId` of each object; absent until first read or set. */
    var ids: map<Ref, string>
    var stacks: map<StackRef, Stack>
    var nextRef: nat
    var nextStack: nat
    /** What the placeholders were resolved to by `prepareRepresent` (lateinit / nullable). */
    var backdropSlot: Option<Backdrop>
    var costumeSlot: Option<Costume>
    var soundSlot: Option<Sound>
    var broadcastSlot: Option<Ref>
    /** The placeholder singletons, created on first use like Kotlin `object`s. */
    var singletons: map<Placeholder, Ref>

    /** The `next` field of a block. */
    function Next(r: Ref): Option<Ref>
      reads this`nexts
    {
      if r in nexts then Some(nexts[r]) else None
    }

    /** The `parent` field of a block. */
    function Parent(r: Ref): Option<string>
      reads this`parents
    {
      if r in parents then parents[r] else None
    }

    /** The arena invariant. It does not read `ids`, which the id getters update. */
    ghost predicate Valid()
      reads this`shapes, this`stacks, this`nexts, this`nextRef, this`nextStack, this`broadcastSlot, this`singletons
    {
      && Structure(shapes, stacks, nexts, nextRef, nextStack)
      && Anchored(shapes, broadcastSlot, singletons)
    }

    constructor (gen: IdGenerator)
      ensures Valid() && this.gen == gen
      ensures shapes == map[] && nexts == map[] && parents == map[] && ids == map[] && stacks == map[] && singletons == map[]
      ensures backdropSlot.None? && costumeSlot.None? && soundSlot.None? && broadcastSlot.None?
    {
      this.gen := gen;
      shapes := map[];
      nexts := map[];
      parents := map[];
      ids := map[];
      stacks := map[];
      nextRef := 0;
      nextStack := 0;
      backdropSlot := None;
      costumeSlot := None;
      soundSlot := None;
      broadcastSlot := None;
      singletons := map[];
    }

    /** The placeholder object `p`, created on first access. */
    method Singleton(p: Placeholder) returns (r: Ref)
      requires Valid()
      modifies this`shapes, this`nextRef, this`singletons
      ensures Valid() && r in shapes && shapes[r].kind == FirstK(p)
      ensures p in old(singletons) ==> r == old(singletons[p]) && shapes == old(shapes) && singletons == old(singletons)
      ensures p !in old(singletons) ==>
                r !in old(shapes) && shapes == old(shapes)[r := PlaceholderShape(p, r)] && singletons == old(singletons)[p := r]
    {
      if p in singletons {
        r := singletons[p];
      } else {
        r := nextRef;
        var sh := PlaceholderShape(p, r);
        PlaceholderClosed(p, r, shapes[r := sh], stacks);
        AddShape(shapes, stacks, nexts, nextRef, nextStack, sh);
        AddSingleton(shapes, broadcastSlot, singletons, p, r);
        shapes := shapes[r := sh];
        nextRef := nextRef + 1;
        singletons := singletons[p := r];
      }
    }

    /** The `id` getter: the stored id, or a new one from the generator, stored. */
    method GetId(r: Ref) returns (id: string)
      requires r in shapes
      modifies this`ids, gen
      ensures old(Valid()) ==> Valid()
      ensures r in ids && ids[r] == id
      ensures gen.isModifying == old(gen.isModifying)
      ensures r in old(ids) ==> id == old(ids[r]) && ids == old(ids) && gen.currentIdIdx == old(gen.currentIdIdx)
      ensures r !in old(ids) ==> ids == old(ids)[r := id] && |id| >= 1
      ensures r !in old(ids) && !gen.isModifying ==>
                id == Base62(old(gen.currentIdIdx)) && gen.currentIdIdx == old(gen.currentIdIdx) + 1
    {
      if r in ids {
        id := ids[r];
      } else {
        id := gen.MakeId();
        ids := ids[r := id];
      }
    }

    /** The `id` setter. */
    method SetId(r: Ref, v: string)
      requires r in shapes
      modifies this`ids
      ensures old(Valid()) ==> Valid()
      ensures ids == old(ids)[r := v]
    {
      ids := ids[r := v];
    }

    /** Allocates a new object with the given state. */
    method Alloc(sh: Shape) returns (r: Ref)
      requires Valid() && ShapeClosed(sh, shapes, stacks)
      modifies this`shapes, this`nextRef
      ensures Valid()
      ensures r == old(nextRef) && r !in old(shapes) && nextRef == r + 1
      ensures shapes == old(shapes)[r := sh]
    {
      r := nextRef;
      ShapeClosedGrow(sh, shapes, shapes[r := sh], stacks, stacks);
      AddShape(shapes, stacks, nexts, nextRef, nextStack, sh);
      AnchoredUpdate(shapes, broadcastSlot, singletons, r, sh);
      shapes := shapes[r := sh];
      nextRef := nextRef + 1;
    }

    /** Replaces the state of an existing object; its kind stays. */
    method SetShape(r: Ref, sh: Shape)
      requires Valid() && r in shapes && ShapeClosed(sh, shapes, stacks)
      requires sh.kind == shapes[r].kind
      modifies this`shapes
      ensures Valid()
      ensures shapes == old(shapes)[r := sh]
    {
      ReplaceShape(shapes, stacks, nexts, nextRef, nextStack, r, sh);
      AnchoredUpdate(shapes, broadcastSlot, singletons, r, sh);
      shapes := shapes[r := sh];
    }

    /** `BlockStack()`: a new stack whose id is generated at construction. */
    method NewStack(contents: seq<Ref>) returns (s: StackRef)
      requires Valid() && forall x | x in contents :: x in shapes
      modifies this`stacks, this`nextStack, gen
      ensures Valid()
      ensures s == old(nextStack) && s !in old(stacks) && nextStack == s + 1
      ensures gen.isModifying == old(gen.isModifying)
      ensures s in stacks && stacks[s].contents == contents && stacks == old(stacks)[s := stacks[s]]
      ensures !gen.isModifying ==>
                stacks == old(stacks)[s := Stack(Base62(old(gen.currentIdIdx)), contents)]
                && gen.currentIdIdx == old(gen.currentIdIdx) + 1
    {
      var id := gen.MakeId();
      s := nextStack;
      AddStack(shapes, stacks, nexts, nextRef, nextStack, Stack(id, contents));
      stacks := stacks[s := Stack(id, contents)];
      nextStack := nextStack + 1;
    }

    /** Replaces the id or contents of an existing stack. */
    method SetStack(s: StackRef, st: Stack)
      requires Valid() && s in stacks && forall x | x in st.contents :: x in shapes
      modifies this`stacks
      ensures Valid()
      ensures stacks == old(stacks)[s := st]
    {
      ReplaceStack(shapes, stacks, nexts, nextRef, nextStack, s, st);
      stacks := stacks[s := st];
    }

    /** `r.next = n`. */
    method SetNext(r: Ref, n: Ref)
      requires r in shapes && n in shapes
      modifies this`nexts
      ensures nexts == old(nexts)[r := n]
    {
      nexts := nexts[r := n];
    }

    /** `r.parent = p`. */
    method SetParent(r: Ref, p: Option<string>)
      modifies this`parents
      ensures parents == old(parents)[r := p]
    {
      parents := parents[r := p];
    }
  }
}
