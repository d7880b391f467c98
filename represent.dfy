/** `NormalBlock.representInputs`, `representFields` and `represent` (Blocks.kt): the
    JSON object of one block. Serialising reads ids, and the first read of an id
    generates it. `InputIds`, `FieldIds` and `RepresentBlock` read the ids in the
    order the source reads them; the JSON they return is then a function of the ids
    the objects hold afterwards (`InputsSpec`, `FieldsSpec`, `NextSpec`), and the
    coverage predicates say that every id those functions read is present. */
module Represent {
  import opened Wrappers
  import opened Ordered
  import opened Json
  import opened Wire
  import opened Attachments
  import opened Graph
  import opened Blocks
  import opened Expressions
  import Flatten

  // ---- Reading state as values ----

  /** The id an object holds (the empty string for one that has none yet). */
  function IdIn(ids: map<Ref, string>, x: Ref): string
  {
    if x in ids then ids[x] else ""
  }

  /** Renaming a stack leaves its blocks alone. */
  lemma RenamedContents(stacks: map<StackRef, Stack>, s: StackRef, id: string)
    requires s in stacks
    ensures Contents(stacks[s := Stack(id, stacks[s].contents)]) == Contents(stacks)
  {
  }

  /** `representAlone` reads the object's id: every expression but a literal does. */
  predicate ReadsId(k: Kind)
  {
    IsExpression(k) && !k.LiteralK?
  }

  /** The id a block reports. */
  function ReportedId(shapes: map<Ref, Shape>, cs: map<StackRef, seq<Ref>>, ids: map<Ref, string>, x: Ref): string
  {
    match Reporting(shapes, cs, x)
    case Some(o) => IdIn(ids, o)
    case None => ""
  }

  /** The first block of a nested-stack socket that is neither null nor empty. */
  function NestedTop(cs: map<StackRef, seq<Ref>>, v: Option<StackRef>): Option<Ref>
  {
    if v.Some? && v.value in cs && |cs[v.value]| > 0 then Some(cs[v.value][0]) else None
  }

  // ---- What the declared types of the socket maps guarantee ----

  /** `shadowlessExpressionInputs` holds expressions (or null). */
  predicate ShadowlessTyped(shapes: map<Ref, Shape>, m: Entries<Option<Ref>>)
  {
    forall i | 0 <= i < |m| && m[i].1.Some? :: m[i].1.value in shapes && IsExpression(shapes[m[i].1.value].kind)
  }

  /** `expressionInputs` holds a shadow expression and an optional expression over it. */
  predicate PairedTyped(shapes: map<Ref, Shape>, m: Entries<(Ref, Option<Ref>)>)
  {
    forall i | 0 <= i < |m| ::
      && m[i].1.0 in shapes && IsShadowExpression(shapes[m[i].1.0].kind)
      && (m[i].1.1.Some? ==> m[i].1.1.value in shapes && IsExpression(shapes[m[i].1.1.value].kind))
  }

  /** The classes that implement `Field`: declarations, costumes, sounds, backdrops
      and the placeholders. */
  predicate IsField(k: Kind)
  {
    k.DeclK? || k.CostumeK? || k.SoundK? || k.BackdropK? || k.FirstK?
  }

  /** `fields` holds fixed values and field objects. */
  predicate FieldsTyped(shapes: map<Ref, Shape>, m: Entries<FieldSrc>)
  {
    forall i | 0 <= i < |m| && m[i].1.Of? :: m[i].1.obj in shapes && IsField(shapes[m[i].1.obj].kind)
  }

  /** What the placeholders were resolved to; `None` is a `lateinit` never set (for
      the first sound, a null). */
  datatype Slots = Slots(backdrop: Option<Backdrop>, costume: Option<Costume>, sound: Option<Sound>, broadcast: Option<Ref>)

  function SlotsOf(g: Graph): Slots
    reads g`backdropSlot, g`costumeSlot, g`soundSlot, g`broadcastSlot
  {
    Slots(g.backdropSlot, g.costumeSlot, g.soundSlot, g.broadcastSlot)
  }

  /** The resolved broadcast is a `Broadcast`. */
  predicate SlotsTyped(shapes: map<Ref, Shape>, slots: Slots)
  {
    slots.broadcast.Some? ==> slots.broadcast.value in shapes && shapes[slots.broadcast.value].kind.DeclK? && shapes[slots.broadcast.value].kind.variant == BroadcastV
  }

  // ---- Inputs ----

  /** `representAsInput` of the expression in a shadowless socket. */
  function SocketInput(shapes: map<Ref, Shape>, ids: map<Ref, string>, e: Ref): Json
    requires e in shapes && IsExpression(shapes[e].kind)
  {
    InputOf(shapes[e].kind, IdIn(ids, e))
  }

  /** `s.representAsInputWith(e)` of a shadow `s` with an optional expression `e` over it. */
  function PairInput(shapes: map<Ref, Shape>, ids: map<Ref, string>, s: Ref, e: Option<Ref>): Json
    requires s in shapes && IsShadowExpression(shapes[s].kind)
    requires e.Some? ==> e.value in shapes && IsExpression(shapes[e.value].kind)
  {
    InputWith(shapes[s].kind, IdIn(ids, s), if e.Some? then Some((shapes[e.value].kind, IdIn(ids, e.value))) else None)
  }

  /** A nested stack as an input: `[2, id]`, the id being its first block's. */
  function StackInput(id: string): Json
  {
    JArr([JInt(2), JStr(id)])
  }

  /** The shadowless sockets as entries; null ones have no value. */
  function ShadowlessEntries(shapes: map<Ref, Shape>, ids: map<Ref, string>, m: Entries<Option<Ref>>): Entries<Option<Json>>
    requires ShadowlessTyped(shapes, m)
  {
    seq(|m|, i requires 0 <= i < |m| =>
      (m[i].0, if m[i].1.Some? then Some(SocketInput(shapes, ids, m[i].1.value)) else None))
  }

  /** The shadowed sockets as entries. */
  function PairedEntries(shapes: map<Ref, Shape>, ids: map<Ref, string>, m: Entries<(Ref, Option<Ref>)>): Entries<Option<Json>>
    requires PairedTyped(shapes, m)
  {
    seq(|m|, i requires 0 <= i < |m| => (m[i].0, Some(PairInput(shapes, ids, m[i].1.0, m[i].1.1))))
  }

  /** The nested-stack sockets as entries; null and empty stacks have no value. */
  function NestedEntries(shapes: map<Ref, Shape>, cs: map<StackRef, seq<Ref>>, ids: map<Ref, string>,
                         m: Entries<Option<StackRef>>): Entries<Option<Json>>
  {
    seq(|m|, i requires 0 <= i < |m| =>
      (m[i].0, match NestedTop(cs, m[i].1)
               case Some(x) => Some(StackInput(ReportedId(shapes, cs, ids, x)))
               case None => None))
  }

  /** The `inputs` object: shadowless sockets, then shadowed ones, then nested stacks,
      a later put replacing an earlier one under the same name. */
  function InputsSpec(shapes: map<Ref, Shape>, cs: map<StackRef, seq<Ref>>, ids: map<Ref, string>, sh: Shape): Entries<Json>
    requires ShadowlessTyped(shapes, sh.shadowless) && PairedTyped(shapes, sh.paired)
  {
    PutAll(PutAll(PutAll([], ShadowlessEntries(shapes, ids, sh.shadowless)),
                  PairedEntries(shapes, ids, sh.paired)),
           NestedEntries(shapes, cs, ids, sh.nested))
  }

  /** An object whose rendering reads its id has one. */
  ghost predicate HasIdIfRead(shapes: map<Ref, Shape>, ids: map<Ref, string>, x: Ref)
  {
    x in shapes && ReadsId(shapes[x].kind) ==> x in ids
  }

  /** A non-empty nested stack's first block reports an id, and the stack took it. */
  ghost predicate Named(shapes: map<Ref, Shape>, cs: map<StackRef, seq<Ref>>, stacks: map<StackRef, Stack>, ids: map<Ref, string>,
                        v: Option<StackRef>)
  {
    NestedTop(cs, v).Some? && Reporting(shapes, cs, NestedTop(cs, v).value).Some? ==>
      var o := Reporting(shapes, cs, NestedTop(cs, v).value).value;
      o in ids && v.value in stacks && stacks[v.value].id == ids[o]
  }

  /** A nested stack whose first block is an isolated hat over an empty stack: reading
      its id throws. */
  predicate NestedFails(shapes: map<Ref, Shape>, cs: map<StackRef, seq<Ref>>, v: Option<StackRef>)
  {
    NestedTop(cs, v).Some? && Reporting(shapes, cs, NestedTop(cs, v).value).None?
  }

  /** Every id the `inputs` object reads is present, and every nested stack is named. */
  ghost predicate InputsCovered(shapes: map<Ref, Shape>, cs: map<StackRef, seq<Ref>>, stacks: map<StackRef, Stack>, ids: map<Ref, string>, sh: Shape)
  {
    && (forall i | 0 <= i < |sh.shadowless| && sh.shadowless[i].1.Some? :: HasIdIfRead(shapes, ids, sh.shadowless[i].1.value))
    && (forall i | 0 <= i < |sh.paired| ::
          HasIdIfRead(shapes, ids, sh.paired[i].1.0) && (sh.paired[i].1.1.Some? ==> HasIdIfRead(shapes, ids, sh.paired[i].1.1.value)))
    && (forall i | 0 <= i < |sh.nested| :: Named(shapes, cs, stacks, ids, sh.nested[i].1))
  }

  /** The ids the shadowless sockets read, in order. */
  method ShadowlessIds(g: Graph, m: Entries<Option<Ref>>)
    requires ShadowlessTyped(g.shapes, m)
    modifies g`ids, g.gen
    ensures Flatten.IdsGrow(old(g.ids), g.ids)
    ensures forall i | 0 <= i < |m| && m[i].1.Some? :: HasIdIfRead(g.shapes, g.ids, m[i].1.value)
  {
    var i := 0;
    while i < |m|
      invariant i <= |m|
      invariant Flatten.IdsGrow(old(g.ids), g.ids)
      invariant forall j | 0 <= j < i && m[j].1.Some? :: HasIdIfRead(g.shapes, g.ids, m[j].1.value)
    {
      if m[i].1.Some? && ReadsId(g.shapes[m[i].1.value].kind) {
        var _ := g.GetId(m[i].1.value);
      }
      i := i + 1;
    }
  }

  /** The ids the shadowed sockets read, in order: the value's before the shadow's. */
  method PairedIds(g: Graph, m: Entries<(Ref, Option<Ref>)>)
    requires PairedTyped(g.shapes, m)
    modifies g`ids, g.gen
    ensures Flatten.IdsGrow(old(g.ids), g.ids)
    ensures forall i | 0 <= i < |m| ::
              HasIdIfRead(g.shapes, g.ids, m[i].1.0) && (m[i].1.1.Some? ==> HasIdIfRead(g.shapes, g.ids, m[i].1.1.value))
  {
    var i := 0;
    while i < |m|
      invariant i <= |m|
      invariant Flatten.IdsGrow(old(g.ids), g.ids)
      invariant forall j | 0 <= j < i ::
                  HasIdIfRead(g.shapes, g.ids, m[j].1.0) && (m[j].1.1.Some? ==> HasIdIfRead(g.shapes, g.ids, m[j].1.1.value))
    {
      var (s, e) := m[i].1;
      if e.Some? && ReadsId(g.shapes[e.value].kind) {
        var _ := g.GetId(e.value);
      }
      if ReadsId(g.shapes[s].kind) {
        var _ := g.GetId(s);
      }
      i := i + 1;
    }
  }

  /** Renaming stack `s` after the object its first block reports keeps every stack named. */
  lemma NamedAfterRename(shapes: map<Ref, Shape>, cs: map<StackRef, seq<Ref>>, stacks: map<StackRef, Stack>,
                         ids: map<Ref, string>, ids': map<Ref, string>, v: Option<StackRef>, s: StackRef, o: Ref)
    requires Named(shapes, cs, stacks, ids, v) && Flatten.IdsGrow(ids, ids')
    requires s in stacks && NestedTop(cs, Some(s)).Some? && Reporting(shapes, cs, NestedTop(cs, Some(s)).value) == Some(o) && o in ids'
    ensures Named(shapes, cs, stacks[s := Stack(ids'[o], stacks[s].contents)], ids', v)
  {
  }

  /** `u.id = u.contents[0].id` for a non-empty stack `u`: the stack takes the id its
      first block reports, which throws for an isolated hat over an empty stack. */
  method NameStack(g: Graph, s: StackRef, ghost cs: map<StackRef, seq<Ref>>) returns (o: Outcome)
    requires g.Valid() && Contents(g.stacks) == cs && s in cs && |cs[s]| > 0
    modifies g`ids, g.gen, g`stacks
    ensures g.Valid() && Contents(g.stacks) == cs && Flatten.IdsGrow(old(g.ids), g.ids)
    ensures var rep := Reporting(g.shapes, cs, cs[s][0]);
      && (o.Pass? <==> rep.Some?)
      && (o.Fail? ==> o.error.IllegalState?)
      && (o.Pass? ==> rep.value in g.ids && g.stacks == old(g.stacks)[s := Stack(g.ids[rep.value], cs[s])])
  {
    var x := g.stacks[s].contents[0];
    var id := BlockId(g, x);
    if id.Err? {
      return Fail(id.error);
    }
    RenamedContents(g.stacks, s, id.value);
    g.SetStack(s, Stack(id.value, g.stacks[s].contents));
    o := Pass;
  }

  /** After renaming stack `s`, the socket being serialised and every earlier one are named. */
  lemma NamedStep(shapes: map<Ref, Shape>, cs: map<StackRef, seq<Ref>>, stacks: map<StackRef, Stack>, stacks': map<StackRef, Stack>,
                  ids: map<Ref, string>, ids': map<Ref, string>, m: Entries<Option<StackRef>>, i: nat, s: StackRef, o: Ref)
    requires i < |m| && m[i].1 == Some(s)
    requires forall j | 0 <= j < i :: Named(shapes, cs, stacks, ids, m[j].1)
    requires Flatten.IdsGrow(ids, ids')
    requires s in stacks && NestedTop(cs, Some(s)).Some? && Reporting(shapes, cs, NestedTop(cs, Some(s)).value) == Some(o) && o in ids'
    requires stacks' == stacks[s := Stack(ids'[o], stacks[s].contents)]
    ensures forall j | 0 <= j < i + 1 :: Named(shapes, cs, stacks', ids', m[j].1)
  {
    forall j | 0 <= j < i + 1
      ensures Named(shapes, cs, stacks', ids', m[j].1)
    {
      if j < i {
        NamedAfterRename(shapes, cs, stacks, ids, ids', m[j].1, s, o);
      }
    }
  }

  /** The nested-stack socket `i`: a non-empty stack takes its first block's id. */
  method NestedId(g: Graph, m: Entries<Option<StackRef>>, i: nat, cs: map<StackRef, seq<Ref>>) returns (o: Outcome)
    requires i < |m| && g.Valid() && Contents(g.stacks) == cs
    requires forall j | 0 <= j < i :: Named(g.shapes, cs, g.stacks, g.ids, m[j].1)
    modifies g`ids, g.gen, g`stacks
    ensures g.Valid() && Contents(g.stacks) == cs && Flatten.IdsGrow(old(g.ids), g.ids)
    ensures o.Pass? <==> !NestedFails(g.shapes, cs, m[i].1)
    ensures o.Fail? ==> o.error.IllegalState?
    ensures o.Pass? ==> forall j | 0 <= j < i + 1 :: Named(g.shapes, cs, g.stacks, g.ids, m[j].1)
  {
    o := Pass;
    var top := NestedTop(cs, m[i].1);
    if top.Some? {
      var s := m[i].1.value;
      ghost var st, ids0 := g.stacks, g.ids;
      o := NameStack(g, s, cs);
      if o.Pass? {
        NamedStep(g.shapes, cs, st, g.stacks, ids0, g.ids, m, i, s, Reporting(g.shapes, cs, top.value).value);
      }
    }
  }

  /** No nested socket before `n` throws when its stack takes an id. */
  ghost predicate NoneFails(shapes: map<Ref, Shape>, cs: map<StackRef, seq<Ref>>, m: Entries<Option<StackRef>>, n: nat)
    requires n <= |m|
  {
    n == 0 || (NoneFails(shapes, cs, m, n - 1) && !NestedFails(shapes, cs, m[n - 1].1))
  }

  lemma {:induction false} NoneFailsMeans(shapes: map<Ref, Shape>, cs: map<StackRef, seq<Ref>>, m: Entries<Option<StackRef>>, n: nat)
    requires n <= |m|
    ensures NoneFails(shapes, cs, m, n) <==> forall j | 0 <= j < n :: !NestedFails(shapes, cs, m[j].1)
  {
    if n > 0 {
      NoneFailsMeans(shapes, cs, m, n - 1);
    }
  }

  /** Each non-empty nested stack takes its first block's id, in order; the first that
      cannot report one throws. */
  method NestedIds(g: Graph, m: Entries<Option<StackRef>>) returns (o: Outcome)
    requires g.Valid()
    modifies g`ids, g.gen, g`stacks
    ensures g.Valid() && Contents(g.stacks) == Contents(old(g.stacks)) && Flatten.IdsGrow(old(g.ids), g.ids)
    ensures o.Pass? <==> forall i | 0 <= i < |m| :: !NestedFails(g.shapes, Contents(g.stacks), m[i].1)
    ensures o.Fail? ==> o.error.IllegalState?
    ensures o.Pass? ==> forall i | 0 <= i < |m| :: Named(g.shapes, Contents(g.stacks), g.stacks, g.ids, m[i].1)
  {
    var cs := Contents(g.stacks);
    ghost var shapes := g.shapes;
    var i := 0;
    while i < |m|
      invariant i <= |m|
      invariant g.Valid() && Contents(g.stacks) == cs && Flatten.IdsGrow(old(g.ids), g.ids) && g.shapes == shapes
      invariant NoneFails(shapes, cs, m, i)
      invariant forall j | 0 <= j < i :: Named(shapes, cs, g.stacks, g.ids, m[j].1)
    {
      o := NestedId(g, m, i, cs);
      if o.Fail? {
        NoneFailsMeans(shapes, cs, m, i + 1);
        return;
      }
      i := i + 1;
    }
    NoneFailsMeans(shapes, cs, m, |m|);
    o := Pass;
  }

  /** The ids `representInputs` reads, in the order it reads them. */
  method InputIds(g: Graph, r: Ref) returns (o: Outcome)
    requires g.Valid() && r in g.shapes
    requires ShadowlessTyped(g.shapes, g.shapes[r].shadowless) && PairedTyped(g.shapes, g.shapes[r].paired)
    modifies g`ids, g.gen, g`stacks
    ensures g.Valid() && Contents(g.stacks) == Contents(old(g.stacks)) && Flatten.IdsGrow(old(g.ids), g.ids)
    ensures o.Pass? <==> forall i | 0 <= i < |g.shapes[r].nested| :: !NestedFails(g.shapes, Contents(g.stacks), g.shapes[r].nested[i].1)
    ensures o.Fail? ==> o.error.IllegalState?
    ensures o.Pass? ==> InputsCovered(g.shapes, Contents(g.stacks), g.stacks, g.ids, g.shapes[r])
  {
    var sh := g.shapes[r];
    ShadowlessIds(g, sh.shadowless);
    PairedIds(g, sh.paired);
    o := NestedIds(g, sh.nested);
  }

  // ---- Fields ----

  /** A placeholder field whose `lateinit` property was never set: reading it throws. */
  predicate FieldFails(shapes: map<Ref, Shape>, slots: Slots, f: FieldSrc)
  {
    f.Of? && f.obj in shapes && shapes[f.obj].kind.FirstK? &&
    match shapes[f.obj].kind.which
    case FirstBackdrop => slots.backdrop.None?
    case FirstSprite => slots.costume.None?
    case FirstSound => false
    case FirstBroadcast => slots.broadcast.None?
  }

  /** The declaration a field object refers to: itself, or for the broadcast
      placeholder the broadcast it was resolved to. */
  function DeclOf(shapes: map<Ref, Shape>, slots: Slots, x: Ref): Option<Ref>
  {
    if x in shapes && shapes[x].kind.DeclK? then Some(x)
    else if x in shapes && shapes[x].kind == FirstK(FirstBroadcast) then slots.broadcast
    else None
  }

  /** `Field.fieldValue`: a field object carries an id exactly when it refers to a
      declaration, and then shows that declaration's name and id; costumes, sounds,
      backdrops and the other placeholders show a name alone. */
  function FieldValueOf(shapes: map<Ref, Shape>, ids: map<Ref, string>, slots: Slots, f: FieldSrc): (v: FieldValue)
    requires f.Of? ==> f.obj in shapes && IsField(shapes[f.obj].kind)
    requires SlotsTyped(shapes, slots) && !FieldFails(shapes, slots, f)
    ensures f.Fixed? ==> v == f.value
    ensures f.Of? ==> (v.id.Some? <==> DeclOf(shapes, slots, f.obj).Some?)
    ensures f.Of? && DeclOf(shapes, slots, f.obj).Some? ==>
              var d := DeclOf(shapes, slots, f.obj).value;
              d in shapes && shapes[d].kind.DeclK? && v == FieldValue(shapes[d].kind.name, Some(IdIn(ids, d)))
  {
    match f
    case Fixed(v) => v
    case Of(x) =>
      match shapes[x].kind
      case DeclK(_, name) => DeclFieldValue(name, IdIn(ids, x))
      case CostumeK(c) => CostumeFieldValue(c)
      case SoundK(s) => SoundFieldValue(s)
      case BackdropK(b) => BackdropFieldValue(b)
      case FirstK(p) =>
        match p
        case FirstBackdrop => FieldValue(slots.backdrop.value.name)
        case FirstSprite => FieldValue(slots.costume.value.name)
        case FirstSound => FieldValue(if slots.sound.Some? then slots.sound.value.name else "")
        case FirstBroadcast =>
          var b := slots.broadcast.value;
          DeclFieldValue(shapes[b].kind.name, IdIn(ids, b))
  }

  /** The fields as entries. */
  function FieldEntries(shapes: map<Ref, Shape>, ids: map<Ref, string>, slots: Slots, m: Entries<FieldSrc>): Entries<Option<Json>>
    requires FieldsTyped(shapes, m) && SlotsTyped(shapes, slots)
    requires forall i | 0 <= i < |m| :: !FieldFails(shapes, slots, m[i].1)
  {
    seq(|m|, i requires 0 <= i < |m| => (m[i].0, Some(FieldJson(FieldValueOf(shapes, ids, slots, m[i].1)))))
  }

  /** The `fields` object: `[value, id-or-null]` under each field name. */
  function FieldsSpec(shapes: map<Ref, Shape>, ids: map<Ref, string>, slots: Slots, m: Entries<FieldSrc>): Entries<Json>
    requires FieldsTyped(shapes, m) && SlotsTyped(shapes, slots)
    requires forall i | 0 <= i < |m| :: !FieldFails(shapes, slots, m[i].1)
  {
    PutAll([], FieldEntries(shapes, ids, slots, m))
  }

  /** Every id a field value reads is present: a declaration's own, and the resolved
      broadcast's. */
  ghost predicate FieldCovered(shapes: map<Ref, Shape>, ids: map<Ref, string>, slots: Slots, f: FieldSrc)
  {
    && (f.Of? && f.obj in shapes && shapes[f.obj].kind.DeclK? ==> f.obj in ids)
    && (f.Of? && f.obj in shapes && shapes[f.obj].kind == FirstK(FirstBroadcast) && slots.broadcast.Some? ==> slots.broadcast.value in ids)
  }

  /** The ids one field value reads: a declaration's own, or the resolved broadcast's;
      an unresolved placeholder throws. */
  method FieldId(g: Graph, f: FieldSrc) returns (o: Outcome)
    requires f.Of? ==> f.obj in g.shapes && IsField(g.shapes[f.obj].kind)
    requires SlotsTyped(g.shapes, SlotsOf(g))
    modifies g`ids, g.gen
    ensures Flatten.IdsGrow(old(g.ids), g.ids)
    ensures o.Pass? <==> !FieldFails(g.shapes, SlotsOf(g), f)
    ensures o.Fail? ==> o.error.Uninitialized?
    ensures o.Pass? ==> FieldCovered(g.shapes, g.ids, SlotsOf(g), f)
  {
    o := Pass;
    if f.Of? {
      match g.shapes[f.obj].kind {
        case DeclK(_, _) =>
          var _ := g.GetId(f.obj);
        case FirstK(p) =>
          if p == FirstBackdrop && g.backdropSlot.None? {
            o := Fail(Uninitialized("lateinit property backdrop has not been initialized"));
          } else if p == FirstSprite && g.costumeSlot.None? {
            o := Fail(Uninitialized("lateinit property costume has not been initialized"));
          } else if p == FirstBroadcast {
            if g.broadcastSlot.None? {
              o := Fail(Uninitialized("lateinit property broadcast has not been initialized"));
            } else {
              var _ := g.GetId(g.broadcastSlot.value);
            }
          }
        case _ =>
      }
    }
  }

  /** The ids `representFields` reads, in order; the first unresolved placeholder throws. */
  method FieldIds(g: Graph, m: Entries<FieldSrc>) returns (o: Outcome)
    requires FieldsTyped(g.shapes, m) && SlotsTyped(g.shapes, SlotsOf(g))
    modifies g`ids, g.gen
    ensures Flatten.IdsGrow(old(g.ids), g.ids)
    ensures o.Pass? <==> forall i | 0 <= i < |m| :: !FieldFails(g.shapes, SlotsOf(g), m[i].1)
    ensures o.Fail? ==> o.error.Uninitialized?
    ensures o.Pass? ==> forall i | 0 <= i < |m| :: FieldCovered(g.shapes, g.ids, SlotsOf(g), m[i].1)
  {
    var i := 0;
    while i < |m|
      invariant i <= |m|
      invariant Flatten.IdsGrow(old(g.ids), g.ids)
      invariant forall j | 0 <= j < i :: !FieldFails(g.shapes, SlotsOf(g), m[j].1) && FieldCovered(g.shapes, g.ids, SlotsOf(g), m[j].1)
    {
      o := FieldId(g, m[i].1);
      if o.Fail? {
        return;
      }
      i := i + 1;
    }
    o := Pass;
  }

  // ---- The block object ----

  /** `next?.id`: the id the next block reports, or null. */
  function NextSpec(shapes: map<Ref, Shape>, cs: map<StackRef, seq<Ref>>, ids: map<Ref, string>, nexts: map<Ref, Ref>, r: Ref): Option<string>
  {
    if r in nexts then Some(ReportedId(shapes, cs, ids, nexts[r])) else None
  }

  /** The next block is an isolated hat over an empty stack: reading its id throws. */
  predicate NextFails(shapes: map<Ref, Shape>, cs: map<StackRef, seq<Ref>>, nexts: map<Ref, Ref>, r: Ref)
  {
    r in nexts && Reporting(shapes, cs, nexts[r]).None?
  }

  /** Every socket, field and placeholder of block `r` is well typed, as the source's
      declarations guarantee. */
  predicate Typed(shapes: map<Ref, Shape>, slots: Slots, r: Ref)
  {
    && r in shapes
    && ShadowlessTyped(shapes, shapes[r].shadowless)
    && PairedTyped(shapes, shapes[r].paired)
    && FieldsTyped(shapes, shapes[r].fields)
    && SlotsTyped(shapes, slots)
  }

  /** Serialising block `r` succeeds: no id read throws and every placeholder is resolved. */
  predicate Serialisable(shapes: map<Ref, Shape>, cs: map<StackRef, seq<Ref>>, nexts: map<Ref, Ref>, slots: Slots, r: Ref)
    requires r in shapes
  {
    && (forall i | 0 <= i < |shapes[r].nested| :: !NestedFails(shapes, cs, shapes[r].nested[i].1))
    && (forall i | 0 <= i < |shapes[r].fields| :: !FieldFails(shapes, slots, shapes[r].fields[i].1))
    && !NextFails(shapes, cs, nexts, r)
  }

  /** `next?.id`. */
  method NextId(g: Graph, r: Ref) returns (res: Result<Option<string>>)
    requires g.Valid() && r in g.shapes
    modifies g`ids, g.gen
    ensures Flatten.IdsGrow(old(g.ids), g.ids)
    ensures var cs := Contents(g.stacks);
      && (res.Ok? <==> !NextFails(g.shapes, cs, g.nexts, r))
      && (res.Err? ==> res.error.IllegalState?)
      && (res.Ok? ==> (r in g.nexts ==> Reporting(g.shapes, cs, g.nexts[r]).value in g.ids)
                      && res.value == NextSpec(g.shapes, cs, g.ids, g.nexts, r))
  {
    if r !in g.nexts {
      return Ok(None);
    }
    var x := g.nexts[r];
    var id := BlockId(g, x);
    if id.Err? {
      return Err(id.error);
    }
    res := Ok(Some(id.value));
  }

  /** Ids generated later never undo the coverage of fields. */
  lemma FieldsCoveredGrow(shapes: map<Ref, Shape>, ids: map<Ref, string>, ids': map<Ref, string>, slots: Slots, m: Entries<FieldSrc>)
    requires forall i | 0 <= i < |m| :: FieldCovered(shapes, ids, slots, m[i].1)
    requires Flatten.IdsGrow(ids, ids')
    ensures forall i | 0 <= i < |m| :: FieldCovered(shapes, ids', slots, m[i].1)
  {
  }

  /** `NormalBlock.represent` of a block that is not an isolated hat (an isolated hat
      never enters the block table: it flattens as its first block). */
  method RepresentBlock(g: Graph, r: Ref) returns (res: Result<Json>)
    requires g.Valid() && r in g.shapes && !g.shapes[r].kind.Isolated? && Typed(g.shapes, SlotsOf(g), r)
    modifies g`ids, g.gen, g`stacks
    ensures g.Valid() && Contents(g.stacks) == Contents(old(g.stacks)) && Flatten.IdsGrow(old(g.ids), g.ids)
    ensures res.Ok? <==> Serialisable(g.shapes, Contents(g.stacks), g.nexts, SlotsOf(g), r)
    ensures res.Err? ==> res.error.IllegalState? || res.error.Uninitialized?
    ensures res.Ok? ==>
              var sh := g.shapes[r];
              var cs := Contents(g.stacks);
              && InputsCovered(g.shapes, cs, g.stacks, g.ids, sh)
              && (forall i | 0 <= i < |sh.fields| :: FieldCovered(g.shapes, g.ids, SlotsOf(g), sh.fields[i].1))
              && (r in g.nexts ==> Reporting(g.shapes, cs, g.nexts[r]).value in g.ids)
              && res.value == BlockObject(JObj(InputsSpec(g.shapes, cs, g.ids, sh)),
                                          JObj(FieldsSpec(g.shapes, g.ids, SlotsOf(g), sh.fields)),
                                          sh.mutation, sh.topLevel, NextSpec(g.shapes, cs, g.ids, g.nexts, r),
                                          g.Parent(r), sh.shadow, sh.opcode)
  {
    var sh := g.shapes[r];
    var o := InputIds(g, r);
    if o.Fail? {
      return Err(o.error);
    }
    ghost var ids1 := g.ids;
    o := FieldIds(g, sh.fields);
    if o.Fail? {
      return Err(o.error);
    }
    ghost var ids2 := g.ids;
    var next := NextId(g, r);
    if next.Err? {
      return Err(next.error);
    }
    FieldsCoveredGrow(g.shapes, ids2, g.ids, SlotsOf(g), sh.fields);
    var cs := Contents(g.stacks);
    CoveredGrows(g.shapes, cs, g.stacks, ids1, g.ids, sh);
    res := Ok(BlockObject(JObj(InputsSpec(g.shapes, cs, g.ids, sh)),
                          JObj(FieldsSpec(g.shapes, g.ids, SlotsOf(g), sh.fields)),
                          sh.mutation, sh.topLevel, next.value, g.Parent(r), sh.shadow, sh.opcode));
  }

  /** Ids generated later never undo coverage. */
  lemma CoveredGrows(shapes: map<Ref, Shape>, cs: map<StackRef, seq<Ref>>, stacks: map<StackRef, Stack>, ids: map<Ref, string>, ids': map<Ref, string>, sh: Shape)
    requires InputsCovered(shapes, cs, stacks, ids, sh) && Flatten.IdsGrow(ids, ids')
    ensures InputsCovered(shapes, cs, stacks, ids', sh)
  {
  }

  // ---- What the `inputs` and `fields` objects hold ----

  /** `representAlone` of expression `x` with the id it holds. */
  function AloneOf(shapes: map<Ref, Shape>, ids: map<Ref, string>, x: Ref): Json
    requires x in shapes && IsExpression(shapes[x].kind)
  {
    Alone(shapes[x].kind, IdIn(ids, x))
  }

  lemma ShadowlessLookup(shapes: map<Ref, Shape>, ids: map<Ref, string>, m: Entries<Option<Ref>>, k: string)
    requires ShadowlessTyped(shapes, m)
    ensures var es := ShadowlessEntries(shapes, ids, m);
      && (NoDup(m) <==> NoDup(es))
      && Get(es, k) == (if Get(m, k).None? then None
                        else if Get(m, k).value.None? then Some(None)
                        else Some(Some(SocketInput(shapes, ids, Get(m, k).value.value))))
  {
    SameKeys(m, ShadowlessEntries(shapes, ids, m), k);
  }

  lemma PairedLookup(shapes: map<Ref, Shape>, ids: map<Ref, string>, m: Entries<(Ref, Option<Ref>)>, k: string)
    requires PairedTyped(shapes, m)
    ensures var es := PairedEntries(shapes, ids, m);
      && (NoDup(m) <==> NoDup(es))
      && Get(es, k) == (if Get(m, k).None? then None
                        else Some(Some(PairInput(shapes, ids, Get(m, k).value.0, Get(m, k).value.1))))
  {
    SameKeys(m, PairedEntries(shapes, ids, m), k);
  }

  lemma NestedLookup(shapes: map<Ref, Shape>, cs: map<StackRef, seq<Ref>>, ids: map<Ref, string>, m: Entries<Option<StackRef>>, k: string)
    ensures var es := NestedEntries(shapes, cs, ids, m);
      && (NoDup(m) <==> NoDup(es))
      && Get(es, k) == (if Get(m, k).None? then None
                        else if NestedTop(cs, Get(m, k).value).None? then Some(None)
                        else Some(Some(StackInput(ReportedId(shapes, cs, ids, NestedTop(cs, Get(m, k).value).value)))))
  {
    SameKeys(m, NestedEntries(shapes, cs, ids, m), k);
  }

  /** Which socket supplies `inputs[k]`: a non-empty nested stack, else a shadowed
      socket, else a shadowless socket holding an expression (each put replaces the
      one before under the same name). */
  lemma InputsGet(shapes: map<Ref, Shape>, cs: map<StackRef, seq<Ref>>, ids: map<Ref, string>, sh: Shape, k: string)
    requires ShadowlessTyped(shapes, sh.shadowless) && PairedTyped(shapes, sh.paired)
    requires NoDup(sh.shadowless) && NoDup(sh.paired) && NoDup(sh.nested)
    ensures var j := Get(InputsSpec(shapes, cs, ids, sh), k);
      var n := Get(sh.nested, k);
      var p := Get(sh.paired, k);
      var e := Get(sh.shadowless, k);
      if n.Some? && NestedTop(cs, n.value).Some? then
        j == Some(StackInput(ReportedId(shapes, cs, ids, NestedTop(cs, n.value).value)))
      else if p.Some? then
        j == Some(PairInput(shapes, ids, p.value.0, p.value.1))
      else if e.Some? && e.value.Some? then
        j == Some(SocketInput(shapes, ids, e.value.value))
      else j == None
  {
    var se := ShadowlessEntries(shapes, ids, sh.shadowless);
    var pe := PairedEntries(shapes, ids, sh.paired);
    var ne := NestedEntries(shapes, cs, ids, sh.nested);
    ShadowlessLookup(shapes, ids, sh.shadowless, k);
    PairedLookup(shapes, ids, sh.paired, k);
    NestedLookup(shapes, cs, ids, sh.nested, k);
    var m1 := PutAll([], se);
    var m2 := PutAll(m1, pe);
    PutAllLookup([], se, k);
    PutAllLookup(m1, pe, k);
    PutAllLookup(m2, ne, k);
  }

  /** What `inputs` holds under socket name `k` (the socket maps, being maps, have
      distinct names): a non-empty nested stack wins and is `[2, id]` with the id its
      first block reports; otherwise a shadowed socket, which reads back as its shadow
      alone or as its value over its shadow; otherwise a shadowless socket holding an
      expression, which reads back as that expression, tagged shadow or not; otherwise
      nothing. */
  lemma InputsLookup(shapes: map<Ref, Shape>, cs: map<StackRef, seq<Ref>>, ids: map<Ref, string>, sh: Shape, k: string)
    requires ShadowlessTyped(shapes, sh.shadowless) && PairedTyped(shapes, sh.paired)
    requires NoDup(sh.shadowless) && NoDup(sh.paired) && NoDup(sh.nested)
    ensures var j := Get(InputsSpec(shapes, cs, ids, sh), k);
      var n := Get(sh.nested, k);
      var p := Get(sh.paired, k);
      var e := Get(sh.shadowless, k);
      if n.Some? && NestedTop(cs, n.value).Some? then
        j == Some(StackInput(ReportedId(shapes, cs, ids, NestedTop(cs, n.value).value)))
      else if p.Some? then
        && j.Some?
        && DecodeInput(j.value) == Some(if p.value.1.Some? then Obscured(AloneOf(shapes, ids, p.value.1.value), AloneOf(shapes, ids, p.value.0))
                                        else ShadowOnly(AloneOf(shapes, ids, p.value.0)))
      else if e.Some? && e.value.Some? then
        && j.Some?
        && DecodeInput(j.value) == Some(if IsShadowExpression(shapes[e.value.value].kind) then ShadowOnly(AloneOf(shapes, ids, e.value.value))
                                        else NoShadow(AloneOf(shapes, ids, e.value.value)))
      else j == None
  {
    InputsGet(shapes, cs, ids, sh, k);
    var p := Get(sh.paired, k);
    if p.Some? {
      var (s, e) := p.value;
      if e.Some? {
        InputTags(shapes[s].kind, IdIn(ids, s), shapes[e.value].kind, IdIn(ids, e.value));
      } else {
        InputTags(shapes[s].kind, IdIn(ids, s), shapes[s].kind, IdIn(ids, s));
      }
    }
  }

  /** What `fields` holds under field name `k` (the field map, being a map, has
      distinct names): an entry exactly when the block has that field, reading back
      as the field's value and id. */
  lemma FieldsLookup(shapes: map<Ref, Shape>, ids: map<Ref, string>, slots: Slots, m: Entries<FieldSrc>, k: string)
    requires FieldsTyped(shapes, m) && SlotsTyped(shapes, slots)
    requires forall i | 0 <= i < |m| :: !FieldFails(shapes, slots, m[i].1)
    requires NoDup(m)
    ensures var j := Get(FieldsSpec(shapes, ids, slots, m), k);
      && (j.Some? <==> Get(m, k).Some?)
      && (j.Some? ==> DecodeField(j.value) == Some(FieldValueOf(shapes, ids, slots, Get(m, k).value)))
  {
    var es := FieldEntries(shapes, ids, slots, m);
    SameKeys(m, es, k);
    PutAllLookup([], es, k);
  }
}
