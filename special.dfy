/** The special inputs of SpecialInputs.kt and the asset objects of Attachments.kt as
    block-graph objects: the menu shadows and their factories, `Property`, costumes,
    sounds and backdrops as menu values, the four placeholders resolved against a
    sprite by `prepareRepresent`, and `makeCopy`, which replaces each of them by a
    fresh object (or, for the broadcast placeholder, by the broadcast) before
    serialisation. */
module Special {
  import opened Wrappers
  import opened Ordered
  import opened Json
  import opened Wire
  import opened Attachments
  import opened Graph
  import opened Expressions
  import opened Represent

  // ---- Menu shadows ----

  /** The field each menu factory binds to its target. */
  function MenuFieldName(m: Menu): string
  {
    match m
    case LocationMenu => "TO"
    case CloneTargetMenu => "CLONE_OPTION"
    case TouchObjectMenu => "TOUCHINGOBJECTMENU"
    case DistanceObjectMenu => "DISTANCETOMENU"
    case SensingKeyMenu => "KEY_OPTION"
    case PropertyTargetMenu => "OBJECT"
  }

  /** The opcode a menu object has: `SpecialLocation.of` takes one (null by default),
      the other factories fix theirs. */
  function MenuOpcode(m: Menu, given: Option<string>): Option<string>
  {
    match m
    case LocationMenu => given
    case CloneTargetMenu => Some("control_create_clone_of_menu")
    case TouchObjectMenu => Some("sensing_touchingobjectmenu")
    case DistanceObjectMenu => Some("sensing_distancetomenu")
    case SensingKeyMenu => Some("sensing_keyoptions")
    case PropertyTargetMenu => Some("sensing_of_object_menu")
  }

  /** The state of `X.of(target)`: a shadow whose one field shows the target. For a
      sensing key the target is the key's enum name. */
  function MenuShape(m: Menu, target: string, given: Option<string>): Shape
  {
    Blank(MenuK(m, target), MenuOpcode(m, given), true).(fields := [(MenuFieldName(m), Fixed(FieldValue(target)))])
  }

  /** `SpecialLocation.of(target, opcode)`, `CloneTarget.of(target)`, ...: a menu shadow
      whose field is the target, with the factory's opcode; it is copied before
      serialisation and rendered by its id. */
  method NewMenu(g: Graph, m: Menu, target: string, given: Option<string>) returns (r: Ref)
    requires g.Valid()
    modifies g`shapes, g`nextRef
    ensures g.Valid()
    ensures r == old(g.nextRef) && r !in old(g.shapes) && g.nextRef == r + 1
    ensures g.shapes == old(g.shapes)[r := MenuShape(m, target, given)]
    ensures var sh := g.shapes[r];
      && sh.shadow && IsShadowExpression(sh.kind) && ShouldCopy(sh.kind) && Independent(sh.kind)
      && KeySeq(sh.fields) == [MenuFieldName(m)]
      && Get(sh.fields, MenuFieldName(m)) == Some(Fixed(FieldValue(target, None)))
      && sh.opcode == (if m == LocationMenu then given else MenuOpcode(m, None))
  {
    var sh := MenuShape(m, target, given);
    assert Values(sh.fields) == {Fixed(FieldValue(target))} by {
      ValuesOne(MenuFieldName(m), Fixed(FieldValue(target)));
    }
    r := g.Alloc(sh);
  }

  /** `Property.of(t).fieldValue`: the property's name and no id, so it is written as
      `[t, null]`. */
  function PropertyValue(t: string): (v: FieldValue)
    ensures DecodeField(FieldJson(v)) == Some(v)
    ensures FieldJson(v) == JArr([JStr(t), JNull])
  {
    FieldValue(t)
  }

  // ---- Assets as menu values ----

  /** A `Costume` object: a `looks_costume` shadow whose `COSTUME` field is itself. */
  function CostumeShape(c: Costume, self: Ref): Shape
  {
    Blank(CostumeK(c), Some("looks_costume"), true).(fields := [("COSTUME", Of(self))])
  }

  /** A `Sound` object: a `sound_sounds_menu` shadow whose `SOUND_MENU` field is itself. */
  function SoundShape(s: Sound, self: Ref): Shape
  {
    Blank(SoundK(s), Some("sound_sounds_menu"), true).(fields := [("SOUND_MENU", Of(self))])
  }

  /** A `Backdrop` object: a `looks_backdrops` shadow whose `BACKDROP` field is itself. */
  function BackdropShape(b: Backdrop, self: Ref): Shape
  {
    Blank(BackdropK(b), Some("looks_backdrops"), true).(fields := [("BACKDROP", Of(self))])
  }

  /** The state of an asset object of kind `k` that is its own field. */
  function AssetShape(k: Kind, self: Ref): Shape
    requires k.CostumeK? || k.SoundK? || k.BackdropK?
  {
    match k
    case CostumeK(c) => CostumeShape(c, self)
    case SoundK(s) => SoundShape(s, self)
    case BackdropK(b) => BackdropShape(b, self)
  }

  /** `Costume(...)`, `Sound(...)`, `Backdrop(...)` as objects: each is a shadow, is
      copied before serialisation, and binds its one field to itself. */
  method NewAsset(g: Graph, k: Kind) returns (r: Ref)
    requires g.Valid() && (k.CostumeK? || k.SoundK? || k.BackdropK?)
    modifies g`shapes, g`nextRef
    ensures g.Valid()
    ensures r == old(g.nextRef) && r !in old(g.shapes) && g.nextRef == r + 1
    ensures g.shapes == old(g.shapes)[r := AssetShape(k, r)]
    ensures var sh := g.shapes[r];
      && sh.kind == k && sh.shadow && IsShadowExpression(k) && ShouldCopy(k) && IsField(k)
      && |sh.fields| == 1 && sh.fields[0].1 == Of(r)
  {
    r := AllocAsset(g, k);
  }

  /** Allocates an asset object whose one field is the object itself. */
  method AllocAsset(g: Graph, k: Kind) returns (r: Ref)
    requires g.Valid() && (k.CostumeK? || k.SoundK? || k.BackdropK?)
    modifies g`shapes, g`nextRef
    ensures g.Valid()
    ensures r == old(g.nextRef) && r !in old(g.shapes) && g.nextRef == r + 1
    ensures g.shapes == old(g.shapes)[r := AssetShape(k, r)]
  {
    var sh := AssetShape(k, g.nextRef);
    r := g.Alloc(Blank(k, sh.opcode, true));
    ValuesOne(sh.fields[0].0, sh.fields[0].1);
    g.SetShape(r, sh);
    UpdateTwice(old(g.shapes), r, Blank(k, sh.opcode, true), sh);
  }

  // ---- makeCopy ----

  /** What `makeCopy` yields: a new object with the given state, or an existing one. */
  datatype Copy = Fresh(sh: Shape) | Same(r: Ref)

  /** `makeCopy` of an object of kind `k` and opcode `opcode`, the new object (if any)
      getting ref `self`: a menu is rebuilt by its factory, an asset by its data-class
      `copy()`, a placeholder by copying what it was resolved to; the broadcast
      placeholder yields the broadcast itself. Reading an unset `lateinit` slot throws. */
  function CopyOf(k: Kind, opcode: Option<string>, slots: Slots, self: Ref): (c: Result<Copy>)
    requires ShouldCopy(k)
    ensures c.Err? <==> k.FirstK? && ((k.which == FirstBackdrop && slots.backdrop.None?)
                                      || (k.which == FirstSprite && slots.costume.None?)
                                      || (k.which == FirstBroadcast && slots.broadcast.None?))
    ensures c.Err? ==> c.error.Uninitialized?
    ensures c.Ok? && c.value.Same? <==> k == FirstK(FirstBroadcast) && slots.broadcast.Some?
    ensures c.Ok? && c.value.Fresh? ==> c.value.sh.shadow && ShouldCopy(c.value.sh.kind) && !c.value.sh.kind.FirstK?
  {
    match k
    case MenuK(m, t) => Ok(Fresh(MenuShape(m, t, opcode)))
    case CostumeK(c) => Ok(Fresh(CostumeShape(c, self)))
    case SoundK(s) => Ok(Fresh(SoundShape(s, self)))
    case BackdropK(b) => Ok(Fresh(BackdropShape(b, self)))
    case FirstK(p) =>
      match p
      case FirstBackdrop =>
        if slots.backdrop.None? then Err(Uninitialized("lateinit property backdrop has not been initialized"))
        else Ok(Fresh(BackdropShape(slots.backdrop.value, self)))
      case FirstSprite =>
        if slots.costume.None? then Err(Uninitialized("lateinit property costume has not been initialized"))
        else Ok(Fresh(CostumeShape(slots.costume.value, self)))
      case FirstSound =>
        Ok(Fresh(SoundShape(if slots.sound.Some? then slots.sound.value else Sound("", "", "", None, None), self)))
      case FirstBroadcast =>
        if slots.broadcast.None? then Err(Uninitialized("lateinit property broadcast has not been initialized"))
        else Ok(Same(slots.broadcast.value))
  }

  /** A menu built by its factory copies to an object in exactly its own state: same
      target, same opcode, same field. */
  lemma MenuCopyIsIdentical(m: Menu, target: string, given: Option<string>, slots: Slots, self: Ref)
    ensures var sh := MenuShape(m, target, given);
      CopyOf(sh.kind, sh.opcode, slots, self) == Ok(Fresh(sh))
  {
    var sh := MenuShape(m, target, given);
    assert MenuOpcode(m, MenuOpcode(m, given)) == MenuOpcode(m, given);
  }

  /** The first-sound placeholder with no sound copies to `Sound("", "", "")`. */
  lemma NoSoundCopiesBlank(slots: Slots, self: Ref)
    requires slots.sound.None?
    ensures CopyOf(FirstK(FirstSound), Some("sound_sounds_menu"), slots, self)
         == Ok(Fresh(SoundShape(Sound("", "", "", None, None), self)))
  {
  }

  /** Copying before serialisation does not change what a field shows: the copy of a
      costume, sound, backdrop or resolved placeholder shows the original's value. */
  lemma CopyKeepsFieldValue(shapes: map<Ref, Shape>, ids: map<Ref, string>, slots: Slots, x: Ref, y: Ref)
    requires x in shapes && IsField(shapes[x].kind) && ShouldCopy(shapes[x].kind)
    requires SlotsTyped(shapes, slots) && !FieldFails(shapes, slots, Of(x))
    requires var c := CopyOf(shapes[x].kind, shapes[x].opcode, slots, y);
      c.Ok? && (if c.value.Fresh? then y in shapes && shapes[y] == c.value.sh else y == c.value.r)
    ensures y in shapes && IsField(shapes[y].kind) && !FieldFails(shapes, slots, Of(y))
    ensures FieldValueOf(shapes, ids, slots, Of(y)) == FieldValueOf(shapes, ids, slots, Of(x))
  {
  }

  // ---- The placeholders' `prepareRepresent` ----

  /** What a placeholder reads from the sprite being serialised: the stage's backdrops,
      and the sprite's costumes, sounds and broadcasts, in insertion order. */
  datatype SpriteView = SpriteView(stageBackdrops: seq<Backdrop>, costumes: seq<Costume>, sounds: seq<Sound>, broadcasts: seq<Ref>)

  /** Every broadcast the sprite holds is a `Broadcast` object. */
  predicate ViewTyped(shapes: map<Ref, Shape>, sp: SpriteView)
  {
    forall i | 0 <= i < |sp.broadcasts| ::
      sp.broadcasts[i] in shapes && shapes[sp.broadcasts[i]].kind.DeclK? && shapes[sp.broadcasts[i]].kind.variant == BroadcastV
  }

  /** Resolving placeholder `p` against `sp` throws: `[0]` of an empty list (the
      first sound uses `getOrNull` and never throws). */
  predicate ResolveFails(p: Placeholder, sp: SpriteView)
  {
    match p
    case FirstBackdrop => |sp.stageBackdrops| == 0
    case FirstSprite => |sp.costumes| == 0
    case FirstSound => false
    case FirstBroadcast => |sp.broadcasts| == 0
  }

  /** The slots after resolving `p` against `sp`. */
  function Resolved(slots: Slots, p: Placeholder, sp: SpriteView): Slots
    requires !ResolveFails(p, sp)
  {
    match p
    case FirstBackdrop => slots.(backdrop := Some(sp.stageBackdrops[0]))
    case FirstSprite => slots.(costume := Some(sp.costumes[0]))
    case FirstSound => slots.(sound := if |sp.sounds| > 0 then Some(sp.sounds[0]) else None)
    case FirstBroadcast => slots.(broadcast := Some(sp.broadcasts[0]))
  }

  /** A resolved placeholder never fails to serialise or to copy, and shows what
      `FirstShown` says. */
  lemma ResolvedShows(shapes: map<Ref, Shape>, ids: map<Ref, string>, slots: Slots, p: Placeholder, sp: SpriteView, x: Ref)
    requires !ResolveFails(p, sp) && ViewTyped(shapes, sp) && SlotsTyped(shapes, slots)
    requires x in shapes && shapes[x].kind == FirstK(p)
    ensures var s := Resolved(slots, p, sp);
      && SlotsTyped(shapes, s) && !FieldFails(shapes, s, Of(x)) && CopyOf(FirstK(p), shapes[x].opcode, s, x).Ok?
      && FieldValueOf(shapes, ids, s, Of(x)) == FirstShown(shapes, ids, p, sp)
  {
  }

  /** What placeholder `p` shows once resolved against `sp`: the first backdrop's,
      costume's or sound's name (`""` without sounds), or the first broadcast's name and
      id. */
  function FirstShown(shapes: map<Ref, Shape>, ids: map<Ref, string>, p: Placeholder, sp: SpriteView): FieldValue
    requires !ResolveFails(p, sp) && ViewTyped(shapes, sp)
  {
    match p
    case FirstBackdrop => FieldValue(sp.stageBackdrops[0].name)
    case FirstSprite => FieldValue(sp.costumes[0].name)
    case FirstSound => FieldValue(if |sp.sounds| > 0 then sp.sounds[0].name else "")
    case FirstBroadcast => FieldValue(shapes[sp.broadcasts[0]].kind.name, Some(IdIn(ids, sp.broadcasts[0])))
  }

  /** `FirstBackdrop.prepareRepresent(sprite)` and its three siblings: resolve the
      placeholder against the sprite (the inherited pass over its empty socket maps
      does nothing). */
  method ResolvePlaceholder(g: Graph, p: Placeholder, sp: SpriteView) returns (o: Outcome)
    modifies g`backdropSlot, g`costumeSlot, g`soundSlot, g`broadcastSlot
    ensures o.Pass? <==> !ResolveFails(p, sp)
    ensures o.Fail? ==> o == Fail(OutOfBounds("Index 0 out of bounds for length 0")) && SlotsOf(g) == old(SlotsOf(g))
    ensures o.Pass? ==> SlotsOf(g) == Resolved(old(SlotsOf(g)), p, sp)
  {
    o := Pass;
    match p {
      case FirstBackdrop =>
        if |sp.stageBackdrops| == 0 {
          o := Fail(OutOfBounds("Index 0 out of bounds for length 0"));
        } else {
          g.backdropSlot := Some(sp.stageBackdrops[0]);
        }
      case FirstSprite =>
        if |sp.costumes| == 0 {
          o := Fail(OutOfBounds("Index 0 out of bounds for length 0"));
        } else {
          g.costumeSlot := Some(sp.costumes[0]);
        }
      case FirstSound =>
        g.soundSlot := if |sp.sounds| > 0 then Some(sp.sounds[0]) else None;
      case FirstBroadcast =>
        if |sp.broadcasts| == 0 {
          o := Fail(OutOfBounds("Index 0 out of bounds for length 0"));
        } else {
          g.broadcastSlot := Some(sp.broadcasts[0]);
        }
    }
  }

  /** `makeCopy` on object `x`: allocates the copy under the next free ref, or yields
      the resolved broadcast.  Reading an unset slot throws and changes nothing. */
  method MakeCopy(g: Graph, x: Ref) returns (res: Result<Ref>)
    requires x in g.shapes && ShouldCopy(g.shapes[x].kind)
    modifies g`shapes, g`nextRef
    ensures var c := CopyOf(old(g.shapes[x].kind), old(g.shapes[x].opcode), SlotsOf(g), old(g.nextRef));
      && (res.Ok? <==> c.Ok?)
      && (res.Err? ==> res.error == c.error && g.shapes == old(g.shapes) && g.nextRef == old(g.nextRef))
      && (res.Ok? && c.value.Same? ==> res.value == c.value.r && g.shapes == old(g.shapes) && g.nextRef == old(g.nextRef))
      && (res.Ok? && c.value.Fresh? ==>
            res.value == old(g.nextRef) && g.nextRef == res.value + 1 && g.shapes == old(g.shapes)[res.value := c.value.sh])
  {
    var sh := g.shapes[x];
    var c := CopyOf(sh.kind, sh.opcode, SlotsOf(g), g.nextRef);
    if c.Err? {
      return Err(c.error);
    }
    match c.value {
      case Same(b) =>
        res := Ok(b);
      case Fresh(sh') =>
        res := Ok(g.nextRef);
        g.shapes := g.shapes[g.nextRef := sh'];
        g.nextRef := g.nextRef + 1;
    }
  }
}
