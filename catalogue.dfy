/** A few entries of the block catalogue in Blocks.kt, as concrete scenarios of the
    builders: `stopBlock`, `moveSteps`, `repeatBlock`, `setVar`/`changeVar` and the
    variable set/change handlers of VLB.kt. */
module Catalogue {
  import opened Wrappers
  import opened Ordered
  import opened Json
  import opened Wire
  import opened Graph
  import opened Blocks

  datatype StopType = ALL | THIS_SCRIPT | OTHER_SCRIPTS_IN_SPRITE

  function StopCode(t: StopType): (code: string)
    ensures t == ALL <==> code == "all"
    ensures t == OTHER_SCRIPTS_IN_SPRITE <==> code == "other scripts in sprite"
  {
    match t
    case ALL => "all"
    case THIS_SCRIPT => "this script"
    case OTHER_SCRIPTS_IN_SPRITE => "other scripts in sprite"
  }

  /** The finished `control_stop` block. */
  function StopShape(t: StopType): Shape
  {
    Blank(Plain, Some("control_stop"), false).(
      fields := [("STOP_OPTION", Fixed(FieldValue(StopCode(t))))],
      mutation := DEFAULT_MUTATION + [("hasnext", Some(JBool(t == OTHER_SCRIPTS_IN_SPRITE)))])
  }

  /** The stop block's mutation says `hasnext` is true exactly for "other scripts in
      sprite", after the two default entries; its one field is the stop code without id. */
  lemma StopShapeFacts(t: StopType)
    ensures KeySeq(StopShape(t).mutation) == ["tagName", "children", "hasnext"]
    ensures Get(StopShape(t).mutation, "hasnext") == Some(Some(JBool(true))) <==> t == OTHER_SCRIPTS_IN_SPRITE
    ensures Get(StopShape(t).fields, "STOP_OPTION") == Some(Fixed(FieldValue(StopCode(t), None)))
  {
    var m := StopShape(t).mutation;
    assert m[0].0 == "tagName" && m[1].0 == "children" && m[2].0 == "hasnext";
    IndexOfUnique(m, "hasnext", 2);
  }

  /** The socket maps the builder calls of `stopBlock` produce on a fresh block. */
  lemma StopPuts(t: StopType)
    ensures Put([], "STOP_OPTION", Fixed(FieldValue(StopCode(t)))) == StopShape(t).fields
    ensures Put(Put(Put([], "tagName", Some(JStr("mutation"))), "children", Some(JArr([]))),
                "hasnext", Some(JBool(t == OTHER_SCRIPTS_IN_SPRITE))) == StopShape(t).mutation
  {
    DefaultMutationOfEmpty();
    assert DEFAULT_MUTATION[0].0 != "hasnext" && DEFAULT_MUTATION[1].0 != "hasnext";
  }

  /** The block `stopBlock` builds before adding it. */
  method NewStop(g: Graph, t: StopType) returns (r: Ref)
    requires g.Valid()
    modifies g`shapes, g`nextRef
    ensures g.Valid()
    ensures r !in old(g.shapes) && g.shapes == old(g.shapes)[r := StopShape(t)]
  {
    ghost var s0 := g.shapes;
    r := NewBlock(g, Some("control_stop"));
    ghost var b0 := g.shapes[r];
    WithField(g, r, "STOP_OPTION", Fixed(FieldValue(StopCode(t))));
    ghost var b1 := g.shapes[r];
    UpdateTwice(s0, r, b0, b1);
    WithDefaultMutation(g, r);
    ghost var b2 := g.shapes[r];
    UpdateTwice(s0, r, b1, b2);
    WithMutation(g, r, "hasnext", Some(JBool(t == OTHER_SCRIPTS_IN_SPRITE)));
    UpdateTwice(s0, r, b2, g.shapes[r]);
    StopPuts(t);
  }

  /** `stopBlock(stopType)`: builds the block, then adds it to the host. */
  method StopBlock(g: Graph, h: HostRef, t: StopType) returns (r: Ref, o: Outcome)
    requires g.Valid() && IsHost(g.shapes, g.stacks, h)
    modifies g`shapes, g`nextRef, g`stacks
    ensures g.Valid()
    ensures r !in old(g.shapes) && g.shapes == old(g.shapes)[r := StopShape(t)]
    ensures (o.Pass? <==> Target(old(g.shapes), h).Some?) && Appended(old(g.stacks), g.stacks, Target(old(g.shapes), h), r)
  {
    ghost var s0 := g.shapes;
    r := NewStop(g, t);
    HostStable(s0, g.shapes, g.stacks, g.stacks, h);
    o := HostAdd(g, h, r);
  }

  /** How a block whose two expression maps start empty looks after
      `withExpression(name, e, d)` with a literal default `d`; `n` is where a
      collapsed literal is stored. */
  ghost function Filled(base: Shape, shapes: map<Ref, Shape>, name: string, e: Option<Ref>, d: Ref, n: Ref): Shape
  {
    if !IsShadowValue(shapes, e) then base.(paired := [(name, (d, e))])
    else if IsLiteralValue(shapes, e) then base.(shadowless := [(name, Some(n))])
    else base.(shadowless := [(name, e)])
  }

  /** `s2` is `s0` with a new block `r` of state `base` whose input `name` was set by
      `withExpression(name, e, default)`: the default literal is the next object,
      and a collapsed literal, when there is one, the one after. */
  ghost predicate Built(s0: map<Ref, Shape>, s2: map<Ref, Shape>, r: Ref, base: Shape, name: string, e: Option<Ref>, dflt: Literal)
  {
    var d: Ref := r + 1;
    var b := Filled(base, s0, name, e, d, d + 1);
    && r !in s0 && d !in s0
    && if IsLiteralValue(s0, e) then
         var n: Ref := d + 1;
         n !in s0 && s2 == s0[r := b][d := LiteralShape(dflt)][n := LiteralShape(Collapsed(s0[e.value].kind.lit, dflt))]
       else
         s2 == s0[r := b][d := LiteralShape(dflt)]
  }

  lemma BuiltGrows(s0: map<Ref, Shape>, s2: map<Ref, Shape>, r: Ref, base: Shape, name: string, e: Option<Ref>, dflt: Literal)
    requires Built(s0, s2, r, base, name, e, dflt)
    ensures Grows(s0, s2) && r in s2 && s2[r] == Filled(base, s0, name, e, r + 1, r + 2)
  {
  }

  /** A fresh block with state `base`, its default literal created next, then
      `withExpression(name, e, default)`; every catalogue entry with an input
      follows this order. */
  method DefaultedBlock(g: Graph, base: Shape, name: string, e: Option<Ref>, dflt: Literal) returns (r: Ref)
    requires g.Valid() && ShapeClosed(base, g.shapes, g.stacks) && base.paired == [] && base.shadowless == []
    requires e.Some? ==> e.value in g.shapes && IsExpression(g.shapes[e.value].kind)
    modifies g`shapes, g`nextRef
    ensures g.Valid()
    ensures r == old(g.nextRef) && Built(old(g.shapes), g.shapes, r, base, name, e, dflt)
  {
    ghost var s0: map<Ref, Shape> := g.shapes;
    r := g.Alloc(base);
    var d := NewLiteral(g, dflt);
    ghost var s1: map<Ref, Shape> := g.shapes;
    assert IsLiteralValue(s1, Some(d));
    WithExpression(g, r, name, e, Some(d));
    FilledState(s0, r, base, name, e, dflt, g.shapes);
  }

  /** The state `DefaultedBlock` leaves, from the three outcomes of `withExpression`. */
  lemma FilledState(s0: map<Ref, Shape>, r: Ref, base: Shape, name: string, e: Option<Ref>, dflt: Literal, s2: map<Ref, Shape>)
    requires r !in s0 && r + 1 !in s0 && r + 2 !in s0 && base.paired == [] && base.shadowless == []
    requires e.Some? ==> e.value in s0
    requires var d: Ref := r + 1; var n: Ref := r + 2; var s1 := s0[r := base][d := LiteralShape(dflt)];
      && (!IsShadowValue(s1, e) ==> s2 == s1[r := s1[r].(paired := Put(s1[r].paired, name, (d, e)))])
      && (IsShadowValue(s1, e) && IsLiteralValue(s1, e) ==>
            s2 == s1[n := LiteralShape(Collapsed(s1[e.value].kind.lit, s1[d].kind.lit))][r := s1[r].(shadowless := Put(s1[r].shadowless, name, Some(n)))])
      && (IsShadowValue(s1, e) && !IsLiteralValue(s1, e) ==> s2 == s1[r := s1[r].(shadowless := Put(s1[r].shadowless, name, e))])
    ensures Built(s0, s2, r, base, name, e, dflt)
  {
    var d: Ref := r + 1;
    var n: Ref := r + 2;
    var s1 := s0[r := base][d := LiteralShape(dflt)];
    var b := Filled(base, s0, name, e, d, n);
    assert e.Some? ==> s1[e.value] == s0[e.value];
    UpdateTwice(s0, r, base, b);
    UpdateSwap(s0[r := base], r, b, d, LiteralShape(dflt));
    if !IsShadowValue(s0, e) {
      PutEmpty(name, (d, e));
    } else if IsLiteralValue(s0, e) {
      PutEmpty(name, Some(n));
      UpdateSwap(s1, r, b, n, LiteralShape(Collapsed(s0[e.value].kind.lit, dflt)));
    } else {
      PutEmpty(name, e);
    }
  }

  /** `moveSteps(steps)`: `motion_movesteps` with `STEPS` defaulting to the number 10. */
  method MoveSteps(g: Graph, h: HostRef, steps: Option<Ref>) returns (r: Ref, o: Outcome)
    requires g.Valid() && IsHost(g.shapes, g.stacks, h)
    requires steps.Some? ==> steps.value in g.shapes && IsExpression(g.shapes[steps.value].kind)
    modifies g`shapes, g`nextRef, g`stacks
    ensures g.Valid()
    ensures r == old(g.nextRef)
    ensures Built(old(g.shapes), g.shapes, r, Blank(Plain, Some("motion_movesteps"), false), "STEPS", steps, OfString(NUMBER, "10"))
    ensures (o.Pass? <==> Target(old(g.shapes), h).Some?) && Appended(old(g.stacks), g.stacks, Target(old(g.shapes), h), r)
  {
    ghost var s0 := g.shapes;
    r := DefaultedBlock(g, Blank(Plain, Some("motion_movesteps"), false), "STEPS", steps, OfString(NUMBER, "10"));
    BuiltGrows(s0, g.shapes, r, Blank(Plain, Some("motion_movesteps"), false), "STEPS", steps, OfString(NUMBER, "10"));
    HostStable(s0, g.shapes, g.stacks, g.stacks, h);
    o := HostAdd(g, h, r);
  }

  /** `repeatBlock(times) { ... }`: the body's stack is made first (its id is the
      first generated), holding the blocks the body added; then the
      `control_repeat` host with `TIMES` defaulting to the whole number 10. */
  method Repeat(g: Graph, h: HostRef, times: Option<Ref>, body: seq<Ref>) returns (r: Ref, s: StackRef, o: Outcome)
    requires g.Valid() && IsHost(g.shapes, g.stacks, h) && forall x | x in body :: x in g.shapes
    requires times.Some? ==> times.value in g.shapes && IsExpression(g.shapes[times.value].kind)
    modifies g`shapes, g`nextRef, g`stacks, g`nextStack, g.gen
    ensures g.Valid()
    ensures r == old(g.nextRef) && s !in old(g.stacks)
    ensures Built(old(g.shapes), g.shapes, r, HostShape(Some("control_repeat"), Some(s)), "TIMES", times, OfString(POSITIVE_INTEGER, "10"))
    ensures !old(g.gen.isModifying) ==> g.gen.currentIdIdx == old(g.gen.currentIdIdx) + 1
    ensures o.Pass? <==> Target(old(g.shapes), h).Some?
    ensures s in g.stacks && g.stacks[s].contents == body
    ensures Appended(old(g.stacks)[s := g.stacks[s]], g.stacks, Target(old(g.shapes), h), r)
  {
    s := g.NewStack(body);
    ghost var s0 := g.shapes;
    var base := HostShape(Some("control_repeat"), Some(s));
    ValuesOne("SUBSTACK", Some(s));
    r := DefaultedBlock(g, base, "TIMES", times, OfString(POSITIVE_INTEGER, "10"));
    BuiltGrows(s0, g.shapes, r, base, "TIMES", times, OfString(POSITIVE_INTEGER, "10"));
    HostStable(s0, g.shapes, old(g.stacks), g.stacks, h);
    o := HostAdd(g, h, r);
  }

  /** A `Variable`'s handlers build a block with input `VALUE` and field `VARIABLE`. */
  predicate IsVariable(g: Graph, v: Ref)
    reads g
  {
    v in g.shapes && g.shapes[v].kind.DeclK? && g.shapes[v].kind.variant == VariableV
  }

  /** The block a variable's set handler (`changeHandler` when `change`) builds:
      `data_setvariableto` with a text default "0", or `data_changevariableby` with
      a number default 1, each with the variable itself in the `VARIABLE` field. */
  method VariableBlock(g: Graph, v: Ref, e: Option<Ref>, change: bool) returns (r: Ref)
    requires g.Valid() && IsVariable(g, v)
    requires e.Some? ==> e.value in g.shapes && IsExpression(g.shapes[e.value].kind)
    modifies g`shapes, g`nextRef
    ensures g.Valid()
    ensures r == old(g.nextRef)
    ensures var opcode := if change then "data_changevariableby" else "data_setvariableto";
      var dflt := if change then OfString(NUMBER, "1") else OfString(TEXT, "0");
      Built(old(g.shapes), g.shapes, r, Blank(Plain, Some(opcode), false).(fields := [("VARIABLE", Of(v))]), "VALUE", e, dflt)
  {
    var opcode := if change then "data_changevariableby" else "data_setvariableto";
    var dflt := if change then OfString(NUMBER, "1") else OfString(TEXT, "0");
    ghost var s0 := g.shapes;
    var base := Blank(Plain, Some(opcode), false);
    r := DefaultedBlock(g, base, "VALUE", e, dflt);
    ghost var s1 := g.shapes;
    BuiltGrows(s0, s1, r, base, "VALUE", e, dflt);
    WithField(g, r, "VARIABLE", Of(v));
    PutEmpty("VARIABLE", Of(v));
    FieldAfterBuilt(s0, s1, g.shapes, r, base, "VALUE", e, dflt, [("VARIABLE", Of(v))]);
  }

  /** Setting fields after `withExpression` gives the state of building with those
      fields from the start. */
  lemma FieldAfterBuilt(s0: map<Ref, Shape>, s1: map<Ref, Shape>, s2: map<Ref, Shape>, r: Ref, base: Shape,
                        name: string, e: Option<Ref>, dflt: Literal, fields: Entries<FieldSrc>)
    requires Built(s0, s1, r, base, name, e, dflt) && base.fields == []
    requires r in s1 && s2 == s1[r := s1[r].(fields := fields)]
    ensures Built(s0, s2, r, base.(fields := fields), name, e, dflt)
  {
    var d: Ref := r + 1;
    var b := Filled(base, s0, name, e, d, d + 1);
    var b' := Filled(base.(fields := fields), s0, name, e, d, d + 1);
    assert b' == b.(fields := fields);
    if IsLiteralValue(s0, e) {
      var n: Ref := d + 1;
      var lc := LiteralShape(Collapsed(s0[e.value].kind.lit, dflt));
      UpdateSwap(s0[r := b], d, LiteralShape(dflt), n, lc);
      UpdateSwap(s0[r := b][n := lc], r, b, d, LiteralShape(dflt));
    }
  }

  /** `setVar(variable, e)` / `changeVar(variable, e)`: the handler's block, added to the host. */
  method VarStatement(g: Graph, h: HostRef, v: Ref, e: Option<Ref>, change: bool) returns (r: Ref, o: Outcome)
    requires g.Valid() && IsHost(g.shapes, g.stacks, h) && IsVariable(g, v)
    requires e.Some? ==> e.value in g.shapes && IsExpression(g.shapes[e.value].kind)
    modifies g`shapes, g`nextRef, g`stacks
    ensures g.Valid()
    ensures r == old(g.nextRef)
    ensures var opcode := if change then "data_changevariableby" else "data_setvariableto";
      var dflt := if change then OfString(NUMBER, "1") else OfString(TEXT, "0");
      Built(old(g.shapes), g.shapes, r, Blank(Plain, Some(opcode), false).(fields := [("VARIABLE", Of(v))]), "VALUE", e, dflt)
    ensures (o.Pass? <==> Target(old(g.shapes), h).Some?) && Appended(old(g.stacks), g.stacks, Target(old(g.shapes), h), r)
  {
    ghost var s0 := g.shapes;
    r := VariableBlock(g, v, e, change);
    var opcode := if change then "data_changevariableby" else "data_setvariableto";
    var dflt := if change then OfString(NUMBER, "1") else OfString(TEXT, "0");
    BuiltGrows(s0, g.shapes, r, Blank(Plain, Some(opcode), false).(fields := [("VARIABLE", Of(v))]), "VALUE", e, dflt);
    HostStable(s0, g.shapes, g.stacks, g.stacks, h);
    o := HostAdd(g, h, r);
  }
}
