/** The block builders of Blocks.kt: creating blocks, filling their socket maps
    (`withExpression`, `withField`, `withMutation`), `BlockStack.addBlock`, the
    block hosts and hats, and a few of the catalogue builders as scenarios. */
module Blocks {
  import opened Wrappers
  import opened Ordered
  import opened Json
  import opened Wire
  import opened Ids
  import opened Graph

  /** `NormalBlock(opcode)`: a fresh statement block with empty socket maps. */
  method NewBlock(g: Graph, opcode: Option<string>) returns (r: Ref)
    requires g.Valid()
    modifies g`shapes, g`nextRef
    ensures g.Valid()
    ensures r == old(g.nextRef) && g.nextRef == r + 1
    ensures r !in old(g.shapes) && g.shapes == old(g.shapes)[r := Blank(Plain, opcode, false)]
  {
    r := g.Alloc(Blank(Plain, opcode, false));
  }

  /** Kinds whose objects hold no references of their own when constructed. */
  predicate Standalone(k: Kind)
  {
    IsExpression(k) && !k.FirstK?
  }

  /** A fresh expression object: `NormalExpression` (shadow false) or a
      `NormalShadowExpression` (shadow true). */
  method NewExpression(g: Graph, k: Kind, opcode: Option<string>, shadow: bool) returns (r: Ref)
    requires g.Valid() && Standalone(k)
    modifies g`shapes, g`nextRef
    ensures g.Valid()
    ensures r == old(g.nextRef) && g.nextRef == r + 1
    ensures r !in old(g.shapes) && g.shapes == old(g.shapes)[r := Blank(k, opcode, shadow)]
  {
    r := g.Alloc(Blank(k, opcode, shadow));
  }

  /** The state of `ValueShadowExpression(value, opcode)`. */
  function LiteralShape(l: Literal): (sh: Shape)
    ensures sh.kind == LiteralK(l) && sh.opcode == l.opcode && sh.shadow
    ensures !Independent(sh.kind) && IsShadowExpression(sh.kind)
  {
    Blank(LiteralK(l), l.opcode, true)
  }

  method NewLiteral(g: Graph, l: Literal) returns (r: Ref)
    requires g.Valid()
    modifies g`shapes, g`nextRef
    ensures g.Valid()
    ensures r == old(g.nextRef) && g.nextRef == r + 1
    ensures r !in old(g.shapes) && g.shapes == old(g.shapes)[r := LiteralShape(l)]
  {
    r := g.Alloc(LiteralShape(l));
  }

  /** `withField`: the field map gets `name` bound to `f` (replacing any earlier binding). */
  method WithField(g: Graph, r: Ref, name: string, f: FieldSrc)
    requires g.Valid() && r in g.shapes && (f.Of? ==> f.obj in g.shapes)
    modifies g`shapes
    ensures g.Valid()
    ensures g.shapes == old(g.shapes)[r := old(g.shapes[r]).(fields := Put(old(g.shapes[r]).fields, name, f))]
  {
    var sh := g.shapes[r];
    g.SetShape(r, sh.(fields := Put(sh.fields, name, f)));
  }

  /** `withMutation`: the mutation map gets `name` bound to `v` (null by default). */
  method WithMutation(g: Graph, r: Ref, name: string, v: Option<Json>)
    requires g.Valid() && r in g.shapes
    modifies g`shapes
    ensures g.Valid()
    ensures g.shapes == old(g.shapes)[r := old(g.shapes[r]).(mutation := Put(old(g.shapes[r]).mutation, name, v))]
  {
    var sh := g.shapes[r];
    g.SetShape(r, sh.(mutation := Put(sh.mutation, name, v)));
  }

  const DEFAULT_MUTATION: Entries<Option<Json>> := [("tagName", Some(JStr("mutation"))), ("children", Some(JArr([])))]

  /** On a block without mutation entries, `withDefaultMutation` leaves exactly
      the two default entries, in that order. */
  lemma DefaultMutationOfEmpty()
    ensures Put(Put([], "tagName", Some(JStr("mutation"))), "children", Some(JArr([]))) == DEFAULT_MUTATION
  {
    var m1 := Put([], "tagName", Some(JStr("mutation")));
    assert m1 == [("tagName", Some(JStr("mutation")))];
    assert "children" !in Keys(m1);
  }

  /** `withDefaultMutation`: `tagName = "mutation"` then `children = []`. */
  method WithDefaultMutation(g: Graph, r: Ref)
    requires g.Valid() && r in g.shapes
    modifies g`shapes
    ensures g.Valid()
    ensures g.shapes == old(g.shapes)[r := old(g.shapes[r]).(mutation :=
              Put(Put(old(g.shapes[r]).mutation, "tagName", Some(JStr("mutation"))), "children", Some(JArr([]))))]
  {
    var sh := g.shapes[r];
    g.SetShape(r, sh.(mutation := Put(Put(sh.mutation, "tagName", Some(JStr("mutation"))), "children", Some(JArr([])))));
  }

  /** `expression is ShadowExpression`; false for a null expression. */
  predicate IsShadowValue(shapes: map<Ref, Shape>, e: Option<Ref>)
  {
    e.Some? && e.value in shapes && IsShadowExpression(shapes[e.value].kind)
  }

  /** `x is ValueShadowExpression`. */
  predicate IsLiteralValue(shapes: map<Ref, Shape>, x: Option<Ref>)
  {
    x.Some? && x.value in shapes && shapes[x.value].kind.LiteralK?
  }

  /** The literal `withExpression` stores when value and shadow are both literals:
      the value's text with the shadow's opcode. */
  function Collapsed(value: Literal, shadow: Literal): (l: Literal)
    ensures l.value == value.value && NumericType(l.opcode) == NumericType(shadow.opcode)
  {
    Literal(value.value, shadow.opcode)
  }

  /** `withExpression(name, e, s)`: with a shadow and a value that is not itself a
      shadow (null included) the pair goes to `expressionInputs`; two literals
      collapse into one new literal in `shadowlessExpressionInputs`; otherwise the
      value alone (possibly null) goes to `shadowlessExpressionInputs`. */
  method WithExpression(g: Graph, r: Ref, name: string, e: Option<Ref>, s: Option<Ref>)
    requires g.Valid() && r in g.shapes
    requires e.Some? ==> e.value in g.shapes && IsExpression(g.shapes[e.value].kind)
    requires s.Some? ==> s.value in g.shapes && IsShadowExpression(g.shapes[s.value].kind)
    modifies g`shapes, g`nextRef
    ensures g.Valid()
    ensures s.Some? && !IsShadowValue(old(g.shapes), e) ==>
              g.nextRef == old(g.nextRef)
              && g.shapes == old(g.shapes)[r := old(g.shapes[r]).(paired := Put(old(g.shapes[r]).paired, name, (s.value, e)))]
    ensures !(s.Some? && !IsShadowValue(old(g.shapes), e)) && IsLiteralValue(old(g.shapes), e) && IsLiteralValue(old(g.shapes), s) ==>
              var n := old(g.nextRef);
              var l := Collapsed(old(g.shapes[e.value].kind.lit), old(g.shapes[s.value].kind.lit));
              n !in old(g.shapes) && g.nextRef == n + 1
              && g.shapes == old(g.shapes)[n := LiteralShape(l)][r := old(g.shapes[r]).(shadowless := Put(old(g.shapes[r]).shadowless, name, Some(n)))]
    ensures !(s.Some? && !IsShadowValue(old(g.shapes), e)) && !(IsLiteralValue(old(g.shapes), e) && IsLiteralValue(old(g.shapes), s)) ==>
              g.nextRef == old(g.nextRef)
              && g.shapes == old(g.shapes)[r := old(g.shapes[r]).(shadowless := Put(old(g.shapes[r]).shadowless, name, e))]
  {
    var sh := g.shapes[r];
    if s.Some? && !IsShadowValue(g.shapes, e) {
      g.SetShape(r, sh.(paired := Put(sh.paired, name, (s.value, e))));
    } else if IsLiteralValue(g.shapes, e) && IsLiteralValue(g.shapes, s) {
      var l := Collapsed(g.shapes[e.value].kind.lit, g.shapes[s.value].kind.lit);
      CollapseInto(g, r, name, l);
    } else {
      g.SetShape(r, sh.(shadowless := Put(sh.shadowless, name, e)));
    }
  }

  /** The collapsing branch of `withExpression`: a new literal goes alone under `name`. */
  method CollapseInto(g: Graph, r: Ref, name: string, l: Literal)
    requires g.Valid() && r in g.shapes
    modifies g`shapes, g`nextRef
    ensures g.Valid()
    ensures old(g.nextRef) !in old(g.shapes) && g.nextRef == old(g.nextRef) + 1
    ensures g.shapes == old(g.shapes)[old(g.nextRef) := LiteralShape(l)]
                          [r := old(g.shapes[r]).(shadowless := Put(old(g.shapes[r]).shadowless, name, Some(old(g.nextRef))))]
  {
    var sh := g.shapes[r];
    var n := g.Alloc(LiteralShape(l));
    g.SetShape(r, sh.(shadowless := Put(sh.shadowless, name, Some(n))));
  }

  /** `BlockStack.addBlock`: appends exactly one block. */
  method AddBlock(g: Graph, s: StackRef, b: Ref)
    requires g.Valid() && s in g.stacks && b in g.shapes
    modifies g`stacks
    ensures g.Valid()
    ensures g.stacks == old(g.stacks)[s := old(g.stacks[s]).(contents := old(g.stacks[s]).contents + [b])]
  {
    var st := g.stacks[s];
    g.SetStack(s, st.(contents := st.contents + [b]));
  }

  /** The kind of a `NormalBlockBlockHost`/`ConditionalBlockBlockHost`/`IfElseBlock`. */
  function HostShape(opcode: Option<string>, sub: Option<StackRef>): (sh: Shape)
    ensures sh.kind == Host(sub) && !sh.topLevel && !sh.shadow
    ensures KeySeq(sh.nested) == ["SUBSTACK"] && Get(sh.nested, "SUBSTACK") == Some(sub)
  {
    Blank(Host(sub), opcode, false).(nested := [("SUBSTACK", sub)])
  }

  /** `NormalBlockBlockHost(opcode, subStack)`: `SUBSTACK` is bound even when null. */
  method NewContainer(g: Graph, opcode: Option<string>, sub: Option<StackRef>) returns (r: Ref)
    requires g.Valid() && (sub.Some? ==> sub.value in g.stacks)
    modifies g`shapes, g`nextRef
    ensures g.Valid()
    ensures r == old(g.nextRef) && g.nextRef == r + 1
    ensures r !in old(g.shapes) && g.shapes == old(g.shapes)[r := HostShape(opcode, sub)]
  {
    var sh := HostShape(opcode, sub);
    ValuesOne("SUBSTACK", sub);
    r := g.Alloc(sh);
  }

  /** `ConditionalBlockBlockHost(opcode, expression, subStack)`: `CONDITION` is bound even when null. */
  method NewConditional(g: Graph, opcode: Option<string>, cond: Option<Ref>, sub: Option<StackRef>) returns (r: Ref)
    requires g.Valid() && (sub.Some? ==> sub.value in g.stacks)
    requires cond.Some? ==> cond.value in g.shapes && IsExpression(g.shapes[cond.value].kind)
    modifies g`shapes, g`nextRef
    ensures g.Valid()
    ensures r == old(g.nextRef) && g.nextRef == r + 1
    ensures r !in old(g.shapes) && g.shapes == old(g.shapes)[r := HostShape(opcode, sub).(shadowless := [("CONDITION", cond)])]
  {
    var sh := HostShape(opcode, sub).(shadowless := [("CONDITION", cond)]);
    ValuesOne("SUBSTACK", sub);
    ValuesOne("CONDITION", cond);
    r := g.Alloc(sh);
  }

  /** `IfElseBlock`: a `control_if_else` conditional with a second, non-null `SUBSTACK2`;
      blocks added to it go to the first sub-stack. */
  method NewIfElse(g: Graph, cond: Option<Ref>, sub: Option<StackRef>, sub2: StackRef) returns (r: Ref)
    requires g.Valid() && (sub.Some? ==> sub.value in g.stacks) && sub2 in g.stacks
    requires cond.Some? ==> cond.value in g.shapes && IsExpression(g.shapes[cond.value].kind)
    modifies g`shapes, g`nextRef
    ensures g.Valid()
    ensures r == old(g.nextRef) && g.nextRef == r + 1 && r !in old(g.shapes)
    ensures g.shapes == old(g.shapes)[r := Blank(Host(sub), Some("control_if_else"), false).(
              nested := [("SUBSTACK", sub), ("SUBSTACK2", Some(sub2))], shadowless := [("CONDITION", cond)])]
  {
    var sh := Blank(Host(sub), Some("control_if_else"), false).(
      nested := [("SUBSTACK", sub), ("SUBSTACK2", Some(sub2))], shadowless := [("CONDITION", cond)]);
    ValuesTwo("SUBSTACK", sub, "SUBSTACK2", Some(sub2));
    ValuesOne("CONDITION", cond);
    r := g.Alloc(sh);
  }

  /** The state of a `NormalHatBlock` owning stack `s`. */
  function HatShape(opcode: Option<string>, s: StackRef): (sh: Shape)
    ensures sh.kind == Hat(s) && sh.topLevel && !sh.shadow && sh.opcode == opcode
  {
    Blank(Hat(s), opcode, false).(topLevel := true)
  }

  /** `NormalHatBlock(opcode)`: a top-level hat whose new `blockStack` holds the hat
      itself as its only element; the stack's id is generated at construction. */
  method NewHat(g: Graph, opcode: Option<string>) returns (r: Ref, s: StackRef)
    requires g.Valid()
    modifies g`shapes, g`nextRef, g`stacks, g`nextStack, g.gen
    ensures g.Valid()
    ensures r == old(g.nextRef) && g.nextRef == r + 1
    ensures r !in old(g.shapes) && g.shapes == old(g.shapes)[r := HatShape(opcode, s)]
    ensures s !in old(g.stacks) && s in g.stacks && g.stacks == old(g.stacks)[s := g.stacks[s]] && g.stacks[s].contents == [r]
    ensures g.gen.isModifying == old(g.gen.isModifying)
    ensures !g.gen.isModifying ==>
              g.stacks[s].id == Base62(old(g.gen.currentIdIdx)) && g.gen.currentIdIdx == old(g.gen.currentIdIdx) + 1
  {
    s := g.NewStack([]);
    r := g.Alloc(HatShape(opcode, s));
    AddBlock(g, s, r);
  }

  /** `IsolatedBlockStackHat(blockStack)`: a top-level wrapper around an existing stack. */
  method NewIsolated(g: Graph, s: StackRef) returns (r: Ref)
    requires g.Valid() && s in g.stacks
    modifies g`shapes, g`nextRef
    ensures g.Valid()
    ensures r == old(g.nextRef) && g.nextRef == r + 1
    ensures r !in old(g.shapes) && g.shapes == old(g.shapes)[r := Blank(Isolated(s), None, false).(topLevel := true)]
  {
    r := g.Alloc(Blank(Isolated(s), None, false).(topLevel := true));
  }

  /** Something blocks can be added to: a `BlockStack` or a block that is a `BlockHost`. */
  datatype HostRef = StackHost(stack: StackRef) | BlockHost(block: Ref)

  predicate IsHost(shapes: map<Ref, Shape>, stacks: map<StackRef, Stack>, h: HostRef)
  {
    match h
    case StackHost(s) => s in stacks
    case BlockHost(r) => r in shapes && (shapes[r].kind.Host? || IsHat(shapes[r].kind))
  }

  /** `stacks[0]` of a host, the stack `addBlock` appends to; none for a block host
      built without a sub-stack. */
  function Target(shapes: map<Ref, Shape>, h: HostRef): (t: Option<StackRef>)
    requires h.BlockHost? ==> h.block in shapes && (shapes[h.block].kind.Host? || IsHat(shapes[h.block].kind))
    ensures h.StackHost? ==> t == Some(h.stack)
    ensures h.BlockHost? && IsHat(shapes[h.block].kind) ==> t == Some(shapes[h.block].kind.own)
    ensures h.BlockHost? && shapes[h.block].kind.Host? ==> t == shapes[h.block].kind.sub
  {
    match h
    case StackHost(s) => Some(s)
    case BlockHost(r) =>
      match shapes[r].kind
      case Host(sub) => sub
      case Hat(own) => Some(own)
      case Isolated(own) => Some(own)
  }

  /** Host `h` stays a host, with the same target, while objects and stacks are only added. */
  lemma HostStable(s0: map<Ref, Shape>, s1: map<Ref, Shape>, st0: map<StackRef, Stack>, st1: map<StackRef, Stack>, h: HostRef)
    requires IsHost(s0, st0, h) && Grows(s0, s1) && st0.Keys <= st1.Keys
    ensures IsHost(s1, st1, h) && Target(s1, h) == Target(s0, h)
  {
  }

  /** `st1` is `st0` with `b` appended to stack `t`, or unchanged when there is no `t`. */
  ghost predicate Appended(st0: map<StackRef, Stack>, st1: map<StackRef, Stack>, t: Option<StackRef>, b: Ref)
  {
    if t.None? then st1 == st0
    else t.value in st0 && st1 == st0[t.value := st0[t.value].(contents := st0[t.value].contents + [b])]
  }

  /** `BlockHost.addBlock`: appends `b` to the target stack, or fails like `stacks[0]`
      on an empty list when the host has no sub-stack. */
  method HostAdd(g: Graph, h: HostRef, b: Ref) returns (o: Outcome)
    requires g.Valid() && IsHost(g.shapes, g.stacks, h) && b in g.shapes
    modifies g`stacks
    ensures g.Valid()
    ensures (o.Pass? <==> Target(g.shapes, h).Some?) && (o.Fail? ==> o.error.OutOfBounds?)
    ensures Appended(old(g.stacks), g.stacks, Target(g.shapes, h), b)
  {
    var t := Target(g.shapes, h);
    if t.None? {
      o := Fail(OutOfBounds("Index 0 out of bounds for length 0"));
    } else {
      AddBlock(g, t.value, b);
      o := Pass;
    }
  }

  /** `actualBlock` of an isolated hat: the first element of its stack. */
  function Actual(g: Graph, r: Ref): (res: Result<Ref>)
    requires g.Valid() && r in g.shapes && g.shapes[r].kind.Isolated?
    reads g
    ensures var c := g.stacks[g.shapes[r].kind.own].contents;
      && (res.Ok? <==> |c| > 0)
      && (res.Ok? ==> res.value == c[0] && res.value in g.shapes)
      && (res.Err? ==> res.error.IllegalState?)
  {
    var c := g.stacks[g.shapes[r].kind.own].contents;
    if |c| == 0 then Err(IllegalState("You need to add blocks to the BlockStack before doing that."))
    else Ok(c[0])
  }

  /** The `next` getter: the stored link, except for an isolated hat, whose `next`
      is the second element of its stack and cannot be set. */
  function NextOf(g: Graph, r: Ref): (n: Option<Ref>)
    requires g.Valid() && r in g.shapes
    reads g
    ensures g.shapes[r].kind.Isolated? ==>
              var c := g.stacks[g.shapes[r].kind.own].contents;
              (n.Some? <==> |c| >= 2) && (n.Some? ==> n.value == c[1])
    ensures !g.shapes[r].kind.Isolated? ==> n == g.Next(r)
  {
    if g.shapes[r].kind.Isolated? then
      var c := g.stacks[g.shapes[r].kind.own].contents;
      if |c| >= 2 then Some(c[1]) else None
    else g.Next(r)
  }

  /** The `opcode` getter: an isolated hat reports its first block's opcode. */
  function OpcodeOf(g: Graph, r: Ref): (res: Result<Option<string>>)
    requires g.Valid() && r in g.shapes
    reads g
    ensures !g.shapes[r].kind.Isolated? ==> res == Ok(g.shapes[r].opcode)
    ensures g.shapes[r].kind.Isolated? ==>
              (res.Err? <==> Actual(g, r).Err?)
              && (res.Ok? ==> res.value == g.shapes[Actual(g, r).value].opcode)
  {
    if g.shapes[r].kind.Isolated? then
      match Actual(g, r)
      case Err(e) => Err(e)
      case Ok(a) => Ok(g.shapes[a].opcode)
    else Ok(g.shapes[r].opcode)
  }

  /** The blocks of every stack, without the stack ids. */
  function Contents(stacks: map<StackRef, Stack>): (cs: map<StackRef, seq<Ref>>)
    ensures cs.Keys == stacks.Keys
    ensures forall s | s in stacks :: cs[s] == stacks[s].contents
  {
    map s | s in stacks :: stacks[s].contents
  }

  /** The object whose id block `x` reports (`Block.id`): an isolated hat reports its
      stack's first block, and has none to report when that stack is empty. */
  function Reporting(shapes: map<Ref, Shape>, cs: map<StackRef, seq<Ref>>, x: Ref): Option<Ref>
  {
    if x in shapes && shapes[x].kind.Isolated? then
      var own := shapes[x].kind.own;
      if own in cs && |cs[own]| > 0 then Some(cs[own][0]) else None
    else Some(x)
  }

  /** `actualBlock` is what an isolated hat reports. */
  lemma ReportingIsActual(g: Graph, x: Ref)
    requires g.Valid() && x in g.shapes && g.shapes[x].kind.Isolated?
    ensures Actual(g, x).Ok? <==> Reporting(g.shapes, Contents(g.stacks), x).Some?
    ensures Actual(g, x).Ok? ==> Reporting(g.shapes, Contents(g.stacks), x).value == Actual(g, x).value
  {
    assert ShapeClosed(g.shapes[x], g.shapes, g.stacks);
  }

  /** The `id` getter of any block: the id of the object it reports, generated on
      first read; an isolated hat over an empty stack throws. */
  method BlockId(g: Graph, r: Ref) returns (res: Result<string>)
    requires g.Valid() && r in g.shapes
    modifies g`ids, g.gen
    ensures g.gen.isModifying == old(g.gen.isModifying)
    ensures var owner := Reporting(g.shapes, Contents(g.stacks), r);
      && (res.Ok? <==> owner.Some?)
      && (res.Err? ==> res.error.IllegalState? && g.ids == old(g.ids))
      && (res.Ok? ==> owner.value in g.ids && g.ids[owner.value] == res.value
                      && (owner.value in old(g.ids) ==> res.value == old(g.ids[owner.value]) && g.ids == old(g.ids))
                      && (owner.value !in old(g.ids) ==> g.ids == old(g.ids)[owner.value := res.value]))
  {
    var owner := r;
    if g.shapes[r].kind.Isolated? {
      ReportingIsActual(g, r);
      var a := Actual(g, r);
      if a.Err? {
        return Err(a.error);
      }
      owner := a.value;
    }
    var id := g.GetId(owner);
    res := Ok(id);
  }

  /** The `id` setter of any block: an isolated hat sets its first block's id. */
  method SetBlockId(g: Graph, r: Ref, v: string) returns (o: Outcome)
    requires g.Valid() && r in g.shapes
    modifies g`ids
    ensures var owner := Reporting(g.shapes, Contents(g.stacks), r);
      && (o.Pass? <==> owner.Some?)
      && (o.Fail? ==> o.error.IllegalState? && g.ids == old(g.ids))
      && (o.Pass? ==> g.ids == old(g.ids)[owner.value := v])
  {
    var owner := r;
    if g.shapes[r].kind.Isolated? {
      ReportingIsActual(g, r);
      var a := Actual(g, r);
      if a.Err? {
        return Fail(a.error);
      }
      owner := a.value;
    }
    g.SetId(owner, v);
    o := Pass;
  }
}
