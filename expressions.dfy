/** Expressions.kt and VLB.kt: where the operator constructors put their operands,
    and what an expression object looks like on the wire when it stands alone. */
module Expressions {
  import opened Wrappers
  import opened Ordered
  import opened Json
  import opened Wire
  import opened Graph
  import opened Blocks

  // ---- Operand placement ----

  /** A binary operator's operand goes with its shadow into `expressionInputs`
      exactly when there is a shadow and the operand is not itself a shadow
      expression (a null operand included). */
  predicate PairedOperand(shapes: map<Ref, Shape>, e: Option<Ref>, s: Option<Ref>)
  {
    s.Some? && !IsShadowValue(shapes, e)
  }

  /** The state of `NormalUnaryOp(opcode, e, name, s)`: with a shadow the pair is
      stored whatever the operand is; without one the operand goes alone. */
  function UnaryShape(opcode: Option<string>, e: Option<Ref>, name: string, s: Option<Ref>): Shape
  {
    var b := Blank(Reporter, opcode, false);
    if s.Some? then b.(paired := Put([], name, (s.value, e)))
    else b.(shadowless := Put([], name, e))
  }

  /** One operand placed into the two expression maps of `sh`. */
  function PlaceOperand(shapes: map<Ref, Shape>, sh: Shape, name: string, e: Option<Ref>, s: Option<Ref>): Shape
  {
    if PairedOperand(shapes, e, s) then sh.(paired := Put(sh.paired, name, (s.value, e)))
    else sh.(shadowless := Put(sh.shadowless, name, e))
  }

  /** The state of `NormalBinaryOp(opcode, a, b, nameA, nameB, sa, sb)`: operand A
      placed first, then operand B. */
  function BinaryShape(shapes: map<Ref, Shape>, opcode: Option<string>, a: Option<Ref>, b: Option<Ref>,
                       nameA: string, nameB: string, sa: Option<Ref>, sb: Option<Ref>): Shape
  {
    PlaceOperand(shapes, PlaceOperand(shapes, Blank(Reporter, opcode, false), nameA, a, sa), nameB, b, sb)
  }

  /** The unary operator keeps its operand under `name`, in the pair map exactly
      when it has a shadow, and holds nothing else. */
  lemma UnaryPlacement(opcode: Option<string>, e: Option<Ref>, name: string, s: Option<Ref>)
    ensures var sh := UnaryShape(opcode, e, name, s);
      && sh.kind == Reporter && Independent(sh.kind) && sh.opcode == opcode && !sh.shadow
      && (s.Some? ==> sh.paired == [(name, (s.value, e))] && sh.shadowless == [])
      && (s.None? ==> sh.shadowless == [(name, e)] && sh.paired == [])
      && sh.nested == [] && sh.fields == [] && sh.mutation == []
  {
    if s.Some? {
      PutEmpty(name, (s.value, e));
    } else {
      PutEmpty(name, e);
    }
  }

  /** Placing one operand touches only its own name, in one of the two maps. */
  lemma PlaceOperandFacts(shapes: map<Ref, Shape>, sh: Shape, name: string, e: Option<Ref>, s: Option<Ref>)
    ensures var sh' := PlaceOperand(shapes, sh, name, e, s);
      && sh'.kind == sh.kind && sh'.opcode == sh.opcode && sh'.shadow == sh.shadow
      && (PairedOperand(shapes, e, s) ==>
            Get(sh'.paired, name) == Some((s.value, e)) && sh'.shadowless == sh.shadowless
            && Keys(sh'.paired) == Keys(sh.paired) + {name}
            && forall k | k != name :: Get(sh'.paired, k) == Get(sh.paired, k))
      && (!PairedOperand(shapes, e, s) ==>
            Get(sh'.shadowless, name) == Some(e) && sh'.paired == sh.paired
            && Keys(sh'.shadowless) == Keys(sh.shadowless) + {name}
            && forall k | k != name :: Get(sh'.shadowless, k) == Get(sh.shadowless, k))
  {
    if PairedOperand(shapes, e, s) {
      PutFacts(sh.paired, name, (s.value, e));
    } else {
      PutFacts(sh.shadowless, name, e);
    }
  }

  /** With two distinct input names, each operand of a binary operator is found
      under its name in exactly one of the two maps: the pair map exactly when it
      has a shadow and is not a shadow expression. */
  lemma BinaryPlacement(shapes: map<Ref, Shape>, opcode: Option<string>, a: Option<Ref>, b: Option<Ref>,
                        nameA: string, nameB: string, sa: Option<Ref>, sb: Option<Ref>)
    requires nameA != nameB
    ensures var sh := BinaryShape(shapes, opcode, a, b, nameA, nameB, sa, sb);
      && sh.kind == Reporter && sh.opcode == opcode && !sh.shadow
      && (PairedOperand(shapes, a, sa) <==> nameA in Keys(sh.paired))
      && (PairedOperand(shapes, a, sa) ==> Get(sh.paired, nameA) == Some((sa.value, a)))
      && (!PairedOperand(shapes, a, sa) <==> nameA in Keys(sh.shadowless))
      && (!PairedOperand(shapes, a, sa) ==> Get(sh.shadowless, nameA) == Some(a))
      && (PairedOperand(shapes, b, sb) <==> nameB in Keys(sh.paired))
      && (PairedOperand(shapes, b, sb) ==> Get(sh.paired, nameB) == Some((sb.value, b)))
      && (!PairedOperand(shapes, b, sb) <==> nameB in Keys(sh.shadowless))
      && (!PairedOperand(shapes, b, sb) ==> Get(sh.shadowless, nameB) == Some(b))
      && Keys(sh.paired) + Keys(sh.shadowless) == {nameA, nameB}
  {
    var b0 := Blank(Reporter, opcode, false);
    var b1 := PlaceOperand(shapes, b0, nameA, a, sa);
    PlaceOperandFacts(shapes, b0, nameA, a, sa);
    PlaceOperandFacts(shapes, b1, nameB, b, sb);
  }

  /** The two constructors differ only on a shadow-expression operand given with a
      shadow: the unary operator pairs it, the binary operator stores it alone. */
  lemma UnaryBinaryDiffer(shapes: map<Ref, Shape>, opcode: Option<string>, e: Ref, s: Ref, other: Option<Ref>)
    requires e in shapes && IsShadowExpression(shapes[e].kind)
    ensures Get(UnaryShape(opcode, Some(e), "NUM1", Some(s)).paired, "NUM1") == Some((s, Some(e)))
    ensures var sh := BinaryShape(shapes, opcode, Some(e), other, "NUM1", "NUM2", Some(s), None);
      "NUM1" !in Keys(sh.paired) && Get(sh.shadowless, "NUM1") == Some(Some(e))
  {
    UnaryPlacement(opcode, Some(e), "NUM1", Some(s));
    BinaryPlacement(shapes, opcode, Some(e), other, "NUM1", "NUM2", Some(s), None);
  }

  /** The operand objects must exist and be expressions, the shadows shadow expressions. */
  predicate Operand(shapes: map<Ref, Shape>, e: Option<Ref>, s: Option<Ref>)
  {
    && (e.Some? ==> e.value in shapes && IsExpression(shapes[e.value].kind))
    && (s.Some? ==> s.value in shapes && IsShadowExpression(shapes[s.value].kind))
  }

  lemma OperandClosed(shapes: map<Ref, Shape>, stacks: map<StackRef, Stack>, sh: Shape, name: string, e: Option<Ref>, s: Option<Ref>)
    requires Operand(shapes, e, s) && ShapeClosed(sh, shapes, stacks)
    ensures ShapeClosed(PlaceOperand(shapes, sh, name, e, s), shapes, stacks)
  {
    if PairedOperand(shapes, e, s) {
      PutFacts(sh.paired, name, (s.value, e));
    } else {
      PutFacts(sh.shadowless, name, e);
    }
  }

  /** `NormalUnaryOp(opcode, e, name, s)` (`name` is `OPERAND` by default). */
  method NewUnaryOp(g: Graph, opcode: Option<string>, e: Option<Ref>, name: string, s: Option<Ref>) returns (r: Ref)
    requires g.Valid() && Operand(g.shapes, e, s)
    modifies g`shapes, g`nextRef
    ensures g.Valid()
    ensures r == old(g.nextRef) && r !in old(g.shapes) && g.nextRef == r + 1
    ensures g.shapes == old(g.shapes)[r := UnaryShape(opcode, e, name, s)]
  {
    UnaryPlacement(opcode, e, name, s);
    r := g.Alloc(UnaryShape(opcode, e, name, s));
  }

  /** `NormalBinaryOp(opcode, a, b, nameA, nameB, sa, sb)` (`NUM1`/`NUM2` by default). */
  method NewBinaryOp(g: Graph, opcode: Option<string>, a: Option<Ref>, b: Option<Ref>,
                     nameA: string, nameB: string, sa: Option<Ref>, sb: Option<Ref>) returns (r: Ref)
    requires g.Valid() && Operand(g.shapes, a, sa) && Operand(g.shapes, b, sb)
    modifies g`shapes, g`nextRef
    ensures g.Valid()
    ensures r == old(g.nextRef) && r !in old(g.shapes) && g.nextRef == r + 1
    ensures g.shapes == old(g.shapes)[r := BinaryShape(old(g.shapes), opcode, a, b, nameA, nameB, sa, sb)]
  {
    var b0 := Blank(Reporter, opcode, false);
    OperandClosed(g.shapes, g.stacks, b0, nameA, a, sa);
    var b1 := PlaceOperand(g.shapes, b0, nameA, a, sa);
    OperandClosed(g.shapes, g.stacks, b1, nameB, b, sb);
    r := g.Alloc(PlaceOperand(g.shapes, b1, nameB, b, sb));
  }

  // ---- An expression on the wire ----

  /** `representAlone` of an expression object whose id is `id`: a literal is
      `[typeCode, text]`, a variable, list or broadcast `[code, name, id]`, and every
      other expression (reporters, menus, assets, placeholders, the prototype and
      procedure arguments) its id alone. */
  function Alone(k: Kind, id: string): Json
    requires IsExpression(k)
  {
    match k
    case LiteralK(l) => LiteralAlone(l)
    case DeclK(v, name) => DeclAlone(v, name, id)
    case _ => JStr(id)
  }

  /** What a stand-alone rendering says. */
  datatype AloneView = LiteralView(code: int, text: string) | DeclView(variant: Variant, name: string, id: string) | IdView(id: string)

  /** Reads a stand-alone rendering back. */
  function ReadAlone(j: Json): Option<AloneView>
  {
    if j.JStr? then Some(IdView(j.s))
    else if j.JArr? && |j.items| == 2 && j.items[0].JInt? && 4 <= j.items[0].i <= 10 && j.items[1].JStr? then
      Some(LiteralView(j.items[0].i, j.items[1].s))
    else if j.JArr? && |j.items| == 3 && j.items[0].JInt? && VariantOfCode(j.items[0].i).Some?
            && j.items[1].JStr? && j.items[2].JStr? then
      Some(DeclView(VariantOfCode(j.items[0].i).value, j.items[1].s, j.items[2].s))
    else None
  }

  /** The rendering determines what was rendered: the text and type code of a
      literal, the kind, name and id of a declaration, the id of anything else. An
      independent expression (one that gets a table row) is rendered by its id. */
  lemma AloneRoundTrip(k: Kind, id: string)
    requires IsExpression(k)
    ensures k.LiteralK? ==> ReadAlone(Alone(k, id)) == Some(LiteralView(NumericType(k.lit.opcode), k.lit.value))
    ensures k.DeclK? ==> ReadAlone(Alone(k, id)) == Some(DeclView(k.variant, k.name, id))
    ensures !k.LiteralK? && !k.DeclK? ==> ReadAlone(Alone(k, id)) == Some(IdView(id))
    ensures Independent(k) ==> Alone(k, id) == JStr(id)
  {
    if k.DeclK? {
      VariantCodeRoundTrip(k.variant);
    }
  }

  /** `representAsInput`: `[1, alone]` for a shadow expression, `[2, alone]` otherwise. */
  function InputOf(k: Kind, id: string): Json
    requires IsExpression(k)
  {
    AsInput(IsShadowExpression(k), Alone(k, id))
  }

  /** `representAsInputWith(other)` of a shadow expression: its own input when no
      value covers it, else `[3, other alone, shadow alone]`. */
  function InputWith(ks: Kind, ids: string, other: Option<(Kind, string)>): Json
    requires IsExpression(ks) && (other.Some? ==> IsExpression(other.value.0))
  {
    AsInputWith(Alone(ks, ids), if other.Some? then Some(Alone(other.value.0, other.value.1)) else None)
  }

  /** The type tag of a socket tells shadow from non-shadow, and a covered shadow
      carries both renderings; a shadow with nothing over it is the same as that
      shadow's own input. */
  lemma InputTags(ks: Kind, ids: string, ke: Kind, ide: string)
    requires IsExpression(ks) && IsExpression(ke) && IsShadowExpression(ks)
    ensures DecodeInput(InputOf(ke, ide)) == Some(if IsShadowExpression(ke) then ShadowOnly(Alone(ke, ide)) else NoShadow(Alone(ke, ide)))
    ensures InputWith(ks, ids, None) == InputOf(ks, ids)
    ensures DecodeInput(InputWith(ks, ids, Some((ke, ide)))) == Some(Obscured(Alone(ke, ide), Alone(ks, ids)))
  {
  }

  // ---- Declarations as fields ----

  /** `VLB.fieldValue`: the declaration's name and its id. */
  function DeclFieldValue(name: string, id: string): (f: FieldValue)
    ensures f.value == name && f.id == Some(id)
  {
    FieldValue(name, Some(id))
  }

  /** A declaration shows the same name and id in a field as in a socket. */
  lemma DeclFieldMatchesAlone(v: Variant, name: string, id: string)
    ensures var j := Alone(DeclK(v, name), id);
      var f := DecodeField(FieldJson(DeclFieldValue(name, id)));
      f.Some? && j.items[1] == JStr(f.value.value) && f.value.id == Some(id) && j.items[2] == JStr(id)
  {
  }
}
