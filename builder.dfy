/** The earlier, data-only design of the wire format (builder/Inputs.kt and
    builder/Fields.kt): an input is described by which of its parts are shown by id
    and which by a minified block, and a field by a name and an optional id. */
module Builder {
  import opened Wrappers
  import opened Json
  import Wire

  /** A Kotlin `Double`, carried through unchanged. */
  type Double = real

  /** `Variable(name, startValue, variableId)` and `ScratchList(...)`: only the name
      and the id reach the wire. */
  datatype Variable = Variable(name: string, variableId: string)
  datatype ScratchList = ScratchList(name: string, listId: string)

  /** `Value(string?, int?, number?)`. */
  datatype Value = Value(str: Option<string>, integer: Option<int>, number: Option<Double>)

  const ZERO: Value := Value(None, Some(0), None)

  /** `MinifiedBlockRepresentation`: a literal or a named reference with its type code. */
  datatype Minified =
    | NumberRep(num: Double)
    | PositiveNumberRep(num: Double)
    | AngleRep(num: Double)
    | IntRep(i: int)
    | PositiveIntRep(i: int)
    | ColorRep(color: string)
    | StringRep(s: string)
    | VariableRep(name: string, id: string)
    | ListRep(name: string, id: string)
  {
    /** The `type` each representation class declares. */
    function Type(): (t: int)
      ensures 4 <= t <= 13 && t != 11
    {
      match this
      case NumberRep(_) => 4
      case PositiveNumberRep(_) => 5
      case AngleRep(_) => 8
      case IntRep(_) => 7
      case PositiveIntRep(_) => 6
      case ColorRep(_) => 9
      case StringRep(_) => 10
      case VariableRep(_, _) => 12
      case ListRep(_, _) => 13
    }
  }

  /** The earlier design's type codes are the later design's: literals share the codes
      of the `ValueInput` they stand for, references those of their variant. */
  lemma TypeCodesAgree(d: Double, i: int, s: string, n: string, id: string)
    ensures NumberRep(d).Type() == Wire.InputCode(Wire.NUMBER)
    ensures PositiveNumberRep(d).Type() == Wire.InputCode(Wire.POSITIVE_NUMBER)
    ensures PositiveIntRep(i).Type() == Wire.InputCode(Wire.POSITIVE_INTEGER)
    ensures IntRep(i).Type() == Wire.InputCode(Wire.INTEGER)
    ensures AngleRep(d).Type() == Wire.InputCode(Wire.ANGLE)
    ensures ColorRep(s).Type() == Wire.InputCode(Wire.COLOUR_PICKER)
    ensures StringRep(s).Type() == Wire.InputCode(Wire.TEXT)
    ensures VariableRep(n, id).Type() == Wire.VariantCode(Wire.VariableV)
    ensures ListRep(n, id).Type() == Wire.VariantCode(Wire.ListV)
  {
  }

  /** `ActualInput` and its implementations; `ShadowInput` stands for any
      `ActualShadowInput`, given by what its three members answer: builder/Inputs.kt
      declares that interface but no class implementing it. */
  datatype ActualInput =
    | VarInput(variable: Variable)
    | ListInput(list: ScratchList)
    | ValueIn(value: Value)
    | IdExpressionInput(expressionId: string)
    | ShadowInput(byId: bool, id: Option<string>, minified: Option<Minified>)
  {
    predicate ShouldRepresentById()
    {
      match this
      case IdExpressionInput(_) => true
      case ShadowInput(byId, _, _) => byId
      case _ => false
    }

    function RepresentById(): Option<string>
    {
      match this
      case IdExpressionInput(e) => Some(e)
      case ShadowInput(_, id, _) => id
      case _ => None
    }

    function RepresentByMinified(): Option<Minified>
    {
      match this
      case VarInput(v) => Some(VariableRep(v.name, v.variableId))
      case ListInput(l) => Some(ListRep(l.name, l.listId))
      case ValueIn(v) => Some(ValueMinified(v))
      case IdExpressionInput(_) => None
      case ShadowInput(_, _, m) => m
    }
  }

  /** `ActualValueInput.representByMinifiedBlockRepresentation`: the string if there is
      one, else the int, else the number, else the int 0. */
  function ValueMinified(v: Value): (m: Minified)
    ensures v.str.Some? ==> m == StringRep(v.str.value)
    ensures v.str.None? && v.integer.Some? ==> m == IntRep(v.integer.value)
    ensures v.str.None? && v.integer.None? && v.number.Some? ==> m == NumberRep(v.number.value)
    ensures v.str.None? && v.integer.None? && v.number.None? ==> m == IntRep(0)
    ensures m.StringRep? || m.IntRep? || m.NumberRep?
  {
    if v.str.Some? then StringRep(v.str.value)
    else if v.integer.Some? then IntRep(v.integer.value)
    else if v.number.Some? then NumberRep(v.number.value)
    else IntRep(0)
  }

  /** `InputRepresentation.InputType`. */
  datatype InputType = SHADOW | NO_SHADOW | OBSCURED_SHADOW

  function InputTypeValue(t: InputType): int
  {
    match t
    case SHADOW => 1
    case NO_SHADOW => 2
    case OBSCURED_SHADOW => 3
  }

  function InputTypeOfValue(n: int): Option<InputType>
  {
    if n == 1 then Some(SHADOW) else if n == 2 then Some(NO_SHADOW) else if n == 3 then Some(OBSCURED_SHADOW) else None
  }

  lemma InputTypeRoundTrip(t: InputType)
    ensures InputTypeOfValue(InputTypeValue(t)) == Some(t)
  {
  }

  datatype InputRepresentation = InputRepresentation(
    inputType: InputType,
    inputId: Option<string>,
    inputBlock: Option<Minified>,
    obscuredShadowId: Option<string>,
    obscuredShadowBlock: Option<Minified>)

  /** `ComposedInput(input, obscuredShadow)`. */
  datatype ComposedInput = ComposedInput(input: ActualInput, obscuredShadow: Option<ActualInput>)

  /** `ComposedInput.represent`: the type from the kind of input and the presence of an
      obscured shadow; each of the two inputs shown by id or by minified block. */
  function Represent(c: ComposedInput): (r: InputRepresentation)
    ensures r.inputType == SHADOW <==> c.input.ShadowInput?
    ensures r.inputType == OBSCURED_SHADOW <==> !c.input.ShadowInput? && c.obscuredShadow.Some?
    ensures r.inputType == NO_SHADOW <==> !c.input.ShadowInput? && c.obscuredShadow.None?
    ensures c.input.ShouldRepresentById() ==> r.inputId == c.input.RepresentById() && r.inputBlock.None?
    ensures !c.input.ShouldRepresentById() ==> r.inputBlock == c.input.RepresentByMinified() && r.inputId.None?
    ensures c.obscuredShadow.None? ==> r.obscuredShadowId.None? && r.obscuredShadowBlock.None?
    ensures c.obscuredShadow.Some? && c.obscuredShadow.value.ShouldRepresentById() ==>
              r.obscuredShadowId == c.obscuredShadow.value.RepresentById() && r.obscuredShadowBlock.None?
    ensures c.obscuredShadow.Some? && !c.obscuredShadow.value.ShouldRepresentById() ==>
              r.obscuredShadowBlock == c.obscuredShadow.value.RepresentByMinified() && r.obscuredShadowId.None?
  {
    var t := if c.input.ShadowInput? then SHADOW else if c.obscuredShadow.Some? then OBSCURED_SHADOW else NO_SHADOW;
    var id := if c.input.ShouldRepresentById() then c.input.RepresentById() else None;
    var block := if !c.input.ShouldRepresentById() then c.input.RepresentByMinified() else None;
    var oid := if c.obscuredShadow.Some? && c.obscuredShadow.value.ShouldRepresentById() then c.obscuredShadow.value.RepresentById() else None;
    var oblock := if c.obscuredShadow.Some? && !c.obscuredShadow.value.ShouldRepresentById() then c.obscuredShadow.value.RepresentByMinified() else None;
    InputRepresentation(t, id, block, oid, oblock)
  }

  /** The inputs the design defines itself always show exactly one way: variables,
      lists and values by minified block, id expressions by id. */
  lemma ShownExactlyOnce(a: ActualInput)
    requires !a.ShadowInput?
    ensures var r := Represent(ComposedInput(a, None)); r.inputId.Some? != r.inputBlock.Some?
    ensures a.VarInput? || a.ListInput? ==> !a.ShouldRepresentById()
  {
  }

  /** `ActualInput.independent()`: the input over a zero value as obscured shadow. */
  function Independent(a: ActualInput): (c: ComposedInput)
    ensures c.input == a && c.obscuredShadow == Some(ValueIn(ZERO))
  {
    ComposedInput(a, Some(ValueIn(ZERO)))
  }

  /** An independent input is obscured (unless it is a shadow itself), and its obscured
      shadow is the int literal 0, of type 7. */
  lemma IndependentShowsZero(a: ActualInput)
    ensures var r := Represent(Independent(a));
      && (!a.ShadowInput? ==> r.inputType == OBSCURED_SHADOW)
      && r.obscuredShadowId.None? && r.obscuredShadowBlock == Some(IntRep(0))
      && r.obscuredShadowBlock.value.Type() == Wire.InputCode(Wire.INTEGER)
  {
  }

  /** The input type's code is the tag the later design puts first in an encoded socket. */
  lemma InputTypeMatchesWire(c: ComposedInput, alone: Json, other: Json)
    ensures var r := Represent(c);
      && (r.inputType == SHADOW ==> Wire.AsInput(true, alone).items[0] == JInt(InputTypeValue(r.inputType)))
      && (r.inputType == NO_SHADOW ==> Wire.AsInput(false, alone).items[0] == JInt(InputTypeValue(r.inputType)))
      && (r.inputType == OBSCURED_SHADOW ==>
            Wire.AsInputWith(alone, Some(other)).items[0] == JInt(InputTypeValue(r.inputType)))
  {
  }

  // ---- Fields ----

  /** `Field.representAsPair` for the three field classes. */
  datatype Field =
    | SingleValueField(value: string)
    | VariableField(variable: Variable)
    | ListField(list: ScratchList)

  function AsPair(f: Field): (p: (string, Option<string>))
    ensures f.SingleValueField? ==> p == (f.value, None)
    ensures f.VariableField? ==> p == (f.variable.name, Some(f.variable.variableId))
    ensures f.ListField? ==> p == (f.list.name, Some(f.list.listId))
  {
    match f
    case SingleValueField(v) => (v, None)
    case VariableField(v) => (v.name, Some(v.variableId))
    case ListField(l) => (l.name, Some(l.listId))
  }

  /** `Field.representAsList`: the id is left out when there is none. */
  function AsList(p: (string, Option<string>)): (l: seq<string>)
    ensures |l| == (if p.1.Some? then 2 else 1) && l[0] == p.0
    ensures p.1.Some? ==> l[1] == p.1.value
  {
    if p.1.Some? then [p.0, p.1.value] else [p.0]
  }

  /** Reads a field list back into its pair. */
  function PairOfList(l: seq<string>): Option<(string, Option<string>)>
  {
    if |l| == 1 then Some((l[0], None))
    else if |l| == 2 then Some((l[0], Some(l[1])))
    else None
  }

  lemma FieldListRoundTrip(f: Field)
    ensures PairOfList(AsList(AsPair(f))) == Some(AsPair(f))
  {
  }

  /** A field list has one element exactly for a single-value field; variable and list
      fields carry their id second. */
  lemma FieldListShape(f: Field)
    ensures |AsList(AsPair(f))| == 1 <==> f.SingleValueField?
    ensures f.VariableField? ==> AsList(AsPair(f)) == [f.variable.name, f.variable.variableId]
    ensures f.ListField? ==> AsList(AsPair(f)) == [f.list.name, f.list.listId]
  {
  }
}
