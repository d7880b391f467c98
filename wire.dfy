/** The wire format of a block's sockets (Expressions.kt, VLB.kt and the JSON layout
    of `NormalBlock.represent` in Blocks.kt), as pure functions over JSON values. */
module Wire {
  import opened Wrappers
  import opened Ordered
  import opened Json

  /** `VLBVariant`: what a variable, list or broadcast reference is. */
  datatype Variant = VariableV | ListV | BroadcastV

  /** The type code a reference carries on the wire. */
  function VariantCode(v: Variant): (code: int)
    ensures 11 <= code <= 13
  {
    match v
    case VariableV => 12
    case ListV => 13
    case BroadcastV => 11
  }

  /** The variant a type code 11-13 names. */
  function VariantOfCode(code: int): Option<Variant>
  {
    if code == 12 then Some(VariableV)
    else if code == 13 then Some(ListV)
    else if code == 11 then Some(BroadcastV)
    else None
  }

  lemma VariantCodeRoundTrip(v: Variant)
    ensures VariantOfCode(VariantCode(v)) == Some(v)
  {
  }

  /** The `ValueInput` enum: the kinds of literal a socket can default to. */
  datatype ValueInput = NUMBER | POSITIVE_NUMBER | POSITIVE_INTEGER | INTEGER | ANGLE | COLOUR_PICKER | TEXT

  function InputOpcode(v: ValueInput): string
  {
    match v
    case NUMBER => "math_number"
    case POSITIVE_NUMBER => "math_positive_number"
    case POSITIVE_INTEGER => "math_whole_number"
    case INTEGER => "math_integer"
    case ANGLE => "math_angle"
    case COLOUR_PICKER => "colour_picker"
    case TEXT => "text"
  }

  function InputCode(v: ValueInput): int
  {
    match v
    case NUMBER => 4
    case POSITIVE_NUMBER => 5
    case POSITIVE_INTEGER => 6
    case INTEGER => 7
    case ANGLE => 8
    case COLOUR_PICKER => 9
    case TEXT => 10
  }

  /** `ValueShadowExpression.numericType`: the literal's type code, from its opcode;
      an unknown or absent opcode counts as text. */
  const KNOWN_OPCODES: set<string> :=
    {"math_number", "math_positive_number", "math_whole_number", "math_integer", "math_angle",
     "colour_picker", "text"}

  function NumericType(opcode: Option<string>): (code: int)
    ensures 4 <= code <= 10
    ensures (opcode.None? || opcode.value !in KNOWN_OPCODES) ==> code == 10
  {
    if opcode.None? then 10
    else match opcode.value
      case "math_number" => 4
      case "math_positive_number" => 5
      case "math_whole_number" => 6
      case "math_integer" => 7
      case "math_angle" => 8
      case "colour_picker" => 9
      case "text" => 10
      case _ => 10
  }

  /** The `when` table and the enum agree on every entry. */
  lemma NumericTypeMatchesEnum(v: ValueInput)
    ensures NumericType(Some(InputOpcode(v))) == InputCode(v)
  {
  }

  /** Distinct enum entries have distinct opcodes, and every code but 10 names one entry. */
  lemma InputOpcodesDistinct(v: ValueInput, w: ValueInput)
    ensures InputOpcode(v) == InputOpcode(w) <==> v == w
    ensures InputCode(v) == InputCode(w) <==> v == w
  {
  }

  /** `ValueShadowExpression(value, opcode)`: a literal inlined into its parent's socket. */
  datatype Literal = Literal(value: string, opcode: Option<string>)

  /** `ValueShadowExpression.representAlone`: `[typeCode, text]`. */
  function LiteralAlone(l: Literal): (j: Json)
    ensures j.JArr? && |j.items| == 2
    ensures j.items[0] == JInt(NumericType(l.opcode)) && j.items[1] == JStr(l.value)
  {
    JArr([JInt(NumericType(l.opcode)), JStr(l.value)])
  }

  /** `ValueInput.of(String)`: keeps the enum's opcode. */
  function OfString(v: ValueInput, s: string): (l: Literal)
    ensures NumericType(l.opcode) == InputCode(v) && l.value == s
  {
    Literal(s, Some(InputOpcode(v)))
  }

  /** A `JsonPrimitive`: a string, or anything else given by its text (`toString`). */
  datatype Primitive = PString(content: string) | PText(text: string)

  /** `ValueInput.of(JsonPrimitive)`: a string primitive loses the enum's opcode (so
      its type code is 10); any other primitive keeps it. */
  function OfPrimitive(v: ValueInput, p: Primitive): (l: Literal)
    ensures p.PString? ==> l == Literal(p.content, None) && NumericType(l.opcode) == 10
    ensures p.PText? ==> l == Literal(p.text, Some(InputOpcode(v))) && NumericType(l.opcode) == InputCode(v)
  {
    match p
    case PString(c) => Literal(c, None)
    case PText(t) => Literal(t, Some(InputOpcode(v)))
  }

  /** `VLB.representAlone`: `[code, name, id]`. */
  function DeclAlone(v: Variant, name: string, id: string): Json
  {
    JArr([JInt(VariantCode(v)), JStr(name), JStr(id)])
  }

  /** `Expression.representAsInput`: `[1, alone]` for a shadow expression, `[2, alone]` otherwise. */
  function AsInput(isShadow: bool, alone: Json): (j: Json)
    ensures DecodeInput(j) == Some(if isShadow then ShadowOnly(alone) else NoShadow(alone))
  {
    JArr([JInt(if isShadow then 1 else 2), alone])
  }

  /** `ShadowExpression.representAsInputWith(other)`: the shadow alone when nothing
      covers it, else `[3, other, shadow]`. */
  function AsInputWith(shadowAlone: Json, other: Option<Json>): (j: Json)
    ensures DecodeInput(j) == Some(if other.None? then ShadowOnly(shadowAlone) else Obscured(other.value, shadowAlone))
  {
    if other.None? then AsInput(true, shadowAlone)
    else JArr([JInt(3), other.value, shadowAlone])
  }

  /** What an encoded socket says. */
  datatype InputView = ShadowOnly(shadow: Json) | NoShadow(main: Json) | Obscured(main: Json, shadow: Json)

  /** Reads an encoded socket back. */
  function DecodeInput(j: Json): Option<InputView>
  {
    if j.JArr? && |j.items| == 2 && j.items[0] == JInt(1) then Some(ShadowOnly(j.items[1]))
    else if j.JArr? && |j.items| == 2 && j.items[0] == JInt(2) then Some(NoShadow(j.items[1]))
    else if j.JArr? && |j.items| == 3 && j.items[0] == JInt(3) then Some(Obscured(j.items[1], j.items[2]))
    else None
  }

  /** `Field.FieldValue`: what a field shows, and the id of what it refers to, if any. */
  datatype FieldValue = FieldValue(value: string, id: Option<string> := None)

  /** One field on the wire: `[value, id-or-null]`. */
  function FieldJson(f: FieldValue): (j: Json)
    ensures DecodeField(j) == Some(f)
  {
    JArr([JStr(f.value), StrOrNull(f.id)])
  }

  /** Reads a field back from the wire. */
  function DecodeField(j: Json): Option<FieldValue>
  {
    if j.JArr? && |j.items| == 2 && j.items[0].JStr? && (j.items[1].JStr? || j.items[1] == JNull) then
      Some(FieldValue(j.items[0].s, if j.items[1].JStr? then Some(j.items[1].s) else None))
    else None
  }

  /** The mutation entries whose value is not null, in order. */
  function NonNull(m: Entries<Option<Json>>): (r: Entries<Json>)
    ensures |r| <= |m|
    ensures forall k, v :: (k, v) in r <==> (k, Some(v)) in m
  {
    if m == [] then []
    else if m[0].1.None? then NonNull(m[1..])
    else [(m[0].0, m[0].1.value)] + NonNull(m[1..])
  }

  /** The object `NormalBlock.represent` builds, key by key in the source's order. */
  function BlockObject(inputs: Json, fields: Json, mutation: Entries<Option<Json>>, topLevel: bool,
                       next: Option<string>, parent: Option<string>, shadow: bool,
                       opcode: Option<string>): Json
  {
    JObj(
      [("inputs", inputs), ("fields", fields)]
      + (if |mutation| > 0 then [("mutation", JObj(NonNull(mutation)))] else [])
      + [("topLevel", JBool(topLevel)), ("next", StrOrNull(next)), ("parent", StrOrNull(parent)),
         ("shadow", JBool(shadow)), ("opcode", StrOrNull(opcode))]
      + (if topLevel then [("x", JInt(0)), ("y", JInt(0))] else []))
  }

  /** The keys of a block object: seven always, `mutation` exactly when the mutation
      map is non-empty, and `x`, `y` exactly when the block is top level. */
  lemma BlockObjectKeys(inputs: Json, fields: Json, mutation: Entries<Option<Json>>, topLevel: bool,
                        next: Option<string>, parent: Option<string>, shadow: bool,
                        opcode: Option<string>)
    ensures KeySeq(BlockObject(inputs, fields, mutation, topLevel, next, parent, shadow, opcode).members)
         == ["inputs", "fields"]
            + (if |mutation| > 0 then ["mutation"] else [])
            + ["topLevel", "next", "parent", "shadow", "opcode"]
            + (if topLevel then ["x", "y"] else [])
  {
    var j := BlockObject(inputs, fields, mutation, topLevel, next, parent, shadow, opcode);
    var ks := ["inputs", "fields"]
            + (if |mutation| > 0 then ["mutation"] else [])
            + ["topLevel", "next", "parent", "shadow", "opcode"]
            + (if topLevel then ["x", "y"] else []);
    var ks' := KeySeq(j.members);
    assert |ks'| == |ks|;
    forall i | 0 <= i < |ks| ensures ks'[i] == ks[i] {
    }
  }
}
