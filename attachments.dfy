/** Costumes, sounds and backdrops (Attachments.kt): the asset descriptor written into
    `project.json`, and the value each shows in a menu field. */
module Attachments {
  import opened Wrappers
  import opened Ordered
  import opened Json
  import opened Wire

  /** A costume; the rotation centre is kept as the text of its two numbers. */
  datatype Costume = Costume(name: string, dataFormat: string, assetId: string,
                             rotationCenter: Option<(string, string)>, bitmapResolution: int)

  datatype Sound = Sound(name: string, dataFormat: string, assetId: string,
                         rate: Option<int>, sampleCount: Option<int>)

  /** The `Asset` interface. */
  datatype Asset = CostumeAsset(costume: Costume) | SoundAsset(sound: Sound)
  {
    function Name(): string
    {
      match this
      case CostumeAsset(c) => c.name
      case SoundAsset(s) => s.name
    }
    function DataFormat(): string
    {
      match this
      case CostumeAsset(c) => c.dataFormat
      case SoundAsset(s) => s.dataFormat
    }
    function AssetId(): string
    {
      match this
      case CostumeAsset(c) => c.assetId
      case SoundAsset(s) => s.assetId
    }
  }

  /** `md5Ext`: the stored file name, id then format. */
  function Md5Ext(a: Asset): (e: string)
    ensures |e| == |a.AssetId()| + 1 + |a.DataFormat()|
    ensures e[..|a.AssetId()|] == a.AssetId()
    ensures e[|a.AssetId()|] == '.'
    ensures e[|a.AssetId()| + 1..] == a.DataFormat()
  {
    a.AssetId() + "." + a.DataFormat()
  }

  /** `extraAttributes`: a costume's bitmap resolution and, when set, its rotation
      centre; a sound's rate and sample count when set. */
  function ExtraAttributes(a: Asset): Entries<Json>
  {
    match a
    case CostumeAsset(c) =>
      [("bitmapResolution", JInt(c.bitmapResolution))]
      + (if c.rotationCenter.Some?
         then [("rotationCenterX", JNumber(c.rotationCenter.value.0)),
               ("rotationCenterY", JNumber(c.rotationCenter.value.1))]
         else [])
    case SoundAsset(s) =>
      (if s.rate.Some? then [("rate", JInt(s.rate.value))] else [])
      + (if s.sampleCount.Some? then [("sampleCount", JInt(s.sampleCount.value))] else [])
  }

  /** `representAsset`. */
  function RepresentAsset(a: Asset): Json
  {
    JObj([("assetId", JStr(a.AssetId())), ("dataFormat", JStr(a.DataFormat())),
          ("md5ext", JStr(Md5Ext(a))), ("name", JStr(a.Name()))] + ExtraAttributes(a))
  }

  /** The descriptor starts with the four identifying keys, in order, and carries the
      asset's id, format, file name and name under them; the extras follow. */
  lemma RepresentAssetShape(a: Asset)
    ensures var m := RepresentAsset(a).members;
      && |m| >= 4
      && m[0] == ("assetId", JStr(a.AssetId()))
      && m[1] == ("dataFormat", JStr(a.DataFormat()))
      && m[2] == ("md5ext", JStr(a.AssetId() + "." + a.DataFormat()))
      && m[3] == ("name", JStr(a.Name()))
      && m[4..] == ExtraAttributes(a)
  {
  }

  /** A costume carries its bitmap resolution always and its rotation centre only when set. */
  lemma CostumeExtras(c: Costume)
    ensures KeySeq(ExtraAttributes(CostumeAsset(c)))
         == ["bitmapResolution"] + (if c.rotationCenter.Some? then ["rotationCenterX", "rotationCenterY"] else [])
  {
    var ks := KeySeq(ExtraAttributes(CostumeAsset(c)));
    assert ks[0] == "bitmapResolution";
  }

  /** The costume written for a target that has none. */
  const DEFAULT_COSTUME: Costume :=
    Costume("costume1", "svg", "de342ccf4bbe18d30bcacafb819dd91f", None, 1)

  /** What `FirstSound.makeCopy` yields when the target has no sound. */
  const EMPTY_SOUND: Sound := Sound("", "", "", None, None)

  /** A `Backdrop`: a stage costume shown in the backdrop menu under its name. */
  datatype Backdrop = Backdrop(name: string, costume: Costume)

  /** `Costume.asBackdrop`: same name, wrapping the costume. */
  function AsBackdrop(c: Costume): (b: Backdrop)
    ensures b.name == c.name && b.costume == c
  {
    Backdrop(c.name, c)
  }

  /** A costume's field value is its name, with no id. */
  function CostumeFieldValue(c: Costume): (f: FieldValue)
    ensures f.value == c.name && f.id.None?
  {
    FieldValue(c.name)
  }

  function BackdropFieldValue(b: Backdrop): (f: FieldValue)
    ensures f.value == b.name && f.id.None?
  {
    FieldValue(b.name)
  }

  /** A backdrop made from a costume shows the same name as the costume. */
  lemma AsBackdropKeepsField(c: Costume)
    ensures BackdropFieldValue(AsBackdrop(c)) == CostumeFieldValue(c)
  {
  }

  /** `Sound.fieldValue` as written: the literal text "name", whatever the sound. */
  function SoundFieldValueAsWritten(s: Sound): FieldValue
  {
    FieldValue("name", None)
  }

  /** As written, two sounds with different names show the same menu value, so the
      menu cannot tell them apart. */
  lemma SoundFieldAsWrittenIgnoresName()
    ensures var pop := Sound("pop", "wav", "0", None, None);
            var meow := Sound("Meow", "wav", "1", None, None);
      && SoundFieldValueAsWritten(pop) == SoundFieldValueAsWritten(meow)
      && SoundFieldValueAsWritten(pop).value != pop.name
  {
  }

  /** The sound's field value as evidently intended: its own name, like a costume. */
  function SoundFieldValue(s: Sound): (f: FieldValue)
    ensures f.id.None?
  {
    FieldValue(s.name, None)
  }

  /** With the intended field value, the sound menu names the sound: two sounds show
      the same value exactly when they have the same name. */
  lemma SoundFieldNamesSound(s: Sound, t: Sound)
    ensures SoundFieldValue(s) == SoundFieldValue(t) <==> s.name == t.name
    ensures SoundFieldValue(s).value == CostumeFieldValue(Costume(s.name, "", "", None, 1)).value
  {
  }
}
