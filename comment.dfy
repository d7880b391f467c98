/** `Comment` (Attachments.kt): a workspace comment, optionally attached to a block,
    with an id generated on first read. */
module Comments {
  import opened Wrappers
  import opened Ordered
  import opened Json
  import opened Ids
  import opened Graph
  import opened Blocks

  /** The JSON object `Comment.represent` builds; the sizes and the position are
      floating-point numbers, carried as the JSON values they serialise to. */
  function CommentJson(blockId: Option<string>, width: Json, height: Json, minimized: bool, text: string, x: Json, y: Json): Json
  {
    JObj([("blockId", StrOrNull(blockId)), ("width", width), ("height", height), ("minimized", JBool(minimized)),
          ("text", JStr(text)), ("x", x), ("y", y)])
  }

  /** The comment object's keys, in order, and what it holds under `blockId` and `text`. */
  lemma CommentJsonShape(blockId: Option<string>, width: Json, height: Json, minimized: bool, text: string, x: Json, y: Json)
    ensures var j := CommentJson(blockId, width, height, minimized, text, x, y);
      && j.JObj? && KeySeq(j.members) == ["blockId", "width", "height", "minimized", "text", "x", "y"]
      && Get(j.members, "blockId") == Some(StrOrNull(blockId)) && Get(j.members, "text") == Some(JStr(text))
  {
    var m := CommentJson(blockId, width, height, minimized, text, x, y).members;
    IndexOfUnique(m, "blockId", 0);
    IndexOfUnique(m, "text", 4);
  }

  /** Reads the attached block's id back from a serialised comment. */
  function AttachedId(j: Json): Option<Option<string>>
  {
    var v := if j.JObj? then Get(j.members, "blockId") else None;
    if v == Some(JNull) then Some(None)
    else if v.Some? && v.value.JStr? then Some(Some(v.value.s))
    else None
  }

  lemma AttachedIdRoundTrip(blockId: Option<string>, width: Json, height: Json, minimized: bool, text: string, x: Json, y: Json)
    ensures AttachedId(CommentJson(blockId, width, height, minimized, text, x, y)) == Some(blockId)
  {
    CommentJsonShape(blockId, width, height, minimized, text, x, y);
  }

  class Comment {
    const block: Option<Ref>
    const width: Json
    const height: Json
    const minimized: bool
    const text: string
    const x: Json
    const y: Json
    var myId: Option<string>

    constructor (block: Option<Ref>, width: Json, height: Json, minimized: bool, text: string, x: Json, y: Json)
      ensures this.block == block && this.width == width && this.height == height && this.minimized == minimized
      ensures this.text == text && this.x == x && this.y == y && myId.None?
    {
      this.block := block;
      this.width := width;
      this.height := height;
      this.minimized := minimized;
      this.text := text;
      this.x := x;
      this.y := y;
      myId := None;
    }

    /** The `id` getter: the stored id, or a new one from the generator, kept from
        then on. */
    method Id(gen: IdGenerator) returns (id: string)
      modifies this, gen
      ensures myId == Some(id) && gen.isModifying == old(gen.isModifying)
      ensures old(myId).Some? ==> id == old(myId).value && gen.currentIdIdx == old(gen.currentIdIdx)
      ensures old(myId).None? && !gen.isModifying ==>
                id == Base62(old(gen.currentIdIdx)) && gen.currentIdIdx == old(gen.currentIdIdx) + 1
      ensures old(myId).None? ==> |id| >= 1
    {
      if myId.Some? {
        id := myId.value;
      } else {
        id := gen.MakeId();
        myId := Some(id);
      }
    }

    /** The `id` setter: later reads return `v`. */
    method SetId(v: string)
      modifies this
      ensures myId == Some(v)
    {
      myId := Some(v);
    }

    /** `represent`: the attached block's id (read through its `id` getter, which may
        generate it or throw for an empty isolated stack), then the comment's data. */
    method Represent(g: Graph) returns (res: Result<Json>)
      requires g.Valid() && (block.Some? ==> block.value in g.shapes)
      modifies g`ids, g.gen
      ensures g.gen.isModifying == old(g.gen.isModifying)
      ensures forall x | x in old(g.ids) :: x in g.ids && g.ids[x] == old(g.ids[x])
      ensures block.None? ==> res == Ok(CommentJson(None, width, height, minimized, text, x, y)) && g.ids == old(g.ids)
      ensures block.Some? ==>
        var owner := Reporting(g.shapes, Contents(g.stacks), block.value);
        && (res.Ok? <==> owner.Some?)
        && (res.Err? ==> res.error.IllegalState?)
        && (res.Ok? ==>
              owner.value in g.ids && res.value == CommentJson(Some(g.ids[owner.value]), width, height, minimized, text, x, y))
    {
      var blockId: Option<string> := None;
      if block.Some? {
        var r := BlockId(g, block.value);
        if r.Err? {
          return Err(r.error);
        }
        blockId := Some(r.value);
      }
      res := Ok(CommentJson(blockId, width, height, minimized, text, x, y));
    }
  }
}
