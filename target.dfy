/** The pieces of `SpriteBuilder.represent` (Build.kt) that read ids: the objects keyed
    by a declaration's or a comment's id, and the block table mapped through
    `NormalBlock.represent`.  As for one block, each method reads the ids in the
    order the source does and returns a function of the ids held afterwards; since
    an id, once held, never changes, what an earlier step built is still that
    function of the later ids (`BlockJsonStable`). */
module Targets {
  import opened Wrappers
  import opened Ordered
  import opened Json
  import opened Wire
  import opened Graph
  import opened Blocks
  import opened Expressions
  import opened Represent
  import opened Comments
  import Flatten

  // ---- Objects keyed by ids ----

  /** `put(k, v)` for each row in turn, as `PutAll` entries. */
  function Keyed(ids: map<Ref, string>, rows: seq<(Ref, Json)>): (es: Entries<Option<Json>>)
    requires forall i | 0 <= i < |rows| :: rows[i].0 in ids
    ensures |es| == |rows|
  {
    if rows == [] then []
    else
      var n := |rows| - 1;
      Keyed(ids, rows[..n]) + [(ids[rows[n].0], Some(rows[n].1))]
  }

  /** Row `i` is keyed by its object's id. */
  lemma {:induction false} KeyedAt(ids: map<Ref, string>, rows: seq<(Ref, Json)>, i: nat)
    requires (forall j | 0 <= j < |rows| :: rows[j].0 in ids) && i < |rows|
    ensures Keyed(ids, rows)[i] == (ids[rows[i].0], Some(rows[i].1))
    decreases |rows|
  {
    if i < |rows| - 1 {
      KeyedAt(ids, rows[..|rows| - 1], i);
    }
  }

  /** Ids already made do not change, so neither do rows keyed by them. */
  lemma {:induction false} KeyedStable(ids: map<Ref, string>, ids': map<Ref, string>, rows: seq<(Ref, Json)>)
    requires (forall j | 0 <= j < |rows| :: rows[j].0 in ids) && Flatten.IdsGrow(ids, ids')
    ensures forall j | 0 <= j < |rows| :: rows[j].0 in ids'
    ensures Keyed(ids, rows) == Keyed(ids', rows)
    decreases |rows|
  {
    if rows != [] {
      KeyedStable(ids, ids', rows[..|rows| - 1]);
    }
  }

  /** One more put after `PutAll`. */
  lemma {:induction false} PutAllSnoc(m: Entries<Json>, es: Entries<Option<Json>>, k: string, v: Json)
    ensures PutAll(m, es + [(k, Some(v))]) == Put(PutAll(m, es), k, v)
    decreases |es|
  {
    if es != [] {
      var m' := if es[0].1.Some? then Put(m, es[0].0, es[0].1.value) else m;
      assert (es + [(k, Some(v))])[1..] == es[1..] + [(k, Some(v))];
      PutAllSnoc(m', es[1..], k, v);
    }
  }

  /** With distinct keys, every put appends: the object lists the rows in order. */
  lemma {:induction false} PutAllDistinct(es: Entries<Option<Json>>)
    requires NoDup(es) && forall i | 0 <= i < |es| :: es[i].1.Some?
    ensures PutAll([], es) == seq(|es|, i requires 0 <= i < |es| => (es[i].0, es[i].1.value))
    decreases |es|
  {
    if es != [] {
      var n := |es| - 1;
      var init := es[..n];
      assert es == init + [(es[n].0, Some(es[n].1.value))];
      assert NoDup(init) by {
        forall a, b | 0 <= a < b < |init| ensures init[a].0 != init[b].0 {
          assert init[a] == es[a] && init[b] == es[b];
        }
      }
      PutAllDistinct(init);
      PutAllSnoc([], init, es[n].0, es[n].1.value);
      var m := PutAll([], init);
      PutAllKeys([], init);
      assert es[n].0 !in Keys(m) by {
        forall j | 0 <= j < |init| ensures init[j].0 != es[n].0 {
          assert init[j] == es[j];
        }
      }
      PutFacts(m, es[n].0, es[n].1.value);
    }
  }

  /** The object built from id-keyed rows holds each row's value under its object's
      id, in order, when those ids are distinct. */
  lemma KeyedObject(ids: map<Ref, string>, rows: seq<(Ref, Json)>, i: nat)
    requires forall j | 0 <= j < |rows| :: rows[j].0 in ids
    requires forall a, b | 0 <= a < b < |rows| :: ids[rows[a].0] != ids[rows[b].0]
    requires i < |rows|
    ensures |PutAll([], Keyed(ids, rows))| == |rows|
    ensures PutAll([], Keyed(ids, rows))[i] == (ids[rows[i].0], rows[i].1)
  {
    var es := Keyed(ids, rows);
    forall j | 0 <= j < |rows| ensures es[j] == (ids[rows[j].0], Some(rows[j].1)) {
      KeyedAt(ids, rows, j);
    }
    PutAllDistinct(es);
  }

  /** `buildJsonObject { rows.forEach { (x, v) -> put(x.id, v) } }`: each row's object
      is asked for its id in turn, and the object is the rows keyed by those ids. */
  method IdObject(g: Graph, rows: seq<(Ref, Json)>) returns (obj: Entries<Json>)
    requires forall i | 0 <= i < |rows| :: rows[i].0 in g.shapes
    modifies g`ids, g.gen
    ensures Flatten.IdsGrow(old(g.ids), g.ids) && g.gen.isModifying == old(g.gen.isModifying)
    ensures forall i | 0 <= i < |rows| :: rows[i].0 in g.ids
    ensures obj == PutAll([], Keyed(g.ids, rows))
  {
    obj := [];
    for i := 0 to |rows|
      invariant Flatten.IdsGrow(old(g.ids), g.ids) && g.gen.isModifying == old(g.gen.isModifying)
      invariant forall j | 0 <= j < i :: rows[j].0 in g.ids
      invariant obj == PutAll([], Keyed(g.ids, rows[..i]))
    {
      ghost var ids0 := g.ids;
      var id := g.GetId(rows[i].0);
      KeyedStable(ids0, g.ids, rows[..i]);
      assert rows[..i + 1][..i] == rows[..i];
      PutAllSnoc([], Keyed(g.ids, rows[..i]), id, rows[i].1);
      obj := Put(obj, id, rows[i].1);
    }
    assert rows[..|rows|] == rows;
  }

  // ---- Comments ----

  /** A comment's attached block (if any) reports an object, as reading its id needs. */
  predicate Owned(shapes: map<Ref, Shape>, cs: map<StackRef, seq<Ref>>, c: Comment)
  {
    c.block.Some? ==> Reporting(shapes, cs, c.block.value).Some?
  }

  /** ... and that object holds an id. */
  predicate OwnerHasId(shapes: map<Ref, Shape>, cs: map<StackRef, seq<Ref>>, ids: map<Ref, string>, c: Comment)
  {
    Owned(shapes, cs, c) && (c.block.Some? ==> Reporting(shapes, cs, c.block.value).value in ids)
  }

  /** `Comment.represent`, the attached block's id read from `ids`. */
  function CommentValue(shapes: map<Ref, Shape>, cs: map<StackRef, seq<Ref>>, ids: map<Ref, string>, c: Comment): Json
    requires OwnerHasId(shapes, cs, ids, c)
  {
    var blockId := if c.block.Some? then Some(ids[Reporting(shapes, cs, c.block.value).value]) else None;
    CommentJson(blockId, c.width, c.height, c.minimized, c.text, c.x, c.y)
  }

  /** The comments object's entries: each comment under its id `cids[i]`. */
  function CommentRows(shapes: map<Ref, Shape>, cs: map<StackRef, seq<Ref>>, ids: map<Ref, string>,
                       cmts: seq<Comment>, cids: seq<string>): (es: Entries<Option<Json>>)
    requires |cids| == |cmts| && forall i | 0 <= i < |cmts| :: OwnerHasId(shapes, cs, ids, cmts[i])
    ensures |es| == |cmts|
  {
    if cmts == [] then []
    else
      var n := |cmts| - 1;
      CommentRows(shapes, cs, ids, cmts[..n], cids[..n]) + [(cids[n], Some(CommentValue(shapes, cs, ids, cmts[n])))]
  }

  /** Every comment's owner holds an id. */
  ghost predicate AllOwned(shapes: map<Ref, Shape>, cs: map<StackRef, seq<Ref>>, ids: map<Ref, string>, cmts: seq<Comment>)
  {
    forall j | 0 <= j < |cmts| :: OwnerHasId(shapes, cs, ids, cmts[j])
  }

  /** A comment whose owner held an id reads the same after more ids are made. */
  lemma CommentValueStable(shapes: map<Ref, Shape>, cs: map<StackRef, seq<Ref>>, ids: map<Ref, string>,
                           ids': map<Ref, string>, c: Comment)
    requires OwnerHasId(shapes, cs, ids, c) && Flatten.IdsGrow(ids, ids')
    ensures OwnerHasId(shapes, cs, ids', c)
    ensures CommentValue(shapes, cs, ids, c) == CommentValue(shapes, cs, ids', c)
  {
  }

  /** One more comment whose owner holds an id. */
  lemma AllOwnedSnoc(shapes: map<Ref, Shape>, cs: map<StackRef, seq<Ref>>, ids: map<Ref, string>, cmts: seq<Comment>, i: nat)
    requires i < |cmts| && AllOwned(shapes, cs, ids, cmts[..i]) && OwnerHasId(shapes, cs, ids, cmts[i])
    ensures AllOwned(shapes, cs, ids, cmts[..i + 1])
  {
    assert forall j | 0 <= j < i :: cmts[..i + 1][j] == cmts[..i][j];
  }

  /** Rows whose owners held ids before read the same after more ids are made. */
  lemma {:induction false} CommentRowsStable(shapes: map<Ref, Shape>, cs: map<StackRef, seq<Ref>>, ids: map<Ref, string>,
                                             ids': map<Ref, string>, cmts: seq<Comment>, cids: seq<string>)
    requires |cids| == |cmts| && AllOwned(shapes, cs, ids, cmts) && Flatten.IdsGrow(ids, ids')
    ensures AllOwned(shapes, cs, ids', cmts)
    ensures CommentRows(shapes, cs, ids, cmts, cids) == CommentRows(shapes, cs, ids', cmts, cids)
    decreases |cmts|
  {
    if cmts != [] {
      var n := |cmts| - 1;
      CommentRowsStable(shapes, cs, ids, ids', cmts[..n], cids[..n]);
      CommentValueStable(shapes, cs, ids, ids', cmts[n]);
      forall j | 0 <= j < |cmts| ensures OwnerHasId(shapes, cs, ids', cmts[j]) {
        CommentValueStable(shapes, cs, ids, ids', cmts[j]);
      }
    }
  }

  /** `put(c.id, c.represent())` for one comment: its id (kept if it had one), then
      its JSON, which throws for a comment attached to an empty isolated stack.
      `shapes` and `cs` are the arena's objects and stack contents, which this does
      not change. */
  method CommentEntry(g: Graph, c: Comment, ghost shapes: map<Ref, Shape>, ghost cs: map<StackRef, seq<Ref>>)
    returns (res: Result<(string, Json)>)
    requires g.Valid() && shapes == g.shapes && cs == Contents(g.stacks) && (c.block.Some? ==> c.block.value in shapes)
    modifies g`ids, g.gen, c
    ensures Flatten.IdsGrow(old(g.ids), g.ids) && g.gen.isModifying == old(g.gen.isModifying)
    ensures c.myId.Some? && (old(c.myId).Some? ==> c.myId == old(c.myId))
    ensures res.Ok? <==> Owned(shapes, cs, c)
    ensures res.Err? ==> res.error.IllegalState?
    ensures res.Ok? ==>
              OwnerHasId(shapes, cs, g.ids, c) && res.value == (c.myId.value, CommentValue(shapes, cs, g.ids, c))
  {
    var id := c.Id(g.gen);
    var j := c.Represent(g);
    if j.Err? {
      return Err(j.error);
    }
    res := Ok((id, j.value));
  }

  /** Row `i` of the comments object. */
  lemma {:induction false} CommentRowsAt(shapes: map<Ref, Shape>, cs: map<StackRef, seq<Ref>>, ids: map<Ref, string>,
                                         cmts: seq<Comment>, cids: seq<string>, i: nat)
    requires |cids| == |cmts| && AllOwned(shapes, cs, ids, cmts) && i < |cmts|
    ensures CommentRows(shapes, cs, ids, cmts, cids)[i] == (cids[i], Some(CommentValue(shapes, cs, ids, cmts[i])))
    decreases |cmts|
  {
    var n := |cmts| - 1;
    if i < n {
      assert AllOwned(shapes, cs, ids, cmts[..n]);
      CommentRowsAt(shapes, cs, ids, cmts[..n], cids[..n], i);
    }
  }

  /** After `i` comments: each one's owner holds an id and `es[j]` is comment `j`'s row. */
  ghost predicate CommentsDone(shapes: map<Ref, Shape>, cs: map<StackRef, seq<Ref>>, ids: map<Ref, string>,
                               cmts: seq<Comment>, cids: seq<string>, es: Entries<Option<Json>>, i: nat)
  {
    && i <= |cmts| && |cids| == i && |es| == i
    && forall j | 0 <= j < i ::
         OwnerHasId(shapes, cs, ids, cmts[j]) && es[j] == (cids[j], Some(CommentValue(shapes, cs, ids, cmts[j])))
  }

  /** One more comment, read after its owner's id was made. */
  lemma CommentStep(shapes: map<Ref, Shape>, cs: map<StackRef, seq<Ref>>, ids: map<Ref, string>, ids': map<Ref, string>,
                    cmts: seq<Comment>, cids: seq<string>, es: Entries<Option<Json>>, i: nat, id: string, v: Json)
    requires CommentsDone(shapes, cs, ids, cmts, cids, es, i) && i < |cmts| && Flatten.IdsGrow(ids, ids')
    requires OwnerHasId(shapes, cs, ids', cmts[i]) && v == CommentValue(shapes, cs, ids', cmts[i])
    ensures CommentsDone(shapes, cs, ids', cmts, cids + [id], es + [(id, Some(v))], i + 1)
  {
    forall j | 0 <= j < i
      ensures OwnerHasId(shapes, cs, ids', cmts[j]) && CommentValue(shapes, cs, ids, cmts[j]) == CommentValue(shapes, cs, ids', cmts[j])
    {
      CommentValueStable(shapes, cs, ids, ids', cmts[j]);
    }
  }

  /** All comments done: the rows are the comments object's. */
  lemma CommentsDoneRows(shapes: map<Ref, Shape>, cs: map<StackRef, seq<Ref>>, ids: map<Ref, string>,
                         cmts: seq<Comment>, cids: seq<string>, es: Entries<Option<Json>>)
    requires CommentsDone(shapes, cs, ids, cmts, cids, es, |cmts|)
    ensures AllOwned(shapes, cs, ids, cmts) && es == CommentRows(shapes, cs, ids, cmts, cids)
  {
    forall j | 0 <= j < |cmts| ensures es[j] == CommentRows(shapes, cs, ids, cmts, cids)[j] {
      CommentRowsAt(shapes, cs, ids, cmts, cids, j);
    }
  }

  /** `buildJsonObject { comments.forEach { c -> put(c.id, c.represent()) } }`: each
      comment's id, then its JSON; the first comment attached to an empty isolated
      stack throws. */
  method CommentsObject(g: Graph, cmts: seq<Comment>, ghost shapes: map<Ref, Shape>, ghost cs: map<StackRef, seq<Ref>>)
    returns (res: Result<Entries<Json>>, ghost cids: seq<string>)
    requires g.Valid() && shapes == g.shapes && cs == Contents(g.stacks)
    requires forall i | 0 <= i < |cmts| :: cmts[i].block.Some? ==> cmts[i].block.value in shapes
    modifies g`ids, g.gen, cmts
    ensures g.Valid() && Flatten.IdsGrow(old(g.ids), g.ids) && g.gen.isModifying == old(g.gen.isModifying)
    ensures res.Ok? <==> forall i | 0 <= i < |cmts| :: Owned(shapes, cs, cmts[i])
    ensures res.Err? ==> res.error.IllegalState?
    ensures res.Ok? ==>
              && |cids| == |cmts| && AllOwned(shapes, cs, g.ids, cmts)
              && (forall i | 0 <= i < |cmts| :: cmts[i].myId == Some(cids[i]))
              && res.value == PutAll([], CommentRows(shapes, cs, g.ids, cmts, cids))
  {
    var obj: Entries<Json> := [];
    cids := [];
    ghost var es: Entries<Option<Json>> := [];
    for i := 0 to |cmts|
      invariant Flatten.IdsGrow(old(g.ids), g.ids) && g.gen.isModifying == old(g.gen.isModifying)
      invariant CommentsDone(shapes, cs, g.ids, cmts, cids, es, i)
      invariant obj == PutAll([], es)
      invariant forall j | 0 <= j < i :: cmts[j].myId == Some(cids[j])
    {
      ghost var ids0 := g.ids;
      var e := CommentEntry(g, cmts[i], shapes, cs);
      if e.Err? {
        return Err(e.error), cids;
      }
      CommentStep(shapes, cs, ids0, g.ids, cmts, cids, es, i, e.value.0, e.value.1);
      PutAllSnoc([], es, e.value.0, e.value.1);
      obj := Put(obj, e.value.0, e.value.1);
      cids := cids + [e.value.0];
      es := es + [(e.value.0, Some(e.value.1))];
    }
    CommentsDoneRows(shapes, cs, g.ids, cmts, cids, es);
    res := Ok(obj);
  }

  // ---- The block table ----

  /** The `parent` field of a block. */
  function ParentOf(parents: map<Ref, Option<string>>, r: Ref): Option<string>
  {
    if r in parents then parents[r] else None
  }

  /** A non-empty nested stack's first block reports an object that holds an id. */
  ghost predicate NestedRead(shapes: map<Ref, Shape>, cs: map<StackRef, seq<Ref>>, ids: map<Ref, string>, v: Option<StackRef>)
  {
    NestedTop(cs, v).Some? && Reporting(shapes, cs, NestedTop(cs, v).value).Some? ==>
      Reporting(shapes, cs, NestedTop(cs, v).value).value in ids
  }

  /** Every id the `inputs` object of `sh` reads is present. */
  ghost predicate InputsRead(shapes: map<Ref, Shape>, cs: map<StackRef, seq<Ref>>, ids: map<Ref, string>, sh: Shape)
  {
    && (forall i | 0 <= i < |sh.shadowless| && sh.shadowless[i].1.Some? :: HasIdIfRead(shapes, ids, sh.shadowless[i].1.value))
    && (forall i | 0 <= i < |sh.paired| ::
          HasIdIfRead(shapes, ids, sh.paired[i].1.0) && (sh.paired[i].1.1.Some? ==> HasIdIfRead(shapes, ids, sh.paired[i].1.1.value)))
    && (forall i | 0 <= i < |sh.nested| :: NestedRead(shapes, cs, ids, sh.nested[i].1))
  }

  /** Every id the object of block `r` reads is present: its inputs', its fields' and
      its next block's. */
  ghost predicate BlockRead(shapes: map<Ref, Shape>, cs: map<StackRef, seq<Ref>>, ids: map<Ref, string>,
                            nexts: map<Ref, Ref>, slots: Slots, r: Ref)
    requires r in shapes
  {
    && InputsRead(shapes, cs, ids, shapes[r])
    && (forall i | 0 <= i < |shapes[r].fields| :: FieldCovered(shapes, ids, slots, shapes[r].fields[i].1))
    && (r in nexts && Reporting(shapes, cs, nexts[r]).Some? ==> Reporting(shapes, cs, nexts[r]).value in ids)
  }

  /** `NormalBlock.represent` of block `r`, every id read from `ids`. */
  function BlockJson(shapes: map<Ref, Shape>, cs: map<StackRef, seq<Ref>>, ids: map<Ref, string>, nexts: map<Ref, Ref>,
                     parents: map<Ref, Option<string>>, slots: Slots, r: Ref): Json
    requires Typed(shapes, slots, r) && Serialisable(shapes, cs, nexts, slots, r)
  {
    var sh := shapes[r];
    BlockObject(JObj(InputsSpec(shapes, cs, ids, sh)), JObj(FieldsSpec(shapes, ids, slots, sh.fields)),
                sh.mutation, sh.topLevel, NextSpec(shapes, cs, ids, nexts, r), ParentOf(parents, r), sh.shadow, sh.opcode)
  }

  /** An expression reads the same under ids that agree on it, if it reads one. */
  lemma AloneStable(shapes: map<Ref, Shape>, ids: map<Ref, string>, ids': map<Ref, string>, x: Ref)
    requires x in shapes && IsExpression(shapes[x].kind) && HasIdIfRead(shapes, ids, x) && Flatten.IdsGrow(ids, ids')
    ensures Alone(shapes[x].kind, IdIn(ids, x)) == Alone(shapes[x].kind, IdIn(ids', x))
  {
  }

  /** The `inputs` object reads the same after more ids are made. */
  lemma InputsStable(shapes: map<Ref, Shape>, cs: map<StackRef, seq<Ref>>, ids: map<Ref, string>, ids': map<Ref, string>, sh: Shape)
    requires ShadowlessTyped(shapes, sh.shadowless) && PairedTyped(shapes, sh.paired)
    requires InputsRead(shapes, cs, ids, sh) && Flatten.IdsGrow(ids, ids')
    ensures InputsRead(shapes, cs, ids', sh)
    ensures InputsSpec(shapes, cs, ids, sh) == InputsSpec(shapes, cs, ids', sh)
  {
    var m1 := sh.shadowless;
    forall i | 0 <= i < |m1| && m1[i].1.Some?
      ensures SocketInput(shapes, ids, m1[i].1.value) == SocketInput(shapes, ids', m1[i].1.value)
    {
      AloneStable(shapes, ids, ids', m1[i].1.value);
    }
    assert ShadowlessEntries(shapes, ids, m1) == ShadowlessEntries(shapes, ids', m1);
    var m2 := sh.paired;
    forall i | 0 <= i < |m2|
      ensures PairInput(shapes, ids, m2[i].1.0, m2[i].1.1) == PairInput(shapes, ids', m2[i].1.0, m2[i].1.1)
    {
      AloneStable(shapes, ids, ids', m2[i].1.0);
      if m2[i].1.1.Some? {
        AloneStable(shapes, ids, ids', m2[i].1.1.value);
      }
    }
    assert PairedEntries(shapes, ids, m2) == PairedEntries(shapes, ids', m2);
    var m3 := sh.nested;
    forall i | 0 <= i < |m3| && NestedTop(cs, m3[i].1).Some?
      ensures ReportedId(shapes, cs, ids, NestedTop(cs, m3[i].1).value) == ReportedId(shapes, cs, ids', NestedTop(cs, m3[i].1).value)
    {
      assert NestedRead(shapes, cs, ids, m3[i].1);
    }
    assert NestedEntries(shapes, cs, ids, m3) == NestedEntries(shapes, cs, ids', m3);
  }

  /** The `fields` object reads the same after more ids are made. */
  lemma FieldsStable(shapes: map<Ref, Shape>, ids: map<Ref, string>, ids': map<Ref, string>, slots: Slots, m: Entries<FieldSrc>)
    requires FieldsTyped(shapes, m) && SlotsTyped(shapes, slots)
    requires forall i | 0 <= i < |m| :: !FieldFails(shapes, slots, m[i].1)
    requires (forall i | 0 <= i < |m| :: FieldCovered(shapes, ids, slots, m[i].1)) && Flatten.IdsGrow(ids, ids')
    ensures FieldsSpec(shapes, ids, slots, m) == FieldsSpec(shapes, ids', slots, m)
  {
    forall i | 0 <= i < |m|
      ensures FieldValueOf(shapes, ids, slots, m[i].1) == FieldValueOf(shapes, ids', slots, m[i].1)
    {
      assert FieldCovered(shapes, ids, slots, m[i].1);
    }
    assert FieldEntries(shapes, ids, slots, m) == FieldEntries(shapes, ids', slots, m);
  }

  /** A block's object reads the same after more ids are made, once every id it reads
      is present. */
  lemma BlockJsonStable(shapes: map<Ref, Shape>, cs: map<StackRef, seq<Ref>>, ids: map<Ref, string>, ids': map<Ref, string>,
                        nexts: map<Ref, Ref>, parents: map<Ref, Option<string>>, slots: Slots, r: Ref)
    requires Typed(shapes, slots, r) && Serialisable(shapes, cs, nexts, slots, r)
    requires BlockRead(shapes, cs, ids, nexts, slots, r) && Flatten.IdsGrow(ids, ids')
    ensures BlockRead(shapes, cs, ids', nexts, slots, r)
    ensures BlockJson(shapes, cs, ids, nexts, parents, slots, r) == BlockJson(shapes, cs, ids', nexts, parents, slots, r)
  {
    InputsStable(shapes, cs, ids, ids', shapes[r]);
    FieldsStable(shapes, ids, ids', slots, shapes[r].fields);
    Represent.FieldsCoveredGrow(shapes, ids, ids', slots, shapes[r].fields);
  }

  /** A nested stack named after its first block's owner has that owner's id read. */
  lemma CoveredRead(shapes: map<Ref, Shape>, cs: map<StackRef, seq<Ref>>, stacks: map<StackRef, Stack>, ids: map<Ref, string>, sh: Shape)
    requires InputsCovered(shapes, cs, stacks, ids, sh)
    ensures InputsRead(shapes, cs, ids, sh)
  {
    forall i | 0 <= i < |sh.nested| ensures NestedRead(shapes, cs, ids, sh.nested[i].1) {
      assert Named(shapes, cs, stacks, ids, sh.nested[i].1);
    }
  }

  /** `u.represent()` for one block of the table; `shapes`, `cs`, `nexts`, `parents`
      and `slots` are the arena's, which serialising does not change (it renames
      nested stacks, which keeps their contents). */
  method BlockEntry(g: Graph, r: Ref, ghost shapes: map<Ref, Shape>, ghost cs: map<StackRef, seq<Ref>>, ghost nexts: map<Ref, Ref>,
                    ghost parents: map<Ref, Option<string>>, ghost slots: Slots)
    returns (res: Result<Json>)
    requires g.Valid() && shapes == g.shapes && cs == Contents(g.stacks) && nexts == g.nexts && parents == g.parents && slots == SlotsOf(g)
    requires r in shapes && !shapes[r].kind.Isolated? && Typed(shapes, slots, r)
    modifies g`ids, g.gen, g`stacks
    ensures g.Valid() && Contents(g.stacks) == cs && Flatten.IdsGrow(old(g.ids), g.ids)
    ensures res.Ok? <==> Serialisable(shapes, cs, nexts, slots, r)
    ensures res.Err? ==> res.error.IllegalState? || res.error.Uninitialized?
    ensures res.Ok? ==> BlockRead(shapes, cs, g.ids, nexts, slots, r) && res.value == BlockJson(shapes, cs, g.ids, nexts, parents, slots, r)
  {
    res := RepresentBlock(g, r);
    if res.Ok? {
      CoveredRead(shapes, cs, g.stacks, g.ids, shapes[r]);
    }
  }

  /** The block table's entries: each key with its block's object. */
  function BlockRows(shapes: map<Ref, Shape>, cs: map<StackRef, seq<Ref>>, ids: map<Ref, string>, nexts: map<Ref, Ref>,
                     parents: map<Ref, Option<string>>, slots: Slots, table: Entries<Ref>): (js: Entries<Json>)
    requires forall i | 0 <= i < |table| :: Typed(shapes, slots, table[i].1) && Serialisable(shapes, cs, nexts, slots, table[i].1)
    ensures |js| == |table| && KeySeq(js) == KeySeq(table)
  {
    seq(|table|, i requires 0 <= i < |table| => (table[i].0, BlockJson(shapes, cs, ids, nexts, parents, slots, table[i].1)))
  }

  /** Every block of the table is a well-typed block that is not an isolated hat. */
  predicate TableTyped(shapes: map<Ref, Shape>, slots: Slots, table: Entries<Ref>)
  {
    forall k | 0 <= k < |table| :: table[k].1 in shapes && !shapes[table[k].1].kind.Isolated? && Typed(shapes, slots, table[k].1)
  }

  /** After `i` blocks: each one was serialisable, every id it reads is present, and
      `js[j]` is block `j`'s entry. */
  ghost predicate BlocksDone(shapes: map<Ref, Shape>, cs: map<StackRef, seq<Ref>>, ids: map<Ref, string>, nexts: map<Ref, Ref>,
                             parents: map<Ref, Option<string>>, slots: Slots, table: Entries<Ref>, js: Entries<Json>, i: nat)
  {
    && i <= |table| && |js| == i
    && forall j | 0 <= j < i ::
         && Typed(shapes, slots, table[j].1) && Serialisable(shapes, cs, nexts, slots, table[j].1)
         && BlockRead(shapes, cs, ids, nexts, slots, table[j].1)
         && js[j] == (table[j].0, BlockJson(shapes, cs, ids, nexts, parents, slots, table[j].1))
  }

  /** One more block, serialised after the ids of the earlier ones were made. */
  lemma BlockStep(shapes: map<Ref, Shape>, cs: map<StackRef, seq<Ref>>, ids: map<Ref, string>, ids': map<Ref, string>,
                  nexts: map<Ref, Ref>, parents: map<Ref, Option<string>>, slots: Slots, table: Entries<Ref>, js: Entries<Json>, i: nat)
    requires TableTyped(shapes, slots, table)
    requires BlocksDone(shapes, cs, ids, nexts, parents, slots, table, js, i) && i < |table| && Flatten.IdsGrow(ids, ids')
    requires Serialisable(shapes, cs, nexts, slots, table[i].1) && BlockRead(shapes, cs, ids', nexts, slots, table[i].1)
    ensures BlocksDone(shapes, cs, ids', nexts, parents, slots, table,
                       js + [(table[i].0, BlockJson(shapes, cs, ids', nexts, parents, slots, table[i].1))], i + 1)
  {
    forall j | 0 <= j < i
      ensures BlockRead(shapes, cs, ids', nexts, slots, table[j].1)
      ensures BlockJson(shapes, cs, ids, nexts, parents, slots, table[j].1) == BlockJson(shapes, cs, ids', nexts, parents, slots, table[j].1)
    {
      BlockJsonStable(shapes, cs, ids, ids', nexts, parents, slots, table[j].1);
    }
  }

  /** All blocks done: the entries are the mapped table. */
  lemma BlocksDoneRows(shapes: map<Ref, Shape>, cs: map<StackRef, seq<Ref>>, ids: map<Ref, string>, nexts: map<Ref, Ref>,
                       parents: map<Ref, Option<string>>, slots: Slots, table: Entries<Ref>, js: Entries<Json>)
    requires TableTyped(shapes, slots, table)
    requires BlocksDone(shapes, cs, ids, nexts, parents, slots, table, js, |table|)
    ensures forall i | 0 <= i < |table| :: Serialisable(shapes, cs, nexts, slots, table[i].1) && BlockRead(shapes, cs, ids, nexts, slots, table[i].1)
    ensures js == BlockRows(shapes, cs, ids, nexts, parents, slots, table)
  {
  }

  /** `allBlocks.mapValues { (_, u) -> u.represent() }`: every block of the table in
      order, under the same keys; the first block that cannot be serialised throws. */
  method BlocksObject(g: Graph, table: Entries<Ref>, ghost shapes: map<Ref, Shape>, ghost cs: map<StackRef, seq<Ref>>,
                      ghost nexts: map<Ref, Ref>, ghost parents: map<Ref, Option<string>>, ghost slots: Slots)
    returns (res: Result<Entries<Json>>)
    requires g.Valid() && shapes == g.shapes && cs == Contents(g.stacks) && nexts == g.nexts && parents == g.parents && slots == SlotsOf(g)
    requires TableTyped(shapes, slots, table)
    modifies g`ids, g.gen, g`stacks
    ensures g.Valid() && Contents(g.stacks) == cs && Flatten.IdsGrow(old(g.ids), g.ids)
    ensures res.Ok? <==> forall i | 0 <= i < |table| :: Serialisable(shapes, cs, nexts, slots, table[i].1)
    ensures res.Err? ==> res.error.IllegalState? || res.error.Uninitialized?
    ensures res.Ok? ==>
              && (forall i | 0 <= i < |table| :: BlockRead(shapes, cs, g.ids, nexts, slots, table[i].1))
              && res.value == BlockRows(shapes, cs, g.ids, nexts, parents, slots, table)
  {
    var js: Entries<Json> := [];
    for i := 0 to |table|
      invariant g.Valid() && Contents(g.stacks) == cs && Flatten.IdsGrow(old(g.ids), g.ids)
      invariant BlocksDone(shapes, cs, g.ids, nexts, parents, slots, table, js, i)
    {
      ghost var ids0 := g.ids;
      var b := BlockEntry(g, table[i].1, shapes, cs, nexts, parents, slots);
      if b.Err? {
        return Err(b.error);
      }
      BlockStep(shapes, cs, ids0, g.ids, nexts, parents, slots, table, js, i);
      js := js + [(table[i].0, b.value)];
    }
    BlocksDoneRows(shapes, cs, g.ids, nexts, parents, slots, table, js);
    res := Ok(js);
  }
}
