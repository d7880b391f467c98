/** What a `flattenInto` pass does to the blocks it reaches, read off its `Trace`:
    which blocks become rows and under which parent, which `next` links are set, and
    what the table, the `parent` fields and the `next` fields hold afterwards. */
module FlattenFacts {
  import opened Wrappers
  import opened Ordered
  import opened Graph
  import opened Flatten

  // ---- Which children the pass recurses into ----

  /** A pair entry enters the recursion through its shadow or its value exactly when
      that one is independent; both are visited. */
  lemma {:induction false} PairChildrenExact(shapes: map<Ref, Shape>, m: Entries<(Ref, Option<Ref>)>)
    requires forall v | v in Values(m) :: v.0 in shapes && (v.1.Some? ==> v.1.value in shapes)
    ensures forall r: Ref :: Into(r) in PairChildren(shapes, m, true) <==>
              (exists v | v in Values(m) :: v.0 == r || v.1 == Some(r)) && Independent(shapes[r].kind)
    decreases |m|
  {
    if m != [] {
      var v0 := m[0].1;
      assert v0 in Values(m);
      assert forall v | v in Values(m[1..]) :: v in Values(m) by {
        forall v | v in Values(m[1..]) ensures v in Values(m) {
          var i :| 0 <= i < |m[1..]| && m[1..][i].1 == v;
          assert m[i + 1].1 == v;
        }
      }
      PairChildrenExact(shapes, m[1..]);
      forall r | (exists v | v in Values(m) :: v.0 == r || v.1 == Some(r)) && Independent(shapes[r].kind)
        ensures Into(r) in PairChildren(shapes, m, true)
      {
        var v :| v in Values(m) && (v.0 == r || v.1 == Some(r));
        var i :| 0 <= i < |m| && m[i].1 == v;
        if i > 0 {
          assert m[1..][i - 1].1 == v;
        }
      }
    }
  }

  /** A nested-stack entry enters the recursion exactly when it is non-null. */
  lemma {:induction false} StackChildrenExact(stacks: map<StackRef, Stack>, m: Entries<Option<StackRef>>)
    requires forall v | v in Values(m) && v.Some? :: v.value in stacks
    ensures forall s: StackRef :: IntoStack(s) in StackChildren(stacks, m) <==> Some(s) in Values(m)
    decreases |m|
  {
    if m != [] {
      assert forall v | v in Values(m[1..]) :: v in Values(m) by {
        forall v | v in Values(m[1..]) ensures v in Values(m) {
          var i :| 0 <= i < |m[1..]| && m[1..][i].1 == v;
          assert m[i + 1].1 == v;
        }
      }
      StackChildrenExact(stacks, m[1..]);
      assert Values(m) == {m[0].1} + Values(m[1..]) by {
        forall v | v in Values(m) ensures v == m[0].1 || v in Values(m[1..]) {
          var i :| 0 <= i < |m| && m[i].1 == v;
          if i > 0 { assert m[1..][i - 1].1 == v; }
        }
      }
    }
  }

  /** `NormalBlock.flattenInto` recurses into an expression exactly when it sits in a
      socket (alone or as either half of a pair) and is independent, and into a
      nested stack exactly when its entry is non-null; null entries are skipped. */
  lemma ChildrenExact(shapes: map<Ref, Shape>, stacks: map<StackRef, Stack>, sh: Shape)
    requires ShapeClosed(sh, shapes, stacks)
    ensures forall r: Ref :: Into(r) in Children(shapes, stacks, sh, true) <==>
              && (Some(r) in Values(sh.shadowless) || exists v | v in Values(sh.paired) :: v.0 == r || v.1 == Some(r))
              && Independent(shapes[r].kind)
    ensures forall s: StackRef :: IntoStack(s) in Children(shapes, stacks, sh, true) <==> Some(s) in Values(sh.nested)
  {
    SocketChildrenExact(shapes, sh.shadowless);
    PairChildrenExact(shapes, sh.paired);
    StackChildrenExact(stacks, sh.nested);
    IndependentSockets(shapes, sh.shadowless);
    IndependentPairs(shapes, sh.paired);
    NoExprInStacks(stacks, sh.nested);
  }

  // ---- Which rows and links a trace holds ----

  /** A block that is not an isolated hat is the first row of its own trace, under `p`. */
  lemma FirstRow(f: Forest, x: Ref, p: Option<Ref>)
    requires Ranked(f) && x in f.shapes && !f.shapes[x].kind.Isolated? && FlatB(f, x, p).Some?
    ensures |FlatB(f, x, p).value.rows| > 0 && FlatB(f, x, p).value.rows[0] == Row(x, p)
  {
    FlatNormal(f, x, p);
  }

  /** The trace of each of the first `n` children is part of theirs together. */
  lemma {:induction false} ChildPart(f: Forest, x: Ref, cs: seq<Child>, n: nat, k: nat)
    requires Ranked(f) && x in f.shapes && n <= |cs| && forall c | c in cs :: Below(f, c, f.rank[x])
    requires k < n && FlatCs(f, x, cs, n).Some?
    ensures cs[k] in cs && FlatChild(f, x, cs[k]).Some?
    ensures forall r | r in FlatChild(f, x, cs[k]).value.rows :: r in FlatCs(f, x, cs, n).value.rows
    ensures forall l | l in FlatChild(f, x, cs[k]).value.links :: l in FlatCs(f, x, cs, n).value.links
    decreases n
  {
    assert cs[k] in cs && cs[n - 1] in cs;
    if k < n - 1 {
      ChildPart(f, x, cs, n - 1, k);
    }
  }

  /** The link and the trace of each of the first `n` elements are part of the trace
      of the first `n` iterations. */
  lemma {:induction false} ElementPart(f: Forest, s: StackRef, p: Option<Ref>, n: nat, k: nat)
    requires Ranked(f) && s in f.stacks && n <= |f.stacks[s].contents|
    requires k < n && FlatContents(f, s, p, n).Some?
    ensures f.stacks[s].contents[k] in f.shapes && FlatB(f, f.stacks[s].contents[k], p).Some?
    ensures forall r | r in FlatB(f, f.stacks[s].contents[k], p).value.rows :: r in FlatContents(f, s, p, n).value.rows
    ensures forall l | l in LinkAt(f, f.stacks[s].contents, k) :: l in FlatContents(f, s, p, n).value.links
    decreases n
  {
    var c := f.stacks[s].contents;
    assert RankedStack(f, s) && c[k] in c;
    if k < n - 1 {
      ElementPart(f, s, p, n - 1, k);
    }
  }

  /** `BlockStack.flattenInto(map, p)`: every element that is not an isolated hat is a
      row under `p`, and each such element is linked to the element after it. */
  lemma StackRows(f: Forest, s: StackRef, p: Option<Ref>)
    requires Ranked(f) && s in f.stacks && FlatS(f, s, p).Some?
    ensures forall y | y in f.stacks[s].contents :: y in f.shapes
    ensures forall i | 0 <= i < |f.stacks[s].contents| && !f.shapes[f.stacks[s].contents[i]].kind.Isolated? ::
              Row(f.stacks[s].contents[i], p) in FlatS(f, s, p).value.rows
    ensures forall i | 0 <= i < |f.stacks[s].contents| - 1 && !f.shapes[f.stacks[s].contents[i]].kind.Isolated? ::
              (f.stacks[s].contents[i], f.stacks[s].contents[i + 1]) in FlatS(f, s, p).value.links
  {
    var c := f.stacks[s].contents;
    assert RankedStack(f, s);
    forall i | 0 <= i < |c| && !f.shapes[c[i]].kind.Isolated?
      ensures Row(c[i], p) in FlatS(f, s, p).value.rows
    {
      ElementPart(f, s, p, |c|, i);
      FirstRow(f, c[i], p);
      assert FlatB(f, c[i], p).value.rows[0] in FlatB(f, c[i], p).value.rows;
    }
    forall i | 0 <= i < |c| - 1 && !f.shapes[c[i]].kind.Isolated?
      ensures (c[i], c[i + 1]) in FlatS(f, s, p).value.links
    {
      ElementPart(f, s, p, |c|, i + 1);
      assert LinkAt(f, c, i + 1) == [(c[i], c[i + 1])];
    }
  }

  /** `NormalBlock.flattenInto(map, p)`: the block is the first row, under `p`; every
      independent socket expression that is not an isolated hat is a row under the
      block, and so is every such element of every nested stack. */
  lemma BlockRows(f: Forest, x: Ref, p: Option<Ref>)
    requires Ranked(f) && x in f.shapes && !f.shapes[x].kind.Isolated? && FlatB(f, x, p).Some?
    ensures FlatB(f, x, p).value.rows[0] == Row(x, p)
    ensures forall c | c in Children(f.shapes, f.stacks, f.shapes[x], true) :: Below(f, c, f.rank[x])
    ensures forall s, y | IntoStack(s) in Children(f.shapes, f.stacks, f.shapes[x], true) && s in f.stacks && y in f.stacks[s].contents :: y in f.shapes
    ensures forall r | Into(r) in Children(f.shapes, f.stacks, f.shapes[x], true) && r in f.shapes && !f.shapes[r].kind.Isolated? ::
              Row(r, Some(x)) in FlatB(f, x, p).value.rows
    ensures forall s, y | IntoStack(s) in Children(f.shapes, f.stacks, f.shapes[x], true) && s in f.stacks && y in f.stacks[s].contents
              && !f.shapes[y].kind.Isolated? :: Row(y, Some(x)) in FlatB(f, x, p).value.rows
  {
    var cs := Children(f.shapes, f.stacks, f.shapes[x], true);
    FlatNormal(f, x, p);
    FirstRow(f, x, p);
    forall s, y | IntoStack(s) in cs && s in f.stacks && y in f.stacks[s].contents
      ensures y in f.shapes
    {
      assert Below(f, IntoStack(s), f.rank[x]) && RankedStack(f, s);
    }
    var tr := FlatB(f, x, p).value;
    assert FlatCs(f, x, cs, |cs|).Some?;
    forall r | Into(r) in cs && !f.shapes[r].kind.Isolated?
      ensures Row(r, Some(x)) in tr.rows
    {
      var k :| 0 <= k < |cs| && cs[k] == Into(r);
      ChildPart(f, x, cs, |cs|, k);
      FirstRow(f, r, Some(x));
      assert FlatB(f, r, Some(x)).value.rows[0] in FlatB(f, r, Some(x)).value.rows;
    }
    forall s, y | IntoStack(s) in cs && s in f.stacks && y in f.stacks[s].contents && !f.shapes[y].kind.Isolated?
      ensures Row(y, Some(x)) in tr.rows
    {
      var k :| 0 <= k < |cs| && cs[k] == IntoStack(s);
      ChildPart(f, x, cs, |cs|, k);
      StackRows(f, s, Some(x));
      var i :| 0 <= i < |f.stacks[s].contents| && f.stacks[s].contents[i] == y;
    }
  }

  // ---- No inlined value ever becomes a row ----

  /** Literals and declarations are rendered inside their parent's inputs. */
  predicate Inlined(k: Kind)
  {
    k.LiteralK? || k.DeclK?
  }

  /** Every stack holds blocks, never a literal or a declaration. */
  ghost predicate StacksHoldBlocks(f: Forest)
  {
    forall s, y | s in f.stacks && y in f.stacks[s].contents && y in f.shapes :: !Inlined(f.shapes[y].kind)
  }

  /** Every row is an allocated block that is neither inlined nor an isolated hat. */
  ghost predicate RowsAreBlocks(f: Forest, rows: seq<Row>)
  {
    forall r | r in rows :: r.block in f.shapes && !Inlined(f.shapes[r.block].kind) && !f.shapes[r.block].kind.Isolated?
  }

  lemma RowsAreBlocksCat(f: Forest, a: seq<Row>, b: seq<Row>)
    requires RowsAreBlocks(f, a) && RowsAreBlocks(f, b)
    ensures RowsAreBlocks(f, a + b)
  {
    forall r | r in a + b
      ensures r.block in f.shapes && !Inlined(f.shapes[r.block].kind) && !f.shapes[r.block].kind.Isolated?
    {
      assert r in a || r in b;
    }
  }

  /** A VLB or literal is never independent, so no declaration or literal is ever put
      into the block table: the rows of a pass started at a block are all blocks. */
  lemma {:induction false} RowsB(f: Forest, x: Ref, p: Option<Ref>)
    requires Ranked(f) && StacksHoldBlocks(f) && x in f.shapes && !Inlined(f.shapes[x].kind) && FlatB(f, x, p).Some?
    ensures RowsAreBlocks(f, FlatB(f, x, p).value.rows)
    decreases 2 * f.rank[x] + 1, 1, 0
  {
    assert RankedBlock(f, x);
    if f.shapes[x].kind.Isolated? {
      FlatIsolated(f, x, p);
      var c := f.stacks[f.shapes[x].kind.own].contents;
      assert RankedStack(f, f.shapes[x].kind.own) && c[0] in c;
      RowsB(f, c[0], None);
    } else {
      var cs := Children(f.shapes, f.stacks, f.shapes[x], true);
      FlatNormal(f, x, p);
      ChildrenIndependent(f.shapes, f.stacks, f.shapes[x]);
      RowsCs(f, x, cs, |cs|);
      RowsAreBlocksCat(f, [Row(x, p)], FlatCs(f, x, cs, |cs|).value.rows);
    }
  }

  lemma {:induction false} RowsCs(f: Forest, x: Ref, cs: seq<Child>, n: nat)
    requires Ranked(f) && StacksHoldBlocks(f) && x in f.shapes && n <= |cs|
    requires forall c | c in cs :: Below(f, c, f.rank[x]) && (c.Into? ==> !Inlined(f.shapes[c.r].kind))
    requires FlatCs(f, x, cs, n).Some?
    ensures RowsAreBlocks(f, FlatCs(f, x, cs, n).value.rows)
    decreases 2 * f.rank[x] + 1, 0, n
  {
    if n > 0 {
      assert cs[n - 1] in cs;
      RowsCs(f, x, cs, n - 1);
      if cs[n - 1].Into? {
        RowsB(f, cs[n - 1].r, Some(x));
      } else {
        var s := cs[n - 1].s;
        assert FlatChild(f, x, cs[n - 1]) == FlatContents(f, s, Some(x), |f.stacks[s].contents|);
        RowsContents(f, s, Some(x), |f.stacks[s].contents|);
      }
      RowsAreBlocksCat(f, FlatCs(f, x, cs, n - 1).value.rows, FlatChild(f, x, cs[n - 1]).value.rows);
    }
  }

  lemma {:induction false} RowsContents(f: Forest, s: StackRef, p: Option<Ref>, n: nat)
    requires Ranked(f) && StacksHoldBlocks(f) && s in f.stacks && n <= |f.stacks[s].contents|
    requires FlatContents(f, s, p, n).Some?
    ensures RowsAreBlocks(f, FlatContents(f, s, p, n).value.rows)
    decreases 2 * f.srank[s], 0, n
  {
    if n > 0 {
      var c := f.stacks[s].contents;
      assert RankedStack(f, s) && c[n - 1] in c;
      RowsContents(f, s, p, n - 1);
      RowsB(f, c[n - 1], p);
      RowsAreBlocksCat(f, FlatContents(f, s, p, n - 1).value.rows, FlatB(f, c[n - 1], p).value.rows);
    }
  }

  // ---- The state after a trace is applied ----

  /** After the links are applied, the source of the last link from `a` holds its target. */
  lemma {:induction false} LinksLast(ns: map<Ref, Ref>, links: seq<(Ref, Ref)>, j: nat)
    requires j < |links| && forall k | j < k < |links| :: links[k].0 != links[j].0
    ensures links[j].0 in Links(ns, links) && Links(ns, links)[links[j].0] == links[j].1
    decreases |links|
  {
    if j == 0 {
      LinksUntouched(ns[links[0].0 := links[0].1], links[1..], links[0].0);
    } else {
      LinksLast(ns[links[0].0 := links[0].1], links[1..], j - 1);
    }
  }

  /** A block no link starts from keeps its `next`. */
  lemma {:induction false} LinksUntouched(ns: map<Ref, Ref>, links: seq<(Ref, Ref)>, a: Ref)
    requires forall k | 0 <= k < |links| :: links[k].0 != a
    ensures (a in Links(ns, links) <==> a in ns) && (a in ns ==> Links(ns, links)[a] == ns[a])
    decreases |links|
  {
    if links != [] {
      assert links[0].0 != a;
      LinksUntouched(ns[links[0].0 := links[0].1], links[1..], a);
    }
  }

  /** After the rows are applied, the block of the last row for it has that row's parent. */
  lemma {:induction false} ParentsLast(ps: map<Ref, Option<string>>, rows: seq<Row>, ids: map<Ref, string>, j: nat)
    requires HasIds(rows, ids) && j < |rows| && forall k | j < k < |rows| :: rows[k].block != rows[j].block
    ensures rows[j] in rows && rows[j].block in Parents(ps, rows, ids)
    ensures Parents(ps, rows, ids)[rows[j].block] == ParentId(rows[j].parent, ids)
    decreases |rows|
  {
    assert rows[0] in rows && rows[j] in rows;
    assert HasIds(rows[1..], ids) by {
      forall r | r in rows[1..] ensures r in rows { }
    }
    if j == 0 {
      ParentsUntouched(ps[rows[0].block := ParentId(rows[0].parent, ids)], rows[1..], ids, rows[0].block);
    } else {
      ParentsLast(ps[rows[0].block := ParentId(rows[0].parent, ids)], rows[1..], ids, j - 1);
    }
  }

  /** A block with no row keeps its `parent`. */
  lemma {:induction false} ParentsUntouched(ps: map<Ref, Option<string>>, rows: seq<Row>, ids: map<Ref, string>, a: Ref)
    requires HasIds(rows, ids) && forall k | 0 <= k < |rows| :: rows[k].block != a
    ensures (a in Parents(ps, rows, ids) <==> a in ps) && (a in ps ==> Parents(ps, rows, ids)[a] == ps[a])
    decreases |rows|
  {
    if rows != [] {
      assert rows[0] in rows && rows[0].block != a;
      assert HasIds(rows[1..], ids) by {
        forall r | r in rows[1..] ensures r in rows { }
      }
      ParentsUntouched(ps[rows[0].block := ParentId(rows[0].parent, ids)], rows[1..], ids, a);
    }
  }

  /** After the rows are applied, the table maps the id of the last row put under it to
      that row's block. */
  lemma {:induction false} TableLast(t: Entries<Ref>, rows: seq<Row>, ids: map<Ref, string>, j: nat)
    requires HasIds(rows, ids) && j < |rows|
    requires forall k | j < k < |rows| :: ids[rows[k].block] != ids[rows[j].block]
    ensures rows[j] in rows && Get(Table(t, rows, ids), ids[rows[j].block]) == Some(rows[j].block)
    decreases |rows|
  {
    assert rows[0] in rows && rows[j] in rows;
    assert HasIds(rows[1..], ids) by {
      forall r | r in rows[1..] ensures r in rows { }
    }
    var t' := Put(t, ids[rows[0].block], rows[0].block);
    assert Table(t, rows, ids) == Table(t', rows[1..], ids);
    if j == 0 {
      PutFacts(t, ids[rows[0].block], rows[0].block);
      assert forall k | 0 <= k < |rows| - 1 :: rows[1..][k] == rows[k + 1];
      TableUntouched(t', rows[1..], ids, ids[rows[0].block]);
    } else {
      assert forall k | j - 1 < k < |rows| - 1 :: rows[1..][k] == rows[k + 1];
      TableLast(t', rows[1..], ids, j - 1);
    }
  }

  /** A key no row is put under keeps its entry. */
  lemma {:induction false} TableUntouched(t: Entries<Ref>, rows: seq<Row>, ids: map<Ref, string>, key: string)
    requires HasIds(rows, ids) && forall k | 0 <= k < |rows| :: ids[rows[k].block] != key
    ensures Get(Table(t, rows, ids), key) == Get(t, key)
    decreases |rows|
  {
    if rows != [] {
      assert rows[0] in rows;
      assert HasIds(rows[1..], ids) by {
        forall r | r in rows[1..] ensures r in rows { }
      }
      PutFacts(t, ids[rows[0].block], rows[0].block);
      TableUntouched(Put(t, ids[rows[0].block], rows[0].block), rows[1..], ids, key);
    }
  }

  /** The ids the rows put into the table. */
  ghost function RowIds(rows: seq<Row>, ids: map<Ref, string>): set<string>
    requires HasIds(rows, ids)
  {
    set r | r in rows :: ids[r.block]
  }

  /** The table gains exactly the rows' ids as keys, and loses none. */
  lemma {:induction false} TableKeys(t: Entries<Ref>, rows: seq<Row>, ids: map<Ref, string>)
    requires HasIds(rows, ids)
    ensures Keys(Table(t, rows, ids)) == Keys(t) + RowIds(rows, ids)
    decreases |rows|
  {
    if rows != [] {
      assert rows[0] in rows;
      assert HasIds(rows[1..], ids) by {
        forall r | r in rows[1..] ensures r in rows { }
      }
      PutFacts(t, ids[rows[0].block], rows[0].block);
      TableKeys(Put(t, ids[rows[0].block], rows[0].block), rows[1..], ids);
      assert RowIds(rows, ids) == {ids[rows[0].block]} + RowIds(rows[1..], ids) by {
        forall r | r in rows ensures r == rows[0] || r in rows[1..] {
          var k :| 0 <= k < |rows| && rows[k] == r;
          if k > 0 { assert rows[1..][k - 1] == r; }
        }
      }
    }
  }

  // ---- The state after a pass ----

  /** No block is reached twice, no two rows share an id, and no block is linked from
      twice: the object graph below the start is a tree and its ids are distinct. */
  ghost predicate Unshared(tr: Trace, ids: map<Ref, string>)
  {
    && HasIds(tr.rows, ids)
    && (forall i, j {:trigger RowsApart(tr.rows, ids, i, j)} :: RowsApart(tr.rows, ids, i, j))
    && (forall i, j {:trigger LinksApart(tr.links, i, j)} :: LinksApart(tr.links, i, j))
  }

  /** Row `i`, when it comes before row `j`, is of another block, with another id. */
  ghost predicate RowsApart(rows: seq<Row>, ids: map<Ref, string>, i: int, j: int)
  {
    0 <= i < j < |rows| ==>
      && rows[i].block != rows[j].block
      && (rows[i].block in ids && rows[j].block in ids ==> ids[rows[i].block] != ids[rows[j].block])
  }

  /** Link `i`, when it comes before link `j`, starts from another block. */
  ghost predicate LinksApart(links: seq<(Ref, Ref)>, i: int, j: int)
  {
    0 <= i < j < |links| ==> links[i].0 != links[j].0
  }

  /** A row of an unshared trace determines the block's `parent` and table entry. */
  lemma RowApplied(tr: Trace, t0: Entries<Ref>, t1: Entries<Ref>, ps0: map<Ref, Option<string>>, ps1: map<Ref, Option<string>>,
                   ns0: map<Ref, Ref>, ns1: map<Ref, Ref>, ids: map<Ref, string>, row: Row)
    requires Applied(tr, t0, t1, ps0, ps1, ns0, ns1, ids) && Unshared(tr, ids) && row in tr.rows
    ensures row.block in ids && (row.parent.Some? ==> row.parent.value in ids)
    ensures row.block in ps1 && ps1[row.block] == ParentId(row.parent, ids)
    ensures Get(t1, ids[row.block]) == Some(row.block)
  {
    var j :| 0 <= j < |tr.rows| && tr.rows[j] == row;
    forall k | j < k < |tr.rows|
      ensures tr.rows[k].block != tr.rows[j].block && ids[tr.rows[k].block] != ids[tr.rows[j].block]
    {
      assert RowsApart(tr.rows, ids, j, k) && tr.rows[j] in tr.rows && tr.rows[k] in tr.rows;
    }
    ParentsLast(ps0, tr.rows, ids, j);
    TableLast(t0, tr.rows, ids, j);
  }

  /** A link of an unshared trace determines the block's `next`. */
  lemma LinkApplied(tr: Trace, t0: Entries<Ref>, t1: Entries<Ref>, ps0: map<Ref, Option<string>>, ps1: map<Ref, Option<string>>,
                    ns0: map<Ref, Ref>, ns1: map<Ref, Ref>, ids: map<Ref, string>, a: Ref, b: Ref)
    requires Applied(tr, t0, t1, ps0, ps1, ns0, ns1, ids) && Unshared(tr, ids) && (a, b) in tr.links
    ensures a in ns1 && ns1[a] == b
  {
    var j :| 0 <= j < |tr.links| && tr.links[j] == (a, b);
    forall k | j < k < |tr.links| ensures tr.links[k].0 != tr.links[j].0 {
      assert LinksApart(tr.links, j, k);
    }
    LinksLast(ns0, tr.links, j);
  }

  /** After `BlockStack.flattenInto(map, p)` over a tree: each element that is not an
      isolated hat has `parent` set to `p`'s id, is in the table under its own id, and
      has `next` set to the element after it. */
  lemma StackFlattened(f: Forest, s: StackRef, p: Option<Ref>, t0: Entries<Ref>, t1: Entries<Ref>,
                       ps0: map<Ref, Option<string>>, ps1: map<Ref, Option<string>>,
                       ns0: map<Ref, Ref>, ns1: map<Ref, Ref>, ids: map<Ref, string>)
    requires Ranked(f) && s in f.stacks && FlatS(f, s, p).Some? && (p.Some? ==> p.value in ids)
    requires Applied(FlatS(f, s, p).value, t0, t1, ps0, ps1, ns0, ns1, ids) && Unshared(FlatS(f, s, p).value, ids)
    ensures forall y | y in f.stacks[s].contents :: y in f.shapes
    ensures forall i | 0 <= i < |f.stacks[s].contents| && !f.shapes[f.stacks[s].contents[i]].kind.Isolated? ::
              var y := f.stacks[s].contents[i];
              y in ps1 && ps1[y] == ParentId(p, ids) && y in ids && Get(t1, ids[y]) == Some(y)
    ensures forall i | 0 <= i < |f.stacks[s].contents| - 1 && !f.shapes[f.stacks[s].contents[i]].kind.Isolated? ::
              var y := f.stacks[s].contents[i];
              y in ns1 && ns1[y] == f.stacks[s].contents[i + 1]
  {
    var c := f.stacks[s].contents;
    var tr := FlatS(f, s, p).value;
    StackRows(f, s, p);
    forall i | 0 <= i < |c| && !f.shapes[c[i]].kind.Isolated?
      ensures c[i] in ps1 && ps1[c[i]] == ParentId(p, ids) && c[i] in ids && Get(t1, ids[c[i]]) == Some(c[i])
    {
      RowApplied(tr, t0, t1, ps0, ps1, ns0, ns1, ids, Row(c[i], p));
    }
    forall i | 0 <= i < |c| - 1 && !f.shapes[c[i]].kind.Isolated?
      ensures c[i] in ns1 && ns1[c[i]] == c[i + 1]
    {
      LinkApplied(tr, t0, t1, ps0, ps1, ns0, ns1, ids, c[i], c[i + 1]);
    }
  }

  /** Every row of an unshared trace determines its block's `parent` and table entry. */
  lemma RowsApplied(tr: Trace, t0: Entries<Ref>, t1: Entries<Ref>, ps0: map<Ref, Option<string>>, ps1: map<Ref, Option<string>>,
                    ns0: map<Ref, Ref>, ns1: map<Ref, Ref>, ids: map<Ref, string>)
    requires Applied(tr, t0, t1, ps0, ps1, ns0, ns1, ids) && Unshared(tr, ids)
    ensures forall row | row in tr.rows ::
              && row.block in ids && (row.parent.Some? ==> row.parent.value in ids)
              && row.block in ps1 && ps1[row.block] == ParentId(row.parent, ids)
              && Get(t1, ids[row.block]) == Some(row.block)
  {
    forall row | row in tr.rows
      ensures row.block in ids && (row.parent.Some? ==> row.parent.value in ids)
      ensures row.block in ps1 && ps1[row.block] == ParentId(row.parent, ids)
      ensures Get(t1, ids[row.block]) == Some(row.block)
    {
      RowApplied(tr, t0, t1, ps0, ps1, ns0, ns1, ids, row);
    }
  }

  /** After the rows of `flattenInto(x, p)` are applied, `x` has `parent` set to
      `p`'s id and is in the table under its own id, and every independent socket
      expression (isolated hats aside) has `parent` set to the block's id and is in
      the table under its own id. */
  lemma BlockFlattened(f: Forest, x: Ref, p: Option<Ref>, t0: Entries<Ref>, t1: Entries<Ref>,
                       ps0: map<Ref, Option<string>>, ps1: map<Ref, Option<string>>,
                       ns0: map<Ref, Ref>, ns1: map<Ref, Ref>, ids: map<Ref, string>)
    requires Ranked(f) && x in f.shapes && !f.shapes[x].kind.Isolated? && FlatB(f, x, p).Some? && (p.Some? ==> p.value in ids)
    requires Applied(FlatB(f, x, p).value, t0, t1, ps0, ps1, ns0, ns1, ids) && Unshared(FlatB(f, x, p).value, ids)
    ensures x in ids && x in ps1 && ps1[x] == ParentId(p, ids) && Get(t1, ids[x]) == Some(x)
    ensures forall r | Into(r) in Children(f.shapes, f.stacks, f.shapes[x], true) && r in f.shapes && !f.shapes[r].kind.Isolated? ::
              r in ids && r in ps1 && ps1[r] == Some(ids[x]) && Get(t1, ids[r]) == Some(r)
  {
    var tr := FlatB(f, x, p).value;
    BlockRows(f, x, p);
    assert tr.rows[0] in tr.rows;
    RowsApplied(tr, t0, t1, ps0, ps1, ns0, ns1, ids);
  }

  /** After the rows of `flattenInto(x, p)` are applied, every element of a stack
      nested in `x` (isolated hats aside) has `parent` set to `x`'s id and is in the
      table under its own id. */
  lemma NestedFlattened(f: Forest, x: Ref, p: Option<Ref>, t0: Entries<Ref>, t1: Entries<Ref>,
                        ps0: map<Ref, Option<string>>, ps1: map<Ref, Option<string>>,
                        ns0: map<Ref, Ref>, ns1: map<Ref, Ref>, ids: map<Ref, string>)
    requires Ranked(f) && x in f.shapes && !f.shapes[x].kind.Isolated? && FlatB(f, x, p).Some? && (p.Some? ==> p.value in ids)
    requires Applied(FlatB(f, x, p).value, t0, t1, ps0, ps1, ns0, ns1, ids) && Unshared(FlatB(f, x, p).value, ids)
    ensures x in ids
    ensures forall s, y | IntoStack(s) in Children(f.shapes, f.stacks, f.shapes[x], true) && s in f.stacks && y in f.stacks[s].contents
              && y in f.shapes && !f.shapes[y].kind.Isolated? :: y in ids && y in ps1 && ps1[y] == Some(ids[x]) && Get(t1, ids[y]) == Some(y)
  {
    var tr := FlatB(f, x, p).value;
    FirstRow(f, x, p);
    RowApplied(tr, t0, t1, ps0, ps1, ns0, ns1, ids, tr.rows[0]);
    forall s, y | IntoStack(s) in Children(f.shapes, f.stacks, f.shapes[x], true) && s in f.stacks && y in f.stacks[s].contents
                  && y in f.shapes && !f.shapes[y].kind.Isolated?
      ensures y in ids && y in ps1 && ps1[y] == Some(ids[x]) && Get(t1, ids[y]) == Some(y)
    {
      NestedOne(f, x, p, t0, t1, ps0, ps1, ns0, ns1, ids, s, y);
    }
  }

  /** One element of one nested stack, for `NestedFlattened`. */
  lemma NestedOne(f: Forest, x: Ref, p: Option<Ref>, t0: Entries<Ref>, t1: Entries<Ref>,
                  ps0: map<Ref, Option<string>>, ps1: map<Ref, Option<string>>,
                  ns0: map<Ref, Ref>, ns1: map<Ref, Ref>, ids: map<Ref, string>, s: StackRef, y: Ref)
    requires Ranked(f) && x in f.shapes && !f.shapes[x].kind.Isolated? && FlatB(f, x, p).Some? && (p.Some? ==> p.value in ids)
    requires Applied(FlatB(f, x, p).value, t0, t1, ps0, ps1, ns0, ns1, ids) && Unshared(FlatB(f, x, p).value, ids)
    requires IntoStack(s) in Children(f.shapes, f.stacks, f.shapes[x], true) && s in f.stacks && y in f.stacks[s].contents
    requires y in f.shapes && !f.shapes[y].kind.Isolated?
    ensures x in ids && y in ids && y in ps1 && ps1[y] == Some(ids[x]) && Get(t1, ids[y]) == Some(y)
  {
    var tr := FlatB(f, x, p).value;
    BlockRows(f, x, p);
    RowApplied(tr, t0, t1, ps0, ps1, ns0, ns1, ids, Row(y, Some(x)));
  }
}
