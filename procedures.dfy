/** Custom blocks ("My Blocks"): `ProcedurePrototypeBuilder`, the argument shadows it
    creates, `ProcedurePrototype` with its mutation, and `Procedure.call`. */
module Procedures {
  import opened Wrappers
  import opened Ordered
  import opened Json
  import opened Wire
  import opened Ids
  import opened Graph
  import opened Blocks
  import opened Expressions
  import opened Represent

  // ---- Arguments ----

  function ArgOpcode(arg: ArgKind): string
  {
    match arg
    case StringNumberArg => "argument_reporter_string_number"
    case BooleanArg => "argument_reporter_boolean"
  }

  /** A procedure argument: a shadow reporter whose `VALUE` field is its name. The
      definition's argument shadow and the reporter handed back to the builder have
      this state and the same `argumentId`. */
  function ArgumentShape(arg: ArgKind, name: string, default: string, argumentId: string): Shape
  {
    Blank(ArgumentK(arg, name, default, argumentId), Some(ArgOpcode(arg)), true)
      .(fields := [("VALUE", Fixed(FieldValue(name)))])
  }

  // ---- The proccode's argument markers ----

  /** The letters that follow a `%` in a proccode, in order: the argument slots the
      Scratch editor reads from it. */
  function Markers(s: string): seq<char>
  {
    if |s| < 2 then [] else Markers(s[..|s| - 1]) + (if s[|s| - 2] == '%' then [s[|s| - 1]] else [])
  }

  /** `s` does not end in a `%` that a later character could turn into a marker. */
  predicate OpenEnd(s: string)
  {
    |s| == 0 || s[|s| - 1] != '%'
  }

  /** Text free of `%` adds no marker. */
  lemma {:induction false} MarkersText(a: string, t: string)
    requires OpenEnd(a) && '%' !in t
    ensures Markers(a + t) == Markers(a) && OpenEnd(a + t)
    decreases |t|
  {
    if |t| > 0 {
      var t' := t[..|t| - 1];
      MarkersText(a, t');
      var s := a + t;
      assert s[..|s| - 1] == a + t';
      if |s| >= 2 {
        assert s[|s| - 2] != '%' by {
          if |t| >= 2 { assert s[|s| - 2] == t[|t| - 2] && t[|t| - 2] in t; }
          else { assert s[|s| - 2] == a[|a| - 1]; }
        }
        assert Markers(s) == Markers(a + t');
      } else {
        assert |a| == 0 && Markers(s) == [];
      }
      assert s[|s| - 1] == t[|t| - 1] && t[|t| - 1] in t;
    } else {
      assert a + t == a;
    }
  }

  /** A name free of `%` has no marker. */
  lemma MarkersPlain(t: string)
    requires '%' !in t
    ensures Markers(t) == [] && OpenEnd(t)
  {
    MarkersText([], t);
    assert [] + t == t;
  }

  /** Appending ` %c` adds the one marker `c`. */
  lemma MarkersSlot(a: string, c: char)
    requires OpenEnd(a) && c != '%'
    ensures Markers(a + [' ', '%', c]) == Markers(a) + [c] && OpenEnd(a + [' ', '%', c])
  {
    MarkersText(a, [' ']);
    var s1 := a + [' '];
    var s2 := s1 + ['%'];
    var s3 := s2 + [c];
    assert s2[..|s2| - 1] == s1 && s2[|s2| - 2] == ' ';
    assert s3[..|s3| - 1] == s2 && s3[|s3| - 2] == '%';
    assert s3 == a + [' ', '%', c];
  }

  // ---- The prototype builder ----

  /** `ProcedurePrototypeBuilder`: collects the argument shadows and the proccode. */
  class PrototypeBuilder {
    var arguments: seq<Ref>
    var proccode: string
    const warp: bool
    /** The marker letter each argument added. */
    ghost var letters: seq<char>
    /** No `setProccode` and no `%` in the name or a label so far. */
    ghost var plain: bool

    /** While the proccode is only built up, its markers name the arguments in order. */
    ghost predicate Consistent()
      reads this
    {
      |letters| == |arguments| && (plain ==> Markers(proccode) == letters && OpenEnd(proccode))
    }

    /** `ProcedurePrototypeBuilder(name, warp)`: the proccode starts as the name. */
    constructor (name: string, warp: bool)
      ensures Consistent()
      ensures arguments == [] && proccode == name && this.warp == warp && letters == [] && plain == ('%' !in name)
    {
      arguments := [];
      proccode := name;
      this.warp := warp;
      letters := [];
      plain := '%' !in name;
      if '%' !in name {
        MarkersPlain(name);
      }
    }

    /** Appends an argument shadow and a reporter with the same `argumentId` (six
        random characters), and ` %c` to the proccode. */
    method AddArgument(g: Graph, arg: ArgKind, c: char, name: string, default: string) returns (reporter: Ref)
      requires g.Valid() && Consistent() && c != '%'
      modifies this, g`shapes, g`nextRef
      ensures g.Valid() && Consistent()
      ensures proccode == old(proccode) + [' ', '%', c] && letters == old(letters) + [c] && plain == old(plain)
      ensures |arguments| == |old(arguments)| + 1 && arguments[..|old(arguments)|] == old(arguments)
      ensures var a := arguments[|old(arguments)|];
        && a == old(g.nextRef) && reporter == a + 1 && g.nextRef == a + 2 && a !in old(g.shapes) && reporter !in old(g.shapes)
        && a in g.shapes && g.shapes[a].kind.ArgumentK? && |g.shapes[a].kind.argumentId| == 6
        && g.shapes == old(g.shapes)[a := ArgumentShape(arg, name, default, g.shapes[a].kind.argumentId)][reporter := g.shapes[a]]
    {
      if plain {
        MarkersSlot(proccode, c);
      }
      proccode := proccode + [' ', '%', c];
      letters := letters + [c];
      var id := g.gen.MakeRandomId(6);
      var sh := ArgumentShape(arg, name, default, id);
      ValuesOne("VALUE", Fixed(FieldValue(name)));
      var a := g.Alloc(sh);
      assert g.Valid();
      reporter := g.Alloc(sh);
      arguments := arguments + [a];
    }

    /** `stringNumber(name, default)`: a string-or-number argument, marker `%s`. */
    method StringNumber(g: Graph, name: string, default: string) returns (reporter: Ref)
      requires g.Valid() && Consistent()
      modifies this, g`shapes, g`nextRef
      ensures g.Valid() && Consistent()
      ensures proccode == old(proccode) + " %s" && letters == old(letters) + ['s'] && plain == old(plain)
      ensures |arguments| == |old(arguments)| + 1 && arguments[..|old(arguments)|] == old(arguments)
      ensures var a := arguments[|old(arguments)|];
        && a !in old(g.shapes) && reporter !in old(g.shapes) && a != reporter
        && a in g.shapes && g.shapes[a].kind.ArgumentK? && |g.shapes[a].kind.argumentId| == 6
        && g.shapes == old(g.shapes)[a := ArgumentShape(StringNumberArg, name, default, g.shapes[a].kind.argumentId)][reporter := g.shapes[a]]
    {
      reporter := AddArgument(g, StringNumberArg, 's', name, default);
    }

    /** `number(name, default)`: the same argument shadow, marker `%n`. */
    method Number(g: Graph, name: string, default: string) returns (reporter: Ref)
      requires g.Valid() && Consistent()
      modifies this, g`shapes, g`nextRef
      ensures g.Valid() && Consistent()
      ensures proccode == old(proccode) + " %n" && letters == old(letters) + ['n'] && plain == old(plain)
      ensures |arguments| == |old(arguments)| + 1 && arguments[..|old(arguments)|] == old(arguments)
      ensures var a := arguments[|old(arguments)|];
        && a !in old(g.shapes) && reporter !in old(g.shapes) && a != reporter
        && a in g.shapes && g.shapes[a].kind.ArgumentK? && |g.shapes[a].kind.argumentId| == 6
        && g.shapes == old(g.shapes)[a := ArgumentShape(StringNumberArg, name, default, g.shapes[a].kind.argumentId)][reporter := g.shapes[a]]
    {
      reporter := AddArgument(g, StringNumberArg, 'n', name, default);
    }

    /** `boolean(name, default)`: a boolean argument, marker `%b`. */
    method Boolean(g: Graph, name: string, default: string) returns (reporter: Ref)
      requires g.Valid() && Consistent()
      modifies this, g`shapes, g`nextRef
      ensures g.Valid() && Consistent()
      ensures proccode == old(proccode) + " %b" && letters == old(letters) + ['b'] && plain == old(plain)
      ensures |arguments| == |old(arguments)| + 1 && arguments[..|old(arguments)|] == old(arguments)
      ensures var a := arguments[|old(arguments)|];
        && a !in old(g.shapes) && reporter !in old(g.shapes) && a != reporter
        && a in g.shapes && g.shapes[a].kind.ArgumentK? && |g.shapes[a].kind.argumentId| == 6
        && g.shapes == old(g.shapes)[a := ArgumentShape(BooleanArg, name, default, g.shapes[a].kind.argumentId)][reporter := g.shapes[a]]
    {
      reporter := AddArgument(g, BooleanArg, 'b', name, default);
    }

    /** `text(text)`: a label, appended after a space; no marker unless it holds `%`. */
    method Text(text: string)
      requires Consistent()
      modifies this
      ensures Consistent()
      ensures proccode == old(proccode) + " " + text && arguments == old(arguments) && letters == old(letters)
      ensures plain == (old(plain) && '%' !in text)
    {
      if plain && '%' !in text {
        MarkersText(proccode, " " + text);
        assert proccode + " " + text == proccode + (" " + text);
      }
      proccode := proccode + " " + text;
      plain := plain && '%' !in text;
    }

    /** `setProccode(text)`: replaces the proccode; the markers are then the caller's. */
    method SetProccode(text: string)
      requires Consistent()
      modifies this
      ensures Consistent()
      ensures proccode == text && arguments == old(arguments) && letters == old(letters) && !plain
    {
      proccode := text;
      plain := false;
    }
  }

  // ---- The prototype ----

  /** The argument objects, all procedure arguments. */
  predicate ArgsTyped(shapes: map<Ref, Shape>, args: seq<Ref>)
  {
    forall i | 0 <= i < |args| :: args[i] in shapes && shapes[args[i]].kind.ArgumentK?
  }

  /** The id of argument `j`. */
  function ArgId(shapes: map<Ref, Shape>, args: seq<Ref>, j: nat): string
    requires ArgsTyped(shapes, args) && j < |args|
  {
    shapes[args[j]].kind.argumentId
  }

  /** A JSON array of strings, written out as a string (`Json.encodeToString`). */
  function EncodedStrings(ss: seq<string>): Json
  {
    JStr(Encode(JArr(seq(|ss|, i requires 0 <= i < |ss| => JStr(ss[i])))))
  }

  function ArgumentIds(shapes: map<Ref, Shape>, args: seq<Ref>): (ss: seq<string>)
    requires ArgsTyped(shapes, args)
    ensures |ss| == |args| && forall i | 0 <= i < |args| :: ss[i] == shapes[args[i]].kind.argumentId
  {
    seq(|args|, i requires 0 <= i < |args| => shapes[args[i]].kind.argumentId)
  }

  function ArgumentNames(shapes: map<Ref, Shape>, args: seq<Ref>): (ss: seq<string>)
    requires ArgsTyped(shapes, args)
    ensures |ss| == |args| && forall i | 0 <= i < |args| :: ss[i] == shapes[args[i]].kind.name
  {
    seq(|args|, i requires 0 <= i < |args| => shapes[args[i]].kind.name)
  }

  function ArgumentDefaults(shapes: map<Ref, Shape>, args: seq<Ref>): (ss: seq<string>)
    requires ArgsTyped(shapes, args)
    ensures |ss| == |args| && forall i | 0 <= i < |args| :: ss[i] == shapes[args[i]].kind.default
  {
    seq(|args|, i requires 0 <= i < |args| => shapes[args[i]].kind.default)
  }

  /** `Json.encodeToString(warp)`. */
  function EncodedBool(b: bool): Json
  {
    JStr(Encode(JBool(b)))
  }

  /** The prototype's mutation, written into a fresh map key by key. */
  function PrototypeMutation(shapes: map<Ref, Shape>, proccode: string, warp: bool, args: seq<Ref>): Entries<Option<Json>>
    requires ArgsTyped(shapes, args)
  {
    [("tagName", Some(JStr("mutation"))),
     ("children", Some(JArr([]))),
     ("proccode", Some(JStr(proccode))),
     ("argumentids", Some(EncodedStrings(ArgumentIds(shapes, args)))),
     ("argumentnames", Some(EncodedStrings(ArgumentNames(shapes, args)))),
     ("argumentdefaults", Some(EncodedStrings(ArgumentDefaults(shapes, args)))),
     ("warp", Some(EncodedBool(warp)))]
  }

  /** `shadowlessExpressionInputs[argument.id] = argument` for each argument in turn. */
  function ArgInputs(keys: seq<string>, args: seq<Ref>): Entries<Option<Ref>>
    requires |keys| == |args|
  {
    if args == [] then []
    else Put(ArgInputs(keys[..|keys| - 1], args[..|args| - 1]), keys[|keys| - 1], Some(args[|args| - 1]))
  }

  lemma ArgInputsSnoc(keys: seq<string>, args: seq<Ref>, id: string)
    requires |keys| < |args|
    ensures ArgInputs(keys + [id], args[..|keys| + 1]) == Put(ArgInputs(keys, args[..|keys|]), id, Some(args[|keys|]))
  {
    assert args[..|keys| + 1][..|keys|] == args[..|keys|];
    assert (keys + [id])[..|keys|] == keys;
  }

  /** With distinct object ids each argument sits under its own id, in order. */
  lemma {:induction false} ArgInputsInOrder(keys: seq<string>, args: seq<Ref>)
    requires |keys| == |args| && forall i, j | 0 <= i < j < |keys| :: keys[i] != keys[j]
    ensures ArgInputs(keys, args) == seq(|args|, i requires 0 <= i < |args| => (keys[i], Some(args[i])))
    decreases |args|
  {
    if args != [] {
      var n := |args| - 1;
      ArgInputsInOrder(keys[..n], args[..n]);
      var m := ArgInputs(keys[..n], args[..n]);
      assert keys[n] !in Keys(m);
      PutFacts(m, keys[n], Some(args[n]));
    }
  }

  /** Each argument is an input of the prototype under its id, and reads back as a
      shadow: `[1, id]`. */
  lemma PrototypeInputOf(shapes: map<Ref, Shape>, keys: seq<string>, args: seq<Ref>, i: nat)
    requires ArgsTyped(shapes, args) && |keys| == |args| && i < |args|
    requires forall p, q | 0 <= p < q < |keys| :: keys[p] != keys[q]
    ensures Get(ArgInputs(keys, args), keys[i]) == Some(Some(args[i]))
    ensures NoDup(ArgInputs(keys, args))
    ensures InputOf(shapes[args[i]].kind, keys[i]) == JArr([JInt(1), JStr(keys[i])])
  {
    ArgInputsInOrder(keys, args);
    var m := ArgInputs(keys, args);
    IndexOfUnique(m, keys[i], i);
  }

  /** The first `|keys|` arguments carry those object ids. */
  ghost predicate IdsOf(ids: map<Ref, string>, args: seq<Ref>, keys: seq<string>)
  {
    |keys| <= |args| && forall j | 0 <= j < |keys| :: args[j] in ids && ids[args[j]] == keys[j]
  }

  /** Every object id already handed out stays as it was. */
  ghost predicate IdsKept(ids0: map<Ref, string>, ids1: map<Ref, string>)
  {
    forall x | x in ids0 :: x in ids1 && ids1[x] == ids0[x]
  }

  lemma IdsGrow(ids0: map<Ref, string>, ids1: map<Ref, string>, ids2: map<Ref, string>,
                args: seq<Ref>, keys: seq<string>, id: string)
    requires IdsOf(ids1, args, keys) && IdsKept(ids0, ids1) && |keys| < |args|
    requires args[|keys|] in ids2 && ids2[args[|keys|]] == id
    requires ids2 == ids1 || (args[|keys|] !in ids1 && ids2 == ids1[args[|keys|] := id])
    ensures IdsOf(ids2, args, keys + [id]) && IdsKept(ids0, ids2)
  {
  }

  /** `ProcedurePrototype(proccode, warp, arguments)`: a shadow holding each argument
      under the argument's object id (generated now if it has none), and a mutation
      naming the proccode, the arguments' ids, names and defaults, and `warp`. */
  method NewPrototype(g: Graph, proccode: string, warp: bool, args: seq<Ref>) returns (r: Ref, keys: seq<string>)
    requires g.Valid() && ArgsTyped(g.shapes, args)
    modifies g`shapes, g`nextRef, g`ids, g.gen
    ensures g.Valid()
    ensures |keys| == |args| && IdsOf(g.ids, args, keys) && IdsKept(old(g.ids), g.ids)
    ensures r == old(g.nextRef) && r !in old(g.shapes) && g.nextRef == r + 1
    ensures g.shapes == old(g.shapes)[r := Blank(PrototypeK, Some("procedures_prototype"), true)
              .(shadowless := ArgInputs(keys, args), mutation := PrototypeMutation(old(g.shapes), proccode, warp, args))]
  {
    var m;
    keys, m := ObjectIds(g, args);
    assert g.Valid();
    assert ArgsTyped(g.shapes, args);
    var sh := Blank(PrototypeK, Some("procedures_prototype"), true)
      .(shadowless := m, mutation := PrototypeMutation(g.shapes, proccode, warp, args));
    ArgInputsClosed(g.shapes, g.stacks, keys, args, sh);
    r := g.Alloc(sh);
  }

  /** The prototype's first loop: each argument's object id, generated now when it
      has none, and the shadow entries filed under those ids. */
  method ObjectIds(g: Graph, args: seq<Ref>) returns (keys: seq<string>, m: Entries<Option<Ref>>)
    requires ArgsTyped(g.shapes, args)
    modifies g`ids, g.gen
    ensures |keys| == |args| && IdsOf(g.ids, args, keys) && IdsKept(old(g.ids), g.ids)
    ensures m == ArgInputs(keys, args)
  {
    m := [];
    keys := [];
    var i := 0;
    while i < |args|
      invariant 0 <= i <= |args| && |keys| == i
      invariant IdsOf(g.ids, args, keys) && IdsKept(old(g.ids), g.ids)
      invariant m == ArgInputs(keys, args[..i])
    {
      ghost var ids0 := g.ids;
      var id := g.GetId(args[i]);
      IdsGrow(old(g.ids), ids0, g.ids, args, keys, id);
      ArgInputsSnoc(keys, args, id);
      m := Put(m, id, Some(args[i]));
      keys := keys + [id];
      i := i + 1;
    }
    assert args[..i] == args;
  }

  lemma {:induction false} ArgInputsValues(keys: seq<string>, args: seq<Ref>)
    requires |keys| == |args|
    ensures forall v | v in Values(ArgInputs(keys, args)) :: v.Some? && v.value in args
    decreases |args|
  {
    if args != [] {
      var n := |args| - 1;
      ArgInputsValues(keys[..n], args[..n]);
      PutFacts(ArgInputs(keys[..n], args[..n]), keys[n], Some(args[n]));
    }
  }

  lemma ArgInputsClosed(shapes: map<Ref, Shape>, stacks: map<StackRef, Stack>, keys: seq<string>, args: seq<Ref>, sh: Shape)
    requires ArgsTyped(shapes, args) && |keys| == |args|
    requires sh == Blank(PrototypeK, sh.opcode, true).(shadowless := ArgInputs(keys, args), mutation := sh.mutation)
    ensures ShapeClosed(sh, shapes, stacks)
  {
    ArgInputsValues(keys, args);
    assert Values(sh.fields) == {} && Values(sh.paired) == {} && Values(sh.nested) == {};
  }

  // ---- Calls ----

  /** `Procedure`: what `impl` hands back, the prototype and what it was built from. */
  datatype Procedure = Procedure(prototype: Ref, proccode: string, warp: bool, arguments: seq<Ref>)

  /** `ValueInput.TEXT.of("")`: the empty text a string-or-number argument shows. */
  function EmptyText(): (l: Literal)
    ensures l.value == "" && NumericType(l.opcode) == 10
  {
    OfString(TEXT, "")
  }

  /** The call block's mutation: the default entries, then the prototype's argument
      ids, proccode and `warp`. */
  function CallMutation(shapes: map<Ref, Shape>, p: Procedure): Entries<Option<Json>>
    requires ArgsTyped(shapes, p.arguments)
  {
    DEFAULT_MUTATION + [("argumentids", Some(EncodedStrings(ArgumentIds(shapes, p.arguments)))),
                        ("proccode", Some(JStr(p.proccode))),
                        ("warp", Some(EncodedBool(p.warp)))]
  }

  /** A call names the same argument ids, proccode and `warp` as the definition's
      prototype, which is how Scratch links the two. */
  lemma CallMatchesPrototype(shapes: map<Ref, Shape>, p: Procedure, k: string)
    requires ArgsTyped(shapes, p.arguments)
    requires k == "argumentids" || k == "proccode" || k == "warp"
    ensures Get(CallMutation(shapes, p), k).Some?
    ensures Get(CallMutation(shapes, p), k) == Get(PrototypeMutation(shapes, p.proccode, p.warp, p.arguments), k)
  {
    var c := CallMutation(shapes, p);
    var m := PrototypeMutation(shapes, p.proccode, p.warp, p.arguments);
    if k == "argumentids" {
      IndexOfUnique(c, k, 2);
      IndexOfUnique(m, k, 3);
    } else if k == "proccode" {
      IndexOfUnique(c, k, 3);
      IndexOfUnique(m, k, 2);
    } else {
      IndexOfUnique(c, k, 4);
      IndexOfUnique(m, k, 6);
    }
  }

  /** A socket pair holding the empty text shadow and nothing over it. */
  predicate DefaultAt(shapes: map<Ref, Shape>, p: Option<(Ref, Option<Ref>)>)
  {
    p.Some? && p.value.1.None? && p.value.0 in shapes && shapes[p.value.0].kind == LiteralK(EmptyText())
  }

  /** Argument `j` is zipped with an expression that the second loop puts as a pair
      over a new empty text shadow: a string-or-number argument given a value that is
      not a shadow (null included). */
  predicate PairWriter(shapes: map<Ref, Shape>, args: seq<Ref>, exprs: seq<Option<Ref>>, j: nat)
    requires ArgsTyped(shapes, args)
  {
    j < |args| && j < |exprs| && shapes[args[j]].kind.arg == StringNumberArg && !IsShadowValue(shapes, exprs[j])
  }

  /** Argument `j` is zipped with an expression that the second loop puts alone. */
  predicate AloneWriter(shapes: map<Ref, Shape>, args: seq<Ref>, exprs: seq<Option<Ref>>, j: nat)
    requires ArgsTyped(shapes, args)
  {
    j < |args| && j < |exprs| && !PairWriter(shapes, args, exprs, j)
  }

  /** The last of the first `n` arguments whose pair was put under the id `k`. */
  ghost function LastPair(shapes: map<Ref, Shape>, args: seq<Ref>, exprs: seq<Option<Ref>>, n: nat, k: string): (l: Option<nat>)
    requires ArgsTyped(shapes, args)
    ensures l.Some? ==> l.value < n && PairWriter(shapes, args, exprs, l.value) && shapes[args[l.value]].kind.argumentId == k
    decreases n
  {
    if n == 0 then None
    else if PairWriter(shapes, args, exprs, n - 1) && shapes[args[n - 1]].kind.argumentId == k then Some(n - 1)
    else LastPair(shapes, args, exprs, n - 1, k)
  }

  /** The last of the first `n` arguments whose value was put alone under the id `k`. */
  ghost function LastAlone(shapes: map<Ref, Shape>, args: seq<Ref>, exprs: seq<Option<Ref>>, n: nat, k: string): (l: Option<nat>)
    requires ArgsTyped(shapes, args)
    ensures l.Some? ==> l.value < n && AloneWriter(shapes, args, exprs, l.value) && shapes[args[l.value]].kind.argumentId == k
    decreases n
  {
    if n == 0 then None
    else if AloneWriter(shapes, args, exprs, n - 1) && shapes[args[n - 1]].kind.argumentId == k then Some(n - 1)
    else LastAlone(shapes, args, exprs, n - 1, k)
  }

  /** Some string-or-number argument in `[from, n)` has the id `k`: the first loop laid
      the empty text default under `k`. */
  ghost predicate Defaulted(shapes: map<Ref, Shape>, args: seq<Ref>, from: nat, n: nat, k: string)
    requires ArgsTyped(shapes, args)
  {
    exists j | from <= j < n && j < |args| :: shapes[args[j]].kind.arg == StringNumberArg && ArgId(shapes, args, j) == k
  }

  /** Running the first loop one argument further adds at most that argument's id. */
  lemma DefaultedNext(shapes: map<Ref, Shape>, args: seq<Ref>, from: nat, n: nat, k: string)
    requires ArgsTyped(shapes, args)
    ensures Defaulted(shapes, args, from, n + 1, k)
            == (Defaulted(shapes, args, from, n, k)
                || (from <= n < |args| && shapes[args[n]].kind.arg == StringNumberArg && ArgId(shapes, args, n) == k))
  {
    if Defaulted(shapes, args, from, n + 1, k) && !Defaulted(shapes, args, from, n, k) {
      var j :| from <= j < n + 1 && j < |args| && shapes[args[j]].kind.arg == StringNumberArg && ArgId(shapes, args, j) == k;
      assert j == n;
    }
  }

  /** What an argument of kind `ak` given `e` leaves alone in a socket: for a literal
      under a string-or-number argument a new literal with `e`'s text, else `e`. */
  ghost predicate AloneAt(shapes: map<Ref, Shape>, v: Option<Option<Ref>>, ak: ArgKind, e: Option<Ref>)
  {
    if ak == StringNumberArg && IsLiteralValue(shapes, e) then
      v.Some? && v.value.Some? && v.value.value in shapes
      && shapes[v.value.value].kind == LiteralK(Collapsed(shapes[e.value].kind.lit, EmptyText()))
    else v == Some(e)
  }

  /** What the call block's sockets hold under the id `k` once the first loop has run
      over the arguments in `[from, upto)` and the second over the first `given`: the
      paired socket holds the last pair put under `k`, else the empty text default if
      one was laid, else nothing; the shadowless socket holds the last value put alone
      under `k`, else nothing. Arguments sharing an id overwrite each other in order. */
  ghost predicate KeySockets(shapes: map<Ref, Shape>, sh: Shape, args: seq<Ref>, exprs: seq<Option<Ref>>,
                             given: nat, from: nat, upto: nat, k: string)
    requires ArgsTyped(shapes, args)
  {
    var p := Get(sh.paired, k);
    var v := Get(sh.shadowless, k);
    var lp := LastPair(shapes, args, exprs, given, k);
    var la := LastAlone(shapes, args, exprs, given, k);
    && (if lp.Some? then
          p.Some? && p.value.1 == exprs[lp.value] && p.value.0 in shapes && shapes[p.value.0].kind == LiteralK(EmptyText())
        else if Defaulted(shapes, args, from, upto, k) then DefaultAt(shapes, p)
        else p.None?)
    && (if la.Some? then AloneAt(shapes, v, shapes[args[la.value]].kind.arg, exprs[la.value]) else v.None?)
  }

  /** No other argument has argument `i`'s id. */
  predicate KeyUnique(shapes: map<Ref, Shape>, args: seq<Ref>, i: nat)
    requires ArgsTyped(shapes, args) && i < |args|
  {
    forall j | 0 <= j < |args| && j != i :: shapes[args[j]].kind.argumentId != shapes[args[i]].kind.argumentId
  }

  /** An argument whose id no other argument has is the only writer under it. */
  lemma {:induction false} LastOnly(shapes: map<Ref, Shape>, args: seq<Ref>, exprs: seq<Option<Ref>>, from: nat, n: nat, i: nat)
    requires ArgsTyped(shapes, args) && i < |args| && KeyUnique(shapes, args, i)
    ensures var k := shapes[args[i]].kind.argumentId;
      && LastPair(shapes, args, exprs, n, k) == (if i < n && PairWriter(shapes, args, exprs, i) then Some(i) else None)
      && LastAlone(shapes, args, exprs, n, k) == (if i < n && AloneWriter(shapes, args, exprs, i) then Some(i) else None)
      && Defaulted(shapes, args, from, n, k) == (from <= i < n && shapes[args[i]].kind.arg == StringNumberArg)
    decreases n
  {
    if n > 0 {
      LastOnly(shapes, args, exprs, from, n - 1, i);
      if n - 1 < |args| && n - 1 != i {
        assert shapes[args[n - 1]].kind.argumentId != shapes[args[i]].kind.argumentId;
      }
    }
  }

  /** The last argument with its id, if it was put alone, is the one under the id. */
  lemma {:induction false} LastAloneIs(shapes: map<Ref, Shape>, args: seq<Ref>, exprs: seq<Option<Ref>>, n: nat, j: nat)
    requires ArgsTyped(shapes, args) && j < n && AloneWriter(shapes, args, exprs, j)
    requires forall m | j < m < |args| :: shapes[args[m]].kind.argumentId != shapes[args[j]].kind.argumentId
    ensures LastAlone(shapes, args, exprs, n, shapes[args[j]].kind.argumentId) == Some(j)
    decreases n
  {
    if n - 1 != j {
      LastAloneIs(shapes, args, exprs, n - 1, j);
    }
  }

  /** Past the last expression no argument writes. */
  lemma {:induction false} LastBeyond(shapes: map<Ref, Shape>, args: seq<Ref>, exprs: seq<Option<Ref>>, n: nat, k: string)
    requires ArgsTyped(shapes, args) && |exprs| <= n
    ensures LastPair(shapes, args, exprs, n, k) == LastPair(shapes, args, exprs, |exprs|, k)
    ensures LastAlone(shapes, args, exprs, n, k) == LastAlone(shapes, args, exprs, |exprs|, k)
    decreases n
  {
    if n > |exprs| {
      LastBeyond(shapes, args, exprs, n - 1, k);
    }
  }

  /** Objects that keep their kinds keep who writes what under every id. */
  lemma {:induction false} WritersKept(s0: map<Ref, Shape>, s1: map<Ref, Shape>, args: seq<Ref>, exprs: seq<Option<Ref>>,
                                       from: nat, n: nat, k: string)
    requires KindsKept(s0, s1) && ArgsTyped(s0, args) && ExprsTyped(s0, exprs)
    ensures ArgsTyped(s1, args)
    ensures LastPair(s0, args, exprs, n, k) == LastPair(s1, args, exprs, n, k)
    ensures LastAlone(s0, args, exprs, n, k) == LastAlone(s1, args, exprs, n, k)
    ensures Defaulted(s0, args, from, n, k) == Defaulted(s1, args, from, n, k)
    decreases n
  {
    if n > 0 {
      WritersKept(s0, s1, args, exprs, from, n - 1, k);
      if n - 1 < |args| && n - 1 < |exprs| {
        assert s1[args[n - 1]].kind == s0[args[n - 1]].kind;
        assert IsShadowValue(s0, exprs[n - 1]) == IsShadowValue(s1, exprs[n - 1]);
      }
    }
  }

  /** The call's expressions are expressions of the graph. */
  predicate ExprsTyped(shapes: map<Ref, Shape>, exprs: seq<Option<Ref>>)
  {
    forall i | 0 <= i < |exprs| && exprs[i].Some? :: exprs[i].value in shapes && IsExpression(shapes[exprs[i].value].kind)
  }

  /** The socket state of the call block under every argument's id. */
  ghost predicate CallSockets(shapes: map<Ref, Shape>, sh: Shape, args: seq<Ref>, exprs: seq<Option<Ref>>,
                              given: nat, from: nat, upto: nat)
    requires ArgsTyped(shapes, args)
  {
    forall j {:trigger ArgId(shapes, args, j)} | 0 <= j < |args| :: KeySockets(shapes, sh, args, exprs, given, from, upto, ArgId(shapes, args, j))
  }

  /** The socket maps stay maps of expressions with distinct names. */
  ghost predicate SocketsSound(shapes: map<Ref, Shape>, sh: Shape)
  {
    ShadowlessTyped(shapes, sh.shadowless) && PairedTyped(shapes, sh.paired) && NoDup(sh.shadowless) && NoDup(sh.paired)
  }

  lemma ShadowlessPut(shapes: map<Ref, Shape>, m: Entries<Option<Ref>>, k: string, v: Option<Ref>)
    requires ShadowlessTyped(shapes, m) && (v.Some? ==> v.value in shapes && IsExpression(shapes[v.value].kind))
    ensures ShadowlessTyped(shapes, Put(m, k, v))
  {
    PutFacts(m, k, v);
    var r := Put(m, k, v);
    forall i | 0 <= i < |r| && r[i].1.Some? ensures r[i].1.value in shapes && IsExpression(shapes[r[i].1.value].kind) {
      assert r[i].1 in Values(r);
      if r[i].1 != v {
        var j :| 0 <= j < |m| && m[j].1 == r[i].1;
      }
    }
  }

  lemma PairedPut(shapes: map<Ref, Shape>, m: Entries<(Ref, Option<Ref>)>, k: string, v: (Ref, Option<Ref>))
    requires PairedTyped(shapes, m)
    requires v.0 in shapes && IsShadowExpression(shapes[v.0].kind)
    requires v.1.Some? ==> v.1.value in shapes && IsExpression(shapes[v.1.value].kind)
    ensures PairedTyped(shapes, Put(m, k, v))
  {
    PutFacts(m, k, v);
    var r := Put(m, k, v);
    forall i | 0 <= i < |r|
      ensures r[i].1.0 in shapes && IsShadowExpression(shapes[r[i].1.0].kind)
      ensures r[i].1.1.Some? ==> r[i].1.1.value in shapes && IsExpression(shapes[r[i].1.1.value].kind)
    {
      assert r[i].1 in Values(r);
      if r[i].1 != v {
        var j :| 0 <= j < |m| && m[j].1 == r[i].1;
      }
    }
  }

  /** Every object of `s0` is in `s1`, of the same kind. */
  ghost predicate KindsKept(s0: map<Ref, Shape>, s1: map<Ref, Shape>)
  {
    forall x | x in s0 :: x in s1 && s1[x].kind == s0[x].kind
  }

  /** Every object of `s0` but `r` is in `s1` unchanged; `r` is there too. */
  ghost predicate GrowsBesides(s0: map<Ref, Shape>, s1: map<Ref, Shape>, r: Ref)
  {
    forall x | x in s0 :: x in s1 && (x != r ==> s1[x] == s0[x])
  }

  lemma KindsKeptUpdate(s0: map<Ref, Shape>, s1: map<Ref, Shape>, r: Ref, sh: Shape)
    requires Grows(s0, s1) && r in s0 && sh.kind == s0[r].kind
    ensures KindsKept(s0, s1[r := sh]) && GrowsBesides(s0, s1[r := sh], r)
  {
  }

  /** Adding objects, or changing an object's state but not its kind, keeps the
      sockets' typing and the socket facts under every id. */
  lemma SocketsGrow(s0: map<Ref, Shape>, s1: map<Ref, Shape>, sh: Shape, args: seq<Ref>, exprs: seq<Option<Ref>>,
                    given: nat, from: nat, upto: nat)
    requires KindsKept(s0, s1) && ArgsTyped(s0, args) && ExprsTyped(s0, exprs)
    requires SocketsSound(s0, sh) && CallSockets(s0, sh, args, exprs, given, from, upto)
    ensures ArgsTyped(s1, args) && ExprsTyped(s1, exprs)
    ensures SocketsSound(s1, sh) && CallSockets(s1, sh, args, exprs, given, from, upto)
  {
    forall j | 0 <= j < |args|
      ensures KeySockets(s1, sh, args, exprs, given, from, upto, ArgId(s1, args, j))
    {
      var k := ArgId(s0, args, j);
      assert s1[args[j]].kind == s0[args[j]].kind;
      assert KeySockets(s0, sh, args, exprs, given, from, upto, k);
      WritersKept(s0, s1, args, exprs, from, given, k);
      WritersKept(s0, s1, args, exprs, from, upto, k);
      var lp := LastPair(s0, args, exprs, given, k);
      var la := LastAlone(s0, args, exprs, given, k);
      if la.Some? {
        var e := exprs[la.value];
        assert s1[args[la.value]].kind == s0[args[la.value]].kind;
        assert IsLiteralValue(s0, e) ==> s1[e.value] .kind == s0[e.value].kind;
      }
    }
  }

  /** A put under argument `i`'s id leaves the socket facts under every other id. */
  lemma SocketsOthers(shapes: map<Ref, Shape>, sh: Shape, sh': Shape, args: seq<Ref>, exprs: seq<Option<Ref>>,
                      given: nat, from: nat, upto: nat, given': nat, upto': nat, i: nat)
    requires ArgsTyped(shapes, args) && i < |args|
    requires CallSockets(shapes, sh, args, exprs, given, from, upto)
    requires forall k | k != shapes[args[i]].kind.argumentId :: Get(sh'.paired, k) == Get(sh.paired, k) && Get(sh'.shadowless, k) == Get(sh.shadowless, k)
    requires given' == given || (given == i && given' == i + 1)
    requires upto' == upto || (upto == i && upto' == i + 1)
    requires KeySockets(shapes, sh', args, exprs, given', from, upto', shapes[args[i]].kind.argumentId)
    ensures CallSockets(shapes, sh', args, exprs, given', from, upto')
  {
    forall j | 0 <= j < |args|
      ensures KeySockets(shapes, sh', args, exprs, given', from, upto', ArgId(shapes, args, j))
    {
      var k := ArgId(shapes, args, j);
      if k != shapes[args[i]].kind.argumentId {
        assert KeySockets(shapes, sh, args, exprs, given, from, upto, k);
        assert LastPair(shapes, args, exprs, given', k) == LastPair(shapes, args, exprs, given, k);
        assert LastAlone(shapes, args, exprs, given', k) == LastAlone(shapes, args, exprs, given, k);
        if upto' != upto {
          DefaultedNext(shapes, args, from, upto, k);
        }
      }
    }
  }

  /** `sh'` is the call block `sh` changed only in its sockets and only under argument
      `i`'s id, where it meets argument `i`'s socket facts for the loops' new positions. */
  ghost predicate PutUnder(s: map<Ref, Shape>, sh: Shape, sh': Shape, args: seq<Ref>, exprs: seq<Option<Ref>>,
                           given: nat, from: nat, upto: nat, i: nat)
    requires ArgsTyped(s, args) && i < |args|
  {
    && SameElse(sh, sh') && SocketsSound(s, sh')
    && (forall k | k != ArgId(s, args, i) :: Get(sh'.paired, k) == Get(sh.paired, k) && Get(sh'.shadowless, k) == Get(sh.shadowless, k))
    && KeySockets(s, sh', args, exprs, given, from, upto, ArgId(s, args, i))
  }

  /** Laying the empty text default under argument `i`'s id meets its socket facts. */
  lemma DefaultKey(s: map<Ref, Shape>, sh: Shape, args: seq<Ref>, exprs: seq<Option<Ref>>, from: nat, i: nat, t: Ref)
    requires ArgsTyped(s, args) && from <= i < |args| && s[args[i]].kind.arg == StringNumberArg
    requires SocketsSound(s, sh) && KeySockets(s, sh, args, exprs, 0, from, i, ArgId(s, args, i))
    requires t in s && s[t].kind == LiteralK(EmptyText())
    ensures PutUnder(s, sh, sh.(paired := Put(sh.paired, ArgId(s, args, i), (t, None))), args, exprs, 0, from, i + 1, i)
  {
    var k := ArgId(s, args, i);
    PutFacts(sh.paired, k, (t, None));
    PairedPut(s, sh.paired, k, (t, None));
    assert Defaulted(s, args, from, i + 1, k);
  }

  /** Putting argument `i`'s pair under its id meets its socket facts. */
  lemma PairKey(s: map<Ref, Shape>, sh: Shape, args: seq<Ref>, exprs: seq<Option<Ref>>, from: nat, i: nat, t: Ref)
    requires ArgsTyped(s, args) && ExprsTyped(s, exprs) && PairWriter(s, args, exprs, i)
    requires SocketsSound(s, sh) && KeySockets(s, sh, args, exprs, i, from, |args|, ArgId(s, args, i))
    requires t in s && s[t].kind == LiteralK(EmptyText())
    ensures PutUnder(s, sh, sh.(paired := Put(sh.paired, ArgId(s, args, i), (t, exprs[i]))), args, exprs, i + 1, from, |args|, i)
  {
    var k := ArgId(s, args, i);
    PutFacts(sh.paired, k, (t, exprs[i]));
    PairedPut(s, sh.paired, k, (t, exprs[i]));
    assert LastPair(s, args, exprs, i + 1, k) == Some(i);
    assert LastAlone(s, args, exprs, i + 1, k) == LastAlone(s, args, exprs, i, k);
  }

  /** Putting argument `i`'s value alone under its id meets its socket facts. */
  lemma AloneKey(s: map<Ref, Shape>, sh: Shape, args: seq<Ref>, exprs: seq<Option<Ref>>, from: nat, i: nat, v: Option<Ref>)
    requires ArgsTyped(s, args) && AloneWriter(s, args, exprs, i)
    requires SocketsSound(s, sh) && KeySockets(s, sh, args, exprs, i, from, |args|, ArgId(s, args, i))
    requires v.Some? ==> v.value in s && IsExpression(s[v.value].kind)
    requires AloneAt(s, Some(v), s[args[i]].kind.arg, exprs[i])
    ensures PutUnder(s, sh, sh.(shadowless := Put(sh.shadowless, ArgId(s, args, i), v)), args, exprs, i + 1, from, |args|, i)
  {
    var k := ArgId(s, args, i);
    PutFacts(sh.shadowless, k, v);
    ShadowlessPut(s, sh.shadowless, k, v);
    assert LastPair(s, args, exprs, i + 1, k) == LastPair(s, args, exprs, i, k);
    assert LastAlone(s, args, exprs, i + 1, k) == Some(i);
  }

  /** The call block's state outside its socket maps stays as it was. */
  ghost predicate SameElse(sh: Shape, sh': Shape)
  {
    sh' == sh.(paired := sh'.paired, shadowless := sh'.shadowless)
  }

  /** Everything the two loops of `Procedure.call` keep about the call block `r`. */
  ghost predicate CallState(s: map<Ref, Shape>, r: Ref, args: seq<Ref>, exprs: seq<Option<Ref>>, given: nat, from: nat, upto: nat)
  {
    && r in s && ArgsTyped(s, args) && ExprsTyped(s, exprs)
    && SocketsSound(s, s[r]) && CallSockets(s, s[r], args, exprs, given, from, upto)
  }

  lemma GrowsBesidesTrans(s0: map<Ref, Shape>, s1: map<Ref, Shape>, s2: map<Ref, Shape>, r: Ref)
    requires GrowsBesides(s0, s1, r) && GrowsBesides(s1, s2, r)
    ensures GrowsBesides(s0, s2, r)
  {
  }

  /** What one step of either loop of `Procedure.call` does: only the call block
      changes beyond growth, and only in its sockets, which now stand as `CallState`
      says for the loops' new positions. */
  ghost predicate Stepped(s0: map<Ref, Shape>, s1: map<Ref, Shape>, r: Ref, args: seq<Ref>, exprs: seq<Option<Ref>>,
                          given: nat, from: nat, upto: nat)
  {
    && r in s0 && r in s1 && GrowsBesides(s0, s1, r) && SameElse(s0[r], s1[r])
    && CallState(s1, r, args, exprs, given, from, upto)
  }

  /** A step of either loop, given the new state `sh'` of the call block over the
      objects `s1`: if the block changed only under argument `i`'s id, in a way that
      meets argument `i`'s socket facts, everything the loops keep still holds. */
  lemma Step(s0: map<Ref, Shape>, s1: map<Ref, Shape>, r: Ref, sh': Shape, args: seq<Ref>, exprs: seq<Option<Ref>>,
             given: nat, from: nat, upto: nat, given': nat, upto': nat, i: nat)
    requires CallState(s0, r, args, exprs, given, from, upto) && Grows(s0, s1) && ArgsTyped(s1, args) && i < |args|
    requires given' == given || (given == i && given' == i + 1)
    requires upto' == upto || (upto == i && upto' == i + 1)
    requires PutUnder(s1, s0[r], sh', args, exprs, given', from, upto', i)
    ensures Stepped(s0, s1[r := sh'], r, args, exprs, given', from, upto')
  {
    var sh0 := s0[r];
    SocketsGrow(s0, s1, sh0, args, exprs, given, from, upto);
    SocketsOthers(s1, sh0, sh', args, exprs, given, from, upto, given', upto', i);
    var s2 := s1[r := sh'];
    KindsKeptUpdate(s1, s1, r, sh');
    SocketsGrow(s1, s2, sh', args, exprs, given', from, upto');
  }

  /** The state after one step of the first loop. */
  lemma DefaultStep(s0: map<Ref, Shape>, r: Ref, args: seq<Ref>, exprs: seq<Option<Ref>>, from: nat, i: nat, t: Ref)
    requires CallState(s0, r, args, exprs, 0, from, i) && from <= i < |args| && t !in s0
    requires s0[args[i]].kind.arg == StringNumberArg
    ensures var k := s0[args[i]].kind.argumentId;
      var s1 := s0[t := LiteralShape(EmptyText())];
      var s2 := s1[r := s0[r].(paired := Put(s0[r].paired, k, (t, None)))];
      Stepped(s0, s2, r, args, exprs, 0, from, i + 1)
  {
    var s1 := s0[t := LiteralShape(EmptyText())];
    DefaultUnder(s0, s1, r, args, exprs, from, i, t);
    var sh' := s0[r].(paired := Put(s0[r].paired, ArgId(s1, args, i), (t, None)));
    Step(s0, s1, r, sh', args, exprs, 0, from, i, 0, i + 1, i);
  }

  /** The call block after the empty text default of argument `i` is laid. */
  lemma DefaultUnder(s0: map<Ref, Shape>, s1: map<Ref, Shape>, r: Ref, args: seq<Ref>, exprs: seq<Option<Ref>>, from: nat, i: nat, t: Ref)
    requires CallState(s0, r, args, exprs, 0, from, i) && from <= i < |args| && t !in s0
    requires s0[args[i]].kind.arg == StringNumberArg
    requires s1 == s0[t := LiteralShape(EmptyText())]
    ensures Grows(s0, s1) && ArgsTyped(s1, args) && ArgId(s1, args, i) == s0[args[i]].kind.argumentId
    ensures PutUnder(s1, s0[r], s0[r].(paired := Put(s0[r].paired, ArgId(s1, args, i), (t, None))), args, exprs, 0, from, i + 1, i)
  {
    SocketsGrow(s0, s1, s0[r], args, exprs, 0, from, i);
    DefaultKey(s1, s0[r], args, exprs, from, i, t);
  }

  /** A boolean argument is skipped by the first loop. */
  lemma SkipStep(s0: map<Ref, Shape>, r: Ref, args: seq<Ref>, exprs: seq<Option<Ref>>, from: nat, i: nat)
    requires CallState(s0, r, args, exprs, 0, from, i) && from <= i < |args|
    requires s0[args[i]].kind.arg != StringNumberArg
    ensures CallState(s0, r, args, exprs, 0, from, i + 1)
  {
    assert KeySockets(s0, s0[r], args, exprs, 0, from, i, ArgId(s0, args, i));
    SocketsOthers(s0, s0[r], s0[r], args, exprs, 0, from, i, 0, i + 1, i);
  }

  /** One step of the first loop of `Procedure.call`: a string-or-number argument gets
      the pair (empty text, null) under its id; a boolean argument gets nothing (`s0` is
      the state before the loop). */
  method DefaultOne(g: Graph, r: Ref, args: seq<Ref>, exprs: seq<Option<Ref>>, from: nat, i: nat, ghost s0: map<Ref, Shape>)
    requires Filling(s0, g, r, args, exprs, 0, from, i) && from <= i < |args|
    modifies g`shapes, g`nextRef
    ensures Filling(s0, g, r, args, exprs, 0, from, i + 1)
  {
    ghost var s := g.shapes;
    if g.shapes[args[i]].kind.arg == StringNumberArg {
      var k := g.shapes[args[i]].kind.argumentId;
      var t := NewLiteral(g, EmptyText());
      WithExpression(g, r, k, None, Some(t));
      DefaultStep(s, r, args, exprs, from, i, t);
      GrowsBesidesTrans(s0, s, g.shapes, r);
    } else {
      SkipStep(g.shapes, r, args, exprs, from, i);
    }
  }

  /** What the two loops of `Procedure.call` keep: the graph valid, only the call
      block changed beyond growth, and its sockets as `CallState` says. */
  ghost predicate Filling(s0: map<Ref, Shape>, g: Graph, r: Ref, args: seq<Ref>, exprs: seq<Option<Ref>>,
                          given: nat, from: nat, upto: nat)
    reads g
  {
    && g.Valid() && GrowsBesides(s0, g.shapes, r) && r in s0 && r in g.shapes && SameElse(s0[r], g.shapes[r])
    && CallState(g.shapes, r, args, exprs, given, from, upto)
  }

  /** The first loop of `Procedure.call`, over the arguments from `from` on. */
  method DefaultArgs(g: Graph, r: Ref, args: seq<Ref>, exprs: seq<Option<Ref>>, from: nat)
    requires g.Valid() && CallState(g.shapes, r, args, exprs, 0, from, from) && from <= |args|
    modifies g`shapes, g`nextRef
    ensures g.Valid() && GrowsBesides(old(g.shapes), g.shapes, r) && SameElse(old(g.shapes[r]), g.shapes[r])
    ensures CallState(g.shapes, r, args, exprs, 0, from, |args|)
  {
    var i := from;
    while i < |args|
      invariant from <= i <= |args|
      invariant Filling(old(g.shapes), g, r, args, exprs, 0, from, i)
    {
      DefaultOne(g, r, args, exprs, from, i, old(g.shapes));
      i := i + 1;
    }
  }

  /** Step of the second loop: a string-or-number argument given a value that is not
      a shadow gets the pair (empty text, value). */
  lemma PairStep(s0: map<Ref, Shape>, r: Ref, args: seq<Ref>, exprs: seq<Option<Ref>>, from: nat, i: nat, t: Ref)
    requires CallState(s0, r, args, exprs, i, from, |args|) && i < |args| && i < |exprs| && t !in s0
    requires s0[args[i]].kind.arg == StringNumberArg && !IsShadowValue(s0, exprs[i])
    ensures var k := s0[args[i]].kind.argumentId;
      var s1 := s0[t := LiteralShape(EmptyText())];
      var s2 := s1[r := s0[r].(paired := Put(s0[r].paired, k, (t, exprs[i])))];
      Stepped(s0, s2, r, args, exprs, i + 1, from, |args|)
  {
    var s1 := s0[t := LiteralShape(EmptyText())];
    PairUnder(s0, s1, r, args, exprs, from, i, t);
    var sh' := s0[r].(paired := Put(s0[r].paired, ArgId(s1, args, i), (t, exprs[i])));
    Step(s0, s1, r, sh', args, exprs, i, from, |args|, i + 1, |args|, i);
  }

  /** The call block after the pair of argument `i` is put, over the new empty text
      shadow `t`. */
  lemma PairUnder(s0: map<Ref, Shape>, s1: map<Ref, Shape>, r: Ref, args: seq<Ref>, exprs: seq<Option<Ref>>, from: nat, i: nat, t: Ref)
    requires CallState(s0, r, args, exprs, i, from, |args|) && i < |args| && i < |exprs| && t !in s0
    requires s0[args[i]].kind.arg == StringNumberArg && !IsShadowValue(s0, exprs[i])
    requires s1 == s0[t := LiteralShape(EmptyText())]
    ensures Grows(s0, s1) && ArgsTyped(s1, args) && ArgId(s1, args, i) == s0[args[i]].kind.argumentId
    ensures PutUnder(s1, s0[r], s0[r].(paired := Put(s0[r].paired, ArgId(s1, args, i), (t, exprs[i]))), args, exprs, i + 1, from, |args|, i)
  {
    SocketsGrow(s0, s1, s0[r], args, exprs, i, from, |args|);
    assert !IsShadowValue(s1, exprs[i]);
    PairKey(s1, s0[r], args, exprs, from, i, t);
  }

  /** Step of the second loop: a string-or-number argument given a literal gets a new
      literal, the value's text with the shadow's opcode, alone. */
  lemma CollapseStep(s0: map<Ref, Shape>, r: Ref, args: seq<Ref>, exprs: seq<Option<Ref>>, from: nat, i: nat, t: Ref, n: Ref)
    requires CallState(s0, r, args, exprs, i, from, |args|) && i < |args| && i < |exprs| && t !in s0 && n !in s0 && n != t
    requires s0[args[i]].kind.arg == StringNumberArg && IsLiteralValue(s0, exprs[i])
    ensures var k := s0[args[i]].kind.argumentId;
      var s1 := s0[t := LiteralShape(EmptyText())][n := LiteralShape(Collapsed(s0[exprs[i].value].kind.lit, EmptyText()))];
      var s2 := s1[r := s0[r].(shadowless := Put(s0[r].shadowless, k, Some(n)))];
      Stepped(s0, s2, r, args, exprs, i + 1, from, |args|)
  {
    var s1 := s0[t := LiteralShape(EmptyText())][n := LiteralShape(Collapsed(s0[exprs[i].value].kind.lit, EmptyText()))];
    assert s1[exprs[i].value] == s0[exprs[i].value];
    AloneUnder(s0, s1, r, args, exprs, from, i, Some(n));
    var sh' := s0[r].(shadowless := Put(s0[r].shadowless, ArgId(s1, args, i), Some(n)));
    Step(s0, s1, r, sh', args, exprs, i, from, |args|, i + 1, |args|, i);
  }

  /** Step of the second loop: any other value goes alone (`s1` is the state after the
      unused empty text shadow, if one was made). */
  lemma AloneStep(s0: map<Ref, Shape>, s1: map<Ref, Shape>, r: Ref, args: seq<Ref>, exprs: seq<Option<Ref>>, from: nat, i: nat)
    requires CallState(s0, r, args, exprs, i, from, |args|) && i < |args| && i < |exprs| && Grows(s0, s1)
    requires s0[args[i]].kind.arg == StringNumberArg ==> IsShadowValue(s0, exprs[i]) && !IsLiteralValue(s0, exprs[i])
    ensures var k := s0[args[i]].kind.argumentId;
      var s2 := s1[r := s0[r].(shadowless := Put(s0[r].shadowless, k, exprs[i]))];
      Stepped(s0, s2, r, args, exprs, i + 1, from, |args|)
  {
    assert exprs[i].Some? ==> s1[exprs[i].value] == s0[exprs[i].value];
    AloneUnder(s0, s1, r, args, exprs, from, i, exprs[i]);
    var sh' := s0[r].(shadowless := Put(s0[r].shadowless, ArgId(s1, args, i), exprs[i]));
    Step(s0, s1, r, sh', args, exprs, i, from, |args|, i + 1, |args|, i);
  }

  /** The call block after argument `i`'s value `v` is put alone, over the objects `s1`. */
  lemma AloneUnder(s0: map<Ref, Shape>, s1: map<Ref, Shape>, r: Ref, args: seq<Ref>, exprs: seq<Option<Ref>>, from: nat, i: nat, v: Option<Ref>)
    requires CallState(s0, r, args, exprs, i, from, |args|) && i < |args| && i < |exprs| && Grows(s0, s1)
    requires AloneWriter(s0, args, exprs, i)
    requires v.Some? ==> v.value in s1 && IsExpression(s1[v.value].kind)
    requires AloneAt(s1, Some(v), s0[args[i]].kind.arg, exprs[i])
    ensures ArgsTyped(s1, args) && ArgId(s1, args, i) == s0[args[i]].kind.argumentId
    ensures PutUnder(s1, s0[r], s0[r].(shadowless := Put(s0[r].shadowless, ArgId(s1, args, i), v)), args, exprs, i + 1, from, |args|, i)
  {
    SocketsGrow(s0, s1, s0[r], args, exprs, i, from, |args|);
    assert exprs[i].Some? ==> s1[exprs[i].value] == s0[exprs[i].value];
    AloneKey(s1, s0[r], args, exprs, from, i, v);
  }

  /** One step of the second loop for a string-or-number argument: `exprs[i]` over a
      new empty text shadow. */
  method SupplyText(g: Graph, r: Ref, args: seq<Ref>, exprs: seq<Option<Ref>>, from: nat, i: nat)
    requires g.Valid() && CallState(g.shapes, r, args, exprs, i, from, |args|) && i < |args| && i < |exprs|
    requires g.shapes[args[i]].kind.arg == StringNumberArg
    modifies g`shapes, g`nextRef
    ensures g.Valid() && Stepped(old(g.shapes), g.shapes, r, args, exprs, i + 1, from, |args|)
  {
    ghost var s0 := g.shapes;
    var k := g.shapes[args[i]].kind.argumentId;
    var e := exprs[i];
    var t := NewLiteral(g, EmptyText());
    ghost var s1 := g.shapes;
    ghost var n := g.nextRef;
    assert IsLiteralValue(s1, Some(t));
    WithExpression(g, r, k, e, Some(t));
    TextStep(s0, s1, g.shapes, r, args, exprs, from, i, t, n);
  }

  /** The three outcomes of `withExpression` over the new empty text shadow `t`, each
      one step of the second loop. */
  lemma TextStep(s0: map<Ref, Shape>, s1: map<Ref, Shape>, s2: map<Ref, Shape>, r: Ref, args: seq<Ref>,
                 exprs: seq<Option<Ref>>, from: nat, i: nat, t: Ref, n: Ref)
    requires CallState(s0, r, args, exprs, i, from, |args|) && i < |args| && i < |exprs|
    requires s0[args[i]].kind.arg == StringNumberArg
    requires t !in s0 && s1 == s0[t := LiteralShape(EmptyText())]
    requires var k, e := s0[args[i]].kind.argumentId, exprs[i];
      && (!IsShadowValue(s1, e) ==> s2 == s1[r := s1[r].(paired := Put(s1[r].paired, k, (t, e)))])
      && (IsShadowValue(s1, e) && IsLiteralValue(s1, e) ==>
            n !in s1 && s2 == s1[n := LiteralShape(Collapsed(s1[e.value].kind.lit, s1[t].kind.lit))]
                               [r := s1[r].(shadowless := Put(s1[r].shadowless, k, Some(n)))])
      && (IsShadowValue(s1, e) && !IsLiteralValue(s1, e) ==> s2 == s1[r := s1[r].(shadowless := Put(s1[r].shadowless, k, e))])
    ensures Stepped(s0, s2, r, args, exprs, i + 1, from, |args|)
  {
    var e := exprs[i];
    assert IsShadowValue(s1, e) == IsShadowValue(s0, e) && IsLiteralValue(s1, e) == IsLiteralValue(s0, e);
    if !IsShadowValue(s1, e) {
      PairStep(s0, r, args, exprs, from, i, t);
    } else if IsLiteralValue(s1, e) {
      assert s1[e.value] == s0[e.value] && s1[t].kind.lit == EmptyText();
      CollapseStep(s0, r, args, exprs, from, i, t, n);
    } else {
      AloneStep(s0, s1, r, args, exprs, from, i);
    }
  }

  /** One step of the second loop for a boolean argument: `exprs[i]` alone. */
  method SupplyBoolean(g: Graph, r: Ref, args: seq<Ref>, exprs: seq<Option<Ref>>, from: nat, i: nat)
    requires g.Valid() && CallState(g.shapes, r, args, exprs, i, from, |args|) && i < |args| && i < |exprs|
    requires g.shapes[args[i]].kind.arg != StringNumberArg
    modifies g`shapes, g`nextRef
    ensures g.Valid() && Stepped(old(g.shapes), g.shapes, r, args, exprs, i + 1, from, |args|)
  {
    ghost var s0 := g.shapes;
    WithExpression(g, r, g.shapes[args[i]].kind.argumentId, exprs[i], None);
    AloneStep(s0, s0, r, args, exprs, from, i);
  }

  /** One step of the second loop of `Procedure.call`. */
  method SupplyOne(g: Graph, r: Ref, args: seq<Ref>, exprs: seq<Option<Ref>>, from: nat, i: nat)
    requires g.Valid() && CallState(g.shapes, r, args, exprs, i, from, |args|) && i < |args| && i < |exprs|
    modifies g`shapes, g`nextRef
    ensures g.Valid() && Stepped(old(g.shapes), g.shapes, r, args, exprs, i + 1, from, |args|)
  {
    if g.shapes[args[i]].kind.arg == StringNumberArg {
      SupplyText(g, r, args, exprs, from, i);
    } else {
      SupplyBoolean(g, r, args, exprs, from, i);
    }
  }

  /** The second loop of `Procedure.call`: the arguments zipped with the expressions. */
  method SupplyArgs(g: Graph, r: Ref, args: seq<Ref>, exprs: seq<Option<Ref>>, from: nat)
    requires g.Valid() && CallState(g.shapes, r, args, exprs, 0, from, |args|)
    modifies g`shapes, g`nextRef
    ensures g.Valid() && GrowsBesides(old(g.shapes), g.shapes, r) && SameElse(old(g.shapes[r]), g.shapes[r])
    ensures CallState(g.shapes, r, args, exprs, |args|, from, |args|)
  {
    var n := if |args| < |exprs| then |args| else |exprs|;
    for i := 0 to n
      invariant Filling(old(g.shapes), g, r, args, exprs, i, from, |args|)
    {
      ghost var s := g.shapes;
      SupplyOne(g, r, args, exprs, from, i);
      GrowsBesidesTrans(old(g.shapes), s, g.shapes, r);
    }
    if n < |args| {
      GivenBeyond(g.shapes, r, args, exprs, n, from);
    } else {
      assert n == |args|;
    }
  }

  /** Past the last expression, a larger `given` changes nothing. */
  lemma GivenBeyond(s: map<Ref, Shape>, r: Ref, args: seq<Ref>, exprs: seq<Option<Ref>>, given: nat, from: nat)
    requires CallState(s, r, args, exprs, given, from, |args|) && |exprs| <= given <= |args|
    ensures CallState(s, r, args, exprs, |args|, from, |args|)
  {
    forall j | 0 <= j < |args|
      ensures KeySockets(s, s[r], args, exprs, |args|, from, |args|, ArgId(s, args, j))
    {
      var k := ArgId(s, args, j);
      assert KeySockets(s, s[r], args, exprs, given, from, |args|, k);
      LastBeyond(s, args, exprs, given, k);
      LastBeyond(s, args, exprs, |args|, k);
    }
  }

  /** The mutation `Procedure.call` writes into the fresh block, key by key. */
  lemma CallMutationPuts(shapes: map<Ref, Shape>, p: Procedure)
    requires ArgsTyped(shapes, p.arguments)
    ensures Put(Put(Put(Put(Put([], "tagName", Some(JStr("mutation"))), "children", Some(JArr([]))),
              "argumentids", Some(EncodedStrings(ArgumentIds(shapes, p.arguments)))),
              "proccode", Some(JStr(p.proccode))),
              "warp", Some(EncodedBool(p.warp))) == CallMutation(shapes, p)
  {
    var d := DEFAULT_MUTATION;
    var a := ("argumentids", Some(EncodedStrings(ArgumentIds(shapes, p.arguments))));
    var c := ("proccode", Some(JStr(p.proccode)));
    DefaultMutationOfEmpty();
    PutFresh(d, a.0, a.1);
    PutFresh(d + [a], c.0, c.1);
    PutFresh(d + [a] + [c], "warp", Some(EncodedBool(p.warp)));
  }

  lemma GrowsFresh(s0: map<Ref, Shape>, s1: map<Ref, Shape>, r: Ref)
    requires GrowsBesides(s0, s1, r) && r !in s0
    ensures Grows(s0, s1)
  {
  }

  /** The call block before its sockets are filled. */
  function CallShape(shapes: map<Ref, Shape>, p: Procedure): Shape
    requires ArgsTyped(shapes, p.arguments)
  {
    Blank(Plain, Some("procedures_call"), false).(mutation := CallMutation(shapes, p))
  }

  /** The first part of `Procedure.call`: a new `procedures_call` block, given the
      default mutation and then the prototype's argument ids, proccode and `warp`. */
  method NewCallBlock(g: Graph, p: Procedure) returns (r: Ref)
    requires g.Valid() && ArgsTyped(g.shapes, p.arguments)
    modifies g`shapes, g`nextRef
    ensures g.Valid() && r !in old(g.shapes) && g.shapes == old(g.shapes)[r := CallShape(old(g.shapes), p)]
  {
    var sh := Blank(Plain, Some("procedures_call"), false);
    var m := Put(Put(sh.mutation, "tagName", Some(JStr("mutation"))), "children", Some(JArr([])));
    m := Put(m, "argumentids", Some(EncodedStrings(ArgumentIds(g.shapes, p.arguments))));
    m := Put(m, "proccode", Some(JStr(p.proccode)));
    m := Put(m, "warp", Some(EncodedBool(p.warp)));
    CallMutationPuts(g.shapes, p);
    r := g.Alloc(sh.(mutation := m));
  }

  /** A call block with empty sockets meets every argument's socket facts before
      either loop has run. */
  lemma CallStateFresh(s0: map<Ref, Shape>, r: Ref, p: Procedure, exprs: seq<Option<Ref>>, from: nat)
    requires ArgsTyped(s0, p.arguments) && ExprsTyped(s0, exprs) && r !in s0
    ensures CallState(s0[r := CallShape(s0, p)], r, p.arguments, exprs, 0, from, from)
  {
    var s1 := s0[r := CallShape(s0, p)];
    assert ArgsTyped(s1, p.arguments);
    forall j | 0 <= j < |p.arguments|
      ensures KeySockets(s1, s1[r], p.arguments, exprs, 0, from, from, ArgId(s1, p.arguments, j))
    {
    }
  }

  /** The two loops of `Procedure.call` over a fresh call block. */
  method FillCall(g: Graph, r: Ref, p: Procedure, exprs: seq<Option<Ref>>, from: nat)
    requires g.Valid() && CallState(g.shapes, r, p.arguments, exprs, 0, from, from) && from <= |p.arguments|
    modifies g`shapes, g`nextRef
    ensures g.Valid() && GrowsBesides(old(g.shapes), g.shapes, r) && SameElse(old(g.shapes[r]), g.shapes[r])
    ensures CallState(g.shapes, r, p.arguments, exprs, |p.arguments|, from, |p.arguments|)
  {
    DefaultArgs(g, r, p.arguments, exprs, from);
    ghost var s := g.shapes;
    SupplyArgs(g, r, p.arguments, exprs, from);
    GrowsBesidesTrans(old(g.shapes), s, g.shapes, r);
  }

  /** `Procedure.call(exprs)` with the empty text defaults laid for the arguments from
      `from` on: a fresh `procedures_call` block naming the prototype's argument ids,
      proccode and `warp`, the sockets under each argument's id filled as `KeySockets` says, added
      to host `h`. */
  method CallFrom(g: Graph, h: HostRef, p: Procedure, exprs: seq<Option<Ref>>, from: nat) returns (r: Ref, o: Outcome)
    requires g.Valid() && IsHost(g.shapes, g.stacks, h) && from <= |p.arguments|
    requires ArgsTyped(g.shapes, p.arguments) && ExprsTyped(g.shapes, exprs)
    modifies g`shapes, g`nextRef, g`stacks
    ensures g.Valid() && Grows(old(g.shapes), g.shapes) && r !in old(g.shapes)
    ensures CallState(g.shapes, r, p.arguments, exprs, |p.arguments|, from, |p.arguments|)
    ensures SameElse(CallShape(old(g.shapes), p), g.shapes[r])
    ensures (o.Pass? <==> Target(old(g.shapes), h).Some?) && (o.Fail? ==> o.error.OutOfBounds?)
    ensures Appended(old(g.stacks), g.stacks, Target(old(g.shapes), h), r)
  {
    r := FilledCall(g, p, exprs, from);
    HostStable(old(g.shapes), g.shapes, old(g.stacks), g.stacks, h);
    o := HostAdd(g, h, r);
  }

  /** The call block of `Procedure.call(exprs)` before it is added to a host. */
  method FilledCall(g: Graph, p: Procedure, exprs: seq<Option<Ref>>, from: nat) returns (r: Ref)
    requires g.Valid() && from <= |p.arguments|
    requires ArgsTyped(g.shapes, p.arguments) && ExprsTyped(g.shapes, exprs)
    modifies g`shapes, g`nextRef
    ensures g.Valid() && Grows(old(g.shapes), g.shapes) && r !in old(g.shapes)
    ensures CallState(g.shapes, r, p.arguments, exprs, |p.arguments|, from, |p.arguments|)
    ensures SameElse(CallShape(old(g.shapes), p), g.shapes[r])
  {
    ghost var s0 := g.shapes;
    r := NewCallBlock(g, p);
    CallStateFresh(s0, r, p, exprs, from);
    FillCall(g, r, p, exprs, from);
    GrowsFresh(s0, g.shapes, r);
  }

  /** `Procedure.call(exprs)` as written: every string-or-number argument first gets
      the empty text default, then the arguments zipped with the expressions are put
      over it. */
  method CallAsWritten(g: Graph, h: HostRef, p: Procedure, exprs: seq<Option<Ref>>) returns (r: Ref, o: Outcome)
    requires g.Valid() && IsHost(g.shapes, g.stacks, h)
    requires ArgsTyped(g.shapes, p.arguments) && ExprsTyped(g.shapes, exprs)
    modifies g`shapes, g`nextRef, g`stacks
    ensures g.Valid() && Grows(old(g.shapes), g.shapes) && r !in old(g.shapes)
    ensures CallState(g.shapes, r, p.arguments, exprs, |p.arguments|, 0, |p.arguments|)
    ensures SameElse(CallShape(old(g.shapes), p), g.shapes[r])
    ensures (o.Pass? <==> Target(old(g.shapes), h).Some?) && (o.Fail? ==> o.error.OutOfBounds?)
    ensures Appended(old(g.stacks), g.stacks, Target(old(g.shapes), h), r)
  {
    r, o := CallFrom(g, h, p, exprs, 0);
  }

  /** `Procedure.call(exprs)` with the default laid only for the arguments the call
      does not supply, so that a supplied value always shows. */
  method Call(g: Graph, h: HostRef, p: Procedure, exprs: seq<Option<Ref>>) returns (r: Ref, o: Outcome)
    requires g.Valid() && IsHost(g.shapes, g.stacks, h)
    requires ArgsTyped(g.shapes, p.arguments) && ExprsTyped(g.shapes, exprs)
    modifies g`shapes, g`nextRef, g`stacks
    ensures g.Valid() && Grows(old(g.shapes), g.shapes) && r !in old(g.shapes)
    ensures CallState(g.shapes, r, p.arguments, exprs, |p.arguments|, Supplied(p, exprs), |p.arguments|)
    ensures SameElse(CallShape(old(g.shapes), p), g.shapes[r])
    ensures (o.Pass? <==> Target(old(g.shapes), h).Some?) && (o.Fail? ==> o.error.OutOfBounds?)
    ensures Appended(old(g.stacks), g.stacks, Target(old(g.shapes), h), r)
  {
    r, o := CallFrom(g, h, p, exprs, Supplied(p, exprs));
  }

  /** How many arguments a call supplies: `zip` stops at the shorter list. */
  function Supplied(p: Procedure, exprs: seq<Option<Ref>>): (n: nat)
    ensures n <= |p.arguments| && n <= |exprs| && (n == |p.arguments| || n == |exprs|)
  {
    if |exprs| < |p.arguments| then |exprs| else |p.arguments|
  }

  // ---- What a call renders ----

  /** What a decoded input shows in front: the value over a shadow, or the shadow. */
  function Shown(v: InputView): Json
  {
    match v
    case ShadowOnly(s) => s
    case NoShadow(m) => m
    case Obscured(m, _) => m
  }

  /** What argument `i`'s input should show for a supplied expression `e`: `e` itself,
      or for a literal under a string-or-number argument the literal the two collapse
      into, which keeps `e`'s text. */
  function SuppliedAlone(s: map<Ref, Shape>, ids: map<Ref, string>, ak: ArgKind, e: Ref): (j: Json)
    requires e in s && IsExpression(s[e].kind)
    ensures ak == StringNumberArg && s[e].kind.LiteralK? ==> j == JArr([JInt(10), JStr(s[e].kind.lit.value)])
  {
    if ak == StringNumberArg && s[e].kind.LiteralK? then LiteralAlone(Collapsed(s[e].kind.lit, EmptyText()))
    else Alone(s[e].kind, IdIn(ids, e))
  }

  /** A supplied argument whose id no other argument shares, and whose socket was not
      defaulted first, shows its expression in the serialised call. */
  lemma CallShowsArgument(s: map<Ref, Shape>, cs: map<StackRef, seq<Ref>>, ids: map<Ref, string>, r: Ref,
                          args: seq<Ref>, exprs: seq<Option<Ref>>, from: nat, i: nat)
    requires CallState(s, r, args, exprs, |args|, from, |args|) && s[r].nested == []
    requires i < |args| && i < |exprs| && exprs[i].Some? && KeyUnique(s, args, i)
    requires !(s[args[i]].kind.arg == StringNumberArg && from <= i)
    ensures var j := Get(InputsSpec(s, cs, ids, s[r]), s[args[i]].kind.argumentId);
      && j.Some? && DecodeInput(j.value).Some?
      && Shown(DecodeInput(j.value).value) == SuppliedAlone(s, ids, s[args[i]].kind.arg, exprs[i].value)
  {
    var k := ArgId(s, args, i);
    var sh := s[r];
    var e := exprs[i].value;
    var ak := s[args[i]].kind.arg;
    assert KeySockets(s, sh, args, exprs, |args|, from, |args|, k);
    LastOnly(s, args, exprs, from, |args|, i);
    InputsGet(s, cs, ids, sh, k);
    var p := Get(sh.paired, k);
    var v := Get(sh.shadowless, k);
    if ak == StringNumberArg && !IsShadowValue(s, exprs[i]) {
      InputTags(s[p.value.0].kind, IdIn(ids, p.value.0), s[e].kind, IdIn(ids, e));
    } else if ak == StringNumberArg && IsLiteralValue(s, exprs[i]) {
      var n := v.value.value;
      InputTags(s[n].kind, IdIn(ids, n), s[n].kind, IdIn(ids, n));
    } else {
      InputTags(LiteralK(EmptyText()), "", s[e].kind, IdIn(ids, e));
    }
  }

  /** With the defaults laid only for arguments not supplied, every supplied argument
      shows its expression; a literal keeps its text. */
  lemma CallShowsArguments(s: map<Ref, Shape>, cs: map<StackRef, seq<Ref>>, ids: map<Ref, string>, r: Ref,
                           p: Procedure, exprs: seq<Option<Ref>>, i: nat)
    requires ArgsTyped(s, p.arguments)
    requires CallState(s, r, p.arguments, exprs, |p.arguments|, Supplied(p, exprs), |p.arguments|) && s[r].nested == []
    requires i < |p.arguments| && i < |exprs| && exprs[i].Some? && KeyUnique(s, p.arguments, i)
    ensures var j := Get(InputsSpec(s, cs, ids, s[r]), s[p.arguments[i]].kind.argumentId);
      && j.Some? && DecodeInput(j.value).Some?
      && Shown(DecodeInput(j.value).value) == SuppliedAlone(s, ids, s[p.arguments[i]].kind.arg, exprs[i].value)
  {
    CallShowsArgument(s, cs, ids, r, p.arguments, exprs, Supplied(p, exprs), i);
  }

  /** As written, a string-or-number argument given a shadow expression (a literal,
      say) is serialised as the empty text default: the pair laid by the first loop
      outranks the value put alone by the second. */
  lemma CallAsWrittenHidesShadow(s: map<Ref, Shape>, cs: map<StackRef, seq<Ref>>, ids: map<Ref, string>, r: Ref,
                                 args: seq<Ref>, exprs: seq<Option<Ref>>, i: nat)
    requires CallState(s, r, args, exprs, |args|, 0, |args|) && s[r].nested == []
    requires i < |args| && i < |exprs| && s[args[i]].kind.arg == StringNumberArg && IsShadowValue(s, exprs[i])
    requires KeyUnique(s, args, i)
    ensures Get(InputsSpec(s, cs, ids, s[r]), s[args[i]].kind.argumentId) == Some(JArr([JInt(1), JArr([JInt(10), JStr("")])]))
  {
    var k := ArgId(s, args, i);
    var sh := s[r];
    assert KeySockets(s, sh, args, exprs, |args|, 0, |args|, k);
    LastOnly(s, args, exprs, 0, |args|, i);
    InputsGet(s, cs, ids, sh, k);
  }

  /** The discrepancy: a literal `"5"` given to a string-or-number argument is not what
      the serialised call shows. */
  lemma CallAsWrittenLosesLiteral(s: map<Ref, Shape>, cs: map<StackRef, seq<Ref>>, ids: map<Ref, string>, r: Ref,
                                  args: seq<Ref>, exprs: seq<Option<Ref>>, i: nat)
    requires CallState(s, r, args, exprs, |args|, 0, |args|) && s[r].nested == []
    requires i < |args| && i < |exprs| && s[args[i]].kind.arg == StringNumberArg && KeyUnique(s, args, i)
    requires exprs[i].Some? && exprs[i].value in s && s[exprs[i].value].kind == LiteralK(OfString(TEXT, "5"))
    ensures var j := Get(InputsSpec(s, cs, ids, s[r]), s[args[i]].kind.argumentId);
      && j.Some? && DecodeInput(j.value).Some?
      && Shown(DecodeInput(j.value).value) != SuppliedAlone(s, ids, StringNumberArg, exprs[i].value)
  {
    CallAsWrittenHidesShadow(s, cs, ids, r, args, exprs, i);
  }

  /** Arguments sharing an id share one socket, and the later one wins: after the call,
      the socket under the id of a boolean argument that no later argument shares holds
      that argument's expression, whatever earlier arguments with the id put there. */
  lemma CallLaterOverwrites(s: map<Ref, Shape>, r: Ref, args: seq<Ref>, exprs: seq<Option<Ref>>, from: nat, i: nat, j: nat)
    requires CallState(s, r, args, exprs, |args|, from, |args|)
    requires i < j < |args| && j < |exprs| && s[args[j]].kind.arg != StringNumberArg
    requires s[args[i]].kind.argumentId == s[args[j]].kind.argumentId
    requires forall m | j < m < |args| :: s[args[m]].kind.argumentId != s[args[j]].kind.argumentId
    ensures Get(s[r].shadowless, s[args[i]].kind.argumentId) == Some(exprs[j])
  {
    var k := ArgId(s, args, j);
    assert KeySockets(s, s[r], args, exprs, |args|, from, |args|, k);
    LastAloneIs(s, args, exprs, |args|, j);
  }
}
