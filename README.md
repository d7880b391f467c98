# scratch-dsl block graph, in Dafny

This project models the core of scratch-dsl, a Kotlin DSL that builds Scratch 3
projects. It covers the object graph of blocks and expressions that the DSL builds, and
how that graph is turned into the `project.json` block tables:

- **Ids** (`ids.dfy`). `IdGenerator` has a deterministic mode, which spells a running
  counter in base 62, least significant digit first, and a random mode. The model proves
  that the spelling is injective and reads back to the counter, and bounds its length
  for 32-bit counters.
- **The object graph** (`graph.dfy`). Every block and expression object is an arena
  entry of the `Graph` class:
  - its structural state (opcode, flags, the three socket maps, fields, mutation) is
    a `Shape`;
  - its `next`/`parent` links, its lazily generated id and the `BlockStack`s are maps
    that the builder methods update in place.

  Kotlin's `LinkedHashMap` and JSON objects are insertion-ordered association lists
  (`ordered.dfy`): putting an existing key replaces its value in place.
- **Building** (`blocks.dfy`, `special.dfy`, `procedures.dfy`, `catalogue.dfy`,
  `sprite.dfy`, `root.dfy`):
  - `withExpression` and its three outcomes, `withField`, `withMutation`;
  - `addBlock`, hats, isolated hats, the operator constructors and declarations
    (variables, lists, broadcasts);
  - menu shadows and placeholders, custom-block prototypes and calls;
  - `SpriteBuilder`/`StageBuilder` with their name checks, and `BuildRoot`.
- **Serialisation**, in the order the source performs it:
  - `prepareRepresent` (`prepare*.dfy`) resolves placeholders, copies shadows and
    injects defaults. It is given both as step functions and as in-place methods proved
    to agree with them; `PrepareInv` is the invariant it keeps.
  - `flattenInto` (`flatten*.dfy`, `scripts.dfy`, `tree.dfy`) links stacks through `next`,
    sets `parent` and fills the shared block table. Each pass is specified by a `Trace`
    of puts and links.
  - `represent` (`represent.dfy`, `target.dfy`, `wire.dfy`, `expressions.dfy`) writes
    each block's JSON. The first read of an id generates it. The result is proved equal
    to a pure function of the ids the objects hold afterwards.
- **Cloning** (`clone.dfy`). `cloneBlock`/`cloneExpression` are specified by a relation
  between an original object and its copy.
- **The earlier data-only design** (`builder.dfy`). This is the wire description of
  inputs and fields in `builder/Inputs.kt` and `builder/Fields.kt`.

Termination of the recursive passes rests on a ranking of the arena (`Ranked`), the
witness that the graph is acyclic; the Kotlin code would recurse forever on a cycle.
Thrown exceptions are `Err` results with the exception's kind.

## Model

| member | source | states |
|---|---|---|
| Ids.DigitIsAllowed | src/main/kotlin/org/scratchapi/scratchdsl/Build.kt:1008 | the alphabet has 62 characters and digit `d` is its `d`-th character, whose position reads back as `d` |
| Ids.Base62Alphabet | src/main/kotlin/org/scratchapi/scratchdsl/Build.kt:1017-1023 | the do-while always emits at least one character, and only characters of the id alphabet |
| Ids.Base62RoundTrip | src/main/kotlin/org/scratchapi/scratchdsl/Build.kt:1019-1023 | reading the emitted digits back, least significant first, gives the counter value: the spelling loses nothing |
| Ids.Base62Injective | src/main/kotlin/org/scratchapi/scratchdsl/Build.kt:1015-1025 | two counter values spell the same id if and only if they are equal |
| Ids.Base62Length | src/main/kotlin/org/scratchapi/scratchdsl/Build.kt:1020-1023 | a counter below 62^k is spelled with at most k characters |
| Ids.Base62OfIntCounter | src/main/kotlin/org/scratchapi/scratchdsl/Build.kt:1009-1023 | every value a non-negative 32-bit `Int` counter can hold is spelled with 1 to 6 characters |
| Ids.RandomIdOf | src/main/kotlin/org/scratchapi/scratchdsl/Build.kt:1032-1034 | one character per random byte, the alphabet entry at the byte's non-negative remainder modulo 62 |
| Ids.IdGenerator.constructor | src/main/kotlin/org/scratchapi/scratchdsl/Build.kt:1009-1013 | the counter starts at 0 and random (modifying) mode is on |
| Ids.IdGenerator.MakeId | src/main/kotlin/org/scratchapi/scratchdsl/Build.kt:1015-1028 | deterministic mode: the id is the counter's base-62 spelling and the counter moves on by one; random mode: a 16-character id and the counter stays; the mode never changes; every id is non-empty and in the alphabet |
| Ids.IdGenerator.SpellCounter | src/main/kotlin/org/scratchapi/scratchdsl/Build.kt:1017-1023 | the loop that divides the residue by 62 until it is zero returns exactly the base-62 spelling |
| Ids.IdGenerator.MakeRandomId | src/main/kotlin/org/scratchapi/scratchdsl/Build.kt:1030-1035 | an id of the requested length over the id alphabet |
| Graph.Blank | src/main/kotlin/org/scratchapi/scratchdsl/Blocks.kt:7-17 | a freshly constructed object: the given kind, opcode and shadow flag, not top level, and all five socket maps empty |
| Graph.PlaceholderShape | src/main/kotlin/org/scratchapi/scratchdsl/SpecialInputs.kt:153-235 | a placeholder object (first backdrop, costume, sound, broadcast) is a shadow of its own kind |
| Graph.Graph.Singleton | src/main/kotlin/org/scratchapi/scratchdsl/SpecialInputs.kt:153-235 | each placeholder `object` exists once: created on first use and the same object ever after |
| Graph.Graph.GetId | src/main/kotlin/org/scratchapi/scratchdsl/Blocks.kt:19-27 | the `id` getter returns the stored id unchanged; without one it stores and returns a new one, which in deterministic mode is the counter's spelling, the counter moving on by one |
| Graph.Graph.SetId | src/main/kotlin/org/scratchapi/scratchdsl/Blocks.kt:28 | the `id` setter replaces the stored id of that object only |
| Graph.Graph.NewStack | src/main/kotlin/org/scratchapi/scratchdsl/Build.kt:188-194 | `BlockStack()` gets a new stack holding the given contents, with an id drawn from the generator at construction |
| Graph.Graph.SetStack | src/main/kotlin/org/scratchapi/scratchdsl/Build.kt:194 | the stack's `id` or contents are replaced, for that stack only |
| Graph.Graph.SetNext | src/main/kotlin/org/scratchapi/scratchdsl/Blocks.kt:8 | `next` of that block is set, no other |
| Graph.Graph.SetParent | src/main/kotlin/org/scratchapi/scratchdsl/Blocks.kt:10 | `parent` of that object is set, no other |
| Ordered.PutFacts | src/main/kotlin/org/scratchapi/scratchdsl/Blocks.kt:110 | a put into an insertion-ordered map (`LinkedHashMap`) makes the key map to the value, leaves every other key alone, keeps a present key in its place and appends a new one at the end |
| Wire.VariantCode | src/main/kotlin/org/scratchapi/scratchdsl/VLB.kt:5-9 | a variable, list or broadcast reference carries a type code between 11 and 13 |
| Wire.VariantCodeRoundTrip | src/main/kotlin/org/scratchapi/scratchdsl/VLB.kt:5-9 | the type code determines the kind of reference: it reads back as the variant that wrote it |
| Wire.NumericType | src/main/kotlin/org/scratchapi/scratchdsl/Expressions.kt:195-206 | a literal's type code lies in 4..10, and an absent or unknown opcode gives 10 (text) |
| Wire.NumericTypeMatchesEnum | src/main/kotlin/org/scratchapi/scratchdsl/Expressions.kt:178-206 | the opcode-to-code table of a literal agrees with the `ValueInput` enum on every entry |
| Wire.InputOpcodesDistinct | src/main/kotlin/org/scratchapi/scratchdsl/Expressions.kt:178-185 | distinct `ValueInput` entries have distinct opcodes and distinct type codes |
| Wire.LiteralAlone | src/main/kotlin/org/scratchapi/scratchdsl/Expressions.kt:207-211 | a literal renders as the two-element array of its type code and its text |
| Wire.OfString | src/main/kotlin/org/scratchapi/scratchdsl/Expressions.kt:186 | `ValueInput.of(String)` keeps the enum's type code and the text |
| Wire.OfPrimitive | src/main/kotlin/org/scratchapi/scratchdsl/Expressions.kt:187-189 | `ValueInput.of(JsonPrimitive)`: a string primitive loses the enum's opcode, so its type code is 10; any other primitive keeps the enum's code and is given by its text |
| Wire.AsInput | src/main/kotlin/org/scratchapi/scratchdsl/Expressions.kt:12-17 | an expression in a socket reads back as "shadow only" when it is a shadow expression and as "no shadow" otherwise, around its own rendering |
| Wire.AsInputWith | src/main/kotlin/org/scratchapi/scratchdsl/Expressions.kt:119-126 | a shadow with nothing over it reads back as that shadow alone; with a covering expression it reads back as the expression obscuring the shadow, both renderings kept |
| Wire.FieldJson | src/main/kotlin/org/scratchapi/scratchdsl/Blocks.kt:71-80 | a field on the wire reads back as its value and its id (or null) |
| Wire.NonNull | src/main/kotlin/org/scratchapi/scratchdsl/Blocks.kt:87-92 | the mutation object keeps exactly the entries whose value is not null |
| Wire.BlockObjectKeys | src/main/kotlin/org/scratchapi/scratchdsl/Blocks.kt:82-103 | a block object has the keys inputs, fields, mutation (only when the mutation map is non-empty), topLevel, next, parent, shadow, opcode and, for a top-level block only, x and y, in that order |
| Ordered.PutReplaces | src/main/kotlin/org/scratchapi/scratchdsl/Blocks.kt:110 | putting a present key replaces its value in place: same keys in the same order, every other key unchanged |
| Ordered.PutAppends | src/main/kotlin/org/scratchapi/scratchdsl/Blocks.kt:110 | putting an absent key appends it: the keys gain exactly that key, every other key unchanged |
| Ordered.PutAllKeys | src/main/kotlin/org/scratchapi/scratchdsl/Blocks.kt:49-69 | after a series of puts skipping nulls, the keys are the earlier ones plus every key given a value |
| Ordered.PutAllLookup | src/main/kotlin/org/scratchapi/scratchdsl/Blocks.kt:49-69 | with distinct keys, a key reads back as the value the puts gave it, else as before |
| Expressions.UnaryPlacement | src/main/kotlin/org/scratchapi/scratchdsl/Expressions.kt:54-67 | a unary operator is an independent reporter holding its operand under the input name: paired with the shadow exactly when a shadow is given (whatever the operand), alone otherwise, and nothing else |
| Expressions.PlaceOperandFacts | src/main/kotlin/org/scratchapi/scratchdsl/Expressions.kt:89-100 | one binary operand goes with its shadow into `expressionInputs` exactly when there is a shadow and the operand is not a shadow expression, otherwise alone into `shadowlessExpressionInputs`; no other socket changes |
| Expressions.BinaryPlacement | src/main/kotlin/org/scratchapi/scratchdsl/Expressions.kt:79-102 | each of the two operands lands in the paired map if and only if it has a shadow and is not itself a shadow expression, and in the shadowless map otherwise; the two maps together hold exactly the two input names |
| Expressions.UnaryBinaryDiffer | src/main/kotlin/org/scratchapi/scratchdsl/Expressions.kt:61-99 | the unary and binary constructors disagree on a shadow-expression operand with a shadow: the unary one pairs it, the binary one stores it without its shadow |
| Expressions.NewUnaryOp | src/main/kotlin/org/scratchapi/scratchdsl/Expressions.kt:54-67 | `NormalUnaryOp(...)` allocates one new object with exactly the unary operator's state |
| Expressions.NewBinaryOp | src/main/kotlin/org/scratchapi/scratchdsl/Expressions.kt:79-102 | `NormalBinaryOp(...)` allocates one new object with exactly the binary operator's state |
| Expressions.AloneRoundTrip | src/main/kotlin/org/scratchapi/scratchdsl/Expressions.kt:25-26 | `representAlone` loses nothing: a literal reads back as its type code and text, a declaration as its kind, name and id, anything else as its id; an independent expression renders as its id |
| Expressions.InputTags | src/main/kotlin/org/scratchapi/scratchdsl/Expressions.kt:12-17 | an expression in a socket is tagged shadow or not by its kind; a shadow's socket with nothing over it equals that shadow's own input; with a value over it both renderings read back |
| Expressions.DeclFieldValue | src/main/kotlin/org/scratchapi/scratchdsl/VLB.kt:12 | a declaration used as a field shows its name with its id |
| Expressions.DeclFieldMatchesAlone | src/main/kotlin/org/scratchapi/scratchdsl/VLB.kt:12-21 | a declaration shows the same name and id in a field as in a socket |
| Blocks.NewBlock | src/main/kotlin/org/scratchapi/scratchdsl/Blocks.kt:7-17 | `NormalBlock(opcode)` allocates one new plain block with the fresh state and changes nothing else |
| Blocks.NewExpression | src/main/kotlin/org/scratchapi/scratchdsl/Expressions.kt:22-26 | a new stand-alone expression object of the given kind, with the fresh state |
| Blocks.LiteralShape | src/main/kotlin/org/scratchapi/scratchdsl/Expressions.kt:192-194 | a literal is a shadow expression, not independent, with the literal's opcode |
| Blocks.NewLiteral | src/main/kotlin/org/scratchapi/scratchdsl/Expressions.kt:186 | `ValueInput.of` allocates one new literal object |
| Blocks.WithField | src/main/kotlin/org/scratchapi/scratchdsl/Blocks.kt:161-164 | `withField` puts the field under its name, replacing one already there in place; nothing else changes |
| Blocks.WithMutation | src/main/kotlin/org/scratchapi/scratchdsl/Blocks.kt:193-198 | `withMutation` puts the entry (possibly null) under its name; nothing else changes |
| Blocks.DefaultMutationOfEmpty | src/main/kotlin/org/scratchapi/scratchdsl/Blocks.kt:203-205 | on an empty mutation map the default mutation is exactly `tagName: "mutation"` then `children: []` |
| Blocks.WithDefaultMutation | src/main/kotlin/org/scratchapi/scratchdsl/Blocks.kt:203-205 | `withDefaultMutation` is the two puts `tagName` then `children` |
| Blocks.Collapsed | src/main/kotlin/org/scratchapi/scratchdsl/Blocks.kt:180-181 | a literal value over a literal shadow becomes the value's text with the shadow's type code |
| Blocks.WithExpression | src/main/kotlin/org/scratchapi/scratchdsl/Blocks.kt:172-186 | three exclusive outcomes: with a shadow and a value that is not a shadow expression, the pair goes into `expressionInputs`; else, with a literal value over a literal shadow, one new literal (value's text, shadow's opcode) goes into `shadowlessExpressionInputs`; otherwise the value alone goes there; no other socket and no other object changes |
| Blocks.CollapseInto | src/main/kotlin/org/scratchapi/scratchdsl/Blocks.kt:180-182 | the collapsed literal is a new object put under the socket name, the shadow discarded |
| Blocks.AddBlock | src/main/kotlin/org/scratchapi/scratchdsl/Build.kt:211 | `BlockStack.addBlock` appends the block at the end of that stack only |
| Blocks.HostShape | src/main/kotlin/org/scratchapi/scratchdsl/Blocks.kt:234-242 | a C-block holds its sub-stack (or null) under `SUBSTACK`, not top level and not a shadow |
| Blocks.NewContainer | src/main/kotlin/org/scratchapi/scratchdsl/Blocks.kt:234-245 | `NormalBlockBlockHost(...)` allocates one new C-block with that state |
| Blocks.NewConditional | src/main/kotlin/org/scratchapi/scratchdsl/Blocks.kt:247-252 | a conditional C-block also holds its condition under `CONDITION` |
| Blocks.NewIfElse | src/main/kotlin/org/scratchapi/scratchdsl/Blocks.kt:254-262 | `IfElseBlock` holds `SUBSTACK`, then `SUBSTACK2`, and the condition, with opcode `control_if_else` |
| Blocks.HatShape | src/main/kotlin/org/scratchapi/scratchdsl/Blocks.kt:264-267 | a hat is top level, not a shadow, and owns its stack |
| Blocks.NewHat | src/main/kotlin/org/scratchapi/scratchdsl/Blocks.kt:264-270 | `NormalHatBlock` allocates the hat and a new stack (id drawn from the generator) whose only element is the hat itself |
| Blocks.NewIsolated | src/main/kotlin/org/scratchapi/scratchdsl/Blocks.kt:280-293 | `IsolatedBlockStackHat` wraps an existing stack, is top level and has no opcode of its own |
| Blocks.Target | src/main/kotlin/org/scratchapi/scratchdsl/Blocks.kt:244 | the stack a host adds to: a stack itself, a hat's own stack, or a C-block's first sub-stack when it has one |
| Blocks.HostStable | src/main/kotlin/org/scratchapi/scratchdsl/Blocks.kt:242 | a host's target stack does not change as the arena grows |
| Blocks.HostAdd | src/main/kotlin/org/scratchapi/scratchdsl/Blocks.kt:244 | `addBlock` on a host appends to its target stack and succeeds exactly when there is one; a C-block built without a sub-stack fails with an out-of-bounds error (`stacks[0]` of an empty list) and changes nothing |
| Blocks.Actual | src/main/kotlin/org/scratchapi/scratchdsl/Blocks.kt:281-285 | `actualBlock` is the first block of the isolated stack, and throws an illegal-state error exactly when the stack is empty |
| Blocks.NextOf | src/main/kotlin/org/scratchapi/scratchdsl/Blocks.kt:287-289 | the `next` of an isolated hat is the second element of its stack, if any; any other block's is its `next` field |
| Blocks.OpcodeOf | src/main/kotlin/org/scratchapi/scratchdsl/Blocks.kt:286 | an isolated hat reports its first block's opcode, and throws when its stack is empty |
| Blocks.Contents | src/main/kotlin/org/scratchapi/scratchdsl/Build.kt:190 | the contents of every stack, by stack |
| Blocks.ReportingIsActual | src/main/kotlin/org/scratchapi/scratchdsl/Blocks.kt:281-296 | the object whose id an isolated hat reports is exactly its actual block, and it has one exactly when the stack is non-empty |
| Blocks.BlockId | src/main/kotlin/org/scratchapi/scratchdsl/Blocks.kt:295-296 | the `id` getter of any object: an isolated hat forwards to its first block (and throws on an empty stack, changing no id); the id is the stored one or a new one stored on that object only |
| Blocks.SetBlockId | src/main/kotlin/org/scratchapi/scratchdsl/Blocks.kt:297-299 | the `id` setter of an isolated hat sets its first block's id, and throws on an empty stack |
| Special.NewMenu | src/main/kotlin/org/scratchapi/scratchdsl/SpecialInputs.kt:22-130 | each menu factory (`SpecialLocation`, `CloneTarget`, `TouchObject`, `DistanceObject`, `SensingKey`, `PropertyTarget`) makes one new shadow, copied before serialisation, whose only field is the target under the menu's field name, with the factory's opcode (`SpecialLocation` takes its opcode from the caller) |
| Special.PropertyValue | src/main/kotlin/org/scratchapi/scratchdsl/SpecialInputs.kt:143-148 | a `Property` field shows its target with no id and reads back as that |
| Special.NewAsset | src/main/kotlin/org/scratchapi/scratchdsl/Attachments.kt:57-69 | a costume, sound or backdrop object is a shadow, is copied before serialisation, and its one field is the object itself |
| Special.CopyOf | src/main/kotlin/org/scratchapi/scratchdsl/SpecialInputs.kt:171-235 | `makeCopy` fails only for an unresolved backdrop, costume or broadcast placeholder (an uninitialised `lateinit`); it returns the existing object only for a resolved broadcast placeholder; every other copy is a fresh shadow that is itself copied, and never a placeholder |
| Special.MenuCopyIsIdentical | src/main/kotlin/org/scratchapi/scratchdsl/SpecialInputs.kt:36 | copying a menu gives a new object with the same state |
| Special.NoSoundCopiesBlank | src/main/kotlin/org/scratchapi/scratchdsl/SpecialInputs.kt:215-216 | the sound placeholder of a sprite without sounds copies to a blank sound |
| Special.CopyKeepsFieldValue | src/main/kotlin/org/scratchapi/scratchdsl/Attachments.kt:74-75 | a copy shows the same field value as the object it was copied from |
| Special.ResolvedShows | src/main/kotlin/org/scratchapi/scratchdsl/SpecialInputs.kt:156-227 | once resolved against a sprite, a placeholder never fails to show or to copy, and shows the first backdrop's, costume's or sound's name (empty without sounds), or the first broadcast's name and id |
| Special.ResolvePlaceholder | src/main/kotlin/org/scratchapi/scratchdsl/SpecialInputs.kt:163-228 | `prepareRepresent` of a placeholder records the sprite's first backdrop, costume, sound or broadcast, and throws an index-out-of-bounds error, recording nothing, exactly when the list it reads is empty (never for sounds) |
| Special.MakeCopy | src/main/kotlin/org/scratchapi/scratchdsl/Blocks.kt:109-118 | the copy is made as `CopyOf` says: an error leaves the arena unchanged, an existing object allocates nothing, a fresh copy allocates exactly one object |
| Attachments.Md5Ext | src/main/kotlin/org/scratchapi/scratchdsl/Attachments.kt:16-17 | the stored file name is the asset id, a dot, then the data format |
| Attachments.RepresentAssetShape | src/main/kotlin/org/scratchapi/scratchdsl/Attachments.kt:21-28 | the asset descriptor starts with `assetId`, `dataFormat`, `md5ext` and `name`, in that order, then the extra attributes |
| Attachments.CostumeExtras | src/main/kotlin/org/scratchapi/scratchdsl/Attachments.kt:59-65 | a costume's extra attributes are `bitmapResolution` and, exactly when a rotation centre is set, `rotationCenterX` and `rotationCenterY` |
| Attachments.AsBackdrop | src/main/kotlin/org/scratchapi/scratchdsl/Attachments.kt:109 | a backdrop keeps the costume's name and the costume itself |
| Attachments.CostumeFieldValue | src/main/kotlin/org/scratchapi/scratchdsl/Attachments.kt:58 | a costume shows its name, with no id |
| Attachments.BackdropFieldValue | src/main/kotlin/org/scratchapi/scratchdsl/Attachments.kt:122 | a backdrop shows its name, with no id |
| Attachments.AsBackdropKeepsField | src/main/kotlin/org/scratchapi/scratchdsl/Attachments.kt:109-122 | a costume turned into a backdrop shows the same field value |
| Attachments.SoundFieldAsWrittenIgnoresName | src/main/kotlin/org/scratchapi/scratchdsl/Attachments.kt:180 | as written, every sound shows the literal text "name": two sounds with different names show the same value, which is neither's name |
| Attachments.SoundFieldValue | src/main/kotlin/org/scratchapi/scratchdsl/Attachments.kt:180 | corrected: a sound shows its name, with no id |
| Attachments.SoundFieldNamesSound | src/main/kotlin/org/scratchapi/scratchdsl/Attachments.kt:180 | corrected: two sounds show the same value exactly when their names agree, as costumes and backdrops do |
| Comments.CommentJsonShape | src/main/kotlin/org/scratchapi/scratchdsl/Attachments.kt:155-163 | a comment serialises to the keys blockId, width, height, minimized, text, x, y in that order, holding the attached block's id (or null) and the text |
| Comments.AttachedIdRoundTrip | src/main/kotlin/org/scratchapi/scratchdsl/Attachments.kt:156 | the attached block's id, or its absence, reads back from the comment object |
| Comments.Comment.constructor | src/main/kotlin/org/scratchapi/scratchdsl/Attachments.kt:134-142 | a comment keeps its block, size, minimised flag, text and position, and has no id yet |
| Comments.Comment.Id | src/main/kotlin/org/scratchapi/scratchdsl/Attachments.kt:144-152 | the comment's `id` getter: the stored id unchanged, or a new one from the generator, stored (in deterministic mode the counter's spelling) |
| Comments.Comment.SetId | src/main/kotlin/org/scratchapi/scratchdsl/Attachments.kt:153 | the `id` setter stores the given id |
| Comments.Comment.Represent | src/main/kotlin/org/scratchapi/scratchdsl/Attachments.kt:155-163 | a detached comment serialises with a null block id and draws no id; an attached one serialises with the id of the object its block reports (an isolated hat's first block), fails exactly when that block is an isolated hat over an empty stack, and only ever adds ids |
| Catalogue.StopCode | src/main/kotlin/org/scratchapi/scratchdsl/SpecialInputs.kt:273-277 | the stop type's code: "all" exactly for ALL, "other scripts in sprite" exactly for OTHER_SCRIPTS_IN_SPRITE |
| Catalogue.StopShapeFacts | src/main/kotlin/org/scratchapi/scratchdsl/Blocks.kt:1000-1006 | a stop block's mutation keys are tagName, children, hasnext in that order; hasnext is true exactly for OTHER_SCRIPTS_IN_SPRITE; its STOP_OPTION field shows the type's code |
| Catalogue.StopPuts | src/main/kotlin/org/scratchapi/scratchdsl/Blocks.kt:1003-1006 | the chain `withField`, `withDefaultMutation`, `withMutation("hasnext", ...)` on a fresh block yields the stop block's state |
| Catalogue.NewStop | src/main/kotlin/org/scratchapi/scratchdsl/Blocks.kt:1003-1006 | a new `control_stop` block with that state |
| Catalogue.StopBlock | src/main/kotlin/org/scratchapi/scratchdsl/Blocks.kt:1000-1007 | `stopBlock` builds the stop block and adds it to the host, succeeding exactly when the host has a stack |
| Catalogue.BuiltGrows | src/main/kotlin/org/scratchapi/scratchdsl/Blocks.kt:172-186 | a block built with one defaulted input only adds objects, and has the filled state |
| Catalogue.DefaultedBlock | src/main/kotlin/org/scratchapi/scratchdsl/Blocks.kt:172-186 | a new block, its default literal, and `withExpression` with that default: paired when the value is not a shadow expression, a collapsed literal for a literal value, the value alone otherwise |
| Catalogue.FilledState | src/main/kotlin/org/scratchapi/scratchdsl/Blocks.kt:177-185 | the three outcomes of `withExpression` on a block whose expression maps are empty give the `Built` state |
| Catalogue.MoveSteps | src/main/kotlin/org/scratchapi/scratchdsl/Blocks.kt:365-369 | `moveSteps` builds `motion_movesteps` with STEPS defaulting to the number 10, and adds it to the host |
| Catalogue.Repeat | src/main/kotlin/org/scratchapi/scratchdsl/Blocks.kt:919-924 | `repeatBlock` first builds its body stack (one id drawn), then a `control_repeat` C-block over it with TIMES defaulting to the whole number 10, and adds it to the host |
| Catalogue.VariableBlock | src/main/kotlin/org/scratchapi/scratchdsl/VLB.kt:36-46 | the set and change handlers of a variable build `data_setvariableto` (VALUE defaulting to text "0") or `data_changevariableby` (VALUE defaulting to the number 1), with the variable as the VARIABLE field |
| Catalogue.FieldAfterBuilt | src/main/kotlin/org/scratchapi/scratchdsl/Blocks.kt:1457 | adding the field after the input keeps the built state, now with that field |
| Catalogue.VarStatement | src/main/kotlin/org/scratchapi/scratchdsl/Blocks.kt:1453-1468 | `setVar` and `changeVar` build that block and add it to the host |
| Represent.RenamedContents | src/main/kotlin/org/scratchapi/scratchdsl/Blocks.kt:63 | renaming a stack changes no stack's contents |
| Represent.ShadowlessIds | src/main/kotlin/org/scratchapi/scratchdsl/Blocks.kt:51-54 | the ids the shadowless sockets read are drawn, one per socket that reads one, and no existing id changes |
| Represent.PairedIds | src/main/kotlin/org/scratchapi/scratchdsl/Blocks.kt:55-59 | likewise for every shadow and every value over it in the paired sockets |
| Represent.NamedAfterRename | src/main/kotlin/org/scratchapi/scratchdsl/Blocks.kt:63 | a stack renamed after its first block's id keeps every other stack's naming intact |
| Represent.NameStack | src/main/kotlin/org/scratchapi/scratchdsl/Blocks.kt:63 | `u.id = u.contents[0].id`: the stack takes the id its first block reports (drawing one if needed), contents unchanged; it throws exactly when that block is an isolated hat over an empty stack |
| Represent.NamedStep | src/main/kotlin/org/scratchapi/scratchdsl/Blocks.kt:60-68 | naming one more nested stack keeps the earlier ones named |
| Represent.NestedId | src/main/kotlin/org/scratchapi/scratchdsl/Blocks.kt:60-68 | one nested socket: skipped when null or empty, else its stack named; throws exactly when the first block has no id to report |
| Represent.NoneFailsMeans | src/main/kotlin/org/scratchapi/scratchdsl/Blocks.kt:60-68 | the running "nothing failed yet" flag means no earlier nested socket fails |
| Represent.NestedIds | src/main/kotlin/org/scratchapi/scratchdsl/Blocks.kt:60-68 | all nested sockets in order: passes exactly when none fails, then every non-empty one is named after its first block, contents unchanged |
| Represent.InputIds | src/main/kotlin/org/scratchapi/scratchdsl/Blocks.kt:49-69 | `representInputs`'s id side effects: every id it reads is present afterwards, stacks are renamed but keep their contents, and it fails exactly when a nested stack's first block cannot report an id |
| Represent.FieldValueOf | src/main/kotlin/org/scratchapi/scratchdsl/Blocks.kt:71-80 | what a field shows: a fixed field its value; a declaration its name and id (and only a declaration has an id); assets and resolved placeholders their own value (a sound its name, see Findings) |
| Represent.FieldId | src/main/kotlin/org/scratchapi/scratchdsl/Blocks.kt:76-77 | reading a field's value draws the ids it needs, and fails with an uninitialised-slot error exactly when the field is an unresolved placeholder |
| Represent.FieldIds | src/main/kotlin/org/scratchapi/scratchdsl/Blocks.kt:71-80 | all fields in order: passes exactly when none fails, and then every field's value is available |
| Represent.NextId | src/main/kotlin/org/scratchapi/scratchdsl/Blocks.kt:95 | `next?.id`: null without a next block, else the id the next object reports (drawn if needed); fails exactly when the next object is an isolated hat over an empty stack |
| Represent.FieldsCoveredGrow | src/main/kotlin/org/scratchapi/scratchdsl/Blocks.kt:71-80 | field values that were available stay so as ids are added |
| Represent.RepresentBlock | src/main/kotlin/org/scratchapi/scratchdsl/Blocks.kt:82-103 | `NormalBlock.represent`: succeeds exactly when every id it reads can be produced and every field is initialised (errors are illegal-state or uninitialised); the object is inputs, fields, mutation, topLevel, next, parent, shadow, opcode (and x, y) as the source lays them out; stack contents are unchanged and ids only grow |
| Represent.CoveredGrows | src/main/kotlin/org/scratchapi/scratchdsl/Blocks.kt:49-69 | socket renderings that were available stay so as ids are added |
| Represent.ShadowlessLookup | src/main/kotlin/org/scratchapi/scratchdsl/Blocks.kt:51-54 | the shadowless entries keep the socket names, skip nothing but keep nulls as absent entries, and render each expression as its input |
| Represent.PairedLookup | src/main/kotlin/org/scratchapi/scratchdsl/Blocks.kt:55-59 | each paired socket renders as its shadow with its value |
| Represent.NestedLookup | src/main/kotlin/org/scratchapi/scratchdsl/Blocks.kt:60-68 | a nested socket renders as `[2, id]` of its first block exactly when it is non-empty |
| Represent.InputsGet | src/main/kotlin/org/scratchapi/scratchdsl/Blocks.kt:49-69 | the inputs object holds under a name: the non-empty nested stack, else the paired socket, else the shadowless expression, else nothing (later puts replace earlier ones) |
| Represent.InputsLookup | src/main/kotlin/org/scratchapi/scratchdsl/Blocks.kt:49-69 | the same, read back: a nested stack as `[2, id]`, a paired socket as its shadow alone or its value over its shadow, a shadowless expression tagged shadow or not |
| Represent.FieldsLookup | src/main/kotlin/org/scratchapi/scratchdsl/Blocks.kt:71-80 | the fields object holds an entry exactly for each field of the block, reading back as that field's value and id |
| Builder.Minified.Type | src/main/kotlin/builder/MinifiedBlockRepresentation.kt:13-80 | every minified block's type code lies in 4..13 and is never 11 |
| Builder.TypeCodesAgree | src/main/kotlin/builder/MinifiedBlockRepresentation.kt:13-80 | the type codes of the older builder agree with the input-type and variant codes of the current wire format (4 number, 5 positive number, 6 positive integer, 7 integer, 8 angle, 9 colour, 10 text, 12 variable, 13 list) |
| Builder.ValueMinified | src/main/kotlin/builder/Inputs.kt:77-88 | a value shows as its string if any, else its integer, else its number, else the integer 0 |
| Builder.InputTypeRoundTrip | src/main/kotlin/builder/Commons.kt:31-35 | the input-type codes 1, 2, 3 decode back to SHADOW, NO_SHADOW, OBSCURED_SHADOW |
| Builder.Represent | src/main/kotlin/builder/Inputs.kt:11-35 | `ComposedInput.represent`: the type is SHADOW exactly for a shadow input, OBSCURED_SHADOW exactly for a non-shadow input with an obscured shadow, NO_SHADOW otherwise; each part is shown by id exactly when it should be, else by its minified block, and an absent obscured shadow shows neither |
| Builder.ShownExactlyOnce | src/main/kotlin/builder/Inputs.kt:16-21 | a non-shadow input on its own is shown either by id or by a minified block, never both nor neither; variable and list inputs are never shown by id |
| Builder.Independent | src/main/kotlin/builder/Inputs.kt:103 | `independent()` keeps the input and puts the value zero under it |
| Builder.IndependentShowsZero | src/main/kotlin/builder/Inputs.kt:103 | an independent input shows as obscuring a shadow that is the integer 0, by its minified form |
| Builder.InputTypeMatchesWire | src/main/kotlin/builder/Inputs.kt:11-15 | the input-type code the older builder picks is the first item of the socket array the current wire format emits in that case |
| Builder.AsPair | src/main/kotlin/builder/Fields.kt:18-38 | `representAsPair`: a single-value field is its value with no id; a variable or list field is its name with its id |
| Builder.AsList | src/main/kotlin/builder/Fields.kt:4-10 | `representAsList`: the pair's first part, followed by the second exactly when it is present |
| Builder.FieldListRoundTrip | src/main/kotlin/builder/Fields.kt:4-10 | the list form of a field reads back to the same pair |
| Builder.FieldListShape | src/main/kotlin/builder/Fields.kt:4-38 | a field's list has one entry exactly for single-value fields, else name then id |
| Flatten.ChildrenSub | src/main/kotlin/org/scratchapi/scratchdsl/Blocks.kt:33-42 | the expression children a block flattens are among all its expression children |
| Flatten.ChildrenBelow | src/main/kotlin/org/scratchapi/scratchdsl/Blocks.kt:30-47 | every child a block flattens into ranks below it, so the recursion of `flattenInto` ends |
| Flatten.SocketChildrenExact | src/main/kotlin/org/scratchapi/scratchdsl/Blocks.kt:33-36 | the shadowless sockets contribute exactly the non-null expressions that are independent |
| Flatten.ChildrenIndependent | src/main/kotlin/org/scratchapi/scratchdsl/Blocks.kt:33-42 | every expression a block flattens is independent, so never a declaration nor a literal |
| Flatten.NoExprInStacks | src/main/kotlin/org/scratchapi/scratchdsl/Blocks.kt:43-46 | the nested-stack sockets contribute only stacks |
| Flatten.Then | src/main/kotlin/org/scratchapi/scratchdsl/Blocks.kt:30-47 | sequencing two flattening passes succeeds exactly when both do |
| Flatten.FlatCsFails | src/main/kotlin/org/scratchapi/scratchdsl/Blocks.kt:33-46 | once a child fails to flatten, every longer prefix of the children fails too (the exception propagates) |
| Flatten.FlatContentsFails | src/main/kotlin/org/scratchapi/scratchdsl/Build.kt:197-201 | likewise along a stack's contents |
| Flatten.TableCat | src/main/kotlin/org/scratchapi/scratchdsl/Blocks.kt:32 | writing the rows of two passes into the table one after the other equals writing their concatenation |
| Flatten.ParentsCat | src/main/kotlin/org/scratchapi/scratchdsl/Blocks.kt:31 | the same for the parent assignments |
| Flatten.LinksCat | src/main/kotlin/org/scratchapi/scratchdsl/Build.kt:198 | the same for the next links |
| Flatten.RowsStable | src/main/kotlin/org/scratchapi/scratchdsl/Blocks.kt:19-28 | drawing more ids later does not change what earlier rows wrote |
| Flatten.HeadApplied | src/main/kotlin/org/scratchapi/scratchdsl/Blocks.kt:31-32 | a block's own step: its parent becomes the parent's id and the table maps its id to it |
| Flatten.AppliedThen | src/main/kotlin/org/scratchapi/scratchdsl/Blocks.kt:30-47 | the effect of two passes run in sequence is the effect of their joined trace |
| Flatten.ThenAssoc | src/main/kotlin/org/scratchapi/scratchdsl/Blocks.kt:30-47 | joining traces is associative |
| Flatten.ChildStep | src/main/kotlin/org/scratchapi/scratchdsl/Blocks.kt:33-46 | flattening one more child extends the children's trace by that child's |
| Flatten.ElementStep | src/main/kotlin/org/scratchapi/scratchdsl/Build.kt:197-201 | flattening one more block of a stack extends the stack's trace by the link into it and that block's trace |
| Flatten.FlatNormal | src/main/kotlin/org/scratchapi/scratchdsl/Blocks.kt:30-47 | a normal block's trace is its own row followed by its children's traces in socket order |
| Flatten.FlatIsolated | src/main/kotlin/org/scratchapi/scratchdsl/Blocks.kt:303-304 | an isolated hat flattens as the first block of its own stack, with no parent; over an empty stack it throws |
| Flatten.FlattenBlock | src/main/kotlin/org/scratchapi/scratchdsl/Blocks.kt:30-47 | `flattenInto` on a block: succeeds exactly when the pass's specification does, fails only with an illegal-state error, and on success leaves table, parents, nexts and ids exactly as the specification's trace says |
| Flatten.FlattenIsolated | src/main/kotlin/org/scratchapi/scratchdsl/Blocks.kt:303-304 | the same for an isolated hat, which delegates to its first block |
| Flatten.FlattenNormal | src/main/kotlin/org/scratchapi/scratchdsl/Blocks.kt:30-47 | the same for a normal block: its own row, then shadowless, paired and nested sockets in order |
| Flatten.PutSelf | src/main/kotlin/org/scratchapi/scratchdsl/Blocks.kt:31-32 | `parent = parentId; map[id] = this`: the block gets an id, its parent and its table entry |
| Flatten.FlattenChildren | src/main/kotlin/org/scratchapi/scratchdsl/Blocks.kt:33-46 | the sockets' loop agrees with the specification of the whole prefix of children |
| Flatten.FlattenChild | src/main/kotlin/org/scratchapi/scratchdsl/Blocks.kt:33-46 | one child: an expression flattens with this block as parent, a stack with this block's id as parent |
| Flatten.FlattenStack | src/main/kotlin/org/scratchapi/scratchdsl/Build.kt:195-202 | `BlockStack.flattenInto`: each block gets the given parent and each previous block's next becomes the following one, exactly as the specification says |
| Flatten.LinkFrom | src/main/kotlin/org/scratchapi/scratchdsl/Build.kt:198 | `previous?.next = it`: the next map gains exactly the link from the previous block |
| FlattenFacts.PairChildrenExact | src/main/kotlin/org/scratchapi/scratchdsl/Blocks.kt:37-42 | the paired sockets contribute exactly the independent shadows and values |
| FlattenFacts.StackChildrenExact | src/main/kotlin/org/scratchapi/scratchdsl/Blocks.kt:43-46 | the nested sockets contribute exactly the non-null stacks |
| FlattenFacts.ChildrenExact | src/main/kotlin/org/scratchapi/scratchdsl/Blocks.kt:33-46 | a block's flattened children are exactly its independent expressions and its nested stacks |
| FlattenFacts.FirstRow | src/main/kotlin/org/scratchapi/scratchdsl/Blocks.kt:31-32 | a normal block's own row comes first |
| FlattenFacts.StackRows | src/main/kotlin/org/scratchapi/scratchdsl/Build.kt:195-202 | every non-isolated block of a stack gets a row with the stack's parent, and a link to the block after it |
| FlattenFacts.BlockRows | src/main/kotlin/org/scratchapi/scratchdsl/Blocks.kt:30-47 | a block's independent expressions and its nested stacks' blocks get rows with the block as parent |
| FlattenFacts.RowsB | src/main/kotlin/org/scratchapi/scratchdsl/Blocks.kt:30-47 | every row a pass writes is a block, never an inlined expression |
| FlattenFacts.LinksLast | src/main/kotlin/org/scratchapi/scratchdsl/Build.kt:198 | the last link written from a block decides its next |
| FlattenFacts.ParentsLast | src/main/kotlin/org/scratchapi/scratchdsl/Blocks.kt:31 | the last row of a block decides its parent |
| FlattenFacts.TableLast | src/main/kotlin/org/scratchapi/scratchdsl/Blocks.kt:32 | the last row under an id decides the table entry |
| FlattenFacts.TableUntouched | src/main/kotlin/org/scratchapi/scratchdsl/Blocks.kt:32 | ids no row writes keep their earlier entry |
| FlattenFacts.TableKeys | src/main/kotlin/org/scratchapi/scratchdsl/Blocks.kt:32 | the table's keys afterwards are the earlier keys plus the ids of the rows written |
| FlattenFacts.RowApplied | src/main/kotlin/org/scratchapi/scratchdsl/Blocks.kt:30-47 | when no id is shared, every row's block ends with its parent and its table entry |
| FlattenFacts.LinkApplied | src/main/kotlin/org/scratchapi/scratchdsl/Build.kt:198 | when no id is shared, every link ends in the next map |
| FlattenFacts.StackFlattened | src/main/kotlin/org/scratchapi/scratchdsl/Build.kt:195-202 | after a stack is flattened each of its blocks is in the table under its id with the stack's parent, and each links to the block after it |
| FlattenFacts.BlockFlattened | src/main/kotlin/org/scratchapi/scratchdsl/Blocks.kt:30-47 | after a block is flattened it is in the table with its parent, and so is each independent expression with the block as parent |
| FlattenFacts.NestedFlattened | src/main/kotlin/org/scratchapi/scratchdsl/Blocks.kt:43-46 | after a block is flattened, each block of its nested stacks has the block as parent |
| FlattenTree.EdgesBelow | src/main/kotlin/org/scratchapi/scratchdsl/Blocks.kt:30-47 | each block or stack a pass descends into ranks strictly lower |
| FlattenTree.Up | src/main/kotlin/org/scratchapi/scratchdsl/Blocks.kt:30-47 | everything reached below a node other than itself is an edge of some node below it |
| FlattenTree.Parent | src/main/kotlin/org/scratchapi/scratchdsl/Blocks.kt:30-47 | in a tree, a node whose edge lies below another node lies below it too |
| FlattenTree.Nested | src/main/kotlin/org/scratchapi/scratchdsl/Blocks.kt:30-47 | in a tree, two subtrees that meet are nested |
| FlattenTree.Siblings | src/main/kotlin/org/scratchapi/scratchdsl/Blocks.kt:33-46 | in a tree, the subtrees under two different sockets of a block share nothing |
| FlattenTree.OnceThen | src/main/kotlin/org/scratchapi/scratchdsl/Blocks.kt:30-47 | two traces over disjoint blocks join into a trace that writes each block and each link once |
| FlattenTree.OnceB | src/main/kotlin/org/scratchapi/scratchdsl/Blocks.kt:30-47 | in a tree, flattening a block writes each block once and each next link once, all within its subtree |
| FlattenTree.OnceIsolated | src/main/kotlin/org/scratchapi/scratchdsl/Blocks.kt:303-304 | the same for an isolated hat |
| FlattenTree.OnceNormal | src/main/kotlin/org/scratchapi/scratchdsl/Blocks.kt:30-47 | the same for a normal block: its own row, then its children's disjoint subtrees |
| FlattenTree.OnceCs | src/main/kotlin/org/scratchapi/scratchdsl/Blocks.kt:33-46 | the children flattened so far write only their own subtrees, each once |
| FlattenTree.OnceChild | src/main/kotlin/org/scratchapi/scratchdsl/Blocks.kt:33-46 | one child writes only its own subtree, each block once |
| FlattenTree.OnceContents | src/main/kotlin/org/scratchapi/scratchdsl/Build.kt:195-202 | a stack's blocks flattened so far write each block and link once, and the last one has no link yet |
| FlattenTree.CounterIdsDistinct | src/main/kotlin/org/scratchapi/scratchdsl/Build.kt:1015-1025 | in deterministic mode the counter's ids are distinct: drawing the next counter value for a new block keeps all ids distinct |
| FlattenTree.OnceUnshared | src/main/kotlin/org/scratchapi/scratchdsl/Blocks.kt:32 | a trace writing each block once, over distinct ids, shares no table key between two blocks |
| FlattenTree.BlockUnshared | src/main/kotlin/org/scratchapi/scratchdsl/Blocks.kt:30-47 | a tree flattened under distinct ids shares no key, and no link leaves from the block itself |
| FlattenTree.StackUnshared | src/main/kotlin/org/scratchapi/scratchdsl/Build.kt:195-202 | a tree's stack flattened under distinct ids shares no key, and its last block's next is left as it was |
| FlattenTree.HatStacks | src/main/kotlin/org/scratchapi/scratchdsl/Blocks.kt:280-320 | every script's hat leads to a stack of the arena |
| FlattenTree.HatStacksApart | src/main/kotlin/org/scratchapi/scratchdsl/Build.kt:240-261 | when the hats are roots, the stacks of two different hats share nothing |
| FlattenTree.HatsApart | src/main/kotlin/org/scratchapi/scratchdsl/Build.kt:240-261 | the stacks of the hats flattened so far share nothing with a later hat's |
| FlattenTree.OnceHats | src/main/kotlin/org/scratchapi/scratchdsl/Build.kt:240-261 | flattening all scripts writes each block and link once |
| FlattenTree.HatsUnshared | src/main/kotlin/org/scratchapi/scratchdsl/Build.kt:240-261 | all scripts flattened under distinct ids share no table key |
| Prepare.PrepareBlock | src/main/kotlin/org/scratchapi/scratchdsl/Blocks.kt:105-125 | `NormalBlock.prepareRepresent` on the arena: the new arena and outcome are exactly those of the pass's specification, run over shadowless, then paired, then nested sockets |
| Prepare.PrepareIsolated | src/main/kotlin/org/scratchapi/scratchdsl/Blocks.kt:312-315 | an isolated hat marks its first block top-level and prepares its own stack, as the specification says |
| Prepare.CopyStep | src/main/kotlin/org/scratchapi/scratchdsl/Blocks.kt:109 | `if (u is ShouldCopy) u.makeCopy() else u`: the expression is replaced by its copy exactly as the specification's copy step says |
| Prepare.PrepareShadowless | src/main/kotlin/org/scratchapi/scratchdsl/Blocks.kt:106-111 | the shadowless loop: each non-null expression prepared, then replaced by its copy, as specified |
| Prepare.PreparePaired | src/main/kotlin/org/scratchapi/scratchdsl/Blocks.kt:112-120 | the paired loop, as specified |
| Prepare.PreparePair | src/main/kotlin/org/scratchapi/scratchdsl/Blocks.kt:114-119 | one pair: shadow and value prepared, the shadow copied as a shadow and the value as a non-shadow |
| Prepare.PrepareNested | src/main/kotlin/org/scratchapi/scratchdsl/Blocks.kt:121-124 | the nested loop: each non-null stack prepared |
| Prepare.PrepareStack | src/main/kotlin/org/scratchapi/scratchdsl/Build.kt:204-209 | `BlockStack.prepareRepresent`: every block but a hat is prepared, in order, as specified |
| PrepareInv.SocketChildrenAll | src/main/kotlin/org/scratchapi/scratchdsl/Blocks.kt:106-111 | a block's shadowless children are exactly its non-null shadowless expressions |
| PrepareInv.PairChildrenAll | src/main/kotlin/org/scratchapi/scratchdsl/Blocks.kt:112-120 | its paired children are exactly its shadows and its values |
| PrepareInv.BelowRanked | src/main/kotlin/org/scratchapi/scratchdsl/Blocks.kt:105-125 | a block whose sockets all rank below it is ranked |
| PrepareInv.RankedBelow | src/main/kotlin/org/scratchapi/scratchdsl/Blocks.kt:105-125 | and conversely |
| PrepareInv.LayeredIsRanked | src/main/kotlin/org/scratchapi/scratchdsl/Blocks.kt:105-125 | the pass's layered ranking is a ranking of the arena |
| PrepareInv.LayeredRanked | src/main/kotlin/org/scratchapi/scratchdsl/Blocks.kt:105-125 | for an arena closed under its references, layered and ranked mean the same |
| PrepareInv.HatsRankedGrow | src/main/kotlin/org/scratchapi/scratchdsl/Blocks.kt:264-320 | adding non-hat blocks keeps the hats ranked above their stacks |
| PrepareInv.AnchorsReplace | src/main/kotlin/org/scratchapi/scratchdsl/Blocks.kt:105-125 | rewriting a block's sockets keeps its kind and fields, so every declaration stays anchored |
| PrepareInv.AnchorsGrow | src/main/kotlin/org/scratchapi/scratchdsl/Expressions.kt:131-143 | a fresh copy whose fields refer only to itself keeps declarations anchored |
| PrepareInv.ReadyKept | src/main/kotlin/org/scratchapi/scratchdsl/Blocks.kt:105-125 | a block ready to represent stays ready as the pass goes on |
| PrepareInv.WentTrans | src/main/kotlin/org/scratchapi/scratchdsl/Blocks.kt:105-125 | what the pass may change (sockets only grow, nothing is removed) composes |
| PrepareInv.LayeredReplace | src/main/kotlin/org/scratchapi/scratchdsl/Blocks.kt:110 | replacing a block's sockets by lower-ranked ones keeps the ranking |
| PrepareInv.LayeredGrow | src/main/kotlin/org/scratchapi/scratchdsl/Expressions.kt:131-143 | adding a bare copy at rank 0 keeps the ranking |
| PrepareInv.ReplaceStep | src/main/kotlin/org/scratchapi/scratchdsl/Blocks.kt:110 | replacing a socket keeps the invariant |
| PrepareInv.ShadowlessStep | src/main/kotlin/org/scratchapi/scratchdsl/Blocks.kt:110 | storing a lower-ranked expression in a shadowless socket keeps the invariant |
| PrepareInv.PairedStep | src/main/kotlin/org/scratchapi/scratchdsl/Blocks.kt:119 | storing a lower-ranked pair keeps the invariant |
| PrepareInv.TopLevelStep | src/main/kotlin/org/scratchapi/scratchdsl/Blocks.kt:313 | marking a block top-level keeps the invariant |
| PrepareInv.CopyBare | src/main/kotlin/org/scratchapi/scratchdsl/Expressions.kt:131-143 | a fresh copy has no sockets, is not top-level, is no hat, declaration or host, and its fields refer only to itself |
| PrepareInv.FreshStep | src/main/kotlin/org/scratchapi/scratchdsl/Expressions.kt:131-143 | adding a fresh copy keeps the invariant and only grows the arena |
| PrepareInv.CopyGoes | src/main/kotlin/org/scratchapi/scratchdsl/Blocks.kt:109 | the copy step never gets stuck, keeps the invariant and the asset slots, passes on a ready expression, and yields a block ranked no higher |
| PrepareInv.StackKept | src/main/kotlin/org/scratchapi/scratchdsl/Build.kt:204-209 | a stack ranked below a block stays so as the pass goes on |
| PrepareInv.ShadowlessChild | src/main/kotlin/org/scratchapi/scratchdsl/Blocks.kt:106-111 | a block's shadowless expressions rank below it |
| PrepareInv.PairedChild | src/main/kotlin/org/scratchapi/scratchdsl/Blocks.kt:112-120 | its shadows and values rank below it |
| PrepareInv.NestedChild | src/main/kotlin/org/scratchapi/scratchdsl/Blocks.kt:121-124 | its nested stacks rank below it |
| PrepareInv.IsolatedChild | src/main/kotlin/org/scratchapi/scratchdsl/Blocks.kt:312-315 | an isolated hat's own stack ranks below it |
| PrepareInv.HatChild | src/main/kotlin/org/scratchapi/scratchdsl/Blocks.kt:264-278 | a hat's stack ranks below it |
| PrepareInv.CopyPairGoes | src/main/kotlin/org/scratchapi/scratchdsl/Blocks.kt:117-118 | copying a ready pair passes, keeps the invariant and yields lower-ranked blocks |
| PrepareInv.PassKeepsStructure | src/main/kotlin/org/scratchapi/scratchdsl/Blocks.kt:105-125 | the pass keeps the arena's structure and the anchoring of declarations and singleton placeholders |
| PrepareFacts.BlockGoes | src/main/kotlin/org/scratchapi/scratchdsl/Blocks.kt:105-125 | given fuel at least a block's rank, preparing it never gets stuck, keeps the invariant, fails only as anticipated, and on success leaves it ready to represent |
| PrepareFacts.PairedThenGoes | src/main/kotlin/org/scratchapi/scratchdsl/Blocks.kt:112-125 | the same for the paired and nested part |
| PrepareFacts.NestedThenGoes | src/main/kotlin/org/scratchapi/scratchdsl/Blocks.kt:121-124 | the same for the nested part |
| PrepareFacts.OwnGoes | src/main/kotlin/org/scratchapi/scratchdsl/Blocks.kt:105-125 | the same for the block's own step |
| PrepareFacts.EntryGoes | src/main/kotlin/org/scratchapi/scratchdsl/Blocks.kt:108-109 | preparing then copying one socket entry never gets stuck and yields a block ranked no higher |
| PrepareFacts.PairGoes | src/main/kotlin/org/scratchapi/scratchdsl/Blocks.kt:114-119 | the same for one pair |
| PrepareFacts.ShadowlessGoes | src/main/kotlin/org/scratchapi/scratchdsl/Blocks.kt:106-111 | the shadowless loop never gets stuck and keeps the invariant |
| PrepareFacts.PairedGoes | src/main/kotlin/org/scratchapi/scratchdsl/Blocks.kt:112-120 | the paired loop likewise |
| PrepareFacts.PairedNext | src/main/kotlin/org/scratchapi/scratchdsl/Blocks.kt:119 | one more pair stored, the rest of the loop likewise |
| PrepareFacts.NestedGoes | src/main/kotlin/org/scratchapi/scratchdsl/Blocks.kt:121-124 | the nested loop likewise |
| PrepareFacts.StackGoes | src/main/kotlin/org/scratchapi/scratchdsl/Build.kt:204-209 | preparing a stack likewise |
| PrepareFacts.IsolatedEmptyThrows | src/main/kotlin/org/scratchapi/scratchdsl/Blocks.kt:280-320 | preparing an isolated hat over an empty stack fails with an illegal-state error and changes nothing |
| PrepareFacts.BareBlock | src/main/kotlin/org/scratchapi/scratchdsl/Blocks.kt:105-125 | a block without sockets only takes its own step |
| PrepareFacts.PlaceholderEntry | src/main/kotlin/org/scratchapi/scratchdsl/SpecialInputs.kt:153-235 | a placeholder entry fails with out-of-bounds exactly when the sprite has nothing to resolve it to, and otherwise shows the first costume, backdrop, sound or broadcast |
| PrepareFacts.PlaceholderCopy | src/main/kotlin/org/scratchapi/scratchdsl/SpecialInputs.kt:153-235 | once resolved, a placeholder's copy shows the resolved value |
| Scripts.InvView | src/main/kotlin/org/scratchapi/scratchdsl/Build.kt:587-598 | the pass's invariant does not depend on which sprite it resolves placeholders against, once the sprite's assets are typed |
| Scripts.DeclKeepsInv | src/main/kotlin/org/scratchapi/scratchdsl/Build.kt:593-595 | adding a bare declaration (the default broadcast) keeps the invariant |
| Scripts.HatsRunStops | src/main/kotlin/org/scratchapi/scratchdsl/Build.kt:596-598 | once one script fails to prepare, the later scripts are not run and the state stays as it was |
| Scripts.HatsRunPrefix | src/main/kotlin/org/scratchapi/scratchdsl/Build.kt:596-598 | a run over all scripts that ends implies every shorter run ends |
| Scripts.HatsRunGoes | src/main/kotlin/org/scratchapi/scratchdsl/Build.kt:596-598 | preparing every script never gets stuck, keeps the invariant and fails only as anticipated |
| Scripts.FlatHatsFails | src/main/kotlin/org/scratchapi/scratchdsl/Build.kt:599-604 | once one script fails to flatten, flattening all of them fails |
| Scripts.FlatHatsHolds | src/main/kotlin/org/scratchapi/scratchdsl/Build.kt:599-604 | every script's own trace is part of the trace of all scripts |
| Scripts.ScriptsFlattened | src/main/kotlin/org/scratchapi/scratchdsl/Build.kt:599-605 | after all scripts are flattened every block of a script's top stack is in the table under its id and has no parent |
| Targets.Keyed | src/main/kotlin/org/scratchapi/scratchdsl/Build.kt:610-636 | one entry per object, in order |
| Targets.KeyedAt | src/main/kotlin/org/scratchapi/scratchdsl/Build.kt:610-636 | entry `i` is keyed by object `i`'s id |
| Targets.KeyedStable | src/main/kotlin/org/scratchapi/scratchdsl/Blocks.kt:19-28 | ids already made do not change, so neither do the entries keyed by them |
| Targets.PutAllSnoc | src/main/kotlin/org/scratchapi/scratchdsl/Build.kt:610-636 | putting one more entry is `put` on the object so far |
| Targets.PutAllDistinct | src/main/kotlin/org/scratchapi/scratchdsl/Build.kt:610-636 | putting entries with distinct keys into an empty object keeps each one, in order |
| Targets.KeyedObject | src/main/kotlin/org/scratchapi/scratchdsl/Build.kt:610-636 | an object built from rows with distinct ids has one entry per row, keyed by its id |
| Targets.IdObject | src/main/kotlin/org/scratchapi/scratchdsl/Build.kt:610-636 | building an object keyed by ids draws every id it needs and yields exactly the keyed entries |
| Targets.CommentRows | src/main/kotlin/org/scratchapi/scratchdsl/Build.kt:632-636 | one entry per comment, in order |
| Targets.CommentValueStable | src/main/kotlin/org/scratchapi/scratchdsl/Attachments.kt:134-164 | a comment's object does not change as more ids are drawn |
| Targets.CommentRowsStable | src/main/kotlin/org/scratchapi/scratchdsl/Build.kt:632-636 | nor do the comment entries |
| Targets.CommentEntry | src/main/kotlin/org/scratchapi/scratchdsl/Build.kt:634 | `put(c.id, c.represent())`: the comment keeps an id once it has one, succeeds exactly when its owner can report an id, fails only with illegal state, and yields its id with its object |
| Targets.CommentRowsAt | src/main/kotlin/org/scratchapi/scratchdsl/Build.kt:632-636 | entry `i` is comment `i` under its id |
| Targets.CommentStep | src/main/kotlin/org/scratchapi/scratchdsl/Build.kt:633-635 | one more comment extends the entries by its own |
| Targets.CommentsDoneRows | src/main/kotlin/org/scratchapi/scratchdsl/Build.kt:632-636 | the loop's entries after the last comment are the specification's entries |
| Targets.CommentsObject | src/main/kotlin/org/scratchapi/scratchdsl/Build.kt:632-636 | the comments object: succeeds exactly when every comment's owner can report an id, and is then exactly the comments keyed by their ids |
| Targets.AloneStable | src/main/kotlin/org/scratchapi/scratchdsl/Expressions.kt:12-17 | an expression's rendering does not change as more ids are drawn |
| Targets.InputsStable | src/main/kotlin/org/scratchapi/scratchdsl/Blocks.kt:49-69 | nor does a block's inputs object |
| Targets.FieldsStable | src/main/kotlin/org/scratchapi/scratchdsl/Blocks.kt:71-80 | nor its fields object |
| Targets.BlockJsonStable | src/main/kotlin/org/scratchapi/scratchdsl/Blocks.kt:82-103 | nor its whole object, so blocks represented earlier stay right |
| Targets.CoveredRead | src/main/kotlin/org/scratchapi/scratchdsl/Blocks.kt:49-69 | sockets that can be rendered have every id they read |
| Targets.BlockEntry | src/main/kotlin/org/scratchapi/scratchdsl/Build.kt:656 | one block's entry: succeeds exactly when the block is serialisable, fails only with illegal state or uninitialised, and yields the block's object |
| Targets.BlockRows | src/main/kotlin/org/scratchapi/scratchdsl/Build.kt:656 | the block table keeps every key, in insertion order, one entry per row |
| Targets.BlockStep | src/main/kotlin/org/scratchapi/scratchdsl/Build.kt:656 | one more block extends the entries by its own |
| Targets.BlocksDoneRows | src/main/kotlin/org/scratchapi/scratchdsl/Build.kt:656 | the loop's entries after the last row are the specification's entries |
| Targets.BlocksObject | src/main/kotlin/org/scratchapi/scratchdsl/Build.kt:656 | `allBlocks.mapValues { represent() }`: succeeds exactly when every block is serialisable, and is then each block's object under its id, in table order |
| Sprites.DeclShape | src/main/kotlin/org/scratchapi/scratchdsl/VLB.kt:11-26 | a declaration made by a sprite is a standalone declaration of the given variant and name |
| Sprites.SpriteNameAsWrittenThrows | src/main/kotlin/org/scratchapi/scratchdsl/Build.kt:571 | in deterministic mode every counter id below 2^31 is shorter than 8 characters, so `substring(0..<8)` throws (see Findings) |
| Sprites.SpriteName | src/main/kotlin/org/scratchapi/scratchdsl/Build.kt:571 | the default name is "Sprite-" followed by the first 8 characters of a fresh id, or all of it when shorter |
| Sprites.SpriteNameAgrees | src/main/kotlin/org/scratchapi/scratchdsl/Build.kt:571 | the written form succeeds exactly when the id has at least 8 characters, and then gives the same name |
| Sprites.SpriteNamesDistinct | src/main/kotlin/org/scratchapi/scratchdsl/Build.kt:571 | default names drawn from different counter values differ |
| Sprites.TablesKept | src/main/kotlin/org/scratchapi/scratchdsl/Build.kt:564-570 | the sprite's tables stay well-formed while blocks keep their kinds |
| Sprites.VarAdded | src/main/kotlin/org/scratchapi/scratchdsl/Build.kt:674 | adding a variable under a new name appends it and keeps the table well-formed |
| Sprites.ListAdded | src/main/kotlin/org/scratchapi/scratchdsl/Build.kt:690 | the same for a list |
| Sprites.BroadcastAdded | src/main/kotlin/org/scratchapi/scratchdsl/Build.kt:714 | the same for a broadcast |
| Sprites.HatsStackedOf | src/main/kotlin/org/scratchapi/scratchdsl/Build.kt:585 | every hat added to a sprite leads to a stack of the arena |
| Sprites.DefaultsRanked | src/main/kotlin/org/scratchapi/scratchdsl/Build.kt:588-595 | adding the default costume and broadcast keeps the ranking the later passes rely on |
| Sprites.HatsReady | src/main/kotlin/org/scratchapi/scratchdsl/Build.kt:596-598 | preparing all hats never gets stuck and leaves a ranked arena whose hats lead to stacks, with tables and structure intact |
| Sprites.BroadcastRows | src/main/kotlin/org/scratchapi/scratchdsl/Build.kt:610-614 | one row per broadcast: its declaration with its name |
| Sprites.VariableJson | src/main/kotlin/org/scratchapi/scratchdsl/Build.kt:617-621 | a variable's array is name, value and then `true` exactly when it is a cloud variable |
| Sprites.VariableRows | src/main/kotlin/org/scratchapi/scratchdsl/Build.kt:615-623 | one row per variable: its declaration with its array |
| Sprites.ListRows | src/main/kotlin/org/scratchapi/scratchdsl/Build.kt:624-631 | one row per list: its declaration with name and contents |
| Sprites.CostumesJson | src/main/kotlin/org/scratchapi/scratchdsl/Build.kt:637-641 | the costumes array holds each costume's asset object, in order |
| Sprites.SoundsJson | src/main/kotlin/org/scratchapi/scratchdsl/Build.kt:642-646 | the sounds array likewise |
| Sprites.DeclObjectsStable | src/main/kotlin/org/scratchapi/scratchdsl/Build.kt:610-631 | the declaration objects do not change as more ids are drawn |
| Sprites.BroadcastObject | src/main/kotlin/org/scratchapi/scratchdsl/Build.kt:610-614 | the broadcasts object holds each broadcast's name under its id, in order |
| Sprites.VariableObject | src/main/kotlin/org/scratchapi/scratchdsl/Build.kt:615-623 | the variables object holds each variable's array under its id |
| Sprites.ListObject | src/main/kotlin/org/scratchapi/scratchdsl/Build.kt:624-631 | the lists object holds each list's array under its id |
| Sprites.SpriteBuilder.NamesUnique | src/main/kotlin/org/scratchapi/scratchdsl/Build.kt:671-673 | no two variables, lists or broadcasts of a sprite share a name |
| Sprites.SpriteBuilder.constructor | src/main/kotlin/org/scratchapi/scratchdsl/Build.kt:562-579 | a new sprite has empty tables, the source's start values (costume 0, layer 1, tempo 60, video "on" at 50, volume 100) and the default name drawn from one fresh id |
| Sprites.SpriteBuilder.AddHatBlock | src/main/kotlin/org/scratchapi/scratchdsl/Build.kt:585 | appends the hat |
| Sprites.SpriteBuilder.AddComment | src/main/kotlin/org/scratchapi/scratchdsl/Attachments.kt:134-164 | appends the comment |
| Sprites.SpriteBuilder.ScrambleLocalNamesAfter | src/main/kotlin/org/scratchapi/scratchdsl/Build.kt:747-749 | later names are scrambled |
| Sprites.SpriteBuilder.AddCostume | src/main/kotlin/org/scratchapi/scratchdsl/Build.kt:752-755 | `costumes[name] = this` |
| Sprites.SpriteBuilder.AddSound | src/main/kotlin/org/scratchapi/scratchdsl/Build.kt:757-760 | `sounds[name] = this` |
| Sprites.SpriteBuilder.NewDecl | src/main/kotlin/org/scratchapi/scratchdsl/VLB.kt:11-26 | a fresh declaration under the given name, or a random 6-character name once scrambling is on |
| Sprites.SpriteBuilder.MakeVar | src/main/kotlin/org/scratchapi/scratchdsl/Build.kt:666-675 | fails with "This name is already used." exactly when the name is a local or global variable, leaving the table alone; otherwise appends the variable with its value and cloud flag |
| Sprites.SpriteBuilder.MakeList | src/main/kotlin/org/scratchapi/scratchdsl/Build.kt:682-691 | the same for lists |
| Sprites.SpriteBuilder.MakeLocalBroadcast | src/main/kotlin/org/scratchapi/scratchdsl/Build.kt:708-715 | the same for broadcasts |
| Sprites.SpriteBuilder.MakeVarFromSlot | src/main/kotlin/org/scratchapi/scratchdsl/Build.kt:721-724 | a variable made from a slot takes the slot's id |
| Sprites.SpriteBuilder.MakeListFromSlot | src/main/kotlin/org/scratchapi/scratchdsl/Build.kt:730-733 | likewise for a list |
| Sprites.SpriteBuilder.MakeBroadcastFromSlot | src/main/kotlin/org/scratchapi/scratchdsl/Build.kt:739-742 | likewise for a broadcast |
| Sprites.SpriteBuilder.AddDefaults | src/main/kotlin/org/scratchapi/scratchdsl/Build.kt:588-595 | adds the default costume exactly when there is none, and a "message1" broadcast exactly when a stage has none (failing if that name is global) |
| Sprites.SpriteBuilder.PrepareHats | src/main/kotlin/org/scratchapi/scratchdsl/Build.kt:596-598 | prepares every hat in order, as the specification says |
| Sprites.SpriteBuilder.PrepareScripts | src/main/kotlin/org/scratchapi/scratchdsl/Build.kt:596-598 | preparing the hats keeps the sprite valid, fails only with out-of-bounds or illegal state, and on success leaves a ranked arena |
| Sprites.SpriteBuilder.FlattenHats | src/main/kotlin/org/scratchapi/scratchdsl/Build.kt:599-604 | flattening every hat's stacks into one table succeeds exactly as specified, with exactly the specified effect |
| Sprites.SpriteBuilder.FlattenScripts | src/main/kotlin/org/scratchapi/scratchdsl/Build.kt:599-604 | the same, keeping the sprite valid |
| Sprites.SpriteBuilder.PrepareDefaults | src/main/kotlin/org/scratchapi/scratchdsl/Build.kt:588-595 | the defaults are added and the invariant of the preparing pass holds against the sprite's view |
| Sprites.SpriteBuilder.PrepareTarget | src/main/kotlin/org/scratchapi/scratchdsl/Build.kt:587-598 | the defaults and the preparing pass; fails only with illegal argument, out-of-bounds or illegal state |
| Sprites.SpriteBuilder.PrepareRepresent | src/main/kotlin/org/scratchapi/scratchdsl/Build.kt:587-606 | `prepareRepresent`: defaults, then every hat prepared, then every script flattened into `allBlocks`, exactly as the flattening specification says; on failure `allBlocks` is untouched |
| Sprites.SpriteBuilder.Assemble | src/main/kotlin/org/scratchapi/scratchdsl/Build.kt:608-657 | the target object has exactly the source's keys in the source's order |
| Sprites.SpriteBuilder.DeclObjects | src/main/kotlin/org/scratchapi/scratchdsl/Build.kt:610-631 | the broadcasts, variables and lists objects as specified |
| Sprites.SpriteBuilder.Assembled | src/main/kotlin/org/scratchapi/scratchdsl/Build.kt:608-657 | the assembled object is the target's specification |
| Sprites.SpriteBuilder.Finish | src/main/kotlin/org/scratchapi/scratchdsl/Build.kt:656-657 | the blocks object raises when `allBlocks` was never set, fails exactly when a block cannot be serialised, and otherwise completes the specified target |
| Sprites.SpriteBuilder.AfterDecls | src/main/kotlin/org/scratchapi/scratchdsl/Build.kt:632-657 | comments then blocks, failing as each part says |
| Sprites.SpriteBuilder.Represent | src/main/kotlin/org/scratchapi/scratchdsl/Build.kt:608-658 | `represent`: fails when a comment's owner has no id, when `allBlocks` was never set, or when a block cannot be serialised, and otherwise yields exactly the specified target object |
| Sprites.StageBuilder.constructor | src/main/kotlin/org/scratchapi/scratchdsl/Build.kt:443-455 | a stage is a sprite marked as stage, with no backdrops |
| Sprites.StageBuilder.AddBackdrop | src/main/kotlin/org/scratchapi/scratchdsl/Build.kt:506-517 | the costume is added to the stage's sprite and its backdrop appended |
| Procedures.MarkersText | src/main/kotlin/org/scratchapi/scratchdsl/Blocks.kt:1647-1650 | label text free of `%` adds no argument marker to the proccode |
| Procedures.MarkersPlain | src/main/kotlin/org/scratchapi/scratchdsl/Blocks.kt:1606-1608 | a procedure name free of `%` has no marker |
| Procedures.MarkersSlot | src/main/kotlin/org/scratchapi/scratchdsl/Blocks.kt:1615-1641 | appending ` %c` adds exactly the one marker `c` |
| Procedures.PrototypeBuilder.constructor | src/main/kotlin/org/scratchapi/scratchdsl/Blocks.kt:1606-1609 | the proccode starts as the name, with no arguments |
| Procedures.PrototypeBuilder.AddArgument | src/main/kotlin/org/scratchapi/scratchdsl/Blocks.kt:1615-1641 | appends an argument shadow and a reporter sharing its six-character argument id, and ` %c` to the proccode, keeping the markers in step with the arguments |
| Procedures.PrototypeBuilder.StringNumber | src/main/kotlin/org/scratchapi/scratchdsl/Blocks.kt:1615-1620 | `stringNumber`: a string-or-number argument with marker `%s` |
| Procedures.PrototypeBuilder.Number | src/main/kotlin/org/scratchapi/scratchdsl/Blocks.kt:1626-1631 | `number`: the same argument with marker `%n` |
| Procedures.PrototypeBuilder.Boolean | src/main/kotlin/org/scratchapi/scratchdsl/Blocks.kt:1637-1642 | `boolean`: a boolean argument with marker `%b` |
| Procedures.PrototypeBuilder.Text | src/main/kotlin/org/scratchapi/scratchdsl/Blocks.kt:1647-1650 | `text`: a space and the label appended, arguments unchanged |
| Procedures.PrototypeBuilder.SetProccode | src/main/kotlin/org/scratchapi/scratchdsl/Blocks.kt:1655-1657 | `setProccode`: the proccode replaced, arguments unchanged |
| Procedures.ArgumentIds | src/main/kotlin/org/scratchapi/scratchdsl/SpecialInputs.kt:355-359 | the `argumentids` list: each argument's id, in order |
| Procedures.ArgumentNames | src/main/kotlin/org/scratchapi/scratchdsl/SpecialInputs.kt:360-364 | the `argumentnames` list: each argument's name, in order |
| Procedures.ArgumentDefaults | src/main/kotlin/org/scratchapi/scratchdsl/SpecialInputs.kt:365-369 | the `argumentdefaults` list: each argument's default, in order |
| Procedures.ArgInputsInOrder | src/main/kotlin/org/scratchapi/scratchdsl/SpecialInputs.kt:345-347 | with distinct object ids, the prototype holds each argument under its own id, in order |
| Procedures.PrototypeInputOf | src/main/kotlin/org/scratchapi/scratchdsl/SpecialInputs.kt:345-347 | each argument is an input of the prototype under its id and reads back as a shadow `[1, id]` |
| Procedures.NewPrototype | src/main/kotlin/org/scratchapi/scratchdsl/SpecialInputs.kt:342-368 | `ProcedurePrototype`: a new shadow block holding every argument under its object id (drawn if needed) and a mutation naming proccode, argument ids, names, defaults and warp |
| Procedures.ObjectIds | src/main/kotlin/org/scratchapi/scratchdsl/SpecialInputs.kt:345-347 | the first loop: each argument's object id and the entries filed under them |
| Procedures.EmptyText | src/main/kotlin/org/scratchapi/scratchdsl/Build.kt:143 | `ValueInput.TEXT.of("")`: the empty text, input type 10 |
| Procedures.CallMatchesPrototype | src/main/kotlin/org/scratchapi/scratchdsl/Build.kt:133-141 | a call block's argument ids, proccode and warp are exactly its prototype's |
| Procedures.DefaultOne | src/main/kotlin/org/scratchapi/scratchdsl/Build.kt:142-144 | one step of the first loop of `call`: a string-or-number argument gets the empty text under its id, a boolean argument nothing |
| Procedures.DefaultArgs | src/main/kotlin/org/scratchapi/scratchdsl/Build.kt:142-144 | the first loop of `call` |
| Procedures.SupplyText | src/main/kotlin/org/scratchapi/scratchdsl/Build.kt:146-147 | one step of the second loop for a string-or-number argument: the expression over a new empty text, as `withExpression` places it |
| Procedures.SupplyBoolean | src/main/kotlin/org/scratchapi/scratchdsl/Build.kt:148-149 | the same for any other argument: the expression alone |
| Procedures.SupplyOne | src/main/kotlin/org/scratchapi/scratchdsl/Build.kt:145-151 | one step of the second loop |
| Procedures.SupplyArgs | src/main/kotlin/org/scratchapi/scratchdsl/Build.kt:145-151 | the second loop: the arguments zipped with the expressions |
| Procedures.CallMutationPuts | src/main/kotlin/org/scratchapi/scratchdsl/Build.kt:133-141 | the call block's mutation, key by key: default mutation, then argument ids, proccode and warp |
| Procedures.NewCallBlock | src/main/kotlin/org/scratchapi/scratchdsl/Build.kt:133-141 | a fresh `procedures_call` block with that mutation |
| Procedures.FillCall | src/main/kotlin/org/scratchapi/scratchdsl/Build.kt:142-151 | the two loops of `call` over the fresh block: under each argument id, the pair of the last supplied string-or-number argument with that id (else the empty text default, if one was laid) and the value of the last other supplied argument with that id; arguments sharing an id overwrite one another in order |
| Procedures.CallFrom | src/main/kotlin/org/scratchapi/scratchdsl/Build.kt:132-153 | a call block with defaults laid from a given argument on, its sockets as in `FillCall` (colliding argument ids included), added to the host (failing with out-of-bounds exactly when the host has no target) |
| Procedures.FilledCall | src/main/kotlin/org/scratchapi/scratchdsl/Build.kt:133-151 | the call block before it is added: the prototype's mutation, and sockets as in `FillCall` for any argument ids, colliding or not |
| Procedures.CallAsWritten | src/main/kotlin/org/scratchapi/scratchdsl/Build.kt:132-153 | `Procedure.call` as written: defaults laid for every string-or-number argument, then the supplied expressions, a later argument with the same id overwriting an earlier one (see Findings) |
| Procedures.Call | src/main/kotlin/org/scratchapi/scratchdsl/Build.kt:132-153 | `Procedure.call` with the defaults laid only for arguments the call does not supply, for any argument ids (see Findings) |
| Procedures.Supplied | src/main/kotlin/org/scratchapi/scratchdsl/Build.kt:145 | `zip` stops at the shorter of arguments and expressions |
| Procedures.SuppliedAlone | src/main/kotlin/org/scratchapi/scratchdsl/Build.kt:146-147 | what a supplied argument should show; a literal under a string-or-number argument keeps its text |
| Procedures.CallShowsArgument | src/main/kotlin/org/scratchapi/scratchdsl/Build.kt:145-151 | an argument whose id no other argument shares and whose socket was not defaulted first shows its supplied expression in the serialised call |
| Procedures.CallShowsArguments | src/main/kotlin/org/scratchapi/scratchdsl/Build.kt:145-151 | in `Call`, every supplied argument whose id no other argument shares shows its expression |
| Procedures.CallLaterOverwrites | src/main/kotlin/org/scratchapi/scratchdsl/Build.kt:145-151 | arguments sharing an id (each drawn by `makeRandomId(6)`, SpecialInputs.kt:323 and :333) share one socket: a boolean argument that no later argument shares its id with leaves its own expression there, whatever earlier arguments put |
| Procedures.CallAsWrittenHidesShadow | src/main/kotlin/org/scratchapi/scratchdsl/Build.kt:142-151 | in the written form, a string-or-number argument with an unshared id given a shadow value is serialised as the empty text default |
| Procedures.CallAsWrittenLosesLiteral | src/main/kotlin/org/scratchapi/scratchdsl/Build.kt:142-151 | in the written form, the literal `"5"` given to a string-or-number argument with an unshared id is not what the call shows |
| Cloning.ClonedKept | src/main/kotlin/org/scratchapi/scratchdsl/Blocks.kt:131-148 | a clone stays the clone of its original as the graph grows |
| Cloning.KeptTrans | src/main/kotlin/org/scratchapi/scratchdsl/Blocks.kt:131-148 | "every earlier object and stack unchanged" composes |
| Cloning.SocketsStep | src/main/kotlin/org/scratchapi/scratchdsl/Blocks.kt:133-135 | one more iteration of a cloning loop keeps the earlier entries clones and adds one |
| Cloning.ClonedIn | src/main/kotlin/org/scratchapi/scratchdsl/Blocks.kt:131-148 | a clone is an object of the grown graph |
| Cloning.CopyClosed | src/main/kotlin/org/scratchapi/scratchdsl/Blocks.kt:131-148 | a deep copy refers only to objects and stacks of the grown graph |
| Cloning.LastId | src/main/kotlin/org/scratchapi/scratchdsl/Build.kt:1024 | the id made last by a counter now at `idx` is the one spelled from `idx - 1` |
| Cloning.CloneBlock | src/main/kotlin/org/scratchapi/scratchdsl/Blocks.kt:131-148 | `cloneBlock`: returns the clone of `x` as the clone relation defines it (a new copy, a new literal, a new isolated hat; a variable, list or broadcast itself; for the other kinds see Left out), keeps every earlier object and stack unchanged, and only advances the id counter |
| Cloning.CloneIsolated | src/main/kotlin/org/scratchapi/scratchdsl/Blocks.kt:317-319 | a new isolated hat around a clone of its stack |
| Cloning.CloneCopy | src/main/kotlin/org/scratchapi/scratchdsl/Expressions.kt:32-46 | a new block or reporter with the same opcode, not a shadow, whose socket maps hold clones under the same keys in the same order, and (for a block) the same fields |
| Cloning.CloneSlot | src/main/kotlin/org/scratchapi/scratchdsl/Blocks.kt:134 | `u?.cloneExpression()`: null stays null, an expression becomes its clone |
| Cloning.ClonePair | src/main/kotlin/org/scratchapi/scratchdsl/Blocks.kt:137-139 | the shadow cloned, then the value if any |
| Cloning.CloneNest | src/main/kotlin/org/scratchapi/scratchdsl/Blocks.kt:142 | `u?.cloneBlockStack()` |
| Cloning.CloneSockets | src/main/kotlin/org/scratchapi/scratchdsl/Blocks.kt:133-135 | the shadowless loop: every entry cloned, keys and order kept |
| Cloning.ClonePairs | src/main/kotlin/org/scratchapi/scratchdsl/Blocks.kt:136-140 | the paired loop likewise |
| Cloning.CloneNested | src/main/kotlin/org/scratchapi/scratchdsl/Blocks.kt:141-143 | the nested loop likewise |
| Cloning.CloneBlockStack | src/main/kotlin/org/scratchapi/scratchdsl/Build.kt:215-217 | `cloneBlockStack`: a new stack of the same length whose blocks are the clones of the originals in order; in deterministic mode its id is the counter's latest, distinct from every id made before |
| Cloning.NewClonedStack | src/main/kotlin/org/scratchapi/scratchdsl/Build.kt:216 | the `BlockStack` of the clones, with an id made now |
| Cloning.CloneElements | src/main/kotlin/org/scratchapi/scratchdsl/Build.kt:216 | `contents.map(Block::cloneBlock)`: each element cloned in order |
| Projects.ProjectJson | src/main/kotlin/org/scratchapi/scratchdsl/Build.kt:240-257 | the project object has exactly the keys targets, monitors, extensions, meta in that order, each holding what the root supplies, and the fixed meta object |
| Projects.MaxRank | src/main/kotlin/org/scratchapi/scratchdsl/Build.kt:241 | a fuel bound at least the rank of every hat of a target |
| Projects.WritableStep | src/main/kotlin/org/scratchapi/scratchdsl/Build.kt:242-246 | one more target that can be written extends the prefix that can |
| Projects.ShownStep | src/main/kotlin/org/scratchapi/scratchdsl/Build.kt:242-246 | one more target's object extends the prefix shown |
| Projects.PrepareTarget | src/main/kotlin/org/scratchapi/scratchdsl/Build.kt:241 | one target's `prepareRepresent`: defaults added, fails only with illegal argument, out-of-bounds or illegal state, and on success `allBlocks` is set and the arena stays acyclic |
| Projects.PrepareTargets | src/main/kotlin/org/scratchapi/scratchdsl/Build.kt:241 | `targets.forEach(SpriteBuilder::prepareRepresent)`: on success every target's table is set |
| Projects.RepresentTarget | src/main/kotlin/org/scratchapi/scratchdsl/Build.kt:244 | one target's object: succeeds exactly when it can be written and is then the target's specification |
| Projects.RepresentTargets | src/main/kotlin/org/scratchapi/scratchdsl/Build.kt:242-246 | the targets array: succeeds exactly when every target can be written, each object being that target's specification, in order |
| Projects.BuildRoot.Targets | src/main/kotlin/org/scratchapi/scratchdsl/Build.kt:229-230 | `targets`: the stage's sprite first, then the sprites in order |
| Projects.BuildRoot.constructor | src/main/kotlin/org/scratchapi/scratchdsl/Build.kt:222-233 | a new root has a stage, no sprites, empty monitor data and extensions, and no global names |
| Projects.BuildRoot.Sprite | src/main/kotlin/org/scratchapi/scratchdsl/Build.kt:271-274 | `sprite`: a fresh, empty, non-stage sprite appended to the sprites |
| Projects.BuildRoot.AttachMonitorData | src/main/kotlin/org/scratchapi/scratchdsl/Build.kt:292-294 | replaces the monitor data |
| Projects.BuildRoot.AddExtension | src/main/kotlin/org/scratchapi/scratchdsl/Build.kt:315-317 | appends the extension |
| Projects.BuildRoot.Represent | src/main/kotlin/org/scratchapi/scratchdsl/Build.kt:240-258 | `BuildRoot.represent`: prepares every target, then represents each; fails only with the errors those raise, and on success yields the project object over the targets' objects, the monitor data and the extensions, every target shown as its specification says |

## Left out

- File, zip and network I/O are not modelled: HTTP fetches, resource lookup on disk, archive writing, reading monitor data from an existing project, and path helpers (Build.kt:300-309, 432-441, 873-1000, 1038-1050). Monitor data is a JSON parameter of `BuildRoot`.
- MD5 hashing and asset file reads (`getChecksum`, `loadCostume`, `loadSound`) are foreign code. An asset id is an opaque string.
- Randomness: `Random.nextBytes` is a nondeterministic choice of bytes in `Ids.IdGenerator.MakeRandomId`. Only the length and the alphabet of a random id are modelled.
- FlattenTree.IdsDistinct: in random mode, distinct ids are a stated hypothesis. Only the deterministic mode's distinctness is proved (`FlattenTree.CounterIdsDistinct`).
- Ids.IdGenerator.MakeId: the counter `currentIdIdx` is an unbounded `nat`, not a 32-bit `Int`, so its wrap-around after 2^31 - 1 ids is not modelled. `Ids.Base62OfIntCounter` covers exactly the values a 32-bit counter can take before it wraps.
- Floating-point values are carried through unchanged: the rotation centre and the comment geometry are JSON numbers kept as text, and a Kotlin `Double` in the older builder design is a `real`.
- JSON text encoding: `Json.encodeToString` is `Json.Encode`, a compact printer. kotlinx's exact escaping of control and non-ASCII characters is not modelled.
- Closures and builder lambdas (`expressionSetHandler`, `withHandlesSet`, `HandlesSet.set`/`changeBy`, `HalfIfElse`, the receiver lambdas of `build`, and the `lazy` that wraps `procedure`) are explicit method calls made in the same order.
- The per-opcode catalogue of Blocks.kt:359-1600 is represented only by the scenarios in `catalogue.dfy` (`stopBlock`, `moveSteps`, `repeatBlock`, `setVar`/`changeVar`).
- The classes `ProcedureArgumentStringNumberShadow`, `ProcedureArgumentBooleanShadow` and `NormalShadowExpressionShouldCopy` are not part of this model. They are named in SpecialInputs.kt and Expressions.kt, but their definitions are not among the files modelled. The model gives them the behaviour of `ProcedureArgumentStringNumber` and of the other `ShouldCopy` shadows: copied by `prepareRepresent`, and shown as a value shadow.
- FlattenTree.Tree: the condition that every object hangs in at most one socket is stated as a hypothesis, not established by the builders. An expression that is not one of the copied kinds can be put into two sockets, and then the later table row wins.
- Sprites.SpriteBuilder.MakeVar: the root's global name tables (Build.kt:223-225) are never filled by the source, so the global names are a parameter `globals` of the name checks rather than a field of `BuildRoot`. The same holds for `MakeList` and `MakeLocalBroadcast`.
- Projects.MaxRank: the step functions of `prepareRepresent` take a fuel bound. `MaxRank` supplies one that covers every hat's rank, and `PrepareFacts` proves that such fuel never runs out, so the bound leaves nothing unmodelled for a ranked arena.
- Projects.ILL_TYPED: writing a block table whose sockets do not hold what their declarations promise is reported as an error. Kotlin's static types rule this case out.
- Cloning.CloneBlock / Cloning.Shared: menus, costumes, sounds, backdrops, the `First*` placeholders, the procedure prototype and the procedure-argument shadows clone to the same object. `cloneShadowExpression` is abstract (Expressions.kt:128) and is defined only for `ValueShadowExpression` (Expressions.kt:213) and the broadcasts (VLB.kt:75, VLB.kt:81); no clone is defined for these kinds (`Costume.makeCopy`, Attachments.kt:71, is a data-class copy, not a clone of the shadow), so the model keeps the object shared. `ClonePair` and `CloneSockets` inherit this choice.
- Procedures.CallShowsArgument / Procedures.CallShowsArguments / Procedures.CallAsWrittenHidesShadow / Procedures.CallAsWrittenLosesLiteral: stated for an argument whose id no other argument of the procedure shares. Argument ids are drawn by `makeRandomId(6)`, so two can collide. The calls themselves accept colliding ids, and `Procedures.CallLaterOverwrites` states what then shows: the later argument's value.
- Cloning.CloneBlock: `NormalExpression.cloneExpression` copies the opcode and the socket maps but not the fields, and `NormalBlock.cloneBlock` does not copy the mutation. The model copies exactly what the source copies.
- Represent.FieldValueOf uses the corrected sound field value `Attachments.SoundFieldValue`, the sound's name, and not the literal "name" (see Findings).
- Sprites.SpriteBuilder.constructor uses the corrected default name `Sprites.SpriteName`, which keeps a shorter id whole rather than throwing (see Findings).
- Procedures.Call is the corrected `Procedure.call`. `Procedures.CallAsWritten` keeps the code as written (see Findings).
- The superseded copies in `de/thecommcraft/scratchdsl` and `build/`, the `oldbuilder` serializer, `Main.kt` and the build configuration are not part of this model.

## Findings

| source | as written | input that shows it | evidently intended | confidence | as-written member | corrected member |
|---|---|---|---|---|---|---|
| src/main/kotlin/org/scratchapi/scratchdsl/Attachments.kt:180 | `Sound.fieldValue` is the literal text "name" | any two sounds, e.g. "pop" and "Meow": both show "name" in a sound menu | the sound's own name, as a costume shows its name | not executed | Attachments.SoundFieldAsWrittenIgnoresName | Attachments.SoundFieldNamesSound |
| src/main/kotlin/org/scratchapi/scratchdsl/Build.kt:571 | the default sprite name is `"Sprite-" + makeId().substring(0..<8)` | deterministic mode (`isModifying == false`), any counter below 2^31: the id has at most 6 characters, so `substring` throws | a name made from a prefix of up to 8 characters of a fresh id | not executed | Sprites.SpriteNameAsWrittenThrows | Sprites.SpriteNamesDistinct |
| src/main/kotlin/org/scratchapi/scratchdsl/Build.kt:142-151 | `Procedure.call` first lays an empty-text default pair for every string-or-number argument; a literal supplied afterwards is stored alone in the shadowless socket map, and on the wire the earlier pair outranks it | a string-or-number argument given the literal "5": the call serialises the empty default, not "5" | a supplied argument shows its value | not executed | Procedures.CallAsWrittenLosesLiteral | Procedures.CallShowsArguments |
