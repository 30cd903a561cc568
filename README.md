# Maschine MK3 FL Studio script: build passes, helpers and tables in Dafny

The repository is an FL Studio MIDI script for the Native Instruments Maschine
MK3. This project models three of its parts.

- **Flattening build.** The build (`scripts/build`) turns the script's modules
  into one file that FL Studio can load. It parses every module and runs four
  collectors shared by all modules: imports, top-level body, upper-case
  constants and enum members. It then de-duplicates the imports. Finally the
  merged body goes through six rewriting passes:
  1. remove `__all__`;
  2. remove `FlMidiMsg` annotations;
  3. remove docstrings;
  4. inline constants;
  5. remove constant definitions;
  6. inline enum members.

  The model works over a small Python syntax tree (`PyAst`). Each visitor that
  accumulates state is a class whose methods are proved against a
  specification function. Each rewriting pass is a function on tree values
  with its invariants:
  - the deleting passes (AllRemover, ConstRemover), FlMidiMsgRemover,
    ConstInliner (stated per expression) and EnumInliner each have a lemma
    saying when they change nothing, and a lemma saying a second run changes
    nothing;
  - DocstringRemover has a size lemma instead. It pops one leading docstring
    per body per run, so it is not idempotent: `RemoveDocstringsNotIdempotent`
    exhibits a module that loses a second string on a second run.
  `Build.BuildScript` is the build's main loop. `Build.FlattenBodyAsWritten`
  is the pass order it runs, and `Build.FlattenBody` is the corrected pass
  order (see "## Findings").
- **Script helpers** (`src/utilities.py`): the LED on/off value, the step grid
  of a page, enumeration membership and the colour of a channel pad.
- **Constant tables** the controller relies on:
  - note numbers, chord sets and scales (`src/notes.py`);
  - control-change numbers (`src/controls.py`);
  - pad indices (`src/pads.py`);
  - mode enumerations and colour palettes (`src/enums.py`);
  - bounds (`src/consts.py`).

Modules: `Wrappers` (Option, Result), `PyStr` (`str.isupper`, code-point order,
`sorted`), `PyAst`, `Imports`, `BodyPasses`, `ConstPasses`, `EnumPasses`,
`Build`, `PyEnum` (calling an Enum class on a value), `PyRange` (`range`),
`Utilities`, `Notes`, `Controls`, `Consts`, `Pads`, `Enums`.

External inputs become parameters:
- the build's `MODULES` and `PACKAGES` settings;
- the parsed modules, in the build's visiting order;
- `plugins.isValid`, as a function `int -> bool`;
- the colour numbers of the `colors` module.

## Model

| member | source | states |
|---|---|---|
| `Imports.ImportsIn` | scripts/build/ast_tools.py:22-30 | what ImportsCollector gathers from a tree is only import statements (nested ones included, in visiting order) |
| `Imports.ImportsInAppend` | scripts/build/build.py:19-31 | the shared collector's imports over several modules are the concatenation of each module's imports |
| `Imports.ImportsCollector.constructor` | scripts/build/ast_tools.py:23-24 | the collector starts with an empty module |
| `Imports.ImportsCollector.Visit` | scripts/build/ast_tools.py:22-30 | visiting a tree appends exactly its imports at any depth, in visiting order, after those already collected |
| `Imports.ImportsCollector.VisitStmt` | scripts/build/ast_tools.py:26-30 | an import statement is appended; other statements contribute the imports nested in them |
| `Imports.ImportKey` | scripts/build/ast_tools.py:72-81 | `_get_import_key`: the tag "import" then the sorted imported names, or the tag "from", the module ("" for None) and the sorted names; the alias `as` names and the level are not part of it |
| `Imports.IsLocal` | scripts/build/ast_tools.py:53-60 | `_is_local`: a `from` import whose module is one of the build's modules or packages, or an `import` naming one of them among its aliases |
| `Imports.IsFlClasses` | scripts/build/ast_tools.py:69-70 | `_is_fl_classes`: a `from fl_classes import ...` |
| `Imports.ImportStep` | scripts/build/ast_tools.py:38-51 | one `visit_Import` / `visit_ImportFrom`: a local import is dropped with the seen set unchanged; otherwise the key is tested against the seen set and added to it, and a duplicate or `fl_classes` import is dropped |
| `Imports.RemoveImports` | scripts/build/ast_tools.py:33-70 | ImportsRemover over a list of imports, one ImportStep after the other with the seen set threaded through; never more imports than it was given |
| `Imports.AliasNames` | scripts/build/ast_tools.py:74 | the key uses one name per alias, in order; `as` names are ignored |
| `Imports.ImportKeyImportIff` | scripts/build/ast_tools.py:73-74 | two `import` statements have equal keys iff they import the same multiset of names, so the key ignores order and `as` names |
| `Imports.ImportKeyFromIff` | scripts/build/ast_tools.py:75-80 | two `from` imports have equal keys iff the module (None read as "") and the multiset of imported names agree; the relative level is ignored |
| `Imports.ImportKeyKindsDiffer` | scripts/build/ast_tools.py:72-81 | an `import` key never equals a `from` key, because of the kind tag |
| `Imports.RemoveImportsKept` | scripts/build/ast_tools.py:38-70 | every surviving import comes from the input, is not local, is not a `fl_classes` import, and its key was not seen before |
| `Imports.RemoveImportsSeen` | scripts/build/ast_tools.py:38-67 | the seen set ends as the start set plus the keys of all non-local imports: local imports never enter it, while `fl_classes` imports do, since the duplicate test runs first |
| `Imports.KeptKeysDistinct` | scripts/build/ast_tools.py:62-67 | the surviving imports have pairwise distinct keys |
| `Imports.FirstOccurrenceKept` | scripts/build/ast_tools.py:38-67 | the first non-local, non-`fl_classes` import with a given unseen key survives |
| `Imports.KeptKeysUnique` | scripts/build/ast_tools.py:62-67 | two surviving imports with the same key are the same import |
| `Imports.ImportsRemover.constructor` | scripts/build/ast_tools.py:34-36 | the remover starts with an empty seen set |
| `Imports.ImportsRemover.IsDuplicate` | scripts/build/ast_tools.py:62-67 | true exactly when the key was already seen (false on its first occurrence); the key is then in the seen set, which only grows |
| `Imports.ImportsRemover.VisitImport` | scripts/build/ast_tools.py:38-41 | an `import` is dropped iff it is local or a duplicate, with the seen set updated as the short-circuit `or` does |
| `Imports.ImportsRemover.VisitImportFrom` | scripts/build/ast_tools.py:43-51 | a `from` import is dropped iff it is local, a duplicate or from `fl_classes`, tested in that order |
| `Imports.ImportsRemover.Visit` | scripts/build/ast_tools.py:38-51 | the visitor dispatched for an import statement keeps or drops it, and updates the seen set, as the specification step does |
| `Imports.ImportsRemover.VisitModule` | scripts/build/build.py:53 | transforming the collected imports module keeps exactly the imports and final seen set of the specification |
| `PyStr.IsUpper` | scripts/build/ast_tools.py:157 | `str.isupper` on ASCII names: some upper-case letter and no lower-case letter |
| `PyStr.Sort` | scripts/build/ast_tools.py:74 | `sorted` returns a sorted permutation of the names |
| `PyStr.SortEqualIff` | scripts/build/ast_tools.py:74 | two name lists sort to the same result iff they are permutations of each other |
| `PyStr.SortedUnique` | scripts/build/ast_tools.py:74 | a sorted permutation is unique |
| `BodyPasses.TopLevelBody` | scripts/build/ast_tools.py:88-92 | BodyCollector's share of a module: exactly its top-level statements that are not imports |
| `BodyPasses.TopLevelPartition` | scripts/build/ast_tools.py:88-92 | a module's top-level imports and the collected body split its statements, losing and duplicating nothing |
| `BodyPasses.BodyCollector.constructor` | scripts/build/ast_tools.py:85-86 | the body starts empty |
| `BodyPasses.TopLevelBodySnoc` | scripts/build/ast_tools.py:88-92 | one more top-level statement joins the body iff it is not an import |
| `BodyPasses.BodyCollector.VisitModule` | scripts/build/ast_tools.py:88-92 | the module's top-level non-import statements are appended, in order |
| `PyAst.DropStmts` | scripts/build/ast_tools.py:96-102 | NodeTransformer deletion: no statement to delete remains at any depth, and the list shrinks by exactly the deleted top-level statements |
| `PyAst.DropStmtsIdentityIff` | scripts/build/ast_tools.py:96-102 | a deleting pass leaves a body unchanged iff it holds nothing to delete at any depth |
| `PyAst.DropStmtsKeeps` | scripts/build/ast_tools.py:96-102 | a statement that is not deleted and holds nothing to delete survives |
| `PyAst.DropStmtsIdempotent` | scripts/build/ast_tools.py:96-102 | running a deleting pass twice deletes nothing more |
| `PyAst.DropStmtsAllExprs` | scripts/build/ast_tools.py:183-187 | deleting statements keeps any property held by all remaining expressions |
| `BodyPasses.RemoveAll` | scripts/build/ast_tools.py:95-102 | AllRemover deletes exactly the assignments with a Name target `__all__` (at any depth, any target position), and keeps every other statement that holds none |
| `BodyPasses.ClearArg` | scripts/build/ast_tools.py:106-113 | a parameter changes iff its annotation is the bare Name `FlMidiMsg`, and then only that annotation becomes None |
| `BodyPasses.ClearArgs` | scripts/build/ast_tools.py:106-113 | every parameter of a function is cleared the same way, one for one |
| `BodyPasses.ClearStmts` | scripts/build/ast_tools.py:105-113 | no `FlMidiMsg` annotation remains at any depth; no statement is added or removed |
| `BodyPasses.ClearStmt` | scripts/build/ast_tools.py:105-113 | no `FlMidiMsg` annotation remains in a statement |
| `BodyPasses.ClearOnlyAnnotations` | scripts/build/ast_tools.py:105-113 | FlMidiMsgRemover changes nothing but annotations |
| `BodyPasses.ClearIdentityIff` | scripts/build/ast_tools.py:105-113 | FlMidiMsgRemover leaves a body unchanged iff it holds no `FlMidiMsg` annotation |
| `BodyPasses.ClearIdempotent` | scripts/build/ast_tools.py:105-113 | running FlMidiMsgRemover twice is running it once |
| `BodyPasses.StripDocstring` | scripts/build/ast_tools.py:129-142 | at most one statement is removed, exactly when the body is non-empty and starts with an expression holding a string constant; the rest is kept in order |
| `BodyPasses.DocStmts` | scripts/build/ast_tools.py:121-127 | no statement is added or removed at this level, and each keeps whether it is a docstring |
| `BodyPasses.DocStmt` | scripts/build/ast_tools.py:121-127 | a statement stays a docstring statement iff it was one |
| `BodyPasses.RemoveDocstrings` | scripts/build/ast_tools.py:116-142 | DocstringRemover on a module: the module loses exactly its own leading docstring, if any, and every remaining statement stays a docstring statement iff it was one |
| `BodyPasses.DocStmtsSize` | scripts/build/ast_tools.py:116-142 | inside the statements, exactly one statement is removed per function or class body that starts with a docstring |
| `BodyPasses.RemoveDocstringsNotIdempotent` | scripts/build/ast_tools.py:116-142 | DocstringRemover is not idempotent: some module (one opening with two string statements) changes again on a second run |
| `BodyPasses.RemoveDocstringsSize` | scripts/build/ast_tools.py:116-142 | over a module, the count of removed statements is one per function, class or module body starting with a docstring; `if` bodies are not stripped |
| `ConstPasses.CollectConsts` | scripts/build/ast_tools.py:148-166 | the constant map only grows, only by upper-case names, and not at all inside a class body |
| `ConstPasses.CollectConstsIn` | scripts/build/ast_tools.py:153-166 | the same, for one statement and its nested bodies |
| `ConstPasses.CollectConstsAppend` | scripts/build/build.py:21-31 | the shared collector over two modules is the collector over the second, started from what the first left |
| `ConstPasses.LastAssignmentWins` | scripts/build/ast_tools.py:153-160 | a later assignment to an upper-case name overwrites the recorded value |
| `ConstPasses.FunctionBodiesCollected` | scripts/build/ast_tools.py:153-166 | assignments inside function bodies are collected |
| `ConstPasses.ConstCollector.constructor` | scripts/build/ast_tools.py:149-151 | empty map, outside any class |
| `ConstPasses.ConstCollector.Visit` | scripts/build/ast_tools.py:148-166 | the map becomes the specification's, and the in-class flag is as before |
| `ConstPasses.ConstCollector.VisitStmt` | scripts/build/ast_tools.py:148-166 | one statement: the map becomes the specification's, and the flag is unchanged |
| `ConstPasses.ConstCollector.VisitAssign` | scripts/build/ast_tools.py:153-160 | records name to value only when the first target is an upper-case Name and the flag is off |
| `ConstPasses.ConstCollector.VisitClassDef` | scripts/build/ast_tools.py:162-166 | nothing in a class body is recorded, and the flag is restored on leaving |
| `ConstPasses.InlineExpr` | scripts/build/ast_tools.py:169-176 | for an acyclic constant map, the result reads no constant |
| `ConstPasses.InlineExprs` | scripts/build/ast_tools.py:169-176 | the same for a list of expressions, one for one |
| `ConstPasses.InlineIdentityIff` | scripts/build/ast_tools.py:173-176 | ConstInliner leaves an expression unchanged iff it reads no constant |
| `ConstPasses.InlinesIdentity` | scripts/build/ast_tools.py:173-176 | the same for a list of expressions |
| `ConstPasses.InlineIdempotent` | scripts/build/ast_tools.py:169-176 | inlining twice is inlining once |
| `ConstPasses.InlineConstRead` | scripts/build/ast_tools.py:174-175 | a Load of a constant becomes its value, itself inlined |
| `ConstPasses.InlineSparesStores` | scripts/build/ast_tools.py:174-176 | Store and Del names are never rewritten |
| `ConstPasses.InlineArgs` | scripts/build/ast_tools.py:169-176 | parameters keep their names and whether they are annotated, and annotations read no constant |
| `ConstPasses.InlineStmts` | scripts/build/ast_tools.py:169-176 | after the pass no statement, at any depth, reads a constant; the list keeps its length |
| `ConstPasses.InlineStmt` | scripts/build/ast_tools.py:169-176 | one statement reads no constant afterwards, and imports are untouched |
| `ConstPasses.InlineKeepsConstTarget` | scripts/build/ast_tools.py:173-176 | the defining assignment of a constant keeps its Store target, so ConstRemover still finds it |
| `ConstPasses.RemoveConsts` | scripts/build/ast_tools.py:179-187 | deletes exactly the assignments whose first target is a Name in the map, at any depth, and keeps every other statement holding none |
| `ConstPasses.RemoveConstsReachesClassBodies` | scripts/build/ast_tools.py:179-187 | a class attribute named like a constant is deleted although the collector never recorded it |
| `EnumPasses.EnterClass` | scripts/build/ast_tools.py:198-209 | entering a class with a bare base `Enum`/`IntEnum` makes it current with an empty member map; any other class clears the current enum |
| `EnumPasses.CollectEnums` | scripts/build/ast_tools.py:193-216 | recorded enums only grow; without class definitions the current enum carries over unchanged |
| `EnumPasses.CollectEnumsIn` | scripts/build/ast_tools.py:198-216 | the same, for one statement |
| `EnumPasses.CollectEnumsAppend` | scripts/build/build.py:22-31 | the shared collector over two modules continues from the state the first left, current enum included |
| `EnumPasses.CollectIntoCurrent` | scripts/build/ast_tools.py:213-216 | without class definitions, every Name-target assignment at any depth goes to the current enum |
| `EnumPasses.CollectIntoCurrentIn` | scripts/build/ast_tools.py:213-216 | the same, for one statement |
| `EnumPasses.EnumClassMembers` | scripts/build/ast_tools.py:198-216 | an enum class's members are the Name-target assignments of its body, and the enum stays current afterwards |
| `EnumPasses.OtherClassClears` | scripts/build/ast_tools.py:205-211 | a non-enum class clears the current enum and records nothing |
| `EnumPasses.CurrentEnumCarriesOver` | scripts/build/ast_tools.py:205-216 | an assignment after an enum class's body is still recorded as a member of that enum |
| `EnumPasses.EnumCollector.constructor` | scripts/build/ast_tools.py:194-196 | no enums and no current enum |
| `EnumPasses.EnumCollector.Visit` | scripts/build/ast_tools.py:193-216 | the collector's state becomes the specification's for a statement list |
| `EnumPasses.EnumCollector.VisitStmt` | scripts/build/ast_tools.py:193-216 | the same for one statement |
| `EnumPasses.EnumCollector.VisitClassDef` | scripts/build/ast_tools.py:198-211 | decides whether the class is an enum from its bases, then visits its body |
| `EnumPasses.EnumCollector.VisitAssign` | scripts/build/ast_tools.py:213-216 | records the value under the first Name target when an enum is current |
| `EnumPasses.InlineEnums` | scripts/build/ast_tools.py:219-229 | for acyclic member values, no recorded `Enum.member` reference remains at any position EnumInliner reaches (an Attribute whose object is not a bare Name, such as `E.m.value`, is not entered) |
| `EnumPasses.InlineEnumsAll` | scripts/build/ast_tools.py:219-229 | the same for a list, one for one |
| `EnumPasses.InlineEnumsIdentityIff` | scripts/build/ast_tools.py:223-229 | EnumInliner leaves an expression unchanged iff it holds no recorded reference where the pass looks |
| `EnumPasses.InlineEnumsAllIdentity` | scripts/build/ast_tools.py:223-229 | the same for a list |
| `EnumPasses.InlineEnumStmtsKeep` | scripts/build/ast_tools.py:219-229 | statements holding no recorded member reference where EnumInliner looks are left unchanged |
| `EnumPasses.InlineEnumStmtKeeps` | scripts/build/ast_tools.py:219-229 | the same for one statement |
| `EnumPasses.InlineEnumStmtsIdempotent` | scripts/build/ast_tools.py:219-229 | running EnumInliner twice over statements is running it once |
| `EnumPasses.InlineMemberRef` | scripts/build/ast_tools.py:224-228 | `E.m` with both recorded becomes the member's value, itself inlined |
| `EnumPasses.MemberAttributeUntouched` | scripts/build/ast_tools.py:223-229 | an attribute of a member reference (`E.m.value`) is returned unvisited |
| `EnumPasses.InlineEnumsArgs` | scripts/build/ast_tools.py:219-229 | parameters keep their names and whether they are annotated, and annotations hold no reference |
| `EnumPasses.InlineEnumStmts` | scripts/build/ast_tools.py:219-229 | no recorded member reference remains at any position EnumInliner reaches in any statement (`E.m.value` is not entered); the list keeps its length |
| `EnumPasses.InlineEnumStmt` | scripts/build/ast_tools.py:219-229 | the same for one statement; imports are untouched |
| `Build.SharedValue` | scripts/build/ast_tools.py:173-176 | a member value that is a bare Name is seen as collected; any other value is seen inlined |
| `Build.SharedEnums` | scripts/build/build.py:59-66 | the dictionary EnumInliner reads has the same enums and members as collected |
| `Build.InlinedEnums` | scripts/build/build.py:59-66 | the corrected dictionary has the same enums and members, and no value reads a constant |
| `Build.FlattenBodyAsWritten` | scripts/build/build.py:61-66 | the pass order as written: no recorded member reference is left at any position EnumInliner reaches (`E.m.value` is not entered) |
| `Build.FlattenBody` | scripts/build/build.py:61-66 | the pass order with enum values inlined: the output reads no collected constant and holds no recorded member reference at any position EnumInliner reaches (`E.m.value` is not entered) |
| `Build.EnumInlineKeepsNoConst` | scripts/build/build.py:64-66 | EnumInliner does not bring back a constant read when the member values read none |
| `Build.ConcatSnoc` | scripts/build/build.py:19-31 | visiting one more module appends its statements after those of the modules before it |
| `Build.BuildScript` | scripts/build/build.py:16-66 | the main loop: the imports are the de-duplicated imports of all modules, and the body is the top-level body put through the passes in the order build.py runs them (`FlattenBodyAsWritten`, stale enum values included), with constants and enums collected over all modules in visiting order |
| `Build.LaterModuleDocstringStays` | scripts/build/build.py:57-63 | in the merged body only the first module's docstring is removed; a later module's docstring stays in place |
| `Build.StaleEnumValueLeavesConstRead` | scripts/build/build.py:64-66 | on a three-statement program, the passes as written output a read of the constant `K`, whose definition they deleted |
| `Build.StaleOutputReadsConst` | scripts/build/build.py:64-66 | that output does read a collected constant |
| `PyEnum.Lookup` | src/utilities.py:119 | `E(v)` succeeds with a member whose value is `v`, and fails with ValueError iff no member has value `v` |
| `PyEnum.LookupOwnValue` | src/utilities.py:116-122 | without aliases, looking up a member's value gives that member |
| `Utilities.OnOff` | src/utilities.py:96-103 | 127 iff the condition holds, 0 iff it does not |
| `Utilities.GetGrid` | src/utilities.py:125-128 | `_get_grid` with `NOTES_COUNT` as a parameter: `NOTES_COUNT` steps (for a non-negative count), the step `i` being on the page iff `page * NOTES_COUNT <= i < page * NOTES_COUNT + NOTES_COUNT` |
| `Utilities.GetGridAsWritten` | src/utilities.py:7 | as written, `NOTES_COUNT` is looked up in the consts module, which does not bind it, so every call fails on that name |
| `Utilities.GridSteps` | src/utilities.py:125-128 | a page has exactly `NOTES_COUNT` consecutive steps starting at `page * NOTES_COUNT` |
| `Utilities.GridsAdjacent` | src/utilities.py:125-128 | consecutive pages meet and do not overlap |
| `Utilities.GridMembership` | src/utilities.py:125-128 | step `i` is on page `page` iff `i // NOTES_COUNT == page`, for all integers |
| `Utilities.IsEnumValue` | src/utilities.py:116-122 | true iff some member's value equals `v`; the lookup's ValueError never escapes |
| `Utilities.SelectColor` | src/utilities.py:37-38 | the plugin palette iff the channel holds a valid plugin; HIGHLIGHTED iff highlighted |
| `Utilities.GetChannelColor` | src/utilities.py:23-38 | corrected colour lookup: Green1/Green3 for a valid plugin and White1/White3 otherwise, the second of each pair when highlighted |
| `Utilities.GetChannelColorAsWritten` | src/utilities.py:37-38 | as written, every call fails with a NameError on `PluginColor` or `ChannelColor` |
| `Notes.NotesConsecutive` | src/notes.py:12-139 | C1 = 0, each name one above the previous, through G11 = 127 |
| `Notes.RootNoteIsC5` | src/notes.py:141 | the root note is C5, note 48 |
| `Notes.ChordSetsShape` | src/notes.py:150-303 | exactly 8 chord sets of exactly 16 chords, each of 4 or 5 notes, all between C3 and AS7 |
| `Notes.ScalesShape` | src/notes.py:312-323 | exactly 8 scales of exactly 16 notes, all between C3 and AS7 |
| `Notes.ChromaticScale` | src/notes.py:316 | SCALE_5 is the 16 semitones from the root note up |
| `Notes.TransposedChordNote` | src/notes.py:150-303 | every chord note moved by any offset in [MIN_SEMI_OFFSET, MAX_SEMI_OFFSET] is a MIDI note |
| `Notes.TransposedScaleNote` | src/notes.py:312-323 | every scale note moved by any such offset is a MIDI note |
| `Controls.MemberWithValueSound` | src/controls.py:9-94 | the value table lists a member only under its own number |
| `Controls.MemberWithValueInverts` | src/controls.py:9-94 | every member is found under its own number |
| `Controls.NumbersAreMidi` | src/controls.py:9-94 | every CC number is a MIDI controller number in [1, 127] |
| `Controls.MembersComplete` | src/controls.py:9-94 | the member list holds all 59 members |
| `Controls.NoAliases` | src/controls.py:9-94 | the CC numbers are pairwise distinct, so the IntEnum has no aliases |
| `Controls.Decode` | src/controls.py:9-94 | `CC(v)` is the member numbered `v`, or ValueError when there is none |
| `Controls.DecodeNumber` | src/controls.py:9-94 | decoding a member's number gives back the member |
| `Controls.NonPositiveIsNoMember` | src/controls.py:9-94 | `CC(0)` and every negative number fail with ValueError |
| `Controls.GroupsAreGroupsRange` | src/controls.py:42-49 | GROUP_A to GROUP_H are 100 to 107 in order, and exactly the numbers of GROUPS_RANGE |
| `Consts.IntConstant` | src/consts.py:13-17 | the integer constants of the consts module are exactly MIN_OCTAVE, MAX_OCTAVE, MIN_SEMI_OFFSET and MAX_SEMI_OFFSET, each within ±11; `NOTES_COUNT` is not one of them |
| `Consts.GroupsRangeElements` | src/consts.py:11 | GROUPS_RANGE holds exactly the 8 integers 100 to 107 |
| `Consts.OctaveBounds` | src/consts.py:13-14 | MIN_OCTAVE = -3 ≤ 0 ≤ MAX_OCTAVE = 3 |
| `Consts.SemiOffsetBounds` | src/consts.py:16-17 | the semitone bounds are symmetric, contain 0 and stay within an octave |
| `Pads.PadIndices` | src/pads.py:6-16 | every Pad value is a pad index in [0, 15], and the values are distinct |
| `Pads.UndoRedo` | src/pads.py:9-10 | UNDO is pad 0 and REDO is pad 1 |
| `Pads.TranspositionPads` | src/pads.py:13-16 | the transposition pads are 12 to 15, with SEMI_DOWN < SEMI_UP and OCTAVE_DOWN < OCTAVE_UP |
| `Pads.IsPad` | src/pads.py:9-16 | `_is_enum_value(Pad, i)` holds exactly for i in {0, 1, 4, 5, 12, 13, 14, 15} |
| `Enums.PaletteNamed` | src/enums.py:18-29 | the palettes the enums module defines are exactly `PluginColors` and `ChannelColors` |
| `Enums.PaletteMembers` | src/enums.py:18-29 | each palette declares exactly DEFAULT and HIGHLIGHTED |
| `Enums.PadModeNumbers` | src/enums.py:35-41 | PadMode values are exactly 0 to 3, distinct, and `PadMode(v)` succeeds exactly for them |
| `Enums.EncoderModeNumbers` | src/enums.py:44-50 | FourDEncoderMode values are exactly 0 to 3, distinct, with JOG = 0 |
| `Enums.TouchStripModeNumbers` | src/enums.py:53-60 | TouchStripMode values are exactly 0 to 4, distinct, with DISABLED = 0 |

## Left out

- Syntax coverage. The syntax tree covers:
  - statements: import, from-import, assignment, expression, return, if, function and class definitions;
  - expressions: name, attribute, constant, call, binary operation, tuple (which also stands for list displays).

  Not modelled: other statements and expressions, decorators, keyword arguments, default values, return annotations, lambdas and comprehensions. The visitors reach into them the same way.
- In-place mutation and aliasing. The passes rewrite the tree in place. The model rewrites values and returns the new tree.

  The one place where sharing is observable is the enum dictionary holding the very value nodes of the body. `Build.SharedValue` models it, assuming every recorded member value is still in the body when ConstInliner runs. That holds except for a member assignment to `__all__`, which AllRemover deletes first.
- `isupper`. `str.isupper` is modelled over ASCII letters only; non-ASCII cased characters are not modelled.
- Python string order is compared by code point. Characters are Dafny `char`s.
- `Utilities.IsEnumValue`: the argument is an integer. Non-integer arguments are not modelled: `True` equals 1, and `1.0` equals 1, for an IntEnum.
- `NOTES_COUNT`. src/utilities.py:7 imports it, but src/consts.py does not define it (see "## Findings"). `Utilities.GetGrid` takes it as a parameter, and the grid lemmas require it to be positive where needed.
- `ConstPasses.InlineExpr` and `Build.BuildScript` require the constant map to be acyclic: no constant's value reads that constant, directly or through other constants. On a cyclic map the source recurses at scripts/build/ast_tools.py:175 until Python's recursion limit aborts the build. Such a map comes from ordinary code, because the collector also records upper-case assignments inside function bodies: `TOTAL = TOTAL + 1` in any function is enough. The model does not describe that abort.
- `EnumPasses.InlineEnums` promises no member reference only where EnumInliner looks. An Attribute whose object is not a bare Name is returned unvisited (scripts/build/ast_tools.py:223-229), so in `Mode.A.value` or `f(Mode.A).x` the reference `Mode.A` survives every pass. `EnumPasses.MemberAttributeUntouched` states this.
- `EnumPasses.InlineEnums` and `Build.BuildScript` likewise require the member values to be acyclic. A member whose value names itself (`A = Mode.A`) makes scripts/build/ast_tools.py:228 recurse until the same abort.
- `Enums.PaletteNamed` takes the names src/enums.py:5's `from colors import *` brings in to include neither `PluginColor` nor `ChannelColor`. The `colors` module is not part of this model. `Utilities.GetChannelColorAsWritten` fails only under that assumption.
- Colour numbers. The values of `Green1`, `Green3`, `White1` and `White3` come from the `colors` module, which is not part of this model. They are parameters.
- `plugins.isValid` is a parameter.
- Not modelled, being device I/O:
  - `_midi_out_msg_note_on` and `_midi_out_msg_control_change` (src/utilities.py:41-93), which send MIDI to the device.
- Not modelled, being floating-point arithmetic with Python's half-to-even `round`:
  - `_percent_to_bipolar` and `_bipolar_to_percent` (src/utilities.py:106-113).
- The build's I/O is not modelled:
  - reading and parsing files, and skipping missing ones;
  - logging;
  - `ast.fix_missing_locations`, `ast.unparse` and `black`;
  - the header lines.

  `Build.BuildScript` takes the parsed modules, in the build's visiting order.
- `ImportsRemover.result` (scripts/build/ast_tools.py:36) is never read, so it is not modelled.
- The relative-import level is kept in the tree but, as in the source, ignored by the key and by `_is_local`.
- The CLI argument parser, `src/main.py` and `src/controller.py` hold no logic and are not part of this model.

## Findings

| source | as written | input that shows it | evidently intended | confidence | as-written member | corrected member |
|---|---|---|---|---|---|---|
| src/utilities.py:8 | imports `PluginColor` and `ChannelColor`, names src/enums.py does not define (it defines `PluginColors` and `ChannelColors`). Line 37 evaluates them | any call `_get_channel_color(c, h)`. In the built script the import line is removed as local, and line 37 raises NameError; imported as a module, utilities.py raises ImportError | look the colours up in `PluginColors` / `ChannelColors` | not executed | `Utilities.GetChannelColorAsWritten` | `Utilities.GetChannelColor` |
| src/utilities.py:7 | imports `NOTES_COUNT` from the consts module, which defines no such name and has no star import | any call `_get_grid(page)`. In the built script the import line is removed as local and line 127 raises NameError; imported as a module, utilities.py raises ImportError | a positive `NOTES_COUNT` in src/consts.py, the number of steps on a page | not executed | `Utilities.GetGridAsWritten` | `Utilities.GetGrid` |
| scripts/build/build.py:64-66 | EnumCollector stores the member value nodes themselves. ConstInliner replaces a bare constant Name in its parent's field instead of mutating that node, so the dictionary keeps the old Name. EnumInliner then puts back a read of a constant whose definition ConstRemover deleted | `K = 1`, then `class Mode(Enum): A = K`, then `Mode.A`. The output body reads `K`, which it no longer defines | member values inlined like the rest of the body, so `Mode.A` becomes `1` | not executed | `Build.StaleEnumValueLeavesConstRead` | `Build.FlattenBody` |
