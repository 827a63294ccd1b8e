# Props and state class migration, modelled in Dafny

This project models the two suggestors of over_react_codemod that migrate
annotated props and state classes of over_react (Dart) to the two-class
layout. The first is the **rename suggestor**. The second is the
**accompanying public class suggestor**.

Both read a Dart file as a sequence of lines. Both look for classes that
carry one of the four recognised annotations: `@Props`, `@AbstractProps`,
`@State` or `@AbstractState`.

- The rename suggestor rewrites such a class's identifier to its hidden form
  (`FooProps` becomes `_$FooProps`, and `_FooProps` also becomes `_$FooProps`).
  Each patch covers the trigger annotation through the header line and keeps
  every other character of those lines.
- The accompanying suggestor inserts a fixed seven-line block after the
  class body. The block declares the public wrapper class
  `class FooProps extends _$FooProps with _$FooPropsAccessorsMixin { … }`,
  unless the file already declares it.

The model fixes the behaviour of `props_and_state_classes` by its test file,
which gives exact input/output pairs. The model reproduces every one of
those pairs, and each pair is proved as a lemma in `TestFiles`.

## Structure

| file | module | what it holds |
|---|---|---|
| results.dfy | `Results` | `Option` and `Result` |
| text.dfy | `Text` | identifier characters, prefixes, line terminators |
| naming.dfy | `Naming` | hiding an identifier and the wrapper names derived from it |
| annotations.dfy | `Annotations` | the four annotation kinds, their base and meta types |
| headers.dfy | `Headers` | class header lines: parsing, printing, renaming |
| braces.dfy | `Braces` | brace depth along a line |
| lineinfo.dfy | `LineInfos` | what the scanner needs to know about each line |
| scanner.dfy | `Scanner` | the declaration scanner |
| scanspec.dfy | `ScanSpec` | a textual description of a declaration; soundness and completeness of the scanner |
| congruence.dfy | `ScanCongruence` | the scanner ignores the identifier apart from reporting it |
| patches.dfy | `Patches` | the patch record and how the patch engine applies patches |
| rename.dfy | `RenameSuggestor` | the rename suggestor and what its patches do to a file |
| rescan.dfy | `Rescan` | idempotence of the rename suggestor |
| accompanying.dfy | `AccompanyingSuggestor` | the accompanying suggestor and its idempotence |
| testfiles.dfy | `TestFiles` | every test file of both suggestors, with its expected patches |

Modelling decisions:

- **Lines.** A file is a `seq<string>` of lines without terminators.
  Every replacement line a patch carries ends in `"\n"`, as in the test
  expectations. This holds even when the input's last line has no
  terminator (`test_empty_class_body`).
- **Patch coordinates.** They are 0-based with an exclusive end, which is
  what the tests check: `start_line_number=2, end_line_number=4` (lines 290-291 of the test file) replaces
  the annotation on line index 2 and the header on line index 3. The
  accompanying patch is a pure insertion (`start == end`) at the index just
  after the closing brace.
- **Declarations.** A declaration is:
  - a line that invokes a recognised annotation, with or without a
    parenthesised argument list;
  - any further lines starting with `@`;
  - a header `[abstract ]class <Ident> extends <Base> {…`, written with
    single spaces, whose base type is `UiProps` for the props kinds and
    `UiState` for the state kinds.

  Identifier characters are ASCII letters, digits, `_` and `$`. A header
  with type parameters never has this form, so generic classes are skipped
  without a patch.
- **Body end.** The body ends on the first line where the brace depth,
  counted from the header's opening brace, returns to zero. That line is
  the header line itself for `{}`.
- **Unclosed bodies.** A body that never closes makes the whole file fail
  with `UnclosedBody`, so no partial set of patches is produced.
- **When the accompanying suggestor fires.** It fires for every recognised
  declaration, hidden or not, unless some line of the file already declares
  the wrapper. The tests require this: `test_props` expects a wrapper for the
  not-yet-renamed `FooProps`. A wrapper is recognised only in the one-line
  layout `test_already_added` uses (line 257 of the test file); see
  `AccompanyingSuggestor.HasWrapper` under "## Left out".
- **When the rename suggestor fires.** It leaves identifiers that already
  carry the `_$` sigil alone. The rename tests (lines 261-440 of the test
  file) do not fix this: none of them has a class whose identifier already
  carries the sigil. The model adopts the rule so that a second rename pass
  suggests nothing. The files of `test_already_renamed_but_missing_accompanying_class`
  and `test_already_added` (lines 223-258) belong to the accompanying tests;
  the lemmas `TestFiles.RenameAlreadyRenamed` and `TestFiles.RenameAlreadyAdded`
  state the model's rename on them.
- **The wrapper block is inserted.** The accompanying patch has
  `start_line_number == end_line_number`, one past the closing brace's line
  index (lines 40-42 of the test file), so no line is overwritten.

## Model

| member | source | states |
|---|---|---|
| Naming.Hide | tests/suggestors/test_props_and_state_classes.py:406-440 | the hidden identifier carries the sigil, stays an identifier, and is the sigil followed by the identifier with one leading `_` absorbed; inner underscores are kept |
| Naming.Public | tests/suggestors/test_props_and_state_classes.py:223-245 | the public name of a hidden identifier is what follows the sigil; any other identifier is its own public name |
| Naming.NamesFor | tests/suggestors/test_props_and_state_classes.py:40-52 | wrapper names: the hidden name hides the public name, the mixin is the hidden name plus `AccessorsMixin`, the meta reference is `$metaFor` (or `_$metaFor` for a private public name) plus the unmarked stem |
| Naming.NamesForPublic | tests/suggestors/test_props_and_state_classes.py:47-49 | `Foo` gives public `Foo`, hidden `_$Foo`, mixin `_$FooAccessorsMixin`, meta `$metaForFoo` |
| Naming.NamesForPrivate | tests/suggestors/test_props_and_state_classes.py:191-193 | `_Foo` keeps public `_Foo` but hides to `_$Foo`, mixin `_$FooAccessorsMixin`, meta `_$metaForFoo` |
| Naming.NamesForHidden | tests/suggestors/test_props_and_state_classes.py:240-242 | the sigil followed by an identifier that does not itself carry the sigil yields the same wrapper names as that identifier, private or not |
| Naming.NamesForHiddenPrivate | tests/suggestors/test_props_and_state_classes.py:175-196 | the hidden private class `_$_FooProps` names the same wrapper as `_FooProps` |
| Naming.PublicOfHide | tests/suggestors/test_props_and_state_classes.py:223-245 | round trip: un-hiding a hidden non-private identifier gives it back |
| Naming.PublicOfHidePrivate | tests/suggestors/test_props_and_state_classes.py:406-422 | for a private identifier the round trip drops the private marker |
| Naming.HideOfPublic | tests/suggestors/test_props_and_state_classes.py:227-240 | hiding the public name of a hidden identifier gives it back when the part after the sigil is not private |
| Naming.HideNotInjective | tests/suggestors/test_props_and_state_classes.py:175-196 | `Foo` and `_Foo` are distinct but hide to the same name |
| Naming.NamesSurviveRename | tests/suggestors/test_props_and_state_classes.py:223-245 | after a rename the wrapper refers to the same hidden class and mixin; all names agree unless the identifier was private, whose public name then loses its marker |
| Annotations.TriggerKind | tests/suggestors/test_props_and_state_classes.py:126-134 | the recognised annotation a line invokes, with or without arguments, and an annotation line; none when no recognised annotation is invoked |
| Annotations.InvokesUnique | tests/suggestors/test_props_and_state_classes.py:54-58 | no line invokes two different annotations, so `@AbstractProps` is never read as `@Props` |
| Annotations.InvokerIsAnnotation | tests/suggestors/test_props_and_state_classes.py:150-158 | a trigger line is an annotation line |
| Annotations.MetaFollowsBase | tests/suggestors/test_props_and_state_classes.py:78-100 | the meta type is `PropsMeta` exactly for the kinds that extend `UiProps`, `StateMeta` exactly for those that extend `UiState` |
| Headers.ParseHeader | tests/suggestors/test_props_and_state_classes.py:352-366 | a recognised header is well formed and prints back as exactly the line; it starts with `a` when abstract, `c` otherwise |
| Headers.ParseHeaderText | tests/suggestors/test_props_and_state_classes.py:316-332 | round trip: printing a well-formed header and parsing the line gives the header back |
| Headers.Renamed | tests/suggestors/test_props_and_state_classes.py:316-366 | the rename keeps the `abstract` flag, the base type and the tail (`{` or `{}`), and hides the identifier |
| Headers.RenameOnlyIdentifier | tests/suggestors/test_props_and_state_classes.py:424-440 | the renamed header line has the same text before and after the identifier as the original |
| Headers.RenamedHeaderParses | tests/suggestors/test_props_and_state_classes.py:298-314 | the renamed header line is again recognised, as the renamed header |
| Braces.LowDecidesOpen | tests/suggestors/test_props_and_state_classes.py:30-42 | a line keeps the body open exactly when the entering depth plus the line's lowest depth change stays positive |
| Braces.SwapBraceFree | tests/suggestors/test_props_and_state_classes.py:424-440 | replacing a brace-free identifier by another keeps a line's net and lowest brace depth |
| LineInfos.Classify | tests/suggestors/test_props_and_state_classes.py:150-158 | the classification of a line describes its trigger, whether it is an annotation, the header it reads as and its brace profile |
| LineInfos.NetSumOfLines | tests/suggestors/test_props_and_state_classes.py:30-42 | the classified net brace change over a run of lines is the lines' own |
| Scanner.FindCloseSound | tests/suggestors/test_props_and_state_classes.py:30-42 | the close search returns the first line on which the depth reaches zero, and none exactly when the body stays open to the end |
| Scanner.StepAt | tests/suggestors/test_props_and_state_classes.py:150-173 | a declaration found at a line starts there, its annotation and header are where the classification says, and a failure names a later header |
| Scanner.ScanFromOrdered | tests/suggestors/test_props_and_state_classes.py:30-52 | the declarations found are in file order and do not overlap |
| Scanner.ScanFromNone | tests/suggestors/test_props_and_state_classes.py:20-28 | lines without a recognised annotation yield no declaration |
| Scanner.Scan | tests/suggestors/test_props_and_state_classes.py:20-28 | declarations in order with their header on the header line; a failure names a line of the file; no trigger line means no declaration |
| ScanSpec.BodyCloseExact | tests/suggestors/test_props_and_state_classes.py:352-366 | the body's close is found on line `c` exactly when the text's body closes on `c` |
| ScanSpec.StepAtExact | tests/suggestors/test_props_and_state_classes.py:150-173 | the scanner recognises a declaration at a line exactly when the text has one there |
| ScanSpec.ScanSound | tests/suggestors/test_props_and_state_classes.py:30-52 | every reported declaration is a declaration of the text; a failure names a header whose body never closes |
| ScanSpec.ScanSingle | tests/suggestors/test_props_and_state_classes.py:30-52 | a file with one declaration and no trigger outside it scans to exactly that declaration |
| ScanCongruence.ScanFromAlike | tests/suggestors/test_props_and_state_classes.py:280-296 | files alike up to header identifiers fail alike or give declarations at the same lines |
| Patches.Replace | tests/suggestors/test_props_and_state_classes.py:288-296 | applying one patch changes the file's length by the lines added minus the lines covered |
| Patches.ContentOfTerminated | tests/suggestors/test_props_and_state_classes.py:293-294 | the patch engine reads back exactly the content of a terminated line |
| Patches.RewritesAreEngineOrder | tests/suggestors/test_props_and_state_classes.py:288-296 | for non-overlapping rewrites, applying them first to last gives the file the patch engine's last-first order gives |
| Patches.InsertLines | tests/suggestors/test_props_and_state_classes.py:40-51 | an insertion keeps the lines before it, places its lines next and shifts the rest down |
| RenameSuggestor.RenamePatch | tests/suggestors/test_props_and_state_classes.py:288-296 | the patch covers the trigger annotation through the header line, end exclusive, with one new line per covered line |
| RenameSuggestor.RenamePatchLines | tests/suggestors/test_props_and_state_classes.py:377-386 | every covered annotation line is reproduced verbatim and the header line is the renamed header |
| RenameSuggestor.RenamePatches | tests/suggestors/test_props_and_state_classes.py:270-278 | as many patches as declarations that need renaming; none exactly when no declaration needs renaming |
| RenameSuggestor.RenamePatchesExact | tests/suggestors/test_props_and_state_classes.py:368-386 | every declaration that needs renaming has its rename patch among the patches, and every patch is the rename patch of such a declaration |
| RenameSuggestor.SuggestRenames | tests/suggestors/test_props_and_state_classes.py:266-296 | the suggestor fails exactly when the scan does, and then names a header whose body never closes; otherwise its patches are non-overlapping rewrites in file order, as many as the declarations that need renaming |
| RenameSuggestor.SuggestRenamesExact | tests/suggestors/test_props_and_state_classes.py:280-296 | every declaration the suggestor finds is a declaration of the text; each one not yet hidden gets its rename patch, and every patch renames such a declaration |
| RenameSuggestor.RenamePatchesSequential | tests/suggestors/test_props_and_state_classes.py:288-296 | the rename patches are in file order, do not overlap and each keeps the line count |
| RenameSuggestor.ApplyRenamePatches | tests/suggestors/test_props_and_state_classes.py:288-296 | applying the rename patches rewrites exactly the header lines of the renamed declarations; every other line reads as before |
| Rescan.RescanAfterRename | tests/suggestors/test_props_and_state_classes.py:288-296 | the renamed file scans to the same declarations at the same lines, with hidden identifiers |
| Rescan.RenameIdempotent | tests/suggestors/test_props_and_state_classes.py:288-296 | on the file the patch engine makes of its patches, the rename suggestor suggests nothing (a promise of the model's sigil rule; no rename test runs twice) |
| AccompanyingSuggestor.AccompanyPatch | tests/suggestors/test_props_and_state_classes.py:40-52 | an insertion just after the closing brace of seven terminated lines, the wrapper block |
| AccompanyingSuggestor.HasWrapper | tests/suggestors/test_props_and_state_classes.py:247-258 | some line of the file declares the wrapper: after an optional `abstract `, it starts with `class <Public> extends <Hidden> with <Mixin>` and the mixin name is not the prefix of a longer identifier |
| AccompanyingSuggestor.SplitWrapperMissed | tests/suggestors/test_props_and_state_classes.py:257 | a wrapper whose `with` clause sits on an indented second line is not recognised, for every set of wrapper names |
| AccompanyingSuggestor.Unwrapped | tests/suggestors/test_props_and_state_classes.py:247-258 | a declaration is kept exactly when the file does not declare its wrapper |
| AccompanyingSuggestor.AccompanyPatches | tests/suggestors/test_props_and_state_classes.py:150-173 | one insertion per declaration without a wrapper, in order, each just below that declaration's closing brace and declaring its wrapper |
| AccompanyingSuggestor.SuggestAccompanying | tests/suggestors/test_props_and_state_classes.py:16-52 | the suggestor fails exactly when the scan does, and then names a header whose body never closes; otherwise its patches are insertions inside the file at strictly increasing lines, one per declaration without a wrapper |
| AccompanyingSuggestor.SuggestAccompanyingExact | tests/suggestors/test_props_and_state_classes.py:223-258 | every declaration found is a declaration of the text; each one without a wrapper gets its block, every patch is the block of such a declaration, and after the patch engine applies them every declaration has its wrapper |
| AccompanyingSuggestor.WrapperHeaderRecognised | tests/suggestors/test_props_and_state_classes.py:54-76 | the wrapper header starts with `abstract ` exactly when the class is abstract, and it is recognised as the wrapper |
| AccompanyingSuggestor.InsertedWrapperLine | tests/suggestors/test_props_and_state_classes.py:40-52 | after the insertion, the fourth inserted line is the wrapper header |
| AccompanyingSuggestor.AccompanyPatchesInOrder | tests/suggestors/test_props_and_state_classes.py:40-42 | the insertions lie inside the file, each below a closing brace, at strictly increasing lines |
| AccompanyingSuggestor.WrapperAfterApply | tests/suggestors/test_props_and_state_classes.py:247-258 | once the insertions are applied, the file declares the wrapper of every declaration |
| AccompanyingSuggestor.AccompanyIdempotent | tests/suggestors/test_props_and_state_classes.py:247-258 | a second run over the patched file, for the same identifiers, suggests nothing |
| AccompanyingSuggestor.AccompanyAfterRename | tests/suggestors/test_props_and_state_classes.py:223-245 | accompanying a renamed non-private class inserts the same block as before the rename |
| TestFiles.AccompanyPatchLines | tests/suggestors/test_props_and_state_classes.py:43-51 | the seven inserted lines in order: blank, two comments, wrapper header, ignore comment, `meta` constant, `}` |
| TestFiles.RenameShaped | tests/suggestors/test_props_and_state_classes.py:288-296 | for any file of the tests' shape: one patch, annotations verbatim, renamed header |
| TestFiles.RenameShapedHidden | tests/suggestors/test_props_and_state_classes.py:226-231 | for any file of the tests' shape whose class is hidden, as in this accompanying test's input: no rename, by the model's sigil rule (no rename test fixes it) |
| TestFiles.AccompanyShaped | tests/suggestors/test_props_and_state_classes.py:30-52 | for any file of the tests' shape that does not declare the wrapper: exactly one insertion, just after the closing brace |
| TestFiles.AccompanyFile | tests/suggestors/test_props_and_state_classes.py:30-52 | for any file of the tests' shape whose lines are all shorter than the wrapper declaration, so that none declares it: exactly one insertion |
| TestFiles.AccompanyFileWrapped | tests/suggestors/test_props_and_state_classes.py:247-258 | for any file of the tests' shape that declares the wrapper: no insertion |
| TestFiles.AccompanyEmpty | tests/suggestors/test_props_and_state_classes.py:16-18 | no insertion for an empty file |
| TestFiles.AccompanyNoMatch | tests/suggestors/test_props_and_state_classes.py:20-28 | no insertion for a `@PropsMixin` class that implements `UiProps` |
| TestFiles.AccompanyProps | tests/suggestors/test_props_and_state_classes.py:30-52 | the expected insertion at line 8 |
| TestFiles.AccompanyAbstractProps | tests/suggestors/test_props_and_state_classes.py:54-76 | the expected insertion, with an `abstract` wrapper |
| TestFiles.AccompanyState | tests/suggestors/test_props_and_state_classes.py:78-100 | the expected insertion, typed `StateMeta` |
| TestFiles.AccompanyAbstractState | tests/suggestors/test_props_and_state_classes.py:102-124 | the expected insertion, abstract and typed `StateMeta` |
| TestFiles.AccompanyAnnotationWithArg | tests/suggestors/test_props_and_state_classes.py:126-148 | the expected insertion; the annotation's argument does not matter |
| TestFiles.AccompanyMultipleAnnotations | tests/suggestors/test_props_and_state_classes.py:150-173 | the expected insertion at line 9 |
| TestFiles.AccompanyPrivateClass | tests/suggestors/test_props_and_state_classes.py:175-196 | the expected insertion at line 6, with private names |
| TestFiles.AccompanyAlreadyRenamed | tests/suggestors/test_props_and_state_classes.py:223-245 | the expected insertion for a hidden class |
| TestFiles.AccompanyAlreadyAdded | tests/suggestors/test_props_and_state_classes.py:247-258 | no insertion when the wrapper follows the hidden class |
| TestFiles.RenameEmpty | tests/suggestors/test_props_and_state_classes.py:266-268 | no rename for an empty file |
| TestFiles.RenameNoMatch | tests/suggestors/test_props_and_state_classes.py:270-278 | no rename for a `@PropsMixin` class |
| TestFiles.RenameProps | tests/suggestors/test_props_and_state_classes.py:280-296 | the expected patch for lines 2 to 4 |
| TestFiles.RenameState | tests/suggestors/test_props_and_state_classes.py:298-314 | the expected patch for a state class |
| TestFiles.RenameAbstractProps | tests/suggestors/test_props_and_state_classes.py:316-332 | the expected patch, keeping `abstract` |
| TestFiles.RenameAbstractState | tests/suggestors/test_props_and_state_classes.py:334-350 | the expected patch for an abstract state class |
| TestFiles.RenameEmptyClassBody | tests/suggestors/test_props_and_state_classes.py:352-366 | the expected patch, keeping `{}` |
| TestFiles.RenameExtraAnnotation | tests/suggestors/test_props_and_state_classes.py:368-386 | the expected patch for lines 2 to 5, both annotations verbatim |
| TestFiles.RenameAnnotationArgs | tests/suggestors/test_props_and_state_classes.py:388-404 | the expected patch, the argument verbatim |
| TestFiles.RenamePrivate | tests/suggestors/test_props_and_state_classes.py:406-422 | the expected patch, absorbing the private marker |
| TestFiles.RenameSpecialChars | tests/suggestors/test_props_and_state_classes.py:424-440 | the expected patch, keeping the inner underscore |
| TestFiles.RenameAlreadyRenamed | tests/suggestors/test_props_and_state_classes.py:224-231 | on this accompanying test's input, whose class is already hidden, the model's rename suggests nothing (by its sigil rule; no rename test fixes it) |
| TestFiles.RenameAlreadyAdded | tests/suggestors/test_props_and_state_classes.py:248-257 | on this accompanying test's fully migrated input, the model's rename suggests nothing (by its sigil rule; no rename test fixes it) |

## Left out

- The patch engine, file discovery and the command-line driver are not modelled. They are I/O and belong to the external `codemod` library. `Patches.ApplyAll` models only the engine's order of application (last patch first), over which both idempotence lemmas are stated.
- Python's `re` engine is not modelled. The scanner is written as explicit line and character tests.
- The identifier alphabet is ASCII only. Dart also accepts other letters, which the tests do not use.
- Generic classes are not recognised (`class Foo<T> extends …`), so no patch is suggested for them. The generics test is commented out in the source.
- Braces inside strings and comments are counted like code. The scanner does no lexing, and the tests contain no such braces.
- The lines between the trigger annotation and the header must all start with `@`. A blank or comment line there ends the match.
- Annotations and class headers are recognised only when a line starts with them, without indentation (`Headers.ParseHeader` rejects a header with leading whitespace). A recognised annotation must also fill its line: `@Props() // note`, or an argument list spread over several lines, is not recognised, and the class is skipped. That is how every test writes them.
- AccompanyingSuggestor.HasWrapper: only the one-line, single-space layout `[abstract ]class <Public> extends <Hidden> with <Mixin>` with the accessors mixin first is recognised as the wrapper. Any other layout, such as a `with` clause wrapped onto the next line (`AccompanyingSuggestor.SplitWrapperMissed`), indentation, extra spaces or another mixin before the accessors mixin, is not, and the suggestor inserts a second wrapper. The tests fix only the one-line layout.
- ScanSpec.ScanSingle: completeness is proved only for a file with one declaration and no other trigger line. Every test file has this shape. Soundness (`ScanSpec.ScanSound`) is proved for every file.
- AccompanyingSuggestor.AccompanyIdempotent: the second run is stated for declarations with the same identifiers as the first. The model does not prove that rescanning the patched file finds them again. Inserted blocks hold no trigger line, but that is not proved.
- Naming.NamesSurviveRename: identifiers with a doubled private marker (`__Foo`) are excluded. They hide to `_$_Foo`, whose public name `_Foo` hides to `_$Foo`, so the names no longer agree.
- Naming.HideOfPublic: it excludes hidden identifiers whose stem starts with `_` (`_$_Foo`), for the same reason.
