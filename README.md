# keynote-mcp, modelled in Dafny

keynote-mcp is an MCP server that drives Apple Keynote. Each tool call is
validated, turned into an AppleScript program or a call to a routine of a
script file, run through `osascript`, and the answer is decoded into a text
reply. This project models that core:

- the exception hierarchy, the error classifier and the argument validators
  (`ErrorHandler`);
- the script runner: script lookup, argument rendering (including
  `json.dumps` with its default settings) and the mapping of process
  outcomes to results (`ScriptRunner`);
- the generated AppleScript programs, the runner as the tools see it, and
  the shared decoders of AppleScript list renderings (`Keynote`);
- the tool groups: content (`Content`, and `ContentSimple` for the variant
  with inline scripts), slides (`Slides`), presentations (`Presentation`),
  smart layouts (`SmartLayout`), layout guidance (`LayoutGuidance`), the
  guided-presentation session (`Guided`), Zen validation (`Zen`) and
  export (`Export`);
- the server's tool list and its `call_tool` dispatch (`Server`).

`Base` holds the values a tool receives (JSON-decoded arguments, as Python
sees them), the exceptions, `Result`/`Option`, and `str()` of values.
`PyText` holds the Python string operations the decoders use
(`strip`, `split`, `find`, `replace`, `lower`, `split()` word counting).

The runner is modelled as an oracle: a `Backend` maps each request (an
inline program, a routine of a script file, or the launch of Keynote) to
the text it answers or the exception it raises. Every tool returns its
outcome together with the requests it made, in order, so "nothing reaches
Keynote" is `calls == []`. Replies are modelled by what they report
(which outcome, which values), not by their wording.

State that the source changes in place is modelled as classes: the guided
session's `session_state` (`Guided.Session`) and the file system paths the
export tools create and remove (`Export.Exporter`). Loops of the source
(`_format_args`, the numbered suggestions, the layout-name collection, the
Zen analyses) are methods proved against recursive specification
functions.

Where the code and the design disagree, the model follows the code:

- `src/tools/export.py` and `src/tools/export_fixed.py` carry the same
  logic (they differ only in their schemas); one `Export` module models
  both, cited from `export.py`.
- `src/tools/slide.py` and the `src/tools/slide/` package carry the same
  handlers; `from .slide import SlideTools` resolves to the package, which
  is what is cited.
- The server routes `add_slide` with the keywords `content_type` and
  `content_description`, which the package's `SlideTools.add_slide`
  (src/tools/slide/base.py:31) does not take, so that tool always answers
  with an unknown-error reply (`Server.AddSlideRouteFails`). The guided
  session's `create_guided_slide` makes the same call; the model takes the
  slide tool as a collaborator and keeps the counter unchanged when it
  raises.
- The server routes `set_slide_content` and `get_slide_default_elements`
  to methods `ContentTools` does not define (`Server.MissingContentMethods`).
- The planning step checks the layout listing for the English heading
  "📐 Available layouts:", while the slide package writes its heading in
  Chinese; the model keeps the test as written (`Guided.Ready`), so the
  listing is practically never recognised.
- `suggest_layout_for_content` catches every exception itself, so the
  fallback layouts of `create_guided_slide` are reached only if the call
  itself fails; when the suggestion is an error text containing ": ", the
  piece after the colon is used as the layout (`Guided.LayoutAfterColon`).
- The inline-script `add_text_box` escapes quotes and newlines but not
  backslashes, so a text holding a backslash may reach Keynote changed
  (`ContentSimple.AddTextBoxMisdelivers`); `ContentSimple.AddTextBox` keeps
  that escaping, and `ContentSimple.AddTextBoxCorrected` is the handler
  with the escaping that delivers every text (see Findings).
- `export_pdf` of a bare file name calls `os.makedirs('')`, which raises
  `FileNotFoundError`; the model returns that failure (`Export.Exporter.ExportPdf`).
- `validate_zen_principles` divides by the number of slides for the text
  density section, so an empty presentation raises `ZeroDivisionError`
  (`Zen.ValidateZenPrinciples`, outcome `ZenFailed`).

## Model

| member | source | states |
|---|---|---|
| Base.NatText | src/utils/error_handler.py:70 | `str()` of a natural number is a non-empty run of decimal digits |
| Base.IntText | src/utils/error_handler.py:70 | `str()` of an integer is non-empty and starts with '-' exactly for negatives |
| Base.IntTextZero | src/utils/error_handler.py:67-70 | only zero is written "0" |
| PyText.LStrip | src/utils/error_handler.py:34 | the result is a suffix of the input, starts with non-whitespace, and only whitespace was dropped |
| PyText.RStrip | src/utils/error_handler.py:34 | the result is a prefix of the input, ends with non-whitespace, and only whitespace was dropped |
| PyText.Strip | src/utils/error_handler.py:34 | the stripped text is no longer and neither starts nor ends with whitespace |
| PyText.BlankIffAllSpace | src/tools/content.py:109 | `not s.strip()` holds exactly when every character is whitespace |
| PyText.LStripAllSpace | src/utils/error_handler.py:92 | left-stripping an all-whitespace text leaves nothing |
| PyText.StripIdempotent | src/utils/error_handler.py:95 | stripping twice is stripping once |
| PyText.StripSet | src/tools/smart_layout.py:118-119 | `strip(chars)` leaves no character of the set at either end |
| PyText.IndexFrom | src/tools/smart_layout.py:175 | the search returns -1 when nothing occurs from `k`, otherwise the first occurrence at or after `k` |
| PyText.ContainsIffFound | src/utils/error_handler.py:37-54 | `sub in s` exactly when `s.find(sub)` is not -1 |
| PyText.ContainsHasChars | src/utils/error_handler.py:41 | every character of a contained text occurs in the containing text |
| PyText.MissingCharNotContains | src/utils/error_handler.py:41 | a text lacking a character of `sub` does not contain `sub` |
| PyText.Split | src/tools/slide/layout_operations.py:100 | `split(sep)` yields at least one piece |
| PyText.SplitJoin | src/tools/slide/layout_operations.py:100 | joining the pieces back with the separator gives the text again |
| PyText.SplitPiecesFree | src/tools/slide/layout_operations.py:100 | no piece contains the separator |
| PyText.FindIsFirst | src/tools/smart_layout.py:175 | an occurrence with none before it is the one `find` reports |
| PyText.OverlapIsBorder | src/tools/slide/navigation_operations.py:104 | two overlapping occurrences of a separator share a border of it |
| PyText.FirstAfterHead | src/tools/slide/navigation_operations.py:104 | in `a + sep + b` with `a` separator-free, the first occurrence is right after `a` |
| PyText.SplitOfJoin | src/tools/slide/navigation_operations.py:104 | splitting a join of separator-free pieces gives the pieces back |
| PyText.JoinStartsWithHead | src/tools/slide/layout_operations.py:101 | a join is at least as long as its first piece |
| PyText.JoinAppend | src/tools/slide/layout_operations.py:101 | joining one more piece appends the separator and the piece |
| PyText.CommaSpaceBorderless | src/tools/slide/navigation_operations.py:104 | ", " overlaps itself nowhere, so its occurrences cannot overlap |
| PyText.SplitContaining | src/tools/smart_layout.py:175 | a text splits into two or more pieces exactly when it contains the separator |
| PyText.SplitOnce | src/tools/smart_layout.py:175 | `split(sep, 1)` cuts at the first occurrence into a separator-free head and the rest, or gives the text alone |
| PyText.ReplaceChar | src/tools/content_simple.py:86 | replacing a character by a text without it removes it, and a text without it is unchanged |
| PyText.ReplaceCharKeeps | src/tools/presentation.py:307 | a replacement keeps every other character present or absent as it was |
| PyText.RemoveBraces | src/tools/presentation.py:307 | the result has no braces and the same other characters as the input |
| PyText.ReplaceCharAppend | src/tools/presentation.py:307 | replacement distributes over concatenation |
| PyText.RemoveBracesAppend | src/tools/presentation.py:307 | brace removal distributes over concatenation |
| PyText.Lower | src/utils/error_handler.py:45 | A–Z become a–z and every other character is kept, one for one; this is Python's `lower()` on ASCII text |
| PyText.LowerMissing | src/utils/error_handler.py:45 | a letter absent in both cases is absent from the lower-cased text |
| PyText.NoWordsIffBlank | src/tools/zen_validation.py:211 | `len(s.split())` is zero exactly when the text is whitespace only |
| PyText.WordCountAppend | src/tools/zen_validation.py:489 | word counts add up across a whitespace boundary |
| PyText.WordCountBound | src/tools/zen_validation.py:211 | a text of length n has at most (n+1)/2 words |
| ErrorHandler.CategoryIsFirstMatch | src/utils/error_handler.py:36-58 | the classifier picks the first rule, in source order, that matches the stripped text, and no earlier rule matches |
| ErrorHandler.HandleAppleScriptError | src/utils/error_handler.py:29-58 | empty output returns silently; otherwise it raises with the category prefix and the stripped text, a FileOperationError exactly for file problems and an AppleScriptError otherwise |
| ErrorHandler.PrefixesDistinct | src/utils/error_handler.py:37-58 | each category has its own message prefix |
| ErrorHandler.CaseSensitiveNotFound | src/utils/error_handler.py:41-42 | "Can't get" as written is an object-not-found error |
| ErrorHandler.CapitalsUnknown | src/utils/error_handler.py:37-58 | the same words in capitals fall through to the unknown-error rule |
| ErrorHandler.CapitalsMissCaseSensitiveRules | src/utils/error_handler.py:37-46 | the capitalised text misses the case-sensitive tests |
| ErrorHandler.CapitalsMissLowerCaseRules | src/utils/error_handler.py:45-54 | the capitalised text misses the lower-cased tests too |
| ErrorHandler.CaseInsensitivePermission | src/utils/error_handler.py:45-46 | "permission" is matched whatever its case |
| ErrorHandler.ValidateSlideNumber | src/utils/error_handler.py:61-72 | accepted exactly for an int (a bool counts) of at least 1 and within the maximum when one is given; the value comes back unchanged; otherwise a ParameterError |
| ErrorHandler.ToFloat | src/utils/error_handler.py:81-83 | `float()` of a number, 0.0 for an absent one |
| ErrorHandler.ValidateCoordinates | src/utils/error_handler.py:75-83 | accepted exactly when both are absent or non-negative numbers; the floats are the values (0.0 for absent); the error names x first, then y |
| ErrorHandler.ValidateFilePath | src/utils/error_handler.py:86-95 | accepted exactly for a non-blank string; the result is the stripped path, never empty |
| ErrorHandler.ValidateFilePathIdempotent | src/utils/error_handler.py:86-95 | validating a validated path gives it back unchanged |
| ScriptRunner.HexDigit | src/utils/applescript_runner.py:144-146 | a hex digit is printable ASCII |
| ScriptRunner.Hex4 | src/utils/applescript_runner.py:144-146 | four printable hex digits |
| ScriptRunner.JsonChar | src/utils/applescript_runner.py:144-146 | each character is written as printable ASCII, a plain printable one as itself |
| ScriptRunner.JsonEscape | src/utils/applescript_runner.py:144-146 | the escaped body is printable ASCII |
| ScriptRunner.JsonEscapePlain | src/utils/applescript_runner.py:144-146 | text of plain printable characters is left as it is |
| ScriptRunner.JsonString | src/utils/applescript_runner.py:144-146 | a JSON string literal is printable ASCII |
| ScriptRunner.JoinPrintable | src/utils/applescript_runner.py:144-146 | joining printable pieces with a printable separator is printable |
| ScriptRunner.JsonDumpsPrintable | src/utils/applescript_runner.py:144-146 | `json.dumps` of any value is printable ASCII, given printable float texts |
| ScriptRunner.ConcatPrintable | src/utils/applescript_runner.py:144-146 | every piece of a printable concatenation is printable |
| ScriptRunner.FloatTextsInside | src/utils/applescript_runner.py:144-146 | a container's members have printable float texts when it does |
| ScriptRunner.BoolsNotPythonOrNumbers | src/utils/applescript_runner.py:147-152 | a bool is written "true"/"false", unlike Python's `str()` and unlike any integer |
| ScriptRunner.FormatArgCases | src/utils/applescript_runner.py:144-158 | strings and numbers as `str()`, lists and dicts as JSON, None as "missing value" |
| ScriptRunner.FormatArgs | src/utils/applescript_runner.py:132-160 | the loop renders one argument per argument, in order, and yields exactly `FormattedArgs` |
| ScriptRunner.FormattedArgs | src/utils/applescript_runner.py:132-160 | the same rendering as a function |
| ScriptRunner.Complete | src/utils/applescript_runner.py:118-128 | success exactly for exit code 0, giving stripped stdout; a failing exit gives the stripped stderr, a failed start the unexpected-error text |
| ScriptRunner.ExecuteScript | src/utils/applescript_runner.py:106-130 | exactly one `osascript -e code` process, and its completion |
| ScriptRunner.ExecuteFile | src/utils/applescript_runner.py:91-104 | an unreadable file fails without a process; a readable one runs its text, with failures prefixed |
| ScriptRunner.ResolveScript | src/utils/applescript_runner.py:53-59 | `.scpt` is preferred, then `.applescript`; neither gives the script-not-found error |
| ScriptRunner.RunScript | src/utils/applescript_runner.py:38-100 | a missing script fails with the lookup's error and starts nothing; a source script is run by `_execute_applescript_file`; a compiled script starts one `osascript` process with the path, the routine and the rendered arguments, and its completion is the result |
| ScriptRunner.MissingScriptStartsNothing | src/utils/applescript_runner.py:53-59 | a missing script fails naming it, before any process starts |
| ScriptRunner.CompiledPreferred | src/utils/applescript_runner.py:66-89 | a compiled script is started with the routine name and the rendered arguments |
| ScriptRunner.SourceIgnoresRoutineAndArgs | src/utils/applescript_runner.py:61-63 | for a source script the routine and the arguments make no difference |
| Keynote.TargetOf | src/tools/slide/basic_operations.py:26-29 | the front document exactly for an empty name, otherwise the named one |
| Keynote.StrippedNonBlank | src/tools/slide/layout_operations.py:101 | every kept item is non-empty and already stripped, and there are no more items than parts |
| Keynote.StrippedNonBlankAppend | src/tools/slide/layout_operations.py:101 | the filter of a concatenation is the concatenation of the filters, so the parts are handled one by one and in order |
| Keynote.StrippedNonBlankOne | src/tools/slide/layout_operations.py:101 | one part gives its stripped text exactly when it is not blank, and nothing otherwise |
| Keynote.StrippedNonBlankCount | src/tools/slide/layout_operations.py:101 | one item per non-blank part |
| Keynote.StrippedNonBlankAll | src/tools/slide/layout_operations.py:101 | with no blank part it is a strip of every part, in order |
| Keynote.NonBlankCountAll | src/tools/presentation.py:447 | with no blank part every part counts |
| Keynote.NonBlankCountBound | src/tools/presentation.py:447 | never more non-blank parts than parts |
| Keynote.NonBlank | src/tools/presentation.py:447 | as many parts are kept as there are non-blank parts, and each kept part is a non-blank member of the input |
| Keynote.NonBlankAll | src/tools/presentation.py:447 | filtering a list with no blank part changes nothing |
| Keynote.NonBlankAppend | src/tools/presentation.py:447 | the filter of a concatenation is the concatenation of the filters, so the parts are kept in order |
| Keynote.NonBlankOne | src/tools/presentation.py:447 | one part is kept, unchanged, exactly when it is not blank |
| Keynote.ListItems | src/tools/presentation.py:307 | decoding a list rendering yields at least one item |
| Keynote.ListItemsRoundTrip | src/tools/presentation.py:307 | items free of braces and ", " come back one for one from `{a, b, ...}` |
| Keynote.BracedJoinUnwrapped | src/tools/presentation.py:307 | stripping the braces from `{a, b, ...}` of brace-free items leaves exactly the comma join |
| Keynote.CommaJoinSplits | src/tools/presentation.py:307 | splitting the ", " join of items free of ", " gives the items back |
| Keynote.ThreeFields | src/tools/presentation.py:407-418 | present exactly when the rendering has three items, and then they are the first three |
| Keynote.ThreeFieldsRoundTrip | src/tools/presentation.py:407-418 | `{a, b, c}` of plain fields is read back field for field |
| Keynote.JoinThree | src/tools/presentation.py:407 | a three-piece join is the pieces with two separators |
| Keynote.SplitOfBars | src/tools/presentation.py:446 | names free of '\|' come back from their "\|\|\|" join |
| Keynote.BracesAround | src/tools/presentation.py:307 | brace removal undoes the surrounding braces of a brace-free text |
| Keynote.JoinFree | src/tools/presentation.py:307 | a join of pieces and separator free of a character is free of it |
| Content.ScriptFilesRouting | src/tools/content.py:17-44 | every routine is routed to one of the five script files, each file used, text boxes and images in their own files |
| Content.CheckText | src/tools/content.py:106-113 | acceptable exactly for a non-blank string; empty for a falsy or blank text; any other value raises an AttributeError |
| Content.PositionValues | src/tools/content.py:116-117 | the default position is taken exactly when both coordinates are zero or absent |
| Content.AddTextBox | src/tools/content.py:103-135 | the slide, coordinates and text are checked in order without a call; an accepted box makes one `addTextBox` call at the resulting position and succeeds exactly when it does |
| Content.AddImage | src/tools/content.py:137-164 | the slide, path and coordinates are checked without a call; an accepted image makes one `addImage` call with the path as given (the validator's stripped path is not used) |
| Content.BlankTextRefused | src/tools/content.py:109-113 | a whitespace-only text is refused without a runner call |
| ContentSimple.EscapeAsWritten | src/tools/content_simple.py:86 | the escaped text holds no raw newline |
| ContentSimple.EscapeAsWrittenPlain | src/tools/content_simple.py:86 | text without quote or newline is left as it is |
| ContentSimple.EscapeAsWrittenConfuses | src/tools/content_simple.py:86 | a newline and a backslash followed by 'n' are escaped alike, so the literal denotes a newline for both |
| ContentSimple.EscapeAsWrittenTrailingBackslash | src/tools/content_simple.py:86 | a text ending in a backslash yields no well-formed literal |
| ContentSimple.Escape | src/tools/content_simple.py:86 | the corrected escaping leaves no raw newline and every quote escaped |
| ContentSimple.EscapePlain | src/tools/content_simple.py:86 | text without backslash, quote or newline is left as it is |
| ContentSimple.EscapeRoundTrip | src/tools/content_simple.py:86-100 | the literal built from the escaped text denotes the text itself |
| ContentSimple.EscapeInjective | src/tools/content_simple.py:86 | distinct texts never share an escaped form |
| ContentSimple.PlaceTextBox | src/tools/content_simple.py:73-113 | checks as in the script-file variant, with no call when one fails; an accepted box runs one inline program holding the escaped text at the resulting position; added exactly when that program succeeds |
| ContentSimple.AddTextBox | src/tools/content_simple.py:73-113 | the program holds the text escaped as written (quotes and newlines only); a text without backslashes reaches Keynote unchanged |
| ContentSimple.EscapeAsWrittenAgrees | src/tools/content_simple.py:86 | on text without backslashes the escaping as written is the corrected escaping |
| ContentSimple.AddTextBoxMisdelivers | src/tools/content_simple.py:86-100 | the accepted text backslash-'n' reaches Keynote as a line break |
| ContentSimple.AddTextBoxCorrected | src/tools/content_simple.py:73-113 | with backslashes escaped as well, the program's literal denotes exactly the text the caller sent |
| ContentSimple.AddImage | src/tools/content_simple.py:115-147 | checks as in the script-file variant; an accepted image runs one inline program with the path |
| ContentSimple.ImagePathVerbatim | src/tools/content_simple.py:126-134 | the path is inserted unescaped, so one holding a quote makes no well-formed literal |
| ContentSimple.QuoteEndsLiteral | src/tools/content_simple.py:126-134 | a body with an unescaped quote and no backslash is not a literal |
| Slides.RunThen | src/tools/slide/navigation_operations.py:16-40 | one inline program; its answer is decoded, its exception becomes the failure |
| Slides.CheckedThen | src/tools/slide/basic_operations.py:68-94 | an invalid slide number fails with the validator's message and no call; a valid one runs the program |
| Slides.LayoutFor | src/tools/slide/basic_operations.py:19-21 | "Blank" when no layout is named and default content is cleared; a named layout is kept |
| Slides.AddSlide | src/tools/slide/basic_operations.py:16-66 | one program at the position with the chosen layout; added exactly when it succeeds, reporting the answered number |
| Slides.AddSlideAppendsAtZero | src/tools/slide/basic_operations.py:32-36 | an integer position is the append position exactly when it is 0 |
| Slides.AddSlideBlankByDefault | src/tools/slide/basic_operations.py:19-21 | no layout and clearing gives "Blank"; no clearing leaves the layout empty |
| Slides.DeleteSlide | src/tools/slide/basic_operations.py:68-94 | a valid slide gives one delete program; deleted exactly when it succeeds |
| Slides.DuplicateSlide | src/tools/slide/basic_operations.py:96-129 | a valid slide gives one duplicate program with the new position; the answered number is reported |
| Slides.MoveSlide | src/tools/slide/basic_operations.py:131-159 | both positions are validated, the from position first; moved exactly when both are valid and the program succeeds |
| Slides.GetSlideCount | src/tools/slide/navigation_operations.py:16-40 | one count program; the count is its answer |
| Slides.SelectSlide | src/tools/slide/navigation_operations.py:42-68 | a valid slide gives one select program; selected exactly when it succeeds |
| Slides.DecodeInfo | src/tools/slide/navigation_operations.py:104-115 | three fields exactly when the rendering has three items; otherwise the raw answer |
| Slides.DecodeInfoRoundTrip | src/tools/slide/navigation_operations.py:104-115 | `{number, layout, count}` is read back field for field |
| Slides.GetSlideInfo | src/tools/slide/navigation_operations.py:70-121 | a valid slide gives one program whose answer is decoded; failure exactly when invalid or raised |
| Slides.DecodeStatus | src/tools/slide/layout_operations.py:52-66 | set exactly for "success", missing exactly for "layout_not_found", any other answer fails with it |
| Slides.ErrorStatusFails | src/tools/slide/layout_operations.py:52-66 | the program's "error: " report is a failure |
| Slides.SetSlideLayout | src/tools/slide/layout_operations.py:16-72 | a valid slide gives one program; set and missing exactly for the two status words |
| Slides.DecodeLayouts | src/tools/slide/layout_operations.py:99-110 | nothing exactly for an empty answer; otherwise one stripped name per non-blank piece, the names being the piece-by-piece filter `StrippedNonBlank` of the "\|\|\|" pieces, in order |
| Slides.StrippedNamesKept | src/tools/slide/layout_operations.py:101 | stripping and filtering keeps a list of stripped, non-empty names |
| Slides.DecodeLayoutsRoundTrip | src/tools/slide/layout_operations.py:99-110 | plain names come back one for one from their "\|\|\|" join |
| Slides.GetAvailableLayouts | src/tools/slide/layout_operations.py:74-116 | one listing program, its answer decoded; failure exactly when it raises |
| Presentation.RunAfter | src/tools/presentation.py:160-202 | the program runs after the given requests; its answer is decoded, its exception is the failure |
| Presentation.EnsureRunning | src/tools/presentation.py:164-165 | Keynote is launched exactly when it is reported not running; the check passes when it runs or the launch succeeds |
| Presentation.CreatePresentation | src/tools/presentation.py:160-202 | launch when needed, then one create program with title and theme; the template plays no part |
| Presentation.OpenPresentation | src/tools/presentation.py:204-230 | an invalid path fails with no call; a valid one launches when needed and opens the file |
| Presentation.OpenKeepsUnstrippedPath | src/tools/presentation.py:207-217 | the program receives the path as given, surrounding white space included |
| Presentation.SavePresentation | src/tools/presentation.py:232-256 | one save program; saved exactly when it succeeds |
| Presentation.ClosePresentation | src/tools/presentation.py:258-291 | one close program whose save flag is "true" exactly for a truthy argument |
| Presentation.DecodeList | src/tools/presentation.py:306-317 | none open exactly for an empty answer; otherwise the decoded items |
| Presentation.DecodeListRoundTrip | src/tools/presentation.py:306-317 | plain document names are listed one for one, in order |
| Presentation.ListPresentations | src/tools/presentation.py:293-323 | one list program, its answer decoded |
| Presentation.DecodeThemeStatus | src/tools/presentation.py:360-374 | set exactly for "success", missing exactly for "theme_not_found", any other answer fails with it |
| Presentation.ThemeErrorStatusFails | src/tools/presentation.py:360-374 | the program's "error: " report is a failure |
| Presentation.SetPresentationTheme | src/tools/presentation.py:325-380 | one program; set and missing exactly for the two status words |
| Presentation.DecodeInfo | src/tools/presentation.py:407-418 | three fields exactly when the rendering has three items; otherwise the raw answer |
| Presentation.DecodeInfoRoundTrip | src/tools/presentation.py:407-418 | `{name, count, theme}` is read back field for field |
| Presentation.GetPresentationInfo | src/tools/presentation.py:382-424 | one program, its answer decoded |
| Presentation.DecodeThemes | src/tools/presentation.py:445-450 | nothing exactly for an empty answer; the count is the number of pieces, the names the non-blank pieces in order (the piece-by-piece filter `NonBlank`) |
| Presentation.DecodeThemesRoundTrip | src/tools/presentation.py:445-450 | non-blank names free of '\|' are listed and counted one for one |
| Presentation.DecodeThemesCountsBlankPiece | src/tools/presentation.py:445-450 | a trailing separator is counted as one more theme than is listed |
| Presentation.NonBlankDropsLast | src/tools/presentation.py:447 | a trailing empty piece is dropped from the list |
| Presentation.TrailingBarSplits | src/tools/presentation.py:446 | a "\|\|\|"-terminated join splits into the names plus one empty piece |
| Presentation.JoinNotEmpty | src/tools/presentation.py:445 | a join of non-empty names is not empty |
| Presentation.GetAvailableThemes | src/tools/presentation.py:426-462 | one program, its answer decoded |
| SmartLayout.Call | src/tools/smart_layout.py:106-137 | one routine call; its answer decoded, its exception the failure |
| SmartLayout.DecodeMasters | src/tools/smart_layout.py:116-119 | nothing exactly for a blank answer; one quote-stripped name per piece of the bracket-stripped answer |
| SmartLayout.DecodeMastersRoundTrip | src/tools/smart_layout.py:116-119 | plain names come back one for one from `["a", "b"]` |
| SmartLayout.StripQuotesEach | src/tools/smart_layout.py:119 | one quote-stripped piece per piece |
| SmartLayout.StripQuotesAll | src/tools/smart_layout.py:119 | quote-stripping names without quotes changes none |
| SmartLayout.StripQuotesKeeps | src/tools/smart_layout.py:119 | quote-stripping a text with no quote keeps it |
| SmartLayout.MastersPieces | src/tools/smart_layout.py:116-119 | the rendering is not blank and splits back into the names |
| SmartLayout.MastersStripped | src/tools/smart_layout.py:118 | bracket-stripping the rendering gives the join |
| SmartLayout.JoinBounds | src/tools/smart_layout.py:118 | a join of non-empty pieces starts and ends with those pieces' characters |
| SmartLayout.StripSetAround | src/tools/smart_layout.py:118 | bracket-stripping `["j"]` gives `j` when `j` has no bracket or quote at its ends |
| SmartLayout.GetAvailableMasterSlides | src/tools/smart_layout.py:106-137 | one `getAvailableMasterSlides` call, its answer decoded |
| SmartLayout.DecodeSuggestion | src/tools/smart_layout.py:148-152 | no suggestion exactly for a blank answer; otherwise the stripped answer |
| SmartLayout.DecodeSuggestionKeepsStripped | src/tools/smart_layout.py:148-152 | a stripped, non-empty suggestion is reported as it is |
| SmartLayout.SuggestLayoutForContent | src/tools/smart_layout.py:139-163 | one call with document, type and description, its answer decoded |
| SmartLayout.DecodeSmartAdd | src/tools/smart_layout.py:174-196 | generic exactly when the answer has no '\|'; otherwise cut at the first '\|' into number and layout, "default" apart; notes mentioned per the type and description |
| SmartLayout.NoBarChar | src/tools/smart_layout.py:174 | not containing "\|" means lacking the character |
| SmartLayout.DecodeSmartAddRoundTrip | src/tools/smart_layout.py:174-196 | a number without '\|' and any layout are read back |
| SmartLayout.AddSlideWithSmartLayout | src/tools/smart_layout.py:165-202 | one call with document, position, type and description, its answer decoded |
| SmartLayout.NonEmptyItems | src/tools/smart_layout.py:219-225 | the kept items are non-empty members of the list, no more of them |
| SmartLayout.TopThreeIsFilter | src/tools/smart_layout.py:219-225 | the decoder shows the non-empty items among the first three pieces, the first piece first |
| SmartLayout.DecodeRecommendations | src/tools/smart_layout.py:213-229 | unavailable exactly for a blank answer; none when the first piece is empty; otherwise up to three non-empty pieces of the first three |
| SmartLayout.GetLayoutRecommendations | src/tools/smart_layout.py:204-245 | one call, its answer decoded |
| LayoutGuidance.GetDetailedLayoutInfo | src/tools/layout_guidance.py:102-135 | one `getSimpleLayoutInfo` call; a non-blank answer is shown, a blank one reported as unavailable |
| LayoutGuidance.LabelsExtend | src/tools/layout_guidance.py:150-153 | a label of a prefix of the pieces labels the whole |
| LayoutGuidance.NumberedSound | src/tools/layout_guidance.py:150-153 | every suggestion is a non-blank piece, stripped, at its place |
| LayoutGuidance.NumberedIncreasing | src/tools/layout_guidance.py:150-153 | the numbers strictly increase |
| LayoutGuidance.NumberedComplete | src/tools/layout_guidance.py:150-153 | every non-blank piece is suggested under its own place |
| LayoutGuidance.NumberingGap | src/tools/layout_guidance.py:150-153 | a blank piece leaves a gap in the numbering |
| LayoutGuidance.NumberSuggestions | src/tools/layout_guidance.py:150-153 | the loop yields exactly the numbered suggestions |
| LayoutGuidance.GetContextualLayoutSuggestions | src/tools/layout_guidance.py:137-169 | one call with position, type, description, theme and document; a non-blank answer is numbered |
| LayoutGuidance.NameBetweenColons | src/tools/layout_guidance.py:187-190 | the name is the stripped text between the first and second colon |
| LayoutGuidance.NameAfterOnlyColon | src/tools/layout_guidance.py:187-190 | with one colon only, the name runs to the end of the line |
| LayoutGuidance.LayoutNamesCount | src/tools/layout_guidance.py:185-190 | one name per line holding a colon, none from any other |
| LayoutGuidance.CollectLayoutNames | src/tools/layout_guidance.py:185-190 | the loop collects exactly those names |
| LayoutGuidance.OneDistinctIffRepeated | src/tools/layout_guidance.py:193-201 | one distinct name exactly when the list repeats one name |
| LayoutGuidance.DistinctBound | src/tools/layout_guidance.py:193-201 | never more distinct names than names, and as many when all differ |
| LayoutGuidance.VerdictCases | src/tools/layout_guidance.py:193-201 | a warning exactly for one name over three or more slides; an empty or all-distinct list is good; a notice implies a repeat |
| LayoutGuidance.GetRecentLayoutUsage | src/tools/layout_guidance.py:171-217 | one `getSimpleRecentLayouts` call; its lines give the names and the verdict |
| LayoutGuidance.BucketOf | src/tools/layout_guidance.py:225-245 | short up to 5 slides, medium up to 10, long above |
| LayoutGuidance.GetLayoutVarietySuggestions | src/tools/layout_guidance.py:219-284 | length advice first, type tips only for the known types, the golden rules last |
| Guided.FlowOf | src/tools/guided_presentation.py:216-263 | the flow by type; every type other than the three named gets the technical flow |
| Guided.FallbackLayout | src/tools/guided_presentation.py:299-309 | "Title & Bullets" exactly for types other than title, image, quote and gallery |
| Guided.LayoutFromSuggestion | src/tools/guided_presentation.py:297 | a text without ": " gives "Title & Bullets" |
| Guided.ChosenLayout | src/tools/guided_presentation.py:292-311 | a preferred layout is used verbatim; otherwise the suggestion's piece, or the fallback when the call raises |
| Guided.LayoutAfterColon | src/tools/guided_presentation.py:297 | `<head>: <layout>` without further colons gives the layout |
| Guided.ZenLevelOf | src/tools/guided_presentation.py:334-341 | alert above 20 words, compliant up to 15, notice between |
| Guided.ShortDescriptionCompliant | src/tools/guided_presentation.py:334-341 | a blank description, or one of at most 30 characters, is always compliant |
| Guided.PositionOf | src/tools/guided_presentation.py:318 | non-positive slide numbers become position 0, others are kept |
| Guided.DetectType | src/tools/guided_presentation.py:402-410 | the type detected in the lower-cased description, image words first, then quote, title and gallery words |
| Guided.ImageWordsWin | src/tools/guided_presentation.py:402-410 | image words win over every other kind, whatever the case |
| Guided.TipFor | src/tools/guided_presentation.py:423-428 | opening tips up to slide 2, closing from slide 8, content tips between |
| Guided.LayoutRecommendationsForPosition | src/tools/guided_presentation.py:398-439 | advice exactly when the suggestion for the detected type is answered, with that suggestion and the tip for the position; when the call raises, a failure with its message and no advice |
| Guided.Session.constructor | src/tools/guided_presentation.py:17-23 | the session starts unplanned, with a zero counter and no title |
| Guided.Session.StartPlanning | src/tools/guided_presentation.py:130-214 | both flags set, the counter reset, the title stored; the report carries the flow, the bucket and whether the listing was recognised |
| Guided.Session.CreateGuidedSlide | src/tools/guided_presentation.py:265-362 | the planning gate (opened by force), then the counter gate (not), then layout choice and slide creation; the counter moves only when the slide was added |
| Guided.Session.CheckProgress | src/tools/guided_presentation.py:364-396 | the counter is reset and the report embeds the usage of the last five slides |
| Zen.Assign | src/tools/zen_validation.py:422 | `d[k] = v`: an existing number keeps its place and takes the new text, a new number goes last; distinct numbers stay distinct |
| Zen.SlideDict | src/tools/zen_validation.py:418-422 | the dict built record by record has distinct slide numbers |
| Zen.SlideDictSound | src/tools/zen_validation.py:418-422 | every entry of the dict is one of the records |
| Zen.SlideDictLast | src/tools/zen_validation.py:418-422 | the last record for each slide number is in the dict, so a repeated number keeps its last text |
| Zen.RepeatedNumberCollapses | src/tools/zen_validation.py:418-422 | records for slides 1, 2, 1 make two slides, slide 1 first and with the later text |
| Zen.BuildSlideDict | src/tools/zen_validation.py:418-422 | the loop builds exactly `SlideDict` of the records |
| Zen.SlideContent | src/tools/zen_validation.py:403-442 | one `getSlideTextContent` call; a parsed answer gives the dict built from its records (distinct slide numbers), anything else the fixed fallback |
| Zen.ScoreOf | src/tools/zen_validation.py:522-534 | the score lies between 0 and 100 |
| Zen.PenaltyCounts | src/tools/zen_validation.py:528-533 | the penalty is 15 per slide above 20 words plus 10 per slide of 16 to 20 |
| Zen.PerfectScore | src/tools/zen_validation.py:522-534 | a full score exactly when no slide has more than 15 words |
| Zen.AddingSlideNeverRaises | src/tools/zen_validation.py:522-534 | one more slide never raises the score |
| Zen.CalculateZenScore | src/tools/zen_validation.py:522-534 | the loop computes the clamped score |
| Zen.GradeOf | src/tools/zen_validation.py:536-545 | excellent from 90, good from 70, needs improvement from 50, major revision below |
| Zen.GradeOfPenalties | src/tools/zen_validation.py:522-545 | how many long slides push the grade down |
| Zen.StoryBeats | src/tools/zen_validation.py:547-556 | the resolution ends at the length; the hook and the development end no earlier than slides 1 and 3 |
| Zen.BeatsAdjacent | src/tools/zen_validation.py:547-556 | development starts after the hook, the climax after the development |
| Zen.BeatsInOrder | src/tools/zen_validation.py:547-556 | from five slides the beats run in order inside the presentation |
| Zen.BeatsOverlapAtTwelve | src/tools/zen_validation.py:547-556 | at twelve slides the resolution starts before the climax |
| Zen.GoalGuidance | src/tools/zen_validation.py:558-568 | the known goals' guidance, general guidance for any other |
| Zen.SuggestStoryStructure | src/tools/zen_validation.py:251-307 | the beats for the length and the guidance for the goal |
| Zen.Preview | src/tools/zen_validation.py:216 | texts up to 100 characters as they are, longer ones cut to 100 plus "..." |
| Zen.OverloadedExactly | src/tools/zen_validation.py:210-218 | exactly the slides above the threshold are listed |
| Zen.FindOverloaded | src/tools/zen_validation.py:210-218 | the loop lists exactly those slides, in order |
| Zen.DetectTextOverload | src/tools/zen_validation.py:202-249 | no overload exactly when no slide is above the threshold; otherwise those slides |
| Zen.ReasonsForCases | src/tools/zen_validation.py:457-467 | each reason is listed exactly when its test holds, at most three, none exactly when no test holds |
| Zen.CollectReasons | src/tools/zen_validation.py:454-467 | the appends give exactly the reasons whose tests hold, in order |
| Zen.ReasonsOfCases | src/tools/zen_validation.py:450-473 | a slide is complex for more than 20 words, more than 3 sentences or more than 5 bullets, each reason exactly when it holds |
| Zen.FromPrefix | src/tools/zen_validation.py:450-473 | a verdict on a prefix of the slides is one on the slides |
| Zen.ComplexSlidesSound | src/tools/zen_validation.py:450-473 | every listed slide has a reason and comes from the input |
| Zen.ComplexSlidesComplete | src/tools/zen_validation.py:450-473 | every slide with a reason is listed |
| Zen.ComplexSlidesStep | src/tools/zen_validation.py:469-474 | one more slide adds its verdict exactly when it has a reason |
| Zen.ValidateTextSimplicity | src/tools/zen_validation.py:444-483 | the loop lists exactly the complex slides |
| Zen.KansoSuggestions | src/tools/zen_validation.py:570-583 | reduce text for more than 6 words, replace bullets when "bullet" is mentioned, eliminate only at the aggressive level, in that order |
| Zen.KansoIgnoresBranding | src/tools/zen_validation.py:570-583 | `preserve_branding` never changes the suggestions |
| Zen.AggressivePlansEverySlide | src/tools/zen_validation.py:322-328 | at the aggressive level every slide receives suggestions |
| Zen.ApplyKansoPrinciples | src/tools/zen_validation.py:309-353 | the loop builds exactly the plan of slides with suggestions |
| Zen.SectionNames | src/tools/zen_validation.py:169-189 | a section is included exactly when the check is "full" or names it |
| Zen.ValidateZenPrinciples | src/tools/zen_validation.py:161-200 | fails exactly when the density section is asked of no slides; otherwise the selected sections, with the score for a full check |
| Zen.SingleSectionCheck | src/tools/zen_validation.py:169-189 | a check naming one section carries that section alone |
| Export.Removed | src/tools/export.py:126-128 | a path survives a tree removal exactly when it is not under the tree |
| Export.RemovedSplits | src/tools/export.py:140-143 | removing a tree no old path lies in drops only what was added |
| Export.LastSlash | src/tools/export.py:100 | the index of the last '/', or -1 |
| Export.RStripSlash | src/tools/export.py:100 | a prefix ending in a non-slash, non-empty unless the text was all slashes |
| Export.Dirname | src/tools/export.py:100 | empty exactly for a path without '/'; otherwise a prefix of it |
| Export.DirnameExamples | src/tools/export.py:100 | "/tmp/out/shot.png" gives "/tmp/out", a bare file name gives "" |
| Export.FormatOf | src/tools/export.py:97 | JPEG exactly for "jpg" in any case, PNG for other strings, an AttributeError for a non-string |
| Export.FormatExamples | src/tools/export.py:97 | "JPG" and "jpg" are JPEG, "jpeg" and "png" are PNG |
| Export.StagedUnder | src/tools/export.py:121-138 | the staged files lie under the temporary directory |
| Export.CleanupRestores | src/tools/export.py:140-143 | removing the temporary tree after a failure restores the paths |
| Export.CleanupKeepsTarget | src/tools/export.py:121-138 | after the move and the cleanup only the target directory and file are new |
| Export.Exporter.MakeDirs | src/tools/export.py:157-158 | the empty name raises FileNotFoundError and changes nothing; any other adds the directory |
| Export.Exporter.RemoveTree | src/tools/export.py:126-128 | the tree and everything under it are removed |
| Export.Exporter.ScreenshotSlide | src/tools/export.py:90-149 | invalid inputs fail without a call; otherwise one export request, and the temporary directory is gone in every case; on success the target file and its directory exist |
| Export.Exporter.Capture | src/tools/export.py:106-143 | the request's failure, a bare file name and an empty export all leave no file; otherwise the first staged file is moved to the target |
| Export.Exporter.ExportPdf | src/tools/export.py:151-179 | invalid path fails without a call; a bare file name fails with FileNotFoundError; otherwise the directory is made and one export program runs |
| Export.Exporter.ExportImages | src/tools/export.py:181-211 | the directory is made before the format is read, so it exists even when the format raises; then one export program into the directory |
| Server.ListTools | src/server.py:45-54 | the 28 tools of the five groups, in order |
| Server.Bind | src/server.py:61-220 | the keyword arguments bind exactly when every required key is present; the values are the given ones or the defaults; otherwise the first missing key raises KeyError |
| Server.RenderClassifies | src/server.py:227-251 | every reply ends with the exception's text; the unknown-error prefix exactly for non-Keynote exceptions |
| Server.CallTool | src/server.py:57-251 | one reply block; an unknown name is reported as such; the handler is called exactly when the route reaches it and the arguments bind; its text or its rendered exception is the reply |
| Server.ListedIffRouted | src/server.py:45-220 | every listed tool is routed, and every routed tool with an existing method is listed |
| Server.PresentationToolsRouted | src/server.py:61-101 | every presentation tool has a route |
| Server.SlideToolsRouted | src/server.py:103-152 | every slide tool has a route |
| Server.OtherToolsRouted | src/server.py:154-220 | every content, export and smart-layout tool has a route |
| Server.RoutedAreListed | src/server.py:45-220 | every routed tool with an existing method is listed |
| Server.UnservedHaveNoRoute | src/server.py:61-225 | the Zen, guided, guidance and Unsplash tools have no route |
| Server.ZenHasNoRoute | src/server.py:61-225 | no Zen tool is routed |
| Server.GuidedHasNoRoute | src/server.py:61-225 | no guided tool is routed |
| Server.GuidanceHasNoRoute | src/server.py:61-225 | no layout-guidance tool is routed |
| Server.UnsplashHasNoRoute | src/server.py:61-225 | no Unsplash tool is routed |
| Server.UnservedAreUnknown | src/server.py:221-225 | those tools are not listed and are answered as unknown tools |
| Server.AddSlideRouteFails | src/server.py:103-110 | `add_slide` never reaches its handler: the unexpected keyword raises a TypeError, reported as an unknown error |
| Server.MissingContentMethods | src/server.py:168-177 | the two content routes fail on the missing method with an unknown-error reply |
| Server.MissingTitle | src/server.py:61-65 | a missing required key is reported through the unknown-error branch |
| Server.CloseDefaults | src/server.py:75-79 | with no keys, closing gets the front document and saving on |
| Server.DuplicateDefaults | src/server.py:116-121 | the copy is placed at position 0 by default |
| Server.ScreenshotFormatDefault | src/server.py:180-185 | a screenshot defaults to "png" |
| Server.ImagesFormatDefault | src/server.py:190-194 | an image export defaults to "png" |
| Server.SmartAddDefaults | src/server.py:207-213 | an empty description at position 0 by default |

## Left out

- `osascript`, Keynote and the AppleScript programs' own behaviour: the runner
  is an oracle (`Keynote.Backend`) mapping each request to an answer or an
  exception; the programs are modelled by their template and parameters.
- `run_inline_script`, `run_function`, `check_keynote_running` and
  `launch_keynote`, which the tools call on the runner, are not defined in
  src/utils/applescript_runner.py; they are the oracle's requests.
- The wording and emoji of the replies: outcomes carry what the reply
  reports, not its text (the server's error prefixes are kept, as
  `Server.Render`).
- Floating-point arithmetic: coordinates keep their value as a real and
  their `str()` text as given; average words per slide is compared exactly.
- ErrorHandler.ToFloat: for an integer coordinate, `float()` raising
  `OverflowError` beyond the double range, the rounding of integers above
  2**53 and the exponent form `str()` uses from 10**16 are not modelled; the
  model keeps the exact value and writes it as its digits and ".0".
- ErrorHandler.ValidateCoordinates: accepts a non-negative integer
  coordinate of any size, while the source raises `OverflowError` for one
  beyond the double range (the reason is that of `ErrorHandler.ToFloat`).
- PyText.Lower: folds only A–Z. Python's `lower()` also folds other cased
  letters and can change the length ('İ' becomes 'i' and a combining dot).
  The model is used only where the source tests a lower-cased text for an
  ASCII keyword ("permission", "file", "not found", "doesn't exist",
  "syntax error", "jpg", "bullet", the content-type words). The only
  non-ASCII characters that lower to ASCII letters are 'İ' (to 'i', followed
  by the dot) and the Kelvin sign (to 'k'); no keyword holds a 'k' or ends
  in 'i', so these tests give the same answer as Python's.
- `async`/`await` and MCP transport (`run`, stdio, the `Tool` schemas).
- src/tools/unsplash.py, the Unsplash tools, and `check_back_row_visibility`
  of src/tools/zen_validation.py:355-401 (fixed advice text only).
- `get_presentation_resolution` and `get_slide_size`
  (src/tools/presentation.py:464-597): routed by the server, but their
  aspect-ratio arithmetic is floating point.
- Zen.SlideContent: the JSON decoding of the slide-text answer, with
  `slideNumber` defaulting to 0 and `textContent` to "", is a parameter
  `parse`; the `await` of the runner's synchronous result is not modelled.
- Zen.ValidateZenPrinciples: `slide_range` is accepted and ignored by the
  source, so it is not a parameter.
- Server.CallTool: the routed handlers are a collaborator `handle`; their
  behaviour is modelled by the tool modules.
- Server.CallTool: the server passes each argument value as JSON gave it,
  while the tool handlers take the document name and other text arguments
  (`doc_name`, `title`, `theme`, `layout`, ...) as strings; a non-string
  value there, which the source's f-strings would render with `str()`, is
  not modelled.
- Guided.Session: the smart-layout, slide and layout-guidance tools it calls
  are the collaborator `Helpers`; `time.time()` and the stored title's use
  in replies are left out.
- SmartLayout.DecodeRecommendations: the final `strip()` of the reply text
  is not modelled.
- Export.Exporter.MakeDirs: `os.makedirs` creating missing parent
  directories, and failures other than the empty name, are not modelled.
- Export.Exporter.Capture: `shutil.move` failures and the `os.listdir`
  order are not modelled; the staged file names are a parameter, listed in
  the order `os.listdir` returns them, and the first one is moved.
- Export.Exporter.ScreenshotSlide: the temporary directory from
  `tempfile.mkdtemp` is a parameter, and that it is fresh is a
  precondition.

## Findings

| source | as written | input that shows it | evidently intended | confidence | as-written member | corrected member |
|---|---|---|---|---|---|---|
| src/tools/content_simple.py:86 | quotes and newlines are escaped but backslashes are not | the text `\n` (backslash, n) yields the same literal as a newline, and a text ending in a backslash yields no literal | the literal in the program denotes the caller's text | high, not executed | ContentSimple.AddTextBoxMisdelivers | ContentSimple.AddTextBoxCorrected |
