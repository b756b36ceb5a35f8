/** The presentation tools (src/tools/presentation.py): create, open, save
    and close documents, list them, set and list themes, and describe a
    document. Every handler catches every exception and reports it as
    `Failed` with the exception's text. */
module Presentation {
  import opened Base
  import opened PyText
  import opened ErrorHandler
  import opened Keynote

  /** What a presentation tool reports, without its wording. */
  datatype Outcome =
    | Created(name: string)
    | Opened(name: string)
    | Saved(name: string)
    | Closed(name: string)
    | Listed(names: seq<string>)
    | NoneOpen
    | ThemeSet(theme: string)
    | ThemeMissing(theme: string)
    | ThemeFailed(status: string)
    | Info(name: string, slideCount: string, theme: string)
    | InfoRaw(raw: string)
    | Themes(count: nat, names: seq<string>)
    | NoThemes
    | Failed(message: string)

  /** Run one generated program and decode its answer, after the requests
      already made in `before`. */
  function RunAfter(b: Backend, before: seq<Request>, s: Script, decode: string -> Outcome): (r: Reply<Outcome>)
    ensures r.calls == before + [Inline(s)]
    ensures b.answer(Inline(s)).Ok? ==> r.outcome == decode(b.answer(Inline(s)).value)
    ensures b.answer(Inline(s)).Err? ==> r.outcome == Failed(b.answer(Inline(s)).exc.message)
  {
    match b.answer(Inline(s))
    case Ok(text) => Reply(decode(text), before + [Inline(s)])
    case Err(e) => Reply(Failed(e.message), before + [Inline(s)])
  }

  /** `if not check_keynote_running(): launch_keynote()`: the launch request
      when one was made, and the exception that ended the step, if any. */
  function EnsureRunning(b: Backend): (r: (seq<Request>, Option<Exc>))
    ensures r.0 == [Launch] <==> b.running == Ok(false)
    ensures r.0 == [] <==> b.running != Ok(false)
    ensures r.1.None? <==> b.running == Ok(true) || (b.running == Ok(false) && Succeeds(b, Launch))
  {
    match b.running
    case Err(e) => ([], Some(e))
    case Ok(up) =>
      if up then ([], None)
      else match b.answer(Launch)
        case Ok(_) => ([Launch], None)
        case Err(e) => ([Launch], Some(e))
  }

  /** `create_presentation(title, theme, template)`: the template is unused. */
  function CreatePresentation(b: Backend, title: string, theme: string, template: string): (r: Reply<Outcome>)
    ensures Launch in r.calls <==> b.running == Ok(false)
    ensures EnsureRunning(b).1.None? ==> r.calls == EnsureRunning(b).0 + [Inline(CreateDocument(title, theme))]
    ensures EnsureRunning(b).1.Some? ==> Inline(CreateDocument(title, theme)) !in r.calls && r.outcome.Failed?
    ensures r.outcome.Created? <==> EnsureRunning(b).1.None? && Succeeds(b, Inline(CreateDocument(title, theme)))
    ensures r.outcome.Created? ==> r.outcome.name == b.answer(Inline(CreateDocument(title, theme))).value
  {
    var (pre, err) := EnsureRunning(b);
    if err.Some? then Reply(Failed(err.value.message), pre)
    else RunAfter(b, pre, CreateDocument(title, theme), name => Created(name))
  }

  /** `open_presentation(file_path)`: the path is validated before Keynote
      is checked or launched, and the program receives the path as given,
      not the stripped one the validator returns. */
  function OpenPresentation(b: Backend, filePath: Value): (r: Reply<Outcome>)
    ensures ValidateFilePath(filePath).Err? ==> r.calls == [] && r.outcome.Failed?
    ensures ValidateFilePath(filePath).Err? ==> r.outcome.message == ValidateFilePath(filePath).exc.message
    ensures ValidateFilePath(filePath).Ok? ==> (Launch in r.calls <==> b.running == Ok(false))
    ensures ValidateFilePath(filePath).Ok? && EnsureRunning(b).1.None? ==>
      r.calls == EnsureRunning(b).0 + [Inline(OpenFile(filePath.s))]
    ensures r.outcome.Opened? <==>
      ValidateFilePath(filePath).Ok? && EnsureRunning(b).1.None? && Succeeds(b, Inline(OpenFile(filePath.s)))
  {
    match ValidateFilePath(filePath)
    case Err(e) => Reply(Failed(e.message), [])
    case Ok(_) =>
      var (pre, err) := EnsureRunning(b);
      if err.Some? then Reply(Failed(err.value.message), pre)
      else RunAfter(b, pre, OpenFile(filePath.s), name => Opened(name))
  }

  /** Surrounding white space survives into the program. */
  lemma OpenKeepsUnstrippedPath(b: Backend)
    requires b.running == Ok(true)
    ensures OpenPresentation(b, VStr(" talk.key")).calls == [Inline(OpenFile(" talk.key"))]
  {
    var p := VStr(" talk.key");
    assert Strip(p.s) != [] by {
      assert p.s[1] == 't' && !IsSpace(p.s[1]);
      assert !AllSpace(p.s);
      BlankIffAllSpace(p.s);
    }
  }

  /** `save_presentation(doc_name)` */
  function SavePresentation(b: Backend, docName: string): (r: Reply<Outcome>)
    ensures r.calls == [Inline(SaveDocument(TargetOf(docName)))]
    ensures r.outcome.Saved? <==> Succeeds(b, r.calls[0])
    ensures r.outcome.Saved? ==> r.outcome.name == b.answer(r.calls[0]).value
  {
    RunAfter(b, [], SaveDocument(TargetOf(docName)), name => Saved(name))
  }

  /** `close_presentation(doc_name, should_save)`: the flag reaches the
      program as the AppleScript literal `true` or `false`. */
  function ClosePresentation(b: Backend, docName: string, shouldSave: Value): (r: Reply<Outcome>)
    ensures |r.calls| == 1 && r.calls[0].Inline? && r.calls[0].script.CloseDocument?
    ensures r.calls[0].script.doc == TargetOf(docName)
    ensures r.calls[0].script.saveFlag in {"true", "false"}
    ensures r.calls[0].script.saveFlag == "true" <==> Truthy(shouldSave)
    ensures r.outcome.Closed? <==> Succeeds(b, r.calls[0])
  {
    var flag := if Truthy(shouldSave) then "true" else "false";
    RunAfter(b, [], CloseDocument(TargetOf(docName), flag), name => Closed(name))
  }

  /** The decoding of `list_presentations`' answer. */
  function DecodeList(result: string): (o: Outcome)
    ensures o.NoneOpen? <==> result == ""
    ensures o.Listed? || o.NoneOpen?
    ensures o.Listed? ==> o.names == ListItems(result) && |o.names| >= 1
  {
    if result == "" then NoneOpen else Listed(ListItems(result))
  }

  /** Document names free of braces and of ", " are listed one for one, in
      order, from the rendering `{a, b, ...}`. */
  lemma DecodeListRoundTrip(names: seq<string>)
    requires |names| >= 1
    requires forall i :: 0 <= i < |names| ==> '{' !in names[i] && '}' !in names[i] && !Contains(names[i], ", ")
    ensures DecodeList("{" + JoinWith(names, ", ") + "}") == Listed(names)
  {
    ListItemsRoundTrip(names);
  }

  /** `list_presentations()` */
  function ListPresentations(b: Backend): (r: Reply<Outcome>)
    ensures r.calls == [Inline(ListDocuments)]
    ensures Succeeds(b, r.calls[0]) ==> r.outcome == DecodeList(b.answer(r.calls[0]).value)
    ensures r.outcome.Failed? <==> !Succeeds(b, r.calls[0])
  {
    RunAfter(b, [], ListDocuments, DecodeList)
  }

  /** The status words of the `set_presentation_theme` program. */
  function DecodeThemeStatus(theme: string, result: string): (o: Outcome)
    ensures o.ThemeSet? <==> result == "success"
    ensures o.ThemeMissing? <==> result == "theme_not_found"
    ensures o.ThemeSet? || o.ThemeMissing? || o.ThemeFailed?
    ensures o.ThemeFailed? ==> o.status == result
    ensures !o.ThemeFailed? ==> o.theme == theme
  {
    if result == "success" then ThemeSet(theme)
    else if result == "theme_not_found" then ThemeMissing(theme)
    else ThemeFailed(result)
  }

  /** The program's own error report is never mistaken for a status word. */
  lemma ThemeErrorStatusFails(theme: string, message: string)
    ensures DecodeThemeStatus(theme, "error: " + message) == ThemeFailed("error: " + message)
  {
    assert ("error: " + message)[0] == 'e';
    assert "success"[0] == 's' && "theme_not_found"[0] == 't';
  }

  /** `set_presentation_theme(theme_name, doc_name)` */
  function SetPresentationTheme(b: Backend, theme: string, docName: string): (r: Reply<Outcome>)
    ensures r.calls == [Inline(SetDocumentTheme(TargetOf(docName), theme))]
    ensures r.outcome.ThemeSet? <==> b.answer(r.calls[0]) == Ok("success")
    ensures r.outcome.ThemeMissing? <==> b.answer(r.calls[0]) == Ok("theme_not_found")
    ensures r.outcome.Failed? <==> !Succeeds(b, r.calls[0])
  {
    RunAfter(b, [], SetDocumentTheme(TargetOf(docName), theme), text => DecodeThemeStatus(theme, text))
  }

  /** The decoding of `get_presentation_info`'s answer. */
  function DecodeInfo(result: string): (o: Outcome)
    ensures o.Info? || o.InfoRaw?
    ensures o.Info? <==> |ListItems(result)| >= 3
    ensures o.Info? ==> [o.name, o.slideCount, o.theme] == ListItems(result)[..3]
    ensures o.InfoRaw? ==> o.raw == result
  {
    match ThreeFields(result)
    case Some((name, count, theme)) => Info(name, count, theme)
    case None => InfoRaw(result)
  }

  /** The rendering `{name, count, theme}` is read back field for field. */
  lemma DecodeInfoRoundTrip(name: string, slideCount: string, theme: string)
    requires '{' !in name && '}' !in name && !Contains(name, ", ")
    requires '{' !in slideCount && '}' !in slideCount && !Contains(slideCount, ", ")
    requires '{' !in theme && '}' !in theme && !Contains(theme, ", ")
    ensures DecodeInfo("{" + name + ", " + slideCount + ", " + theme + "}") == Info(name, slideCount, theme)
  {
    ThreeFieldsRoundTrip(name, slideCount, theme);
  }

  /** `get_presentation_info(doc_name)` */
  function GetPresentationInfo(b: Backend, docName: string): (r: Reply<Outcome>)
    ensures r.calls == [Inline(DescribeDocument(TargetOf(docName)))]
    ensures Succeeds(b, r.calls[0]) ==> r.outcome == DecodeInfo(b.answer(r.calls[0]).value)
    ensures r.outcome.Failed? <==> !Succeeds(b, r.calls[0])
  {
    RunAfter(b, [], DescribeDocument(TargetOf(docName)), DecodeInfo)
  }

  /** The decoding of `get_available_themes`' answer: the count is that of
      all "|||"-separated pieces, while only the non-blank ones are listed,
      unstripped. */
  function DecodeThemes(result: string): (o: Outcome)
    ensures o.NoThemes? <==> result == ""
    ensures o.Themes? || o.NoThemes?
    ensures o.Themes? ==> o.count == |Split(result, "|||")| >= |o.names|
    ensures o.Themes? ==> forall i :: 0 <= i < |o.names| ==> !IsBlank(o.names[i]) && o.names[i] in Split(result, "|||")
    ensures o.Themes? ==> o.names == NonBlank(Split(result, "|||"))
  {
    if result == "" then NoThemes
    else
      var parts := Split(result, "|||");
      NonBlankCountBound(parts);
      Themes(|parts|, NonBlank(parts))
  }

  /** Non-blank names free of '|' are listed and counted one for one ... */
  lemma DecodeThemesRoundTrip(names: seq<string>)
    requires |names| >= 1
    requires forall i :: 0 <= i < |names| ==> !IsBlank(names[i]) && '|' !in names[i]
    ensures DecodeThemes(JoinWith(names, "|||")) == Themes(|names|, names)
  {
    JoinNotEmpty(names);
    SplitOfBars(names);
    NonBlankAll(names);
  }

  /** ... but a trailing separator is counted as one more theme than is
      listed. */
  lemma DecodeThemesCountsBlankPiece(names: seq<string>)
    requires |names| >= 1
    requires forall i :: 0 <= i < |names| ==> !IsBlank(names[i]) && '|' !in names[i]
    ensures DecodeThemes(JoinWith(names, "|||") + "|||") == Themes(|names| + 1, names)
  {
    TrailingBarSplits(names);
    NonBlankDropsLast(names);
  }

  lemma TrailingBarSplits(names: seq<string>)
    requires |names| >= 1
    requires forall i :: 0 <= i < |names| ==> '|' !in names[i]
    ensures Split(JoinWith(names, "|||") + "|||", "|||") == names + [""]
  {
    var all := names + [""];
    JoinAppend(names, "|||", "");
    assert JoinWith(names, "|||") + "|||" + "" == JoinWith(names, "|||") + "|||";
    assert forall i :: 0 <= i < |all| ==> '|' !in all[i];
    SplitOfBars(all);
  }

  lemma {:induction false} NonBlankDropsLast(parts: seq<string>)
    requires forall i :: 0 <= i < |parts| ==> !IsBlank(parts[i])
    ensures NonBlank(parts + [""]) == parts
  {
    if parts == [] {
      assert IsBlank("");
    } else {
      assert (parts + [""])[1..] == parts[1..] + [""];
      NonBlankDropsLast(parts[1..]);
    }
  }

  lemma JoinNotEmpty(names: seq<string>)
    requires |names| >= 1 && !IsBlank(names[0])
    ensures JoinWith(names, "|||") != ""
  {
    JoinStartsWithHead(names, "|||");
    assert names[0] != "";
  }

  /** `get_available_themes()` */
  function GetAvailableThemes(b: Backend): (r: Reply<Outcome>)
    ensures r.calls == [Inline(ListThemes)]
    ensures Succeeds(b, r.calls[0]) ==> r.outcome == DecodeThemes(b.answer(r.calls[0]).value)
    ensures r.outcome.Failed? <==> !Succeeds(b, r.calls[0])
  {
    RunAfter(b, [], ListThemes, DecodeThemes)
  }
}
