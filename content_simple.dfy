/** The inline-template variant of the content tools
    (src/tools/content_simple.py): the text box and the image are placed by
    generated programs rather than by script-file routines. The checks,
    the defaults and the outcomes are those of `Content`.

    The text is embedded in an AppleScript string literal. The escaping as
    written handles quotes and newlines but not backslashes, so it is not
    invertible; `AddTextBox` uses it as written, and `AddTextBoxCorrected`
    shows the escaping that delivers every text. */
module ContentSimple {
  import opened Base
  import opened PyText
  import opened ErrorHandler
  import opened Keynote
  import opened Content

  // ---------------------------------------------------------------------
  // Reading an AppleScript string literal
  // ---------------------------------------------------------------------

  /** The text an AppleScript string literal with body `s` denotes: `\\`,
      `\"`, `\n`, `\t` and `\r` are escapes, a bare `"` would end the
      literal early, and so would a backslash right before the closing
      quote. `None` when `s` is not a whole literal body. */
  function Unescape(s: string): (r: Option<string>)
    decreases |s|
  {
    if s == [] then Some([])
    else if s[0] == '"' then None
    else if s[0] != '\\' then
      match Unescape(s[1..])
      case Some(t) => Some([s[0]] + t)
      case None => None
    else if |s| == 1 then None
    else
      var c := s[1];
      var d := if c == 'n' then Some('\n') else if c == 't' then Some('\t') else if c == 'r' then Some('\r')
               else if c == '\\' || c == '"' then Some(c) else None;
      match d
      case None => None
      case Some(e) =>
        match Unescape(s[2..])
        case Some(t) => Some([e] + t)
        case None => None
  }

  // ---------------------------------------------------------------------
  // The escaping as written
  // ---------------------------------------------------------------------

  /** `text.replace('"', '\\"').replace('\n', '\\n')` */
  function EscapeAsWritten(text: string): (r: string)
    ensures '\n' !in r
  {
    ReplaceCharKeeps(text, '"', "\\\"", '\n');
    ReplaceChar(ReplaceChar(text, '"', "\\\""), '\n', "\\n")
  }

  /** Text with neither quote nor newline is left as it is. */
  lemma EscapeAsWrittenPlain(text: string)
    requires '"' !in text && '\n' !in text
    ensures EscapeAsWritten(text) == text
  {
  }

  /** A newline and a backslash followed by 'n' are escaped alike, and the
      literal built from the latter denotes a newline. */
  lemma EscapeAsWrittenConfuses()
    ensures EscapeAsWritten("\n") == EscapeAsWritten("\\n")
    ensures Unescape(EscapeAsWritten("\\n")) == Some("\n")
  {
    assert ReplaceChar("\n", '"', "\\\"") == "\n";
    assert ReplaceChar("\\n", '"', "\\\"") == "\\n";
    assert ReplaceChar("\\n", '\n', "\\n") == "\\n";
    assert ReplaceChar("\n", '\n', "\\n") == "\\n" by {
      assert ReplaceChar("", '\n', "\\n") == "";
    }
    assert Unescape("") == Some("");
  }

  /** A text ending in a backslash yields no literal at all. */
  lemma EscapeAsWrittenTrailingBackslash()
    ensures Unescape(EscapeAsWritten("\\")) == None
  {
    assert ReplaceChar("\\", '"', "\\\"") == "\\";
    assert ReplaceChar("\\", '\n', "\\n") == "\\";
  }

  // ---------------------------------------------------------------------
  // The corrected escaping
  // ---------------------------------------------------------------------

  function EscapeChar(c: char): string {
    if c == '\\' then "\\\\"
    else if c == '"' then "\\\""
    else if c == '\n' then "\\n"
    else [c]
  }

  /** Backslash, quote and newline escaped, each character on its own. */
  function Escape(text: string): (r: string)
    ensures '\n' !in r
    ensures forall i :: 0 <= i < |r| && r[i] == '"' ==> 0 < i && r[i - 1] == '\\'
  {
    if text == [] then []
    else
      var head := EscapeChar(text[0]);
      var rest := Escape(text[1..]);
      assert forall i :: 0 <= i < |rest| ==> (head + rest)[|head| + i] == rest[i];
      head + rest
  }

  /** Text with no backslash, quote or newline is left as it is. */
  lemma {:induction false} EscapePlain(text: string)
    requires '\\' !in text && '"' !in text && '\n' !in text
    ensures Escape(text) == text
  {
    if text != [] {
      EscapePlain(text[1..]);
      assert text == [text[0]] + text[1..];
    }
  }

  /** The literal built from the escaped text denotes the text itself. */
  lemma {:induction false} EscapeRoundTrip(text: string)
    ensures Unescape(Escape(text)) == Some(text)
  {
    if text != [] {
      var c, rest := text[0], text[1..];
      EscapeRoundTrip(rest);
      var e := Escape(text);
      assert e == EscapeChar(c) + Escape(rest);
      if c == '\\' || c == '"' || c == '\n' {
        assert e[0] == '\\' && e[2..] == Escape(rest);
      } else {
        assert e[0] == c && e[1..] == Escape(rest);
      }
      assert text == [c] + rest;
    }
  }

  /** Hence distinct texts never share an escaped form. */
  lemma EscapeInjective(a: string, b: string)
    requires Escape(a) == Escape(b)
    ensures a == b
  {
    EscapeRoundTrip(a);
    EscapeRoundTrip(b);
  }

  // ---------------------------------------------------------------------
  // The handlers
  // ---------------------------------------------------------------------

  /** The program an accepted `add_text_box` runs; `body` is what stands
      between the quotes of the text literal. */
  function TextItemScript(slide: Value, body: string, p: (Float, Float)): Script {
    MakeTextItem(PyStr(slide), p.0.text, p.1.text, body)
  }

  /** The handler of `add_text_box`, with the text escaped by `escape`: the
      checks of the script-file variant, then one inline program. */
  function PlaceTextBox(b: Backend, slide: Value, text: Value, x: Value, y: Value, escape: string -> string): (r: Reply<Outcome>)
    ensures !TextBoxAccepted(slide, text, x, y) ==> r.calls == []
    ensures TextBoxAccepted(slide, text, x, y) ==>
      r.calls == [Inline(TextItemScript(slide, escape(text.s), Position(x, y, TextDefault)))]
    ensures !SlideNumberOk(slide) ==> r.outcome == Failed(ValidateSlideNumber(slide, None).exc.message)
    ensures r.outcome.EmptyText? <==>
      SlideNumberOk(slide) && CoordinateOk(x) && CoordinateOk(y) && CheckText(text).TextEmpty?
    ensures r.outcome.TextAdded? <==> TextBoxAccepted(slide, text, x, y) && Succeeds(b, r.calls[0])
    ensures r.outcome.TextAdded? ==>
      r.outcome.slide == slide && (r.outcome.x, r.outcome.y) == Position(x, y, TextDefault)
  {
    match ValidateSlideNumber(slide, None)
    case Err(e) => Reply(Failed(e.message), [])
    case Ok(_) =>
      match ValidateCoordinates(x, y)
      case Err(e) => Reply(Failed(e.message), [])
      case Ok(p) =>
        match CheckText(text)
        case TextEmpty => Reply(EmptyText, [])
        case TextRaised(e) => Reply(Failed(e.message), [])
        case TextOk =>
          var q := WithDefault(p, TextDefault);
          var req := Inline(TextItemScript(slide, escape(text.s), q));
          match b.answer(req)
          case Ok(_) => Reply(TextAdded(slide, q.0, q.1), [req])
          case Err(e) => Reply(Failed(e.message), [req])
  }

  /** `add_text_box(slide_number, text, x, y)` as written: the text goes
      through the replace chain, so only a text without backslashes is
      sure to reach Keynote unchanged. */
  function AddTextBox(b: Backend, slide: Value, text: Value, x: Value, y: Value): (r: Reply<Outcome>)
    ensures TextBoxAccepted(slide, text, x, y) ==>
      r.calls == [Inline(TextItemScript(slide, EscapeAsWritten(text.s), Position(x, y, TextDefault)))]
    ensures TextBoxAccepted(slide, text, x, y) && '\\' !in text.s ==>
      Unescape(r.calls[0].script.text) == Some(text.s)
  {
    var r := PlaceTextBox(b, slide, text, x, y, EscapeAsWritten);
    if TextBoxAccepted(slide, text, x, y) && '\\' !in text.s then
      EscapeAsWrittenAgrees(text.s);
      EscapeRoundTrip(text.s);
      r
    else r
  }

  /** Without a backslash the escaping as written is the corrected one. */
  lemma {:induction false} EscapeAsWrittenAgrees(text: string)
    requires '\\' !in text
    ensures EscapeAsWritten(text) == Escape(text)
  {
    if text != [] {
      var c, rest := text[0], text[1..];
      var head := if c == '"' then "\\\"" else [c];
      assert ReplaceChar(text, '"', "\\\"") == head + ReplaceChar(rest, '"', "\\\"");
      ReplaceCharAppend(head, ReplaceChar(rest, '"', "\\\""), '\n', "\\n");
      assert ReplaceChar(head, '\n', "\\n") == EscapeChar(c) by {
        assert ReplaceChar([], '\n', "\\n") == [];
      }
      EscapeAsWrittenAgrees(rest);
    }
  }

  /** The text backslash-'n' is accepted, and the box Keynote is given
      holds a line break instead. */
  lemma AddTextBoxMisdelivers(b: Backend, slide: Value, text: Value, x: Value, y: Value)
    requires TextBoxAccepted(slide, text, x, y) && text.s == "\\n"
    ensures Unescape(AddTextBox(b, slide, text, x, y).calls[0].script.text) == Some("\n") != Some(text.s)
  {
    EscapeAsWrittenConfuses();
  }

  /** `add_text_box` with the corrected escaping, which delivers every text. */
  function AddTextBoxCorrected(b: Backend, slide: Value, text: Value, x: Value, y: Value): (r: Reply<Outcome>)
    ensures TextBoxAccepted(slide, text, x, y) ==>
      r.calls == [Inline(TextItemScript(slide, Escape(text.s), Position(x, y, TextDefault)))]
    ensures TextBoxAccepted(slide, text, x, y) ==> Unescape(r.calls[0].script.text) == Some(text.s)
  {
    var r := PlaceTextBox(b, slide, text, x, y, Escape);
    if TextBoxAccepted(slide, text, x, y) then
      EscapeRoundTrip(text.s);
      r
    else r
  }

  /** The program an accepted `add_image` runs: the path is not escaped. */
  function ImageScript(slide: Value, imagePath: Value, p: (Float, Float)): Script {
    MakeImage(PyStr(slide), p.0.text, p.1.text, PyStr(imagePath))
  }

  /** `add_image(slide_number, image_path, x, y)` */
  function AddImage(b: Backend, slide: Value, imagePath: Value, x: Value, y: Value): (r: Reply<Outcome>)
    ensures !ImageAccepted(slide, imagePath, x, y) ==> r.calls == [] && r.outcome.Failed?
    ensures ImageAccepted(slide, imagePath, x, y) ==>
      r.calls == [Inline(ImageScript(slide, imagePath, Position(x, y, ImageDefault)))]
    ensures r.outcome.ImageAdded? <==> ImageAccepted(slide, imagePath, x, y) && Succeeds(b, r.calls[0])
    ensures r.outcome.ImageAdded? ==>
      r.outcome.slide == slide && r.outcome.path == imagePath.s &&
      (r.outcome.x, r.outcome.y) == Position(x, y, ImageDefault)
  {
    match ValidateSlideNumber(slide, None)
    case Err(e) => Reply(Failed(e.message), [])
    case Ok(_) =>
      match ValidateFilePath(imagePath)
      case Err(e) => Reply(Failed(e.message), [])
      case Ok(_) =>
        match ValidateCoordinates(x, y)
        case Err(e) => Reply(Failed(e.message), [])
        case Ok(p) =>
          var q := WithDefault(p, ImageDefault);
          var req := Inline(ImageScript(slide, imagePath, q));
          match b.answer(req)
          case Ok(_) => Reply(ImageAdded(slide, q.0, q.1, imagePath.s), [req])
          case Err(e) => Reply(Failed(e.message), [req])
  }

  /** A path holding a quote (and no backslash) reaches the program
      verbatim, where the quote ends the literal early. */
  lemma ImagePathVerbatim(b: Backend, slide: Value, path: string)
    requires SlideNumberOk(slide) && !IsBlank(path) && '"' in path && '\\' !in path
    ensures AddImage(b, slide, VStr(path), VNone, VNone).calls[0].script.file == path
    ensures Unescape(path) == None
  {
    ImagePathReachesProgram(b, slide, path);
    QuoteEndsLiteral(path);
  }

  lemma ImagePathReachesProgram(b: Backend, slide: Value, path: string)
    requires SlideNumberOk(slide) && !IsBlank(path)
    ensures AddImage(b, slide, VStr(path), VNone, VNone).calls[0].script.file == path
  {
    assert ImageAccepted(slide, VStr(path), VNone, VNone);
  }

  lemma {:induction false} QuoteEndsLiteral(s: string)
    requires '"' in s && '\\' !in s
    ensures Unescape(s) == None
    decreases |s|
  {
    if s[0] != '"' {
      assert '"' in s[1..] && '\\' !in s[1..] by { assert s == [s[0]] + s[1..]; }
      QuoteEndsLiteral(s[1..]);
    }
  }
}
