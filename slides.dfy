/** The slide tools: add, delete, duplicate and move slides
    (src/tools/slide/basic_operations.py), count, select and describe them
    (navigation_operations.py), and read or change their master slide
    (layout_operations.py), all reached through the `SlideTools` facade of
    src/tools/slide/base.py.

    Every handler catches every exception and reports it as `Failed` with
    the exception's text. A handler that validates a slide number does so
    before it contacts Keynote, so a rejected number costs no request. */
module Slides {
  import opened Base
  import opened PyText
  import opened ErrorHandler
  import opened Keynote

  /** What a slide tool reports, without its wording. */
  datatype Outcome =
    | Added(number: string, layout: string)   // layout "" is reported as the default one
    | Deleted(slide: Value)
    | Duplicated(number: string)
    | Moved(from: Value, to: Value)
    | Counted(count: string)
    | Selected(slide: Value)
    | LayoutSet(slide: Value, layout: string)
    | LayoutMissing(layout: string)
    | LayoutFailed(status: string)
    | Info(slide: Value, number: string, layout: string, textCount: string)
    | InfoRaw(slide: Value, raw: string)
    | Layouts(names: seq<string>)
    | NoLayouts
    | Failed(message: string)

  /** Run one generated program and decode its answer; an exception becomes
      `Failed` with its text. */
  function RunThen(b: Backend, s: Script, decode: string -> Outcome): (r: Reply<Outcome>)
    ensures r.calls == [Inline(s)]
    ensures b.answer(Inline(s)).Ok? ==> r.outcome == decode(b.answer(Inline(s)).value)
    ensures b.answer(Inline(s)).Err? ==> r.outcome == Failed(b.answer(Inline(s)).exc.message)
  {
    match b.answer(Inline(s))
    case Ok(text) => Reply(decode(text), [Inline(s)])
    case Err(e) => Reply(Failed(e.message), [Inline(s)])
  }

  /** Validate a slide number first; only an accepted one reaches Keynote. */
  function CheckedThen(b: Backend, slide: Value, s: Script, decode: string -> Outcome): (r: Reply<Outcome>)
    ensures !SlideNumberOk(slide) ==> r.calls == [] && r.outcome.Failed?
    ensures !SlideNumberOk(slide) ==> r.outcome.message == ValidateSlideNumber(slide, None).exc.message
    ensures SlideNumberOk(slide) ==> r == RunThen(b, s, decode)
  {
    match ValidateSlideNumber(slide, None)
    case Err(e) => Reply(Failed(e.message), [])
    case Ok(_) => RunThen(b, s, decode)
  }

  // ---------------------------------------------------------------------
  // Basic operations
  // ---------------------------------------------------------------------

  /** The master slide `add_slide` asks for: "Blank" when default content is
      to be cleared and no layout was named, otherwise the one named. */
  function LayoutFor(layout: string, clearDefault: bool): (l: string)
    ensures l == "" <==> layout == "" && !clearDefault
    ensures layout != "" ==> l == layout
  {
    if clearDefault && layout == "" then "Blank" else layout
  }

  /** `add_slide(doc_name, position, layout, clear_default_content)`.
      The generated program appends the slide when the position text is
      "0" and inserts it at that position otherwise. */
  function AddSlide(b: Backend, docName: string, position: Value, layout: string, clearDefault: bool): (r: Reply<Outcome>)
    ensures r.calls == [Inline(MakeSlide(TargetOf(docName), PyStr(position), LayoutFor(layout, clearDefault)))]
    ensures r.outcome.Added? <==> Succeeds(b, r.calls[0])
    ensures r.outcome.Added? ==> r.outcome.number == b.answer(r.calls[0]).value
    ensures r.outcome.Added? ==> r.outcome.layout == LayoutFor(layout, clearDefault)
  {
    var l := LayoutFor(layout, clearDefault);
    RunThen(b, MakeSlide(TargetOf(docName), PyStr(position), l), n => Added(n, l))
  }

  /** An integer position appends exactly when it is 0. */
  lemma AddSlideAppendsAtZero(b: Backend, docName: string, i: int, layout: string, clearDefault: bool)
    ensures AddSlide(b, docName, VInt(i), layout, clearDefault).calls[0].script.position == "0" <==> i == 0
  {
    IntTextZero(i);
  }

  /** With nothing named and default content cleared, the slide gets the
      "Blank" master slide. */
  lemma AddSlideBlankByDefault(b: Backend, docName: string, position: Value)
    ensures AddSlide(b, docName, position, "", true).calls[0].script.layout == "Blank"
    ensures AddSlide(b, docName, position, "", false).calls[0].script.layout == ""
  {
  }

  /** `delete_slide(slide_number, doc_name)`: the program's answer is ignored. */
  function DeleteSlide(b: Backend, slide: Value, docName: string): (r: Reply<Outcome>)
    ensures !SlideNumberOk(slide) ==> r.calls == [] && r.outcome.Failed?
    ensures SlideNumberOk(slide) ==> r.calls == [Inline(RemoveSlide(TargetOf(docName), PyStr(slide)))]
    ensures r.outcome.Deleted? <==> SlideNumberOk(slide) && Succeeds(b, r.calls[0])
    ensures r.outcome.Deleted? ==> r.outcome.slide == slide
  {
    CheckedThen(b, slide, RemoveSlide(TargetOf(docName), PyStr(slide)), _ => Deleted(slide))
  }

  /** `duplicate_slide(slide_number, doc_name, new_position)`: the copy is
      moved only when the new position text is not "0". */
  function DuplicateSlide(b: Backend, slide: Value, docName: string, newPosition: Value): (r: Reply<Outcome>)
    ensures !SlideNumberOk(slide) ==> r.calls == [] && r.outcome.Failed?
    ensures SlideNumberOk(slide) ==> r.calls == [Inline(CopySlide(TargetOf(docName), PyStr(slide), PyStr(newPosition)))]
    ensures r.outcome.Duplicated? <==> SlideNumberOk(slide) && Succeeds(b, r.calls[0])
    ensures r.outcome.Duplicated? ==> r.outcome.number == b.answer(r.calls[0]).value
  {
    CheckedThen(b, slide, CopySlide(TargetOf(docName), PyStr(slide), PyStr(newPosition)), n => Duplicated(n))
  }

  /** `move_slide(from_position, to_position, doc_name)`: both positions are
      validated, the source first. */
  function MoveSlide(b: Backend, from: Value, to: Value, docName: string): (r: Reply<Outcome>)
    ensures !(SlideNumberOk(from) && SlideNumberOk(to)) ==> r.calls == [] && r.outcome.Failed?
    ensures !SlideNumberOk(from) ==> r.outcome.message == ValidateSlideNumber(from, None).exc.message
    ensures SlideNumberOk(from) && SlideNumberOk(to) ==>
      r.calls == [Inline(ReorderSlide(TargetOf(docName), PyStr(from), PyStr(to)))]
    ensures r.outcome.Moved? <==> SlideNumberOk(from) && SlideNumberOk(to) && Succeeds(b, r.calls[0])
    ensures r.outcome.Moved? ==> r.outcome.from == from && r.outcome.to == to
  {
    match ValidateSlideNumber(from, None)
    case Err(e) => Reply(Failed(e.message), [])
    case Ok(_) => CheckedThen(b, to, ReorderSlide(TargetOf(docName), PyStr(from), PyStr(to)), _ => Moved(from, to))
  }

  // ---------------------------------------------------------------------
  // Navigation
  // ---------------------------------------------------------------------

  /** `get_slide_count(doc_name)` */
  function GetSlideCount(b: Backend, docName: string): (r: Reply<Outcome>)
    ensures r.calls == [Inline(CountSlides(TargetOf(docName)))]
    ensures r.outcome.Counted? <==> Succeeds(b, r.calls[0])
    ensures r.outcome.Counted? ==> r.outcome.count == b.answer(r.calls[0]).value
  {
    RunThen(b, CountSlides(TargetOf(docName)), n => Counted(n))
  }

  /** `select_slide(slide_number, doc_name)` */
  function SelectSlide(b: Backend, slide: Value, docName: string): (r: Reply<Outcome>)
    ensures !SlideNumberOk(slide) ==> r.calls == [] && r.outcome.Failed?
    ensures SlideNumberOk(slide) ==> r.calls == [Inline(SetCurrentSlide(TargetOf(docName), PyStr(slide)))]
    ensures r.outcome.Selected? <==> SlideNumberOk(slide) && Succeeds(b, r.calls[0])
    ensures r.outcome.Selected? ==> r.outcome.slide == slide
  {
    CheckedThen(b, slide, SetCurrentSlide(TargetOf(docName), PyStr(slide)), _ => Selected(slide))
  }

  /** The decoding of `get_slide_info`'s answer: braces removed, split at
      ", ", the first three pieces used when there are at least three, the
      raw answer otherwise. */
  function DecodeInfo(slide: Value, result: string): (o: Outcome)
    ensures o.Info? || o.InfoRaw?
    ensures o.Info? <==> |ListItems(result)| >= 3
    ensures o.Info? ==> [o.number, o.layout, o.textCount] == ListItems(result)[..3]
    ensures o.InfoRaw? ==> o.raw == result
    ensures o.slide == slide
  {
    match ThreeFields(result)
    case Some((number, layout, textCount)) => Info(slide, number, layout, textCount)
    case None => InfoRaw(slide, result)
  }

  /** A three-item list rendering `{number, layout, count}` is read back
      field for field. */
  lemma DecodeInfoRoundTrip(slide: Value, number: string, layout: string, textCount: string)
    requires '{' !in number && '}' !in number && !Contains(number, ", ")
    requires '{' !in layout && '}' !in layout && !Contains(layout, ", ")
    requires '{' !in textCount && '}' !in textCount && !Contains(textCount, ", ")
    ensures DecodeInfo(slide, "{" + number + ", " + layout + ", " + textCount + "}")
            == Info(slide, number, layout, textCount)
  {
    ThreeFieldsRoundTrip(number, layout, textCount);
  }

  /** `get_slide_info(slide_number, doc_name)` */
  function GetSlideInfo(b: Backend, slide: Value, docName: string): (r: Reply<Outcome>)
    ensures !SlideNumberOk(slide) ==> r.calls == [] && r.outcome.Failed?
    ensures SlideNumberOk(slide) ==> r.calls == [Inline(DescribeSlide(TargetOf(docName), PyStr(slide)))]
    ensures SlideNumberOk(slide) && Succeeds(b, r.calls[0]) ==>
      r.outcome == DecodeInfo(slide, b.answer(r.calls[0]).value)
    ensures r.outcome.Failed? <==> !SlideNumberOk(slide) || !Succeeds(b, r.calls[0])
  {
    CheckedThen(b, slide, DescribeSlide(TargetOf(docName), PyStr(slide)), text => DecodeInfo(slide, text))
  }

  // ---------------------------------------------------------------------
  // Layouts
  // ---------------------------------------------------------------------

  /** The status words of the `set_slide_layout` program. */
  function DecodeStatus(slide: Value, layout: string, result: string): (o: Outcome)
    ensures o.LayoutSet? <==> result == "success"
    ensures o.LayoutMissing? <==> result == "layout_not_found"
    ensures o.LayoutSet? || o.LayoutMissing? || o.LayoutFailed?
    ensures o.LayoutFailed? ==> o.status == result
  {
    if result == "success" then LayoutSet(slide, layout)
    else if result == "layout_not_found" then LayoutMissing(layout)
    else LayoutFailed(result)
  }

  /** The program's own error report, "error: " and the message, is never
      mistaken for either status word. */
  lemma ErrorStatusFails(slide: Value, layout: string, message: string)
    ensures DecodeStatus(slide, layout, "error: " + message) == LayoutFailed("error: " + message)
  {
    var s := "error: " + message;
    assert s[0] == 'e';
    assert "success"[0] == 's' && "layout_not_found"[0] == 'l';
  }

  /** `set_slide_layout(slide_number, layout, doc_name)` */
  function SetSlideLayout(b: Backend, slide: Value, layout: string, docName: string): (r: Reply<Outcome>)
    ensures !SlideNumberOk(slide) ==> r.calls == [] && r.outcome.Failed?
    ensures SlideNumberOk(slide) ==> r.calls == [Inline(SetBaseSlide(TargetOf(docName), PyStr(slide), layout))]
    ensures r.outcome.LayoutSet? <==> SlideNumberOk(slide) && b.answer(r.calls[0]) == Ok("success")
    ensures r.outcome.LayoutSet? ==> r.outcome.slide == slide && r.outcome.layout == layout
    ensures r.outcome.LayoutMissing? <==> SlideNumberOk(slide) && b.answer(r.calls[0]) == Ok("layout_not_found")
  {
    CheckedThen(b, slide, SetBaseSlide(TargetOf(docName), PyStr(slide), layout), text => DecodeStatus(slide, layout, text))
  }

  /** The decoding of `get_available_layouts`' answer: an empty answer means
      none; otherwise the "|||"-separated names, stripped, blanks dropped. */
  function DecodeLayouts(result: string): (o: Outcome)
    ensures o.NoLayouts? <==> result == ""
    ensures o.Layouts? || o.NoLayouts?
    ensures o.Layouts? ==> |o.names| == NonBlankCount(Split(result, "|||"))
    ensures o.Layouts? ==> forall i :: 0 <= i < |o.names| ==> o.names[i] != "" && Strip(o.names[i]) == o.names[i]
    ensures o.Layouts? ==> o.names == StrippedNonBlank(Split(result, "|||"))
  {
    if result == "" then NoLayouts
    else
      var parts := Split(result, "|||");
      StrippedNonBlankCount(parts);
      Layouts(StrippedNonBlank(parts))
  }

  /** Names that are not blank, carry no surrounding white space and no '|'
      come back one for one from their "|||"-joined list. */
  lemma DecodeLayoutsRoundTrip(names: seq<string>)
    requires |names| >= 1
    requires forall i :: 0 <= i < |names| ==> names[i] != "" && Strip(names[i]) == names[i] && '|' !in names[i]
    ensures DecodeLayouts(JoinWith(names, "|||")) == Layouts(names)
  {
    var j := JoinWith(names, "|||");
    JoinStartsWithHead(names, "|||");
    SplitOfBars(names);
    StrippedNamesKept(names);
    assert j != "" && Split(j, "|||") == names;
  }

  /** Stripping-and-filtering keeps a list of stripped, non-empty names. */
  lemma StrippedNamesKept(names: seq<string>)
    requires forall i :: 0 <= i < |names| ==> names[i] != "" && Strip(names[i]) == names[i]
    ensures StrippedNonBlank(names) == names
  {
    assert forall i :: 0 <= i < |names| ==> !IsBlank(names[i]);
    NonBlankCountAll(names);
    StrippedNonBlankAll(names);
  }

  /** `get_available_layouts(doc_name)` */
  function GetAvailableLayouts(b: Backend, docName: string): (r: Reply<Outcome>)
    ensures r.calls == [Inline(ListMasterSlides(TargetOf(docName)))]
    ensures Succeeds(b, r.calls[0]) ==> r.outcome == DecodeLayouts(b.answer(r.calls[0]).value)
    ensures r.outcome.Failed? <==> !Succeeds(b, r.calls[0])
  {
    RunThen(b, ListMasterSlides(TargetOf(docName)), DecodeLayouts)
  }
}
