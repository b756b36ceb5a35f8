/** The guided workflow (src/tools/guided_presentation.py): a session that
    refuses to create slides before planning, asks for a progress check
    after three unchecked slides, and picks a layout when none is given.
    The slide, smart-layout and layout-guidance tools it calls are
    collaborators given as functions of what they are passed. */
module Guided {
  import opened Base
  import opened PyText
  import LayoutGuidance

  /** The tools the session calls, as functions of their arguments:
      `suggest(content_type, description)` is the text of the smart-layout
      suggestion (an `Err` when the call raises), `addSlide(position,
      layout)` the text `add_slide` returns (an `Err` when it raises),
      `layouts` the text of the layout listing probed at planning time, and
      `recentUsage(last_n, doc_name)` the text of the recent-usage report. */
  datatype Helpers = Helpers(
    suggest: (string, string) -> Result<string>,
    addSlide: (int, string) -> Result<string>,
    layouts: Result<string>,
    recentUsage: (int, string) -> string)

  /** The recommended flow of `_get_variety_suggestions`, by type. */
  datatype Flow = BusinessFlow | EducationalFlow | CreativeFlow | TechnicalFlow

  /** How long the description is, in words. */
  datatype ZenLevel = ZenAlert | ZenNotice | ZenCompliant

  /** The advice chosen by slide position. */
  datatype PositionTip = OpeningTips | ClosingTips | ContentTips

  /** What a guided tool reports, without its wording. */
  datatype Outcome =
    | PlanningStarted(title: string, length: int, kind: string, flow: Flow, lengthTip: LayoutGuidance.Bucket, ready: bool)
    | PlanningRequired
    | VarietyCheckRequired
    | SlideCreated(added: string, layout: string, slide: int, zen: ZenLevel, checkTip: bool, zenReminder: bool)
    | Progress(usage: string)
    | PositionAdvice(slide: int, description: string, detected: string, suggestion: string, tip: PositionTip)
    | Failed(message: string)

  // ---------------------------------------------------------------------
  // Pure choices
  // ---------------------------------------------------------------------

  /** The flow by presentation type: every type other than business,
      educational and creative gets the technical flow. */
  function FlowOf(kind: string): (f: Flow)
    ensures f == BusinessFlow <==> kind == "business"
    ensures f == EducationalFlow <==> kind == "educational"
    ensures f == CreativeFlow <==> kind == "creative"
    ensures f == TechnicalFlow <==> kind !in LayoutGuidance.TipKinds
  {
    if kind == "business" then BusinessFlow
    else if kind == "educational" then EducationalFlow
    else if kind == "creative" then CreativeFlow
    else TechnicalFlow
  }

  /** The layout used when the smart-layout call raises. */
  function FallbackLayout(contentType: string): (l: string)
    ensures l == "Title & Bullets" <==> contentType !in {"title", "image", "quote", "gallery"}
  {
    if contentType == "title" then "Title"
    else if contentType == "image" then "Title & Photo"
    else if contentType == "quote" then "Quote"
    else if contentType == "gallery" then "Photo - 3 Up"
    else "Title & Bullets"
  }

  /** The piece after the first ": " of a suggestion text, up to the next
      one; "Title & Bullets" when the text has no ": ". */
  function LayoutFromSuggestion(text: string): (l: string)
    ensures !Contains(text, ": ") ==> l == "Title & Bullets"
  {
    if Contains(text, ": ") then
      SplitContaining(text, ": ");
      Split(text, ": ")[1]
    else "Title & Bullets"
  }

  /** A given layout is used verbatim; otherwise the suggestion's text is
      read, and the fallback mapping applies when the suggestion raised. */
  function ChosenLayout(preferred: string, contentType: string, suggestion: Result<string>): (l: string)
    ensures preferred != "" ==> l == preferred
    ensures preferred == "" && suggestion.Err? ==> l == FallbackLayout(contentType)
    ensures preferred == "" && suggestion.Ok? ==> l == LayoutFromSuggestion(suggestion.value)
  {
    if preferred != "" then preferred
    else match suggestion
      case Err(_) => FallbackLayout(contentType)
      case Ok(text) => LayoutFromSuggestion(text)
  }

  /** A suggestion worded `<head>: <layout>`, with no colon in either part,
      yields its layout; this is how the smart-layout report reads, and also
      how its failure report `Failed to suggest layout: <message>` reads, so
      an error message is taken for a layout name. */
  lemma LayoutAfterColon(head: string, layout: string)
    requires ':' !in head && ':' !in layout
    ensures LayoutFromSuggestion(head + ": " + layout) == layout
  {
    var text := head + ": " + layout;
    assert JoinWith([head, layout], ": ") == text;
    assert SeparatorFree(head, ": ") && SeparatorFree(layout, ": ");
    SplitOfJoin([head, layout], ": ");
    assert OccursAt(text, ": ", |head|);
  }

  /** `len(content_description.split())` above 20, above 15, or not. */
  function ZenLevelOf(description: string): (z: ZenLevel)
    ensures z == ZenAlert <==> WordCount(description) > 20
    ensures z == ZenCompliant <==> WordCount(description) <= 15
  {
    var n := WordCount(description);
    if n > 20 then ZenAlert else if n > 15 then ZenNotice else ZenCompliant
  }

  /** A blank description is always compliant, and a short one too. */
  lemma ShortDescriptionCompliant(description: string)
    requires AllSpace(description) || |description| <= 30
    ensures ZenLevelOf(description) == ZenCompliant
  {
    NoWordsIffBlank(description);
    WordCountBound(description);
  }

  /** `slide_number if slide_number > 0 else 0` */
  function PositionOf(slide: int): (p: nat)
    ensures p == 0 <==> slide <= 0
    ensures p != 0 ==> p == slide
  {
    if slide > 0 then slide else 0
  }

  /** The layout probe counts as a listing when its text carries the
      English heading. */
  predicate Ready(layouts: Result<string>) {
    layouts.Ok? && Contains(layouts.value, "📐 Available layouts:")
  }

  // ---------------------------------------------------------------------
  // get_layout_recommendations_for_position
  // ---------------------------------------------------------------------

  const ImageWords: seq<string> := ["image", "photo", "picture", "visual"]
  const QuoteWords: seq<string> := ["quote", "testimonial", "saying"]
  const TitleWords: seq<string> := ["title", "header", "section"]
  const GalleryWords: seq<string> := ["gallery", "multiple", "several"]

  /** `any(word in text for word in words)` */
  predicate Mentions(text: string, words: seq<string>) {
    exists i :: 0 <= i < |words| && Contains(text, words[i])
  }

  /** The content type detected in the lower-cased description: image, then
      quote, then title, then gallery words are looked for, else text. */
  function DetectType(description: string): (t: string)
    ensures var low := Lower(description);
      (t == "image" <==> Mentions(low, ImageWords)) &&
      (t == "quote" <==> !Mentions(low, ImageWords) && Mentions(low, QuoteWords)) &&
      (t == "title" <==> !Mentions(low, ImageWords) && !Mentions(low, QuoteWords) && Mentions(low, TitleWords)) &&
      (t == "gallery" <==> !Mentions(low, ImageWords) && !Mentions(low, QuoteWords) &&
                            !Mentions(low, TitleWords) && Mentions(low, GalleryWords)) &&
      (t == "text" <==> !Mentions(low, ImageWords) && !Mentions(low, QuoteWords) &&
                         !Mentions(low, TitleWords) && !Mentions(low, GalleryWords))
  {
    var low := Lower(description);
    if Mentions(low, ImageWords) then "image"
    else if Mentions(low, QuoteWords) then "quote"
    else if Mentions(low, TitleWords) then "title"
    else if Mentions(low, GalleryWords) then "gallery"
    else "text"
  }

  /** Image words win over every other kind, whatever the case. */
  lemma ImageWordsWin()
    ensures DetectType("PHOTO quote") == "image"
  {
    var text := "PHOTO quote";
    assert text == ['P', 'H', 'O', 'T', 'O', ' ', 'q', 'u', 'o', 't', 'e'];
    var low := Lower(text);
    assert low[..5] == [LowerChar('P'), LowerChar('H'), LowerChar('O'), LowerChar('T'), LowerChar('O')];
    assert low[..5] == ImageWords[1];
    assert OccursAt(low, ImageWords[1], 0);
  }

  /** The tip by position: opening up to slide 2, closing from slide 8. */
  function TipFor(position: int): (t: PositionTip)
    ensures t == OpeningTips <==> position <= 2
    ensures t == ClosingTips <==> position >= 8
    ensures t == ContentTips <==> 2 < position < 8
  {
    if position <= 2 then OpeningTips else if position >= 8 then ClosingTips else ContentTips
  }

  /** `get_layout_recommendations_for_position(slide_position,
      content_description)`: the detected type is what the smart-layout
      tool is asked about; when that call raises, no advice is given and
      the handler reports the failure. */
  function LayoutRecommendationsForPosition(h: Helpers, position: int, description: string): (o: Outcome)
    ensures o.PositionAdvice? <==> h.suggest(DetectType(description), description).Ok?
    ensures o.PositionAdvice? ==>
              o.slide == position && o.description == description &&
              o.detected == DetectType(description) && o.tip == TipFor(position) &&
              Ok(o.suggestion) == h.suggest(o.detected, description)
    ensures o.Failed? <==> h.suggest(DetectType(description), description).Err?
    ensures o.Failed? ==> o.message == h.suggest(DetectType(description), description).exc.message
  {
    var t := DetectType(description);
    match h.suggest(t, description)
    case Ok(text) => PositionAdvice(position, description, t, text, TipFor(position))
    case Err(e) => Failed(e.message)
  }

  // ---------------------------------------------------------------------
  // The session
  // ---------------------------------------------------------------------

  /** `session_state`: the two planning flags, the count of slides made
      since the last check, and the title planned. The check timestamp is
      not modelled. */
  class Session {
    var hasSeenLayouts: bool
    var hasPlannedVariety: bool
    var slidesWithoutCheck: nat
    var presentationName: Option<string>

    /** The flags go together, a title is known exactly when planning was
        done, and the counter never passes the limit of three. */
    predicate Valid()
      reads this
    {
      hasSeenLayouts == hasPlannedVariety &&
      (presentationName.Some? <==> hasSeenLayouts) &&
      slidesWithoutCheck <= 3
    }

    constructor()
      ensures Valid()
      ensures !hasSeenLayouts && !hasPlannedVariety && slidesWithoutCheck == 0 && presentationName == None
    {
      hasSeenLayouts := false;
      hasPlannedVariety := false;
      slidesWithoutCheck := 0;
      presentationName := None;
    }

    /** `start_presentation_planning(presentation_title, presentation_length,
        presentation_type)`: the state is reset before anything else. */
    method StartPlanning(h: Helpers, title: string, length: int, kind: string) returns (o: Outcome)
      modifies this
      ensures Valid()
      ensures hasSeenLayouts && hasPlannedVariety && slidesWithoutCheck == 0 && presentationName == Some(title)
      ensures o == PlanningStarted(title, length, kind, FlowOf(kind), LayoutGuidance.BucketOf(length), Ready(h.layouts))
    {
      hasSeenLayouts := true;
      hasPlannedVariety := true;
      slidesWithoutCheck := 0;
      presentationName := Some(title);
      o := PlanningStarted(title, length, kind, FlowOf(kind), LayoutGuidance.BucketOf(length), Ready(h.layouts));
    }

    /** `create_guided_slide(slide_number, content_type, content_description,
        preferred_layout, force_create)`: the planning gate (which
        `force_create` opens), then the counter gate (which it does not),
        then the layout choice and the slide; the counter moves only when
        the slide was added. */
    method CreateGuidedSlide(h: Helpers, slide: int, contentType: string, description: string,
                             preferred: string, force: bool) returns (o: Outcome)
      requires Valid()
      modifies this
      ensures Valid()
      ensures hasSeenLayouts == old(hasSeenLayouts) && hasPlannedVariety == old(hasPlannedVariety)
      ensures presentationName == old(presentationName)
      ensures !old(hasSeenLayouts) && !force ==> o == PlanningRequired && slidesWithoutCheck == old(slidesWithoutCheck)
      ensures (old(hasSeenLayouts) || force) && old(slidesWithoutCheck) >= 3 ==>
        o == VarietyCheckRequired && slidesWithoutCheck == old(slidesWithoutCheck)
      ensures (old(hasSeenLayouts) || force) && old(slidesWithoutCheck) < 3 ==>
        var layout := ChosenLayout(preferred, contentType, h.suggest(contentType, description));
        var added := h.addSlide(PositionOf(slide), layout);
        (added.Err? ==> o == Failed(added.exc.message) && slidesWithoutCheck == old(slidesWithoutCheck)) &&
        (added.Ok? ==>
          slidesWithoutCheck == old(slidesWithoutCheck) + 1 &&
          o == SlideCreated(added.value, layout, slide, ZenLevelOf(description), slidesWithoutCheck >= 2, slide % 3 == 0))
    {
      if !hasSeenLayouts && !force {
        return PlanningRequired;
      }
      if slidesWithoutCheck >= 3 {
        return VarietyCheckRequired;
      }
      var layout := ChosenLayout(preferred, contentType, h.suggest(contentType, description));
      var added := h.addSlide(PositionOf(slide), layout);
      match added
      case Err(e) =>
        o := Failed(e.message);
      case Ok(text) =>
        slidesWithoutCheck := slidesWithoutCheck + 1;
        o := SlideCreated(text, layout, slide, ZenLevelOf(description), slidesWithoutCheck >= 2, slide % 3 == 0);
    }

    /** `check_presentation_progress(doc_name)`: the counter is reset first;
        the report embeds the usage of the last five slides. */
    method CheckProgress(h: Helpers, docName: string) returns (o: Outcome)
      requires Valid()
      modifies this
      ensures Valid()
      ensures slidesWithoutCheck == 0
      ensures hasSeenLayouts == old(hasSeenLayouts) && hasPlannedVariety == old(hasPlannedVariety)
      ensures presentationName == old(presentationName)
      ensures o == Progress(h.recentUsage(5, docName))
    {
      slidesWithoutCheck := 0;
      o := Progress(h.recentUsage(5, docName));
    }
  }
}
