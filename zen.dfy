/** The presentation-zen heuristics (src/tools/zen_validation.py): a score
    that loses points for wordy slides, its grade, the story beats of a
    presentation length, the text-overload and simplicity checks, and the
    kanso suggestions. Every analysis reads the slides as a list of (slide
    number, text) pairs, in the order the fetch returned them. */
module Zen {
  import opened Base
  import opened PyText
  import opened Keynote

  /** A slide as the analyses see it: its number and its text. */
  type Slide = (int, string)

  /** The text the fallback reports when the slide texts cannot be read. */
  const MockSlides: seq<Slide> := [
    (1, "Welcome to our quarterly review meeting presentation"),
    (2, "Our key objectives for this quarter include increasing sales by 15%, improving customer satisfaction scores, and launching two new product lines"),
    (3, "Sales Performance Dashboard showing multiple metrics and charts"),
    (4, "Customer Feedback Analysis with detailed bullet points and statistics"),
    (5, "Next Steps and Action Items for the upcoming quarter")
  ]

  /** The slide numbers of `d` are pairwise distinct, as a dict's keys are. */
  predicate DistinctKeys(d: seq<Slide>) {
    forall i, j :: 0 <= i < j < |d| ==> d[i].0 != d[j].0
  }

  /** `d[k] = v` on a dict kept in insertion order: an existing key keeps
      its place and takes the new text, a new key goes last. */
  function Assign(d: seq<Slide>, k: int, v: string): (r: seq<Slide>)
    ensures (exists i :: 0 <= i < |d| && d[i].0 == k) ==>
      |r| == |d| && forall i :: 0 <= i < |d| ==> r[i] == (if d[i].0 == k then (k, v) else d[i])
    ensures (forall i :: 0 <= i < |d| ==> d[i].0 != k) ==> r == d + [(k, v)]
    ensures DistinctKeys(d) ==> DistinctKeys(r)
  {
    if exists i :: 0 <= i < |d| && d[i].0 == k then
      seq(|d|, i requires 0 <= i < |d| => if d[i].0 == k then (k, v) else d[i])
    else d + [(k, v)]
  }

  /** The dict the records build, one assignment per record in order. */
  function SlideDict(records: seq<Slide>): (d: seq<Slide>)
    ensures DistinctKeys(d)
  {
    if records == [] then []
    else
      var last := records[|records| - 1];
      Assign(SlideDict(records[..|records| - 1]), last.0, last.1)
  }

  /** Every entry of the dict is one of the records ... */
  lemma {:induction false} SlideDictSound(records: seq<Slide>)
    ensures forall p :: p in SlideDict(records) ==> p in records
  {
    if records != [] {
      var init := records[..|records| - 1];
      var last := records[|records| - 1];
      SlideDictSound(init);
      var d := SlideDict(init);
      forall p | p in SlideDict(records) ensures p in records {
        var i :| 0 <= i < |SlideDict(records)| && SlideDict(records)[i] == p;
        if p != last {
          assert p in d;
          assert p in init;
          assert init <= records;
        }
      }
    }
  }

  /** ... and a record that no later record with its number overrides is
      in the dict: a repeated number keeps the last text. */
  lemma {:induction false} SlideDictLast(records: seq<Slide>, j: int)
    requires 0 <= j < |records|
    requires forall l :: j < l < |records| ==> records[l].0 != records[j].0
    ensures records[j] in SlideDict(records)
  {
    var init := records[..|records| - 1];
    var last := records[|records| - 1];
    var d := SlideDict(init);
    var r := SlideDict(records);
    if j == |records| - 1 {
      if exists i :: 0 <= i < |d| && d[i].0 == last.0 {
        var i :| 0 <= i < |d| && d[i].0 == last.0;
        assert r[i] == last;
      } else {
        assert r[|d|] == last;
      }
    } else {
      SlideDictLast(init, j);
      assert init[j] == records[j];
      var i :| 0 <= i < |d| && d[i] == records[j];
      if exists m :: 0 <= m < |d| && d[m].0 == last.0 {
        assert r[i] == d[i];
      } else {
        assert r[i] == d[i];
      }
    }
  }

  /** Two records for slide 1 and one for slide 2 make two slides: slide 1
      keeps its first place and takes its last text. */
  lemma RepeatedNumberCollapses()
    ensures SlideDict([(1, "a"), (2, "b"), (1, "c")]) == [(1, "c"), (2, "b")]
  {
    var rs := [(1, "a"), (2, "b"), (1, "c")];
    assert rs[..2] == [(1, "a"), (2, "b")] && rs[..2][..1] == [(1, "a")];
    assert [(1, "a")][..0] == [];
    assert SlideDict([(1, "a")]) == [(1, "a")];
    assert SlideDict(rs[..2]) == [(1, "a"), (2, "b")];
    assert [(1, "a"), (2, "b")][0].0 == 1;
  }

  /** The loop of `_get_slide_content` that fills `slide_content`. */
  method BuildSlideDict(records: seq<Slide>) returns (d: seq<Slide>)
    ensures d == SlideDict(records)
  {
    d := [];
    var i := 0;
    while i < |records|
      invariant 0 <= i <= |records|
      invariant d == SlideDict(records[..i])
    {
      assert records[..i + 1][..i] == records[..i];
      d := Assign(d, records[i].0, records[i].1);
      i := i + 1;
    }
    assert records[..i] == records;
  }

  /** `_get_slide_content(doc_name, slide_range)`: the answer of the script
      routine, read into records by `parse` (standing for the JSON reading
      with `slideNumber` defaulting to 0 and `textContent` to "", `None`
      when it raises) and gathered into the dict keyed by slide number; or
      the fallback slides when the call fails, the answer is empty or
      mentions "error". The slide range is not used. */
  function SlideContent(b: Backend, docName: string, parse: string -> Option<seq<Slide>>): (r: (seq<Slide>, Request))
    ensures r.1 == Function("zen_analysis.applescript", "getSlideTextContent", [VStr(docName)])
    ensures var a := b.answer(r.1);
      a.Err? || a.value == "" || Contains(a.value, "error") || parse(a.value).None? ==> r.0 == MockSlides
    ensures var a := b.answer(r.1);
      a.Ok? && a.value != "" && !Contains(a.value, "error") && parse(a.value).Some? ==>
        r.0 == SlideDict(parse(a.value).value)
    ensures DistinctKeys(r.0)
  {
    var req := Function("zen_analysis.applescript", "getSlideTextContent", [VStr(docName)]);
    match b.answer(req)
    case Ok(text) =>
      if text != "" && !Contains(text, "error") then
        match parse(text)
        case Some(records) => (SlideDict(records), req)
        case None => (MockSlides, req)
      else (MockSlides, req)
    case Err(_) => (MockSlides, req)
  }

  // ---------------------------------------------------------------------
  // _calculate_zen_score and _get_improvement_recommendations
  // ---------------------------------------------------------------------

  /** Points one slide costs: 15 above twenty words, 10 above fifteen. */
  function PenaltyOf(words: nat): nat {
    if words > 20 then 15 else if words > 15 then 10 else 0
  }

  /** Points all the slides cost. */
  function Penalty(slides: seq<Slide>): nat {
    if slides == [] then 0
    else Penalty(slides[..|slides| - 1]) + PenaltyOf(WordCount(slides[|slides| - 1].1))
  }

  /** How many slides have more than `t` words. */
  function Over(slides: seq<Slide>, t: nat): nat {
    if slides == [] then 0
    else Over(slides[..|slides| - 1], t) + (if WordCount(slides[|slides| - 1].1) > t then 1 else 0)
  }

  /** The score `max(0, 100 - penalty)`. */
  function ScoreOf(slides: seq<Slide>): (s: int)
    ensures 0 <= s <= 100
  {
    var raw := 100 - Penalty(slides);
    if raw < 0 then 0 else raw
  }

  /** The penalty is 15 per slide above twenty words plus 10 per slide of
      sixteen to twenty words. */
  lemma {:induction false} PenaltyCounts(slides: seq<Slide>)
    ensures Over(slides, 20) <= Over(slides, 15)
    ensures Penalty(slides) == 15 * Over(slides, 20) + 10 * (Over(slides, 15) - Over(slides, 20))
  {
    if slides != [] {
      PenaltyCounts(slides[..|slides| - 1]);
    }
  }

  /** A full score exactly when no slide has more than fifteen words. */
  lemma {:induction false} PerfectScore(slides: seq<Slide>)
    ensures ScoreOf(slides) == 100 <==> forall i :: 0 <= i < |slides| ==> WordCount(slides[i].1) <= 15
  {
    if slides != [] {
      var init := slides[..|slides| - 1];
      PerfectScore(init);
      assert forall i :: 0 <= i < |init| ==> init[i] == slides[i];
    }
  }

  /** One more slide never raises the score. */
  lemma AddingSlideNeverRaises(slides: seq<Slide>, s: Slide)
    ensures ScoreOf(slides + [s]) <= ScoreOf(slides)
  {
    assert (slides + [s])[..|slides|] == slides;
  }

  /** The loop of `_calculate_zen_score`: the running score may go below
      zero and is clamped at the end. */
  method CalculateZenScore(slides: seq<Slide>) returns (score: int)
    ensures score == ScoreOf(slides)
  {
    var running := 100;
    var i := 0;
    while i < |slides|
      invariant 0 <= i <= |slides|
      invariant running == 100 - Penalty(slides[..i])
    {
      assert slides[..i + 1][..i] == slides[..i];
      running := running - PenaltyOf(WordCount(slides[i].1));
      i := i + 1;
    }
    assert slides[..i] == slides;
    score := if running < 0 then 0 else running;
  }

  /** The four verdicts on a score. */
  datatype Grade = Excellent | GoodWork | NeedsImprovement | MajorRevision

  function GradeOf(score: int): (g: Grade)
    ensures g == Excellent <==> score >= 90
    ensures g == GoodWork <==> 70 <= score < 90
    ensures g == NeedsImprovement <==> 50 <= score < 70
    ensures g == MajorRevision <==> score < 50
  {
    if score >= 90 then Excellent
    else if score >= 70 then GoodWork
    else if score >= 50 then NeedsImprovement
    else MajorRevision
  }

  /** One slide above twenty words still grades as good work; two such
      slides are never excellent, and three such slides, or four above
      fifteen words, are below good work. */
  lemma GradeOfPenalties(slides: seq<Slide>)
    ensures Over(slides, 20) == 1 && Over(slides, 15) == 1 ==> GradeOf(ScoreOf(slides)) == GoodWork
    ensures Over(slides, 20) >= 2 ==> GradeOf(ScoreOf(slides)) != Excellent
    ensures Over(slides, 20) >= 3 ==> GradeOf(ScoreOf(slides)).NeedsImprovement? || GradeOf(ScoreOf(slides)).MajorRevision?
    ensures Over(slides, 15) >= 4 ==> GradeOf(ScoreOf(slides)).NeedsImprovement? || GradeOf(ScoreOf(slides)).MajorRevision?
  {
    PenaltyCounts(slides);
  }

  // ---------------------------------------------------------------------
  // _calculate_story_beats and _get_emotional_goal_guidance
  // ---------------------------------------------------------------------

  datatype Beats = Beats(hookEnd: int, developmentStart: int, developmentEnd: int,
                         climax: int, resolutionStart: int, resolutionEnd: int)

  function Max(a: int, b: int): int { if a >= b then a else b }

  /** Python's `//` on a positive divisor rounds down, as Dafny's `/` does. */
  function StoryBeats(n: int): (s: Beats)
    ensures s.resolutionEnd == n
    ensures s.hookEnd >= 1 && s.developmentEnd >= 3
  {
    Beats(Max(1, n / 5), Max(2, n / 5 + 1), Max(3, n * 3 / 4), Max(4, n * 3 / 4 + 1), Max(5, n * 4 / 5), n)
  }

  /** Development starts right after the hook, and the climax right after
      the development, for every length. */
  lemma BeatsAdjacent(n: int)
    ensures StoryBeats(n).developmentStart == StoryBeats(n).hookEnd + 1
    ensures StoryBeats(n).climax == StoryBeats(n).developmentEnd + 1
  {
  }

  /** From five slides on, the beats run in order inside the presentation. */
  lemma BeatsInOrder(n: int)
    requires n >= 5
    ensures var s := StoryBeats(n);
      1 <= s.hookEnd < s.developmentStart <= s.developmentEnd < s.climax <= n &&
      s.resolutionStart <= s.resolutionEnd
  {
    var q, t, f := n / 5, n * 3 / 4, n * 4 / 5;
    assert 5 * q <= n < 5 * q + 5;
    assert 4 * t <= 3 * n < 4 * t + 4;
    assert 5 * f <= 4 * n < 5 * f + 5;
  }

  /** At twelve slides the resolution starts before the climax. */
  lemma BeatsOverlapAtTwelve()
    ensures StoryBeats(12).climax == 10 && StoryBeats(12).resolutionStart == 9
  {
  }

  datatype Focus = Inspiration | Persuasion | Education | Entertainment | Motivation | GeneralFocus

  const Goals: map<string, Focus> := map[
    "inspire" := Inspiration, "convince" := Persuasion, "educate" := Education,
    "entertain" := Entertainment, "motivate" := Motivation]

  /** `guidance.get(emotional_goal, general)` */
  function GoalGuidance(goal: string): (f: Focus)
    ensures f == GeneralFocus <==> goal !in Goals
    ensures goal in Goals ==> f == Goals[goal]
  {
    if goal in Goals then Goals[goal] else GeneralFocus
  }

  /** `suggest_story_structure(topic, audience, length, goal)` without its
      wording: the beats of the length and the focus of the goal. */
  datatype Story = Story(topic: string, audience: string, length: int, beats: Beats, focus: Focus)

  function SuggestStoryStructure(topic: string, audience: string, length: int, goal: string): (s: Story)
    ensures s.beats.resolutionEnd == length && s.length == length
    ensures s.focus == GoalGuidance(goal) && s.topic == topic && s.audience == audience
  {
    Story(topic, audience, length, StoryBeats(length), GoalGuidance(goal))
  }

  // ---------------------------------------------------------------------
  // detect_text_overload
  // ---------------------------------------------------------------------

  /** `content[:100] + "..." if len(content) > 100 else content` */
  function Preview(content: string): (p: string)
    ensures |content| <= 100 ==> p == content
    ensures |content| > 100 ==> |p| == 103 && p[..100] == content[..100] && p[100..] == "..."
  {
    if |content| > 100 then content[..100] + "..." else content
  }

  datatype Overload = Overload(slide: int, words: nat, preview: string)

  function OverloadOf(s: Slide): Overload {
    Overload(s.0, WordCount(s.1), Preview(s.1))
  }

  /** The slides above the threshold, in order. */
  function Overloaded(slides: seq<Slide>, threshold: int): seq<Overload> {
    if slides == [] then []
    else
      var last := slides[|slides| - 1];
      Overloaded(slides[..|slides| - 1], threshold) + (if WordCount(last.1) > threshold then [OverloadOf(last)] else [])
  }

  /** Exactly the slides with more words than the threshold are listed. */
  lemma {:induction false} OverloadedExactly(slides: seq<Slide>, threshold: int)
    ensures forall e :: e in Overloaded(slides, threshold) <==>
      exists i :: 0 <= i < |slides| && WordCount(slides[i].1) > threshold && e == OverloadOf(slides[i])
  {
    if slides != [] {
      var init := slides[..|slides| - 1];
      OverloadedExactly(init, threshold);
      assert forall i :: 0 <= i < |init| ==> init[i] == slides[i];
      var last := slides[|slides| - 1];
      forall e | e in Overloaded(slides, threshold)
        ensures exists i :: 0 <= i < |slides| && WordCount(slides[i].1) > threshold && e == OverloadOf(slides[i])
      {
        if e !in Overloaded(init, threshold) {
          assert WordCount(last.1) > threshold && e == OverloadOf(slides[|slides| - 1]);
        }
      }
    }
  }

  /** The loop of `detect_text_overload`. */
  method FindOverloaded(slides: seq<Slide>, threshold: int) returns (found: seq<Overload>)
    ensures found == Overloaded(slides, threshold)
  {
    found := [];
    var i := 0;
    while i < |slides|
      invariant 0 <= i <= |slides|
      invariant found == Overloaded(slides[..i], threshold)
    {
      assert slides[..i + 1][..i] == slides[..i];
      if WordCount(slides[i].1) > threshold {
        found := found + [OverloadOf(slides[i])];
      }
      i := i + 1;
    }
    assert slides[..i] == slides;
  }

  datatype OverloadReport =
    | NoOverload(threshold: int)
    | TooWordy(threshold: int, slides: seq<Overload>, alternatives: bool)

  /** `detect_text_overload(doc_name, word_threshold, provide_alternatives)`
      over the slides read. */
  method DetectTextOverload(slides: seq<Slide>, threshold: int, alternatives: bool) returns (r: OverloadReport)
    ensures r.NoOverload? <==> Overloaded(slides, threshold) == []
    ensures r.TooWordy? ==> r.slides == Overloaded(slides, threshold) && r.alternatives == alternatives
    ensures r.threshold == threshold
  {
    var found := FindOverloaded(slides, threshold);
    if found == [] {
      r := NoOverload(threshold);
    } else {
      r := TooWordy(threshold, found, alternatives);
    }
  }

  // ---------------------------------------------------------------------
  // _validate_text_simplicity
  // ---------------------------------------------------------------------

  datatype Reason = ManyWords(words: nat) | ManySentences(sentences: nat) | ManyBullets

  datatype Complex = Complex(slide: int, reasons: seq<Reason>, words: nat)

  /** `len([s for s in content.split('.') if s.strip()])` */
  function SentenceCount(content: string): nat {
    NonBlankCount(Split(content, "."))
  }

  /** The reasons for a slide of `w` words, `s` sentences and `b` bullets,
      in the order they are checked. */
  function ReasonsFor(w: nat, s: nat, b: nat): seq<Reason> {
    (if w > 20 then [ManyWords(w)] else []) +
    (if s > 3 then [ManySentences(s)] else []) +
    (if b > 5 then [ManyBullets] else [])
  }

  /** The reasons a slide is complex. */
  function ReasonsOf(content: string): seq<Reason> {
    ReasonsFor(WordCount(content), SentenceCount(content), Count(content, '•'))
  }

  lemma ReasonsForCases(w: nat, s: nat, b: nat)
    ensures |ReasonsFor(w, s, b)| <= 3
    ensures ManyWords(w) in ReasonsFor(w, s, b) <==> w > 20
    ensures ManySentences(s) in ReasonsFor(w, s, b) <==> s > 3
    ensures ManyBullets in ReasonsFor(w, s, b) <==> b > 5
    ensures ReasonsFor(w, s, b) == [] <==> w <= 20 && s <= 3 && b <= 5
  {
  }

  /** A slide is complex exactly when it has more than twenty words, more
      than three non-blank sentences or more than five bullets, and each
      reason is given exactly when its test holds. */
  lemma ReasonsOfCases(content: string)
    ensures |ReasonsOf(content)| <= 3
    ensures ManyWords(WordCount(content)) in ReasonsOf(content) <==> WordCount(content) > 20
    ensures ManySentences(SentenceCount(content)) in ReasonsOf(content) <==> SentenceCount(content) > 3
    ensures ManyBullets in ReasonsOf(content) <==> Count(content, '•') > 5
    ensures ReasonsOf(content) == [] <==>
      WordCount(content) <= 20 && SentenceCount(content) <= 3 && Count(content, '•') <= 5
  {
    ReasonsForCases(WordCount(content), SentenceCount(content), Count(content, '•'));
  }

  /** The complex slides, in order. */
  function ComplexSlides(slides: seq<Slide>): seq<Complex> {
    if slides == [] then []
    else
      var last := slides[|slides| - 1];
      var rs := ReasonsOf(last.1);
      ComplexSlides(slides[..|slides| - 1]) + (if rs != [] then [Complex(last.0, rs, WordCount(last.1))] else [])
  }

  function ComplexOf(s: Slide): Complex {
    Complex(s.0, ReasonsOf(s.1), WordCount(s.1))
  }

  /** `c` is the verdict on one of the slides, with a reason in it. */
  predicate FromSlides(slides: seq<Slide>, c: Complex) {
    c.reasons != [] && exists i :: 0 <= i < |slides| && c == ComplexOf(slides[i])
  }

  lemma FromPrefix(slides: seq<Slide>, c: Complex)
    requires slides != [] && FromSlides(slides[..|slides| - 1], c)
    ensures FromSlides(slides, c)
  {
    var init := slides[..|slides| - 1];
    var i :| 0 <= i < |init| && c == ComplexOf(init[i]);
    assert init[i] == slides[i];
    assert 0 <= i < |slides| && c == ComplexOf(slides[i]);
  }

  /** Every listed slide has a reason and comes from the input ... */
  lemma {:induction false} ComplexSlidesSound(slides: seq<Slide>)
    ensures forall j :: 0 <= j < |ComplexSlides(slides)| ==> FromSlides(slides, ComplexSlides(slides)[j])
  {
    if slides != [] {
      var init := slides[..|slides| - 1];
      ComplexSlidesSound(init);
      var all, before := ComplexSlides(slides), ComplexSlides(init);
      forall j | 0 <= j < |all| ensures FromSlides(slides, all[j]) {
        if j < |before| {
          assert all[j] == before[j];
          FromPrefix(slides, before[j]);
        } else {
          assert all[j] == ComplexOf(slides[|slides| - 1]);
        }
      }
    }
  }

  /** ... and every slide with more than twenty words, more than three
      sentences or more than five bullets is listed. */
  lemma {:induction false} ComplexSlidesComplete(slides: seq<Slide>, i: int)
    requires 0 <= i < |slides| && ReasonsOf(slides[i].1) != []
    ensures ComplexOf(slides[i]) in ComplexSlides(slides)
  {
    var n := |slides| - 1;
    var init := slides[..n];
    var tail := if ReasonsOf(slides[n].1) != [] then [ComplexOf(slides[n])] else [];
    assert ComplexSlides(slides) == ComplexSlides(init) + tail;
    if i < n {
      ComplexSlidesComplete(init, i);
      assert init[i] == slides[i];
    } else {
      assert i == n;
    }
  }

  /** The checks of one slide, appending each reason that applies. */
  method CollectReasons(words: nat, sentences: nat, bullets: nat) returns (reasons: seq<Reason>)
    ensures reasons == ReasonsFor(words, sentences, bullets)
  {
    reasons := [];
    if words > 20 {
      reasons := reasons + [ManyWords(words)];
    }
    if sentences > 3 {
      reasons := reasons + [ManySentences(sentences)];
    }
    if bullets > 5 {
      reasons := reasons + [ManyBullets];
    }
  }

  /** One more slide adds its verdict when it has a reason. */
  lemma ComplexSlidesStep(slides: seq<Slide>, i: int)
    requires 0 <= i < |slides|
    ensures ComplexSlides(slides[..i + 1]) ==
      ComplexSlides(slides[..i]) + (if ReasonsOf(slides[i].1) != [] then [ComplexOf(slides[i])] else [])
  {
    assert slides[..i + 1][..i] == slides[..i];
  }

  /** The loop of `_validate_text_simplicity`. */
  method ValidateTextSimplicity(slides: seq<Slide>) returns (found: seq<Complex>)
    ensures found == ComplexSlides(slides)
  {
    found := [];
    var i := 0;
    assert slides[..0] == [];
    while i < |slides|
      invariant 0 <= i <= |slides|
      invariant found == ComplexSlides(slides[..i])
    {
      ComplexSlidesStep(slides, i);
      var content := slides[i].1;
      var words := WordCount(content);
      var reasons := CollectReasons(words, SentenceCount(content), Count(content, '•'));
      if reasons != [] {
        found := found + [Complex(slides[i].0, reasons, words)];
      }
      i := i + 1;
    }
    assert slides[..i] == slides;
  }

  // ---------------------------------------------------------------------
  // _generate_kanso_suggestions and apply_kanso_principles
  // ---------------------------------------------------------------------

  datatype Kanso = ReduceText | ReplaceBullets | EliminateSlide

  /** The suggestions for one slide, in a fixed order; `preserve_branding`
      has no effect. */
  function KansoSuggestions(content: string, level: string, preserveBranding: bool): (ks: seq<Kanso>)
    ensures |ks| <= 3
    ensures ReduceText in ks <==> WordCount(content) > 6
    ensures ReplaceBullets in ks <==> Contains(Lower(content), "bullet")
    ensures EliminateSlide in ks <==> level == "aggressive"
    ensures forall i, j :: 0 <= i < j < |ks| ==> KansoRank(ks[i]) < KansoRank(ks[j])
  {
    (if WordCount(content) > 6 then [ReduceText] else []) +
    (if Contains(Lower(content), "bullet") then [ReplaceBullets] else []) +
    (if level == "aggressive" then [EliminateSlide] else [])
  }

  function KansoRank(k: Kanso): nat {
    match k
    case ReduceText => 0
    case ReplaceBullets => 1
    case EliminateSlide => 2
  }

  /** `preserve_branding` never changes the suggestions. */
  lemma KansoIgnoresBranding(content: string, level: string)
    ensures KansoSuggestions(content, level, true) == KansoSuggestions(content, level, false)
  {
  }

  /** The slides that receive suggestions, with them, in order. */
  function KansoPlan(slides: seq<Slide>, level: string, preserveBranding: bool): seq<(int, seq<Kanso>)> {
    if slides == [] then []
    else
      var last := slides[|slides| - 1];
      var ks := KansoSuggestions(last.1, level, preserveBranding);
      KansoPlan(slides[..|slides| - 1], level, preserveBranding) + (if ks != [] then [(last.0, ks)] else [])
  }

  /** At the aggressive level every slide receives suggestions. */
  lemma {:induction false} AggressivePlansEverySlide(slides: seq<Slide>, preserveBranding: bool)
    ensures |KansoPlan(slides, "aggressive", preserveBranding)| == |slides|
  {
    if slides != [] {
      AggressivePlansEverySlide(slides[..|slides| - 1], preserveBranding);
    }
  }

  /** The loop of `apply_kanso_principles`. */
  method ApplyKansoPrinciples(slides: seq<Slide>, level: string, preserveBranding: bool)
    returns (plan: seq<(int, seq<Kanso>)>)
    ensures plan == KansoPlan(slides, level, preserveBranding)
  {
    plan := [];
    var i := 0;
    while i < |slides|
      invariant 0 <= i <= |slides|
      invariant plan == KansoPlan(slides[..i], level, preserveBranding)
    {
      assert slides[..i + 1][..i] == slides[..i];
      var ks := KansoSuggestions(slides[i].1, level, preserveBranding);
      if ks != [] {
        plan := plan + [(slides[i].0, ks)];
      }
      i := i + 1;
    }
    assert slides[..i] == slides;
  }

  // ---------------------------------------------------------------------
  // validate_zen_principles
  // ---------------------------------------------------------------------

  datatype ZenSection =
    | Simplicity(complex: seq<Complex>)
    | Density(totalWords: nat, high: bool)
    | VisualBalance
    | KansoAssessment

  datatype ZenReport =
    | ZenReport(checkType: string, sections: seq<ZenSection>, score: Option<(int, Grade)>)
    | ZenFailed(message: string)

  /** Total words over all slides. */
  function TotalWords(slides: seq<Slide>): nat {
    if slides == [] then 0 else TotalWords(slides[..|slides| - 1]) + WordCount(slides[|slides| - 1].1)
  }

  /** The sections `check_type` selects, in their fixed order. */
  function SectionNames(checkType: string): (names: seq<string>)
    ensures forall n :: n in names <==> n in {"text_simplicity", "text_density", "visual_balance", "kanso_simplicity"} &&
                                          (checkType == "full" || checkType == n)
  {
    (if checkType in {"full", "text_simplicity"} then ["text_simplicity"] else []) +
    (if checkType in {"full", "text_density"} then ["text_density"] else []) +
    (if checkType in {"full", "visual_balance"} then ["visual_balance"] else []) +
    (if checkType in {"full", "kanso_simplicity"} then ["kanso_simplicity"] else [])
  }

  /** The section a name stands for. The average-words test `total / n > 20`
      is exact division, written here without division. */
  function SectionOf(name: string, slides: seq<Slide>): ZenSection {
    if name == "text_simplicity" then Simplicity(ComplexSlides(slides))
    else if name == "text_density" then Density(TotalWords(slides), TotalWords(slides) > 20 * |slides|)
    else if name == "visual_balance" then VisualBalance
    else KansoAssessment
  }

  /** `validate_zen_principles(doc_name, check_type, slide_range)` over the
      slides read: the selected sections, and the score with its grade only
      for a full check. The density section divides by the number of
      slides, so with no slides it raises. */
  method ValidateZenPrinciples(slides: seq<Slide>, checkType: string) returns (r: ZenReport)
    ensures "text_density" in SectionNames(checkType) && slides == [] <==> r.ZenFailed?
    ensures r.ZenReport? ==>
      r.checkType == checkType &&
      |r.sections| == |SectionNames(checkType)| &&
      (forall i :: 0 <= i < |r.sections| ==> r.sections[i] == SectionOf(SectionNames(checkType)[i], slides)) &&
      (r.score.Some? <==> checkType == "full") &&
      (r.score.Some? ==> r.score.value == (ScoreOf(slides), GradeOf(ScoreOf(slides))))
  {
    var names := SectionNames(checkType);
    if "text_density" in names && slides == [] {
      return ZenFailed("division by zero");
    }
    // The source tests each section with its own `if`, in a fixed order;
    // the loop walks the selected section names in that same order.
    var sections: seq<ZenSection> := [];
    var i := 0;
    while i < |names|
      invariant 0 <= i <= |names|
      invariant |sections| == i
      invariant forall k :: 0 <= k < i ==> sections[k] == SectionOf(names[k], slides)
    {
      var s;
      if names[i] == "text_simplicity" {
        var complex := ValidateTextSimplicity(slides);
        s := Simplicity(complex);
      } else {
        s := SectionOf(names[i], slides);
      }
      sections := sections + [s];
      i := i + 1;
    }
    var score: Option<(int, Grade)> := None;
    if checkType == "full" {
      var z := CalculateZenScore(slides);
      score := Some((z, GradeOf(z)));
    }
    r := ZenReport(checkType, sections, score);
  }

  /** A check of one named section carries that section alone and no score. */
  lemma SingleSectionCheck(checkType: string)
    requires checkType in {"text_simplicity", "text_density", "visual_balance", "kanso_simplicity"}
    ensures SectionNames(checkType) == [checkType]
  {
  }
}
