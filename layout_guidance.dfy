/** The layout-guidance tools (src/tools/layout_guidance.py): the detailed
    layout list, contextual suggestions numbered by their place in the
    answer, the recent-usage repetition verdict and the variety guide. */
module LayoutGuidance {
  import opened Base
  import opened PyText
  import opened Keynote

  const ScriptFile := "layout_guidance.applescript"

  /** One numbered suggestion: its place in the answer (from 1) and its text. */
  type Suggestion = (nat, string)

  /** The repetition verdict of `get_recent_layout_usage`. */
  datatype Verdict = Warning | Notice | Good

  /** The three length buckets of the variety guide. */
  datatype Bucket = Short | Medium | Long

  /** A section of the variety guide. */
  datatype Section =
    | LengthAdvice(bucket: Bucket)
    | TypeTips(kind: string)
    | GoldenRules

  /** What a layout-guidance tool reports, without its wording. */
  datatype Outcome =
    | LayoutInfo(info: string)
    | NoLayoutInfo
    | Suggestions(slidePosition: Value, contentType: Value, items: seq<Suggestion>)
    | NoSuggestions
    | Usage(lastN: Value, raw: string, names: seq<string>, verdict: Verdict)
    | NoUsage
    | VarietyGuide(length: int, kind: string, sections: seq<Section>)
    | Failed(message: string)

  // ---------------------------------------------------------------------
  // get_detailed_layout_info
  // ---------------------------------------------------------------------

  /** `get_detailed_layout_info(doc_name)`: a non-blank answer is shown as
      it came, a blank one is reported as missing. */
  function GetDetailedLayoutInfo(b: Backend, docName: Value): (r: Reply<Outcome>)
    ensures r.calls == [Function("simple_layout_info.applescript", "getSimpleLayoutInfo", [docName])]
    ensures !Succeeds(b, r.calls[0]) ==> r.outcome == Failed(b.answer(r.calls[0]).exc.message)
    ensures Succeeds(b, r.calls[0]) ==>
      var text := b.answer(r.calls[0]).value;
      (r.outcome == NoLayoutInfo <==> IsBlank(text)) &&
      (!IsBlank(text) ==> r.outcome == LayoutInfo(text))
  {
    var req := Function("simple_layout_info.applescript", "getSimpleLayoutInfo", [docName]);
    match b.answer(req)
    case Err(e) => Reply(Failed(e.message), [req])
    case Ok(text) => Reply(if IsBlank(text) then NoLayoutInfo else LayoutInfo(text), [req])
  }

  // ---------------------------------------------------------------------
  // get_contextual_layout_suggestions
  // ---------------------------------------------------------------------

  /** The suggestions `enumerate(parts, 1)` keeps: each non-blank piece,
      stripped, under its place in the whole answer. */
  function Numbered(parts: seq<string>): seq<Suggestion> {
    if parts == [] then []
    else
      var last := parts[|parts| - 1];
      Numbered(parts[..|parts| - 1]) + (if IsBlank(last) then [] else [(|parts|, Strip(last))])
  }

  /** `s` names the non-blank piece at its place, stripped. */
  predicate Labels(parts: seq<string>, s: Suggestion) {
    1 <= s.0 <= |parts| && !IsBlank(parts[s.0 - 1]) && s.1 == Strip(parts[s.0 - 1])
  }

  lemma LabelsExtend(parts: seq<string>, s: Suggestion)
    requires parts != [] && Labels(parts[..|parts| - 1], s)
    ensures Labels(parts, s) && s.0 < |parts|
  {
    assert parts[..|parts| - 1][s.0 - 1] == parts[s.0 - 1];
  }

  /** Every suggestion names a non-blank piece, stripped, at its place. */
  lemma {:induction false} NumberedSound(parts: seq<string>)
    ensures forall j :: 0 <= j < |Numbered(parts)| ==> Labels(parts, Numbered(parts)[j])
  {
    if parts != [] {
      var init := parts[..|parts| - 1];
      NumberedSound(init);
      var n, m := Numbered(parts), Numbered(init);
      forall j | 0 <= j < |n| ensures Labels(parts, n[j]) {
        if j < |m| {
          assert n[j] == m[j];
          LabelsExtend(parts, m[j]);
        }
      }
    }
  }

  /** The places increase strictly along the suggestions. */
  lemma {:induction false} NumberedIncreasing(parts: seq<string>)
    ensures forall j, k :: 0 <= j < k < |Numbered(parts)| ==> Numbered(parts)[j].0 < Numbered(parts)[k].0
  {
    if parts != [] {
      var init := parts[..|parts| - 1];
      NumberedIncreasing(init);
      NumberedSound(init);
      var n, m := Numbered(parts), Numbered(init);
      forall j | 0 <= j < |m| ensures n[j] == m[j] && n[j].0 < |parts| {
        LabelsExtend(parts, m[j]);
      }
    }
  }

  /** Every non-blank piece is suggested under its own place. */
  lemma {:induction false} NumberedComplete(parts: seq<string>, i: int)
    requires 0 <= i < |parts| && !IsBlank(parts[i])
    ensures exists j :: 0 <= j < |Numbered(parts)| && Numbered(parts)[j] == (i + 1, Strip(parts[i]))
  {
    var init := parts[..|parts| - 1];
    var n := Numbered(parts);
    if i == |parts| - 1 {
      assert n[|n| - 1] == (i + 1, Strip(parts[i]));
    } else {
      NumberedComplete(init, i);
      var j :| 0 <= j < |Numbered(init)| && Numbered(init)[j] == (i + 1, Strip(init[i]));
      assert n[j] == Numbered(init)[j];
    }
  }

  /** A blank piece leaves a gap in the numbering. */
  lemma NumberingGap()
    ensures Numbered(["Title", " ", "Quote"]) == [(1, "Title"), (3, "Quote")]
  {
    var parts := ["Title", " ", "Quote"];
    assert parts[..2] == ["Title", " "] && parts[..2][..1] == ["Title"];
    assert ["Title"][..0] == [];
    assert Strip("Title") == "Title" by {
      assert !IsSpace('T') && !IsSpace('e');
    }
    assert Strip("Quote") == "Quote" by {
      assert !IsSpace('Q') && !IsSpace('e');
    }
    assert IsBlank(" ") by {
      BlankIffAllSpace(" ");
    }
    assert Numbered(["Title"]) == [(1, "Title")];
    assert Numbered(["Title", " "]) == [(1, "Title")];
  }

  /** The loop of the handler: walk the pieces, keep the non-blank ones. */
  method NumberSuggestions(parts: seq<string>) returns (items: seq<Suggestion>)
    ensures items == Numbered(parts)
  {
    items := [];
    var i := 0;
    while i < |parts|
      invariant 0 <= i <= |parts|
      invariant items == Numbered(parts[..i])
    {
      assert parts[..i + 1][..i] == parts[..i];
      if !IsBlank(parts[i]) {
        items := items + [(i + 1, Strip(parts[i]))];
      }
      i := i + 1;
    }
    assert parts[..i] == parts;
  }

  /** `get_contextual_layout_suggestions(slide_position, content_type,
      content_description, presentation_theme, doc_name)` */
  method GetContextualLayoutSuggestions(b: Backend, slidePosition: Value, contentType: Value,
                                        description: Value, theme: Value, docName: Value)
    returns (r: Reply<Outcome>)
    ensures r.calls == [Function(ScriptFile, "getContextualLayoutSuggestions",
                                 [docName, slidePosition, contentType, description, theme])]
    ensures !Succeeds(b, r.calls[0]) ==> r.outcome == Failed(b.answer(r.calls[0]).exc.message)
    ensures Succeeds(b, r.calls[0]) ==>
      var text := b.answer(r.calls[0]).value;
      (r.outcome == NoSuggestions <==> IsBlank(text)) &&
      (!IsBlank(text) ==> r.outcome == Suggestions(slidePosition, contentType, Numbered(Split(text, "|"))))
  {
    var req := Function(ScriptFile, "getContextualLayoutSuggestions",
                        [docName, slidePosition, contentType, description, theme]);
    match b.answer(req)
    case Err(e) =>
      r := Reply(Failed(e.message), [req]);
    case Ok(text) =>
      if IsBlank(text) {
        r := Reply(NoSuggestions, [req]);
      } else {
        var items := NumberSuggestions(Split(text, "|"));
        r := Reply(Suggestions(slidePosition, contentType, items), [req]);
      }
  }

  // ---------------------------------------------------------------------
  // get_recent_layout_usage
  // ---------------------------------------------------------------------

  /** `line.split(':')[1].strip()` for a line holding a colon. */
  function NameOf(line: string): string
    requires Contains(line, ":")
  {
    SplitContaining(line, ":");
    Strip(Split(line, ":")[1])
  }

  /** The name is the stripped text between the first and the second colon. */
  lemma NameBetweenColons(a: string, name: string, rest: string)
    requires ':' !in a && ':' !in name
    ensures Contains(a + ":" + name + ":" + rest, ":")
    ensures NameOf(a + ":" + name + ":" + rest) == Strip(name)
  {
    var tail := name + ":" + rest;
    var line := a + ":" + tail;
    assert a + ":" + name + ":" + rest == line;
    assert OccursAt(line, ":", |a|);
    FirstAfterHead(a, ":", tail);
    assert line[..|a|] == a && line[|a| + 1..] == tail;
    FirstAfterHead(name, ":", rest);
    assert tail[..|name|] == name;
    assert Split(line, ":")[1] == Split(tail, ":")[0] == name;
  }

  /** ... or up to the end of the line when there is one colon only. */
  lemma NameAfterOnlyColon(a: string, name: string)
    requires ':' !in a && ':' !in name
    ensures Contains(a + ":" + name, ":")
    ensures NameOf(a + ":" + name) == Strip(name)
  {
    var line := a + ":" + name;
    assert OccursAt(line, ":", |a|);
    FirstAfterHead(a, ":", name);
    assert line[..|a|] == a && line[|a| + 1..] == name;
    MissingCharNotContains(name, ":", 0);
    ContainsIffFound(name, ":");
    assert Split(line, ":")[1] == Split(name, ":")[0] == name;
  }

  /** The names the handler collects: one per line holding a colon. */
  function LayoutNames(lines: seq<string>): seq<string> {
    if lines == [] then []
    else
      var last := lines[|lines| - 1];
      LayoutNames(lines[..|lines| - 1]) + (if Contains(last, ":") then [NameOf(last)] else [])
  }

  /** The lines the handler draws names from. */
  function ColonLines(lines: seq<string>): nat {
    if lines == [] then 0
    else ColonLines(lines[..|lines| - 1]) + (if Contains(lines[|lines| - 1], ":") then 1 else 0)
  }

  /** One name per line holding a colon, and none from any other line. */
  lemma {:induction false} LayoutNamesCount(lines: seq<string>)
    ensures |LayoutNames(lines)| == ColonLines(lines) <= |lines|
    ensures (forall i :: 0 <= i < |lines| ==> !Contains(lines[i], ":")) ==> LayoutNames(lines) == []
  {
    if lines != [] {
      var init := lines[..|lines| - 1];
      LayoutNamesCount(init);
      assert forall i :: 0 <= i < |init| ==> init[i] == lines[i];
    }
  }

  /** The loop of the handler: walk the lines, collect the names. */
  method CollectLayoutNames(lines: seq<string>) returns (names: seq<string>)
    ensures names == LayoutNames(lines)
  {
    names := [];
    var i := 0;
    while i < |lines|
      invariant 0 <= i <= |lines|
      invariant names == LayoutNames(lines[..i])
    {
      assert lines[..i + 1][..i] == lines[..i];
      if Contains(lines[i], ":") {
        names := names + [NameOf(lines[i])];
      }
      i := i + 1;
    }
    assert lines[..i] == lines;
  }

  /** The distinct names, `set(layout_names)`. */
  function Distinct(names: seq<string>): set<string> {
    set n | n in names
  }

  /** Warning when one name fills more than two slides, Notice when the
      distinct names are fewer than half of them, Good otherwise. The test
      `len(unique) < len(names) / 2` divides exactly, so it is written
      doubled here. */
  function VerdictOf(names: seq<string>): Verdict {
    var unique := |Distinct(names)|;
    if unique == 1 && |names| > 2 then Warning
    else if 2 * unique < |names| then Notice
    else Good
  }

  /** One distinct name exactly when the list is a repetition of one name. */
  lemma OneDistinctIffRepeated(names: seq<string>)
    ensures |Distinct(names)| == 1 <==> names != [] && forall i :: 0 <= i < |names| ==> names[i] == names[0]
  {
    var d := Distinct(names);
    if names != [] && forall i :: 0 <= i < |names| ==> names[i] == names[0] {
      assert d == {names[0]};
    }
    if |d| == 1 {
      assert names[0] in d;
      var others := d - {names[0]};
      assert |others| == 0;
      forall i | 0 <= i < |names| ensures names[i] == names[0] {
        assert names[i] in d && names[i] !in others;
      }
    }
  }

  /** There are never more distinct names than names. */
  lemma {:induction false} DistinctBound(names: seq<string>)
    ensures |Distinct(names)| <= |names|
    ensures (forall i, j :: 0 <= i < j < |names| ==> names[i] != names[j]) ==> |Distinct(names)| == |names|
  {
    if names != [] {
      var init := names[..|names| - 1];
      var last := names[|names| - 1];
      DistinctBound(init);
      assert names == init + [last];
      assert Distinct(names) == Distinct(init) + {last};
      if forall i, j :: 0 <= i < j < |names| ==> names[i] != names[j] {
        assert forall i, j :: 0 <= i < j < |init| ==> init[i] != init[j];
        assert last !in Distinct(init);
      }
    }
  }

  /** The verdict: a run of one name over three or more slides warns, no
      names at all and all-different names are good, and a Notice means
      some name repeats. */
  lemma VerdictCases(names: seq<string>)
    ensures VerdictOf(names) == Warning <==>
      |names| > 2 && forall i :: 0 <= i < |names| ==> names[i] == names[0]
    ensures names == [] ==> VerdictOf(names) == Good
    ensures (forall i, j :: 0 <= i < j < |names| ==> names[i] != names[j]) ==> VerdictOf(names) == Good
    ensures VerdictOf(names) == Notice ==> |Distinct(names)| < |names|
  {
    OneDistinctIffRepeated(names);
    DistinctBound(names);
    if names == [] {
      assert Distinct(names) == {};
    }
  }

  /** `get_recent_layout_usage(last_n_slides, doc_name)`: the answer is
      shown, and the names after the first colon of each line decide the
      verdict. */
  method GetRecentLayoutUsage(b: Backend, lastN: Value, docName: Value) returns (r: Reply<Outcome>)
    ensures r.calls == [Function("simple_recent_layouts.applescript", "getSimpleRecentLayouts", [docName, lastN])]
    ensures !Succeeds(b, r.calls[0]) ==> r.outcome == Failed(b.answer(r.calls[0]).exc.message)
    ensures Succeeds(b, r.calls[0]) ==>
      var text := b.answer(r.calls[0]).value;
      (r.outcome == NoUsage <==> IsBlank(text)) &&
      (!IsBlank(text) ==>
        var names := LayoutNames(Split(text, "\n"));
        r.outcome == Usage(lastN, text, names, VerdictOf(names)))
  {
    var req := Function("simple_recent_layouts.applescript", "getSimpleRecentLayouts", [docName, lastN]);
    match b.answer(req)
    case Err(e) =>
      r := Reply(Failed(e.message), [req]);
    case Ok(text) =>
      if IsBlank(text) {
        r := Reply(NoUsage, [req]);
      } else {
        var names := CollectLayoutNames(Split(text, "\n"));
        r := Reply(Usage(lastN, text, names, VerdictOf(names)), [req]);
      }
  }

  // ---------------------------------------------------------------------
  // get_layout_variety_suggestions
  // ---------------------------------------------------------------------

  function BucketOf(length: int): (k: Bucket)
    ensures k == Short <==> length <= 5
    ensures k == Medium <==> 5 < length <= 10
    ensures k == Long <==> length > 10
  {
    if length <= 5 then Short else if length <= 10 then Medium else Long
  }

  const TipKinds: set<string> := {"business", "educational", "creative"}

  /** `get_layout_variety_suggestions(presentation_length, presentation_type)`:
      one length section, the tips of the type when it has any, and the
      golden rules last. */
  function GetLayoutVarietySuggestions(length: int, kind: string): (o: Outcome)
    ensures o.VarietyGuide? && o.length == length && o.kind == kind
    ensures |o.sections| == (if kind in TipKinds then 3 else 2)
    ensures o.sections[0] == LengthAdvice(BucketOf(length))
    ensures o.sections[|o.sections| - 1] == GoldenRules
    ensures forall i :: 0 < i < |o.sections| - 1 ==> o.sections[i] == TypeTips(kind)
    ensures forall i :: 0 <= i < |o.sections| ==> (o.sections[i].LengthAdvice? <==> i == 0)
  {
    VarietyGuide(length, kind,
      [LengthAdvice(BucketOf(length))] + (if kind in TipKinds then [TypeTips(kind)] else []) + [GoldenRules])
  }
}
