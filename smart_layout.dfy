/** The smart-layout tools (src/tools/smart_layout.py): each calls one
    routine of the script file `smart_layout.applescript` through the
    runner's `run_function` and decodes the text it answers. */
module SmartLayout {
  import opened Base
  import opened PyText
  import opened Keynote

  const ScriptFile := "smart_layout.applescript"

  /** What a smart-layout tool reports, without its wording. */
  datatype Outcome =
    | Masters(names: seq<string>)
    | NoMasters
    | Suggested(contentType: Value, layout: string)
    | NoSuggestion
    | AddedDefault(number: string, notes: bool)
    | AddedSmart(number: string, layout: string, contentType: Value, notes: bool)
    | AddedGeneric(contentType: Value)
    | Recommended(contentType: Value, entries: seq<string>)
    | NoRecommendations
    | RecommendationsUnavailable
    | Failed(message: string)

  /** Call one routine of the script file and decode its answer. */
  function Call(b: Backend, routine: string, args: seq<Value>, decode: string -> Outcome): (r: Reply<Outcome>)
    ensures r.calls == [Function(ScriptFile, routine, args)]
    ensures Succeeds(b, r.calls[0]) ==> r.outcome == decode(b.answer(r.calls[0]).value)
    ensures !Succeeds(b, r.calls[0]) ==> r.outcome == Failed(b.answer(r.calls[0]).exc.message)
  {
    var req := Function(ScriptFile, routine, args);
    match b.answer(req)
    case Ok(text) => Reply(decode(text), [req])
    case Err(e) => Reply(Failed(e.message), [req])
  }

  // ---------------------------------------------------------------------
  // get_available_master_slides
  // ---------------------------------------------------------------------

  const Brackets: set<char> := {'[', ']', '"'}
  const Quote: set<char> := {'"'}
  const ItemSeparator := "\", \""

  /** A non-blank answer has brackets and quotes stripped from its ends, is
      split at `", "`, and each piece has quotes stripped from its ends. */
  function DecodeMasters(result: string): (o: Outcome)
    ensures o.NoMasters? <==> IsBlank(result)
    ensures o.Masters? || o.NoMasters?
    ensures o.Masters? ==> |o.names| == |Split(StripSet(result, Brackets), ItemSeparator)|
    ensures o.Masters? ==> forall i :: 0 <= i < |o.names| ==> o.names[i] == [] || (o.names[i][0] != '"' && o.names[i][|o.names[i]| - 1] != '"')
    ensures o.Masters? ==> o.names == StripQuotesEach(Split(StripSet(result, Brackets), ItemSeparator))
  {
    if IsBlank(result) then NoMasters
    else
      Masters(StripQuotesEach(Split(StripSet(result, Brackets), ItemSeparator)))
  }

  /** `[p.strip('"') for p in pieces]` */
  function StripQuotesEach(pieces: seq<string>): (r: seq<string>)
    ensures |r| == |pieces| && forall i :: 0 <= i < |r| ==> r[i] == StripSet(pieces[i], Quote)
  {
    seq(|pieces|, i requires 0 <= i < |pieces| => StripSet(pieces[i], Quote))
  }

  /** A master-slide name the rendering below can carry. */
  predicate PlainName(n: string) { n != [] && '"' !in n && '[' !in n && ']' !in n }

  /** Non-empty names free of quotes and brackets come back one for one from
      their rendering `["a", "b", ...]`. */
  lemma DecodeMastersRoundTrip(names: seq<string>)
    requires |names| >= 1 && forall i :: 0 <= i < |names| ==> PlainName(names[i])
    ensures DecodeMasters("[\"" + JoinWith(names, ItemSeparator) + "\"]") == Masters(names)
  {
    var result := "[\"" + JoinWith(names, ItemSeparator) + "\"]";
    MastersPieces(names);
    assert DecodeMasters(result) == Masters(StripQuotesEach(names));
    StripQuotesAll(names);
  }

  lemma StripQuotesAll(names: seq<string>)
    requires forall i :: 0 <= i < |names| ==> PlainName(names[i])
    ensures StripQuotesEach(names) == names
  {
    forall i | 0 <= i < |names| ensures StripSet(names[i], Quote) == names[i] {
      StripQuotesKeeps(names[i]);
    }
  }

  lemma StripQuotesKeeps(s: string)
    requires s != [] && '"' !in s
    ensures StripSet(s, Quote) == s
  {
    assert s[0] !in Quote && s[|s| - 1] !in Quote;
  }

  lemma MastersPieces(names: seq<string>)
    requires |names| >= 1 && forall i :: 0 <= i < |names| ==> PlainName(names[i])
    ensures !IsBlank("[\"" + JoinWith(names, ItemSeparator) + "\"]")
    ensures Split(StripSet("[\"" + JoinWith(names, ItemSeparator) + "\"]", Brackets), ItemSeparator) == names
  {
    MastersStripped(names);
    assert forall i :: 0 <= i < |names| ==> SeparatorFree(names[i], ItemSeparator);
    SplitOfJoin(names, ItemSeparator);
  }

  lemma MastersStripped(names: seq<string>)
    requires |names| >= 1 && forall i :: 0 <= i < |names| ==> PlainName(names[i])
    ensures !IsBlank("[\"" + JoinWith(names, ItemSeparator) + "\"]")
    ensures StripSet("[\"" + JoinWith(names, ItemSeparator) + "\"]", Brackets) == JoinWith(names, ItemSeparator)
  {
    var j := JoinWith(names, ItemSeparator);
    JoinBounds(names, ItemSeparator);
    var first, last := names[0], names[|names| - 1];
    assert PlainName(first) && PlainName(last);
    assert first[0] in first && last[|last| - 1] in last;
    StripSetAround(j);
    var result := "[\"" + j + "\"]";
    assert result[0] == '[' && !IsSpace(result[0]);
    BlankIffAllSpace(result);
  }

  /** A join of non-empty pieces starts with the first piece's first
      character and ends with the last piece's last character. */
  lemma {:induction false} JoinBounds(parts: seq<string>, sep: string)
    requires |parts| >= 1 && forall i :: 0 <= i < |parts| ==> parts[i] != []
    ensures var j := JoinWith(parts, sep);
      j != [] && j[0] == parts[0][0] && j[|j| - 1] == parts[|parts| - 1][|parts[|parts| - 1]| - 1]
    decreases |parts|
  {
    if |parts| > 1 {
      JoinBounds(parts[1..], sep);
      var j := JoinWith(parts, sep);
      var t := JoinWith(parts[1..], sep);
      assert j == parts[0] + sep + t;
      assert j[|j| - 1] == t[|t| - 1];
    }
  }

  lemma StripSetAround(j: string)
    requires j != [] && j[0] !in Brackets && j[|j| - 1] !in Brackets
    ensures StripSet("[\"" + j + "\"]", Brackets) == j
  {
    var s := "[\"" + j + "\"]";
    var t := j + "\"]";
    var u := j + "\"";
    assert s[1..][1..] == t;
    assert t[..|t| - 1] == u;
    assert u[..|u| - 1] == j;
    assert StripSet(s, Brackets) == StripSet(s[1..], Brackets) == StripSet(t, Brackets);
    assert t[0] == j[0];
    assert StripSet(t, Brackets) == StripSet(u, Brackets);
    assert u[0] == j[0];
    assert StripSet(u, Brackets) == StripSet(j, Brackets);
  }

  /** `get_available_master_slides(doc_name)` */
  function GetAvailableMasterSlides(b: Backend, docName: Value): (r: Reply<Outcome>)
    ensures r.calls == [Function(ScriptFile, "getAvailableMasterSlides", [docName])]
    ensures Succeeds(b, r.calls[0]) ==> r.outcome == DecodeMasters(b.answer(r.calls[0]).value)
    ensures r.outcome.Failed? <==> !Succeeds(b, r.calls[0])
  {
    Call(b, "getAvailableMasterSlides", [docName], DecodeMasters)
  }

  // ---------------------------------------------------------------------
  // suggest_layout_for_content
  // ---------------------------------------------------------------------

  function DecodeSuggestion(contentType: Value, result: string): (o: Outcome)
    ensures o.NoSuggestion? <==> IsBlank(result)
    ensures o.Suggested? || o.NoSuggestion?
    ensures o.Suggested? ==> o.layout == Strip(result) && o.layout != [] && o.contentType == contentType
  {
    if IsBlank(result) then NoSuggestion else Suggested(contentType, Strip(result))
  }

  /** A suggestion already free of surrounding white space is reported as it is. */
  lemma DecodeSuggestionKeepsStripped(contentType: Value, layout: string)
    requires layout != [] && !IsSpace(layout[0]) && !IsSpace(layout[|layout| - 1])
    ensures DecodeSuggestion(contentType, layout) == Suggested(contentType, layout)
  {
    assert LStrip(layout) == layout;
    assert RStrip(layout) == layout;
  }

  /** `suggest_layout_for_content(content_type, content_description, doc_name)` */
  function SuggestLayoutForContent(b: Backend, contentType: Value, description: Value, docName: Value): (r: Reply<Outcome>)
    ensures r.calls == [Function(ScriptFile, "suggestLayoutForContent", [docName, contentType, description])]
    ensures Succeeds(b, r.calls[0]) ==> r.outcome == DecodeSuggestion(contentType, b.answer(r.calls[0]).value)
    ensures r.outcome.Failed? <==> !Succeeds(b, r.calls[0])
  {
    Call(b, "suggestLayoutForContent", [docName, contentType, description], text => DecodeSuggestion(contentType, text))
  }

  // ---------------------------------------------------------------------
  // add_slide_with_smart_layout
  // ---------------------------------------------------------------------

  const ImageTypes: seq<Value> := [VStr("image"), VStr("photo"), VStr("gallery"), VStr("multiple_images")]

  /** Whether the report mentions presenter notes. */
  predicate WithNotes(contentType: Value, description: Value) {
    contentType in ImageTypes && Truthy(description)
  }

  /** The answer is cut at its first '|' into slide number and layout. */
  function DecodeSmartAdd(contentType: Value, description: Value, result: string): (o: Outcome)
    ensures o.AddedGeneric? <==> !Contains(result, "|")
    ensures o.AddedDefault? || o.AddedSmart? || o.AddedGeneric?
    ensures o.AddedDefault? || o.AddedSmart? ==> '|' !in o.number && o.notes == WithNotes(contentType, description)
    ensures o.AddedDefault? ==> result == o.number + "|default"
    ensures o.AddedSmart? ==> result == o.number + "|" + o.layout && o.layout != "default"
    ensures !o.AddedDefault? && !o.AddedSmart? ==> o.contentType == contentType
  {
    if result != "" && Contains(result, "|") then
      var parts := SplitOnce(result, "|");
      NoBarChar(parts[0]);
      var notes := WithNotes(contentType, description);
      if parts[1] == "default" then AddedDefault(parts[0], notes)
      else AddedSmart(parts[0], parts[1], contentType, notes)
    else AddedGeneric(contentType)
  }

  /** For a one-character pattern, not containing it means lacking the character. */
  lemma NoBarChar(s: string)
    requires !Contains(s, "|")
    ensures '|' !in s
  {
    if '|' in s {
      var k :| 0 <= k < |s| && s[k] == '|';
      assert OccursAt(s, "|", k);
    }
  }

  /** A slide number without '|' and any layout, '|' in it or not, are read
      back from `number|layout`. */
  lemma DecodeSmartAddRoundTrip(contentType: Value, description: Value, number: string, layout: string)
    requires '|' !in number && layout != "default"
    ensures DecodeSmartAdd(contentType, description, number + "|" + layout)
            == AddedSmart(number, layout, contentType, WithNotes(contentType, description))
  {
    var s := number + "|" + layout;
    assert SeparatorFree(number, "|");
    FirstAfterHead(number, "|", layout);
    assert OccursAt(s, "|", |number|);
    assert s[..|number|] == number && s[|number| + 1..] == layout;
  }

  /** `add_slide_with_smart_layout(content_type, content_description, position, doc_name)` */
  function AddSlideWithSmartLayout(b: Backend, contentType: Value, description: Value, position: Value, docName: Value): (r: Reply<Outcome>)
    ensures r.calls == [Function(ScriptFile, "addSlideWithSmartLayout", [docName, position, contentType, description])]
    ensures Succeeds(b, r.calls[0]) ==> r.outcome == DecodeSmartAdd(contentType, description, b.answer(r.calls[0]).value)
    ensures r.outcome.Failed? <==> !Succeeds(b, r.calls[0])
  {
    Call(b, "addSlideWithSmartLayout", [docName, position, contentType, description],
         text => DecodeSmartAdd(contentType, description, text))
  }

  // ---------------------------------------------------------------------
  // get_layout_recommendations
  // ---------------------------------------------------------------------

  /** Reference reading: the non-empty items of a list, in order. */
  function NonEmptyItems(xs: seq<string>): (r: seq<string>)
    ensures |r| <= |xs|
    ensures forall i :: 0 <= i < |r| ==> r[i] != "" && r[i] in xs
  {
    if xs == [] then []
    else if xs[0] == "" then NonEmptyItems(xs[1..])
    else [xs[0]] + NonEmptyItems(xs[1..])
  }

  /** The first three pieces of a '|'-separated answer, as the decoder
      tests them one by one. */
  function TopThree(recs: seq<string>): seq<string>
    requires |recs| >= 1 && recs[0] != ""
  {
    [recs[0]]
    + (if |recs| >= 2 && recs[1] != "" then [recs[1]] else [])
    + (if |recs| >= 3 && recs[2] != "" then [recs[2]] else [])
  }

  function Min(a: int, b: int): int { if a <= b then a else b }

  /** The decoder shows the non-empty items among the first three pieces,
      the first of which is the best match. */
  lemma TopThreeIsFilter(recs: seq<string>)
    requires |recs| >= 1 && recs[0] != ""
    ensures TopThree(recs) == NonEmptyItems(recs[..Min(3, |recs|)])
    ensures 1 <= |TopThree(recs)| <= 3 && TopThree(recs)[0] == recs[0]
  {
    var p := recs[..Min(3, |recs|)];
    var p1 := p[1..];
    assert NonEmptyItems(p) == [recs[0]] + NonEmptyItems(p1);
    if |recs| == 1 {
      assert p1 == [];
    } else {
      var p2 := p1[1..];
      var second := if recs[1] != "" then [recs[1]] else [];
      assert NonEmptyItems(p1) == second + NonEmptyItems(p2);
      if |recs| == 2 {
        assert p2 == [];
      } else {
        var third := if recs[2] != "" then [recs[2]] else [];
        assert p2[1..] == [];
        assert NonEmptyItems(p2) == third + NonEmptyItems(p2[1..]);
      }
    }
  }

  function DecodeRecommendations(contentType: Value, result: string): (o: Outcome)
    ensures o.RecommendationsUnavailable? <==> IsBlank(result)
    ensures o.NoRecommendations? <==> !IsBlank(result) && Split(result, "|")[0] == ""
    ensures o.Recommended? || o.NoRecommendations? || o.RecommendationsUnavailable?
    ensures o.Recommended? ==> o.entries == NonEmptyItems(Split(result, "|")[..Min(3, |Split(result, "|")|)])
    ensures o.Recommended? ==> 1 <= |o.entries| <= 3 && o.entries[0] == Split(result, "|")[0]
    ensures o.Recommended? ==> o.contentType == contentType
  {
    if IsBlank(result) then RecommendationsUnavailable
    else
      var recs := Split(result, "|");
      if recs[0] != "" then
        TopThreeIsFilter(recs);
        Recommended(contentType, TopThree(recs))
      else NoRecommendations
  }

  /** `get_layout_recommendations(content_type, content_description, doc_name)` */
  function GetLayoutRecommendations(b: Backend, contentType: Value, description: Value, docName: Value): (r: Reply<Outcome>)
    ensures r.calls == [Function(ScriptFile, "getLayoutRecommendations", [docName, contentType, description])]
    ensures Succeeds(b, r.calls[0]) ==> r.outcome == DecodeRecommendations(contentType, b.answer(r.calls[0]).value)
    ensures r.outcome.Failed? <==> !Succeeds(b, r.calls[0])
  {
    Call(b, "getLayoutRecommendations", [docName, contentType, description], text => DecodeRecommendations(contentType, text))
  }
}
