/** What the tool classes ask of the runner, and the runner itself as an
    oracle.

    The tools reach Keynote through four runner methods: `run_inline_script`
    (a generated AppleScript program), `run_function` (a routine of a script
    file, with arguments), `check_keynote_running` and `launch_keynote`.
    Their behaviour is Keynote's, so the model takes it as a parameter: a
    `Backend` answers each request with a string or an exception, and every
    handler reports the requests it made, in order. A generated program is
    represented by the values interpolated into its template. */
module Keynote {
  import opened Base
  import opened PyText

  /** The document a generated program addresses: its template tests
      `if "<doc_name>" is ""`. */
  datatype Doc = FrontDocument | NamedDocument(name: string)

  function TargetOf(docName: string): (d: Doc)
    ensures d.FrontDocument? <==> docName == ""
    ensures d.NamedDocument? ==> d.name == docName
  {
    if docName == "" then FrontDocument else NamedDocument(docName)
  }

  datatype ImageFormat = JPEG | PNG

  /** The generated AppleScript programs, by template, with the text each
      interpolated value takes in them. */
  datatype Script =
    // src/tools/presentation.py
    | CreateDocument(title: string, theme: string)
    | OpenFile(path: string)
    | SaveDocument(doc: Doc)
    | CloseDocument(doc: Doc, saveFlag: string)
    | ListDocuments
    | SetDocumentTheme(doc: Doc, theme: string)
    | DescribeDocument(doc: Doc)
    | ListThemes
    // src/tools/slide/*_operations.py and src/tools/slide.py
    | MakeSlide(doc: Doc, position: string, layout: string)
    | RemoveSlide(doc: Doc, slide: string)
    | CopySlide(doc: Doc, slide: string, newPosition: string)
    | ReorderSlide(doc: Doc, from: string, to: string)
    | CountSlides(doc: Doc)
    | SetCurrentSlide(doc: Doc, slide: string)
    | SetBaseSlide(doc: Doc, slide: string, layout: string)
    | DescribeSlide(doc: Doc, slide: string)
    | ListMasterSlides(doc: Doc)
    // src/tools/content_simple.py
    | MakeTextItem(slide: string, x: string, y: string, text: string)
    | MakeImage(slide: string, x: string, y: string, file: string)
    // src/tools/export.py and src/tools/export_fixed.py
    | ExportSlide(slide: string, format: ImageFormat, folder: string)
    | ExportAsPdf(path: string)
    | ExportAllAs(format: ImageFormat, folder: string)

  datatype Request =
    | Inline(script: Script)                                   // run_inline_script
    | Function(file: string, routine: string, args: seq<Value>)  // run_function
    | Launch                                                   // launch_keynote

  /** The runner as the tools see it. `running` is what
      `check_keynote_running` returns or raises. */
  datatype Backend = Backend(answer: Request -> Result<string>, running: Result<bool>)

  /** A handler's outcome with the requests it made, in order. */
  datatype Reply<+T> = Reply(outcome: T, calls: seq<Request>)

  /** A request whose answer is discarded, as in `self.runner.run_inline_script(...)`
      written as a statement. */
  predicate Succeeds(b: Backend, r: Request) { b.answer(r).Ok? }

  // ---------------------------------------------------------------------
  // Decoders shared by several tools
  // ---------------------------------------------------------------------

  /** `[p.strip() for p in parts if p.strip()]` */
  function StrippedNonBlank(parts: seq<string>): (r: seq<string>)
    ensures |r| <= |parts|
    ensures forall i :: 0 <= i < |r| ==> r[i] != [] && Strip(r[i]) == r[i]
  {
    if parts == [] then []
    else
      var rest := StrippedNonBlank(parts[1..]);
      var p := Strip(parts[0]);
      StripIdempotent(parts[0]);
      if p != [] then [p] + rest else rest
  }

  /** How many of the parts are not blank. */
  function NonBlankCount(parts: seq<string>): nat {
    if parts == [] then 0 else (if IsBlank(parts[0]) then 0 else 1) + NonBlankCount(parts[1..])
  }

  /** Stripping-and-filtering keeps one item per non-blank part ... */
  lemma {:induction false} StrippedNonBlankCount(parts: seq<string>)
    ensures |StrippedNonBlank(parts)| == NonBlankCount(parts)
  {
    if parts != [] {
      StrippedNonBlankCount(parts[1..]);
    }
  }

  /** ... so when no part is blank it is a plain strip of every part, in order. */
  lemma {:induction false} StrippedNonBlankAll(parts: seq<string>)
    requires NonBlankCount(parts) == |parts|
    ensures |StrippedNonBlank(parts)| == |parts|
    ensures forall i :: 0 <= i < |parts| ==> StrippedNonBlank(parts)[i] == Strip(parts[i])
  {
    if parts != [] {
      NonBlankCountBound(parts[1..]);
      assert !IsBlank(parts[0]);
      StrippedNonBlankAll(parts[1..]);
      var r := StrippedNonBlank(parts);
      assert r == [Strip(parts[0])] + StrippedNonBlank(parts[1..]);
      forall i | 0 <= i < |parts| ensures r[i] == Strip(parts[i]) {
        if i > 0 {
          assert r[i] == StrippedNonBlank(parts[1..])[i - 1];
        }
      }
    }
  }

  /** When no part is blank, every part counts. */
  lemma {:induction false} NonBlankCountAll(parts: seq<string>)
    requires forall i :: 0 <= i < |parts| ==> !IsBlank(parts[i])
    ensures NonBlankCount(parts) == |parts|
  {
    if parts != [] {
      NonBlankCountAll(parts[1..]);
    }
  }

  lemma {:induction false} NonBlankCountBound(parts: seq<string>)
    ensures NonBlankCount(parts) <= |parts|
  {
    if parts != [] {
      NonBlankCountBound(parts[1..]);
    }
  }

  /** `[p for p in parts if p.strip()]`: the blank parts dropped, the others
      kept as they are. */
  function NonBlank(parts: seq<string>): (r: seq<string>)
    ensures |r| == NonBlankCount(parts)
    ensures forall x :: x in r ==> x in parts && !IsBlank(x)
  {
    if parts == [] then []
    else if IsBlank(parts[0]) then NonBlank(parts[1..])
    else [parts[0]] + NonBlank(parts[1..])
  }

  /** Filtering out blanks keeps a list with none unchanged. */
  lemma {:induction false} NonBlankAll(parts: seq<string>)
    requires forall i :: 0 <= i < |parts| ==> !IsBlank(parts[i])
    ensures NonBlank(parts) == parts
  {
    if parts != [] {
      NonBlankAll(parts[1..]);
    }
  }

  /** Filtering works piece by piece and keeps the order: the filter of a
      concatenation is the concatenation of the filters ... */
  lemma {:induction false} NonBlankAppend(a: seq<string>, b: seq<string>)
    ensures NonBlank(a + b) == NonBlank(a) + NonBlank(b)
  {
    if a != [] {
      var ab := a + b;
      assert ab[0] == a[0] && ab[1..] == a[1..] + b;
      NonBlankAppend(a[1..], b);
      var h := if IsBlank(a[0]) then [] else [a[0]];
      var x, y := NonBlank(a[1..]), NonBlank(b);
      assert NonBlank(ab) == h + (x + y);
      assert NonBlank(a) == h + x;
      ConcatAssoc(h, x, y);
    } else {
      assert a + b == b;
    }
  }

  /** ... and one piece is kept as it is exactly when it is not blank. */
  lemma NonBlankOne(p: string)
    ensures NonBlank([p]) == if IsBlank(p) then [] else [p]
  {
    assert [p][1..] == [];
  }

  /** Stripping-and-filtering works piece by piece and keeps the order ... */
  lemma {:induction false} StrippedNonBlankAppend(a: seq<string>, b: seq<string>)
    ensures StrippedNonBlank(a + b) == StrippedNonBlank(a) + StrippedNonBlank(b)
  {
    if a != [] {
      var ab := a + b;
      assert ab[0] == a[0] && ab[1..] == a[1..] + b;
      StrippedNonBlankAppend(a[1..], b);
      StrippedNonBlankStep(ab);
      StrippedNonBlankStep(a);
      var h := if Strip(a[0]) == [] then [] else [Strip(a[0])];
      var x, y := StrippedNonBlank(a[1..]), StrippedNonBlank(b);
      assert StrippedNonBlank(ab) == h + (x + y);
      assert StrippedNonBlank(a) == h + x;
      ConcatAssoc(h, x, y);
    } else {
      assert a + b == b;
    }
  }

  lemma ConcatAssoc(h: seq<string>, x: seq<string>, y: seq<string>)
    ensures h + (x + y) == (h + x) + y
  {
  }

  lemma StrippedNonBlankStep(parts: seq<string>)
    requires parts != []
    ensures StrippedNonBlank(parts) ==
      (if Strip(parts[0]) == [] then [] else [Strip(parts[0])]) + StrippedNonBlank(parts[1..])
  {
  }

  /** ... and one piece gives its stripped text exactly when it is not blank. */
  lemma StrippedNonBlankOne(p: string)
    ensures StrippedNonBlank([p]) == if IsBlank(p) then [] else [Strip(p)]
  {
    assert [p][1..] == [];
  }

  /** The brace-strip and ", " split that decodes an AppleScript list
      rendered as text. */
  function ListItems(result: string): (r: seq<string>)
    ensures |r| >= 1
  {
    Split(RemoveBraces(result), ", ")
  }

  /** Items free of braces and of ", " come back one for one from the
      rendering `{a, b, ...}`. */
  lemma ListItemsRoundTrip(items: seq<string>)
    requires |items| >= 1
    requires forall i :: 0 <= i < |items| ==> '{' !in items[i] && '}' !in items[i] && !Contains(items[i], ", ")
    ensures ListItems("{" + JoinWith(items, ", ") + "}") == items
  {
    BracedJoinUnwrapped(items);
    CommaJoinSplits(items);
  }

  /** Removing the braces of `{a, b, ...}` leaves the join. */
  lemma BracedJoinUnwrapped(items: seq<string>)
    requires forall i :: 0 <= i < |items| ==> '{' !in items[i] && '}' !in items[i]
    ensures RemoveBraces("{" + JoinWith(items, ", ") + "}") == JoinWith(items, ", ")
  {
    JoinFree(items, ", ", '{');
    JoinFree(items, ", ", '}');
    BracesAround(JoinWith(items, ", "));
  }

  /** Items free of ", " come back from their ", "-join. */
  lemma CommaJoinSplits(items: seq<string>)
    requires |items| >= 1
    requires forall i :: 0 <= i < |items| ==> !Contains(items[i], ", ")
    ensures Split(JoinWith(items, ", "), ", ") == items
  {
    CommaSpaceBorderless();
    assert forall i :: 0 <= i < |items| ==> SeparatorFree(items[i], ", ");
    SplitOfJoin(items, ", ");
  }

  /** The first three items of a list rendering, when it has that many. */
  function ThreeFields(result: string): (r: Option<(string, string, string)>)
    ensures r.Some? <==> |ListItems(result)| >= 3
    ensures r.Some? ==> [r.value.0, r.value.1, r.value.2] == ListItems(result)[..3]
  {
    var parts := ListItems(result);
    if |parts| >= 3 then Some((parts[0], parts[1], parts[2])) else None
  }

  /** The rendering `{a, b, c}` of three plain fields is read back field
      for field. */
  lemma ThreeFieldsRoundTrip(a: string, b: string, c: string)
    requires '{' !in a && '}' !in a && !Contains(a, ", ")
    requires '{' !in b && '}' !in b && !Contains(b, ", ")
    requires '{' !in c && '}' !in c && !Contains(c, ", ")
    ensures ThreeFields("{" + a + ", " + b + ", " + c + "}") == Some((a, b, c))
  {
    var items := [a, b, c];
    JoinThree(a, b, c, ", ");
    assert forall i :: 0 <= i < |items| ==> '{' !in items[i] && '}' !in items[i] && !Contains(items[i], ", ");
    ListItemsRoundTrip(items);
    assert "{" + JoinWith(items, ", ") + "}" == "{" + a + ", " + b + ", " + c + "}";
  }

  lemma JoinThree(a: string, b: string, c: string, sep: string)
    ensures JoinWith([a, b, c], sep) == a + sep + b + sep + c
  {
    assert [a, b, c][1..] == [b, c];
    assert [b, c][1..] == [c];
    assert JoinWith([c], sep) == c;
    assert JoinWith([b, c], sep) == b + sep + c;
  }

  /** Names free of '|' come back one for one from their "|||"-joined list. */
  lemma SplitOfBars(names: seq<string>)
    requires |names| >= 1
    requires forall i :: 0 <= i < |names| ==> '|' !in names[i]
    ensures Split(JoinWith(names, "|||"), "|||") == names
  {
    assert forall i :: 0 <= i < |names| ==> SeparatorFree(names[i], "|||");
    SplitOfJoin(names, "|||");
  }

  lemma BracesAround(j: string)
    requires '{' !in j && '}' !in j
    ensures RemoveBraces("{" + j + "}") == j
  {
    RemoveBracesAppend("{", j);
    RemoveBracesAppend("{" + j, "}");
    assert RemoveBraces("{") == "" by { assert "{"[1..] == ""; }
    assert RemoveBraces("}") == "" by { assert "}"[1..] == ""; }
  }

  lemma {:induction false} JoinFree(parts: seq<string>, sep: string, c: char)
    requires c !in sep && forall i :: 0 <= i < |parts| ==> c !in parts[i]
    ensures c !in JoinWith(parts, sep)
  {
    if |parts| > 1 {
      JoinFree(parts[1..], sep, c);
    }
  }
}
