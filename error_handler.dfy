/** The adapter's error taxonomy and its argument validators
    (src/utils/error_handler.py). */
module ErrorHandler {
  import opened Base
  import opened PyText

  /** The categories `handle_applescript_error` sorts interpreter error text into. */
  datatype Category =
    | KeynoteApp        // "Keynote got an error"
    | ObjectNotFound    // "Can't get"
    | PermissionDenied  // "not allowed", or "permission" in any case
    | FileProblem       // "file" together with "not found" or "doesn't exist", in any case
    | SyntaxProblem     // "syntax error" in any case
    | UnknownProblem

  /** The rules in the order they are tried, the catch-all excluded. */
  const Rules: seq<Category> := [KeynoteApp, ObjectNotFound, PermissionDenied, FileProblem, SyntaxProblem]

  /** The tests of src/utils/error_handler.py:38-55, one per rule. */
  predicate KeynoteRule(e: string) { Contains(e, "Keynote got an error") }
  predicate NotFoundRule(e: string) { Contains(e, "Can't get") }
  predicate PermissionRule(e: string) { Contains(e, "not allowed") || Contains(Lower(e), "permission") }
  predicate FileRule(e: string) {
    Contains(Lower(e), "file") && (Contains(Lower(e), "not found") || Contains(Lower(e), "doesn't exist"))
  }
  predicate SyntaxRule(e: string) { Contains(Lower(e), "syntax error") }

  /** Whether one rule, taken on its own, accepts the (stripped) error text. */
  predicate Matches(c: Category, e: string) {
    match c
    case KeynoteApp => KeynoteRule(e)
    case ObjectNotFound => NotFoundRule(e)
    case PermissionDenied => PermissionRule(e)
    case FileProblem => FileRule(e)
    case SyntaxProblem => SyntaxRule(e)
    case UnknownProblem => true
  }

  /** Reference reading of the classifier: the first rule of `rules` that
      matches, else the catch-all. */
  function FirstMatch(rules: seq<Category>, e: string): Category {
    if rules == [] then UnknownProblem
    else if Matches(rules[0], e) then rules[0]
    else FirstMatch(rules[1..], e)
  }

  /** The if/elif chain of src/utils/error_handler.py:37-58. */
  function CategoryOf(e: string): Category {
    if KeynoteRule(e) then KeynoteApp
    else if NotFoundRule(e) then ObjectNotFound
    else if PermissionRule(e) then PermissionDenied
    else if FileRule(e) then FileProblem
    else if SyntaxRule(e) then SyntaxProblem
    else UnknownProblem
  }

  /** The classifier is first-match-wins over `Rules`: the chosen rule
      matches, and no rule listed before it does. */
  lemma CategoryIsFirstMatch(e: string)
    ensures CategoryOf(e) == FirstMatch(Rules, e)
    ensures Matches(CategoryOf(e), e)
    ensures forall i, j :: 0 <= j < i < |Rules| && Rules[i] == CategoryOf(e) ==> !Matches(Rules[j], e)
  {
    var r1 := [ObjectNotFound, PermissionDenied, FileProblem, SyntaxProblem];
    var r2 := [PermissionDenied, FileProblem, SyntaxProblem];
    var r3 := [FileProblem, SyntaxProblem];
    var r4 := [SyntaxProblem];
    assert Rules[1..] == r1 && r1[1..] == r2 && r2[1..] == r3 && r3[1..] == r4 && r4[1..] == [];
    assert FirstMatch(r4, e) == if SyntaxRule(e) then SyntaxProblem else UnknownProblem;
    assert FirstMatch(r3, e) == if FileRule(e) then FileProblem else FirstMatch(r4, e);
    assert FirstMatch(r2, e) == if PermissionRule(e) then PermissionDenied else FirstMatch(r3, e);
    assert FirstMatch(r1, e) == if NotFoundRule(e) then ObjectNotFound else FirstMatch(r2, e);
    assert FirstMatch(Rules, e) == if KeynoteRule(e) then KeynoteApp else FirstMatch(r1, e);
  }

  function Prefix(c: Category): string {
    match c
    case KeynoteApp => "Keynote error: "
    case ObjectNotFound => "Object not found: "
    case PermissionDenied => "Permission denied: "
    case FileProblem => "File operation error: "
    case SyntaxProblem => "AppleScript syntax error: "
    case UnknownProblem => "Unknown AppleScript error: "
  }

  /** `handle_applescript_error`: `None` when it returns silently, otherwise
      the exception it raises. */
  function HandleAppleScriptError(errorOutput: string): (r: Option<Exc>)
    ensures r.None? <==> errorOutput == ""
    ensures r.Some? ==> r.value.message == Prefix(CategoryOf(Strip(errorOutput))) + Strip(errorOutput)
    ensures r.Some? ==> (r.value.kind == FileOperationError <==> CategoryOf(Strip(errorOutput)) == FileProblem)
    ensures r.Some? ==> r.value.kind == FileOperationError || r.value.kind == AppleScriptError
  {
    if errorOutput == "" then None
    else
      var e := Strip(errorOutput);
      var c := CategoryOf(e);
      Some(Exc(if c == FileProblem then FileOperationError else AppleScriptError, Prefix(c) + e))
  }

  /** Every prefix names exactly one category. */
  lemma PrefixesDistinct(c: Category, d: Category)
    requires c != d
    ensures Prefix(c) != Prefix(d)
  {
    match c
    case KeynoteApp => assert Prefix(c)[0] == 'K';
    case ObjectNotFound => assert Prefix(c)[0] == 'O';
    case PermissionDenied => assert Prefix(c)[0] == 'P';
    case FileProblem => assert Prefix(c)[0] == 'F';
    case SyntaxProblem => assert Prefix(c)[0] == 'A';
    case UnknownProblem => assert Prefix(c)[0] == 'U';
  }

  /** "Can't get" is matched on the text as written ... */
  lemma CaseSensitiveNotFound()
    ensures CategoryOf("Can't get slide 99") == ObjectNotFound
  {
    var a := "Can't get slide 99";
    if KeynoteRule(a) { ContainsHasChars(a, "Keynote got an error", 0); }
    assert OccursAt(a, "Can't get", 0);
  }

  const Capitals := "CAN'T GET SLIDE"

  /** ... so the same words in capitals fall through to the catch-all. */
  lemma CapitalsUnknown()
    ensures CategoryOf(Capitals) == UnknownProblem
  {
    CapitalsMissCaseSensitiveRules();
    CapitalsMissLowerCaseRules();
  }

  lemma CapitalsMissCaseSensitiveRules()
    ensures !KeynoteRule(Capitals) && !NotFoundRule(Capitals) && !Contains(Capitals, "not allowed")
  {
    MissingCharNotContains(Capitals, "Keynote got an error", 1);
    MissingCharNotContains(Capitals, "Can't get", 1);
    MissingCharNotContains(Capitals, "not allowed", 0);
  }

  lemma CapitalsMissLowerCaseRules()
    ensures !Contains(Lower(Capitals), "permission") && !Contains(Lower(Capitals), "file")
    ensures !SyntaxRule(Capitals)
  {
    var lb := Lower(Capitals);
    LowerMissing(Capitals, 'p');
    LowerMissing(Capitals, 'f');
    LowerMissing(Capitals, 'y');
    MissingCharNotContains(lb, "permission", 0);
    MissingCharNotContains(lb, "file", 0);
    MissingCharNotContains(lb, "syntax error", 1);
  }

  /** ... while "permission" is matched on its lower-case form. */
  lemma CaseInsensitivePermission()
    ensures CategoryOf("PERMISSION DENIED") == PermissionDenied
  {
    var c := "PERMISSION DENIED";
    var lc := Lower(c);
    assert lc == "permission denied";
    if KeynoteRule(c) { ContainsHasChars(c, "Keynote got an error", 0); }
    if NotFoundRule(c) { ContainsHasChars(c, "Can't get", 3); }
    assert OccursAt(lc, "permission", 0);
  }

  /** `validate_slide_number(v, max_slides)`: the value itself when it is an
      int of at least 1 (and at most `max_slides` when one is given). */
  function ValidateSlideNumber(v: Value, maxSlides: Option<int>): (r: Result<Value>)
    ensures r.Ok? <==> IsInt(v) && IntOf(v) >= 1 && (maxSlides.None? || IntOf(v) <= maxSlides.value)
    ensures r.Ok? ==> r.value == v
    ensures r.Err? ==> r.exc.kind == ParameterError
  {
    if v.VNone? then Err(Exc(ParameterError, "Slide number is required"))
    else if !IsInt(v) || IntOf(v) < 1 then
      Err(Exc(ParameterError, "Invalid slide number: " + PyStr(v) + ". Must be a positive integer."))
    else if maxSlides.Some? && IntOf(v) > maxSlides.value then
      Err(Exc(ParameterError, "Slide number " + PyStr(v) + " exceeds maximum slides " + IntText(maxSlides.value)))
    else Ok(v)
  }

  /** What `validate_slide_number` accepts when no maximum is given. */
  predicate SlideNumberOk(v: Value) { IsInt(v) && IntOf(v) >= 1 }

  /** `isinstance(v, (int, float))` */
  predicate IsNumber(v: Value) { v.VInt? || v.VBool? || v.VFloat? }

  function NumberValue(v: Value): real
    requires IsNumber(v)
  {
    if v.VFloat? then v.f.value else IntOf(v) as real
  }

  /** `float(v)` for a number, `0.0` for an absent one. */
  function ToFloat(v: Value): (f: Float)
    requires v.VNone? || IsNumber(v)
    ensures f.value == (if v.VNone? then 0.0 else NumberValue(v))
  {
    match v
    case VNone => Float(0.0, "0.0")
    case VFloat(f) => f
    case _ => Float(IntOf(v) as real, IntText(IntOf(v)) + ".0")
  }

  /** A coordinate is acceptable when it is absent or a non-negative number. */
  predicate CoordinateOk(v: Value) {
    v.VNone? || (IsNumber(v) && NumberValue(v) >= 0.0)
  }

  /** `validate_coordinates(x, y)` */
  function ValidateCoordinates(x: Value, y: Value): (r: Result<(Float, Float)>)
    ensures r.Ok? <==> CoordinateOk(x) && CoordinateOk(y)
    ensures r.Ok? ==> r.value.0.value == (if x.VNone? then 0.0 else NumberValue(x))
    ensures r.Ok? ==> r.value.1.value == (if y.VNone? then 0.0 else NumberValue(y))
    ensures r.Ok? ==> r.value.0.value >= 0.0 && r.value.1.value >= 0.0
    ensures r.Err? ==> r.exc.kind == ParameterError
    ensures r.Err? && !CoordinateOk(x) ==> r.exc.message == "Invalid x coordinate: " + PyStr(x)
    ensures r.Err? && CoordinateOk(x) ==> r.exc.message == "Invalid y coordinate: " + PyStr(y)
  {
    if !CoordinateOk(x) then Err(Exc(ParameterError, "Invalid x coordinate: " + PyStr(x)))
    else if !CoordinateOk(y) then Err(Exc(ParameterError, "Invalid y coordinate: " + PyStr(y)))
    else Ok((ToFloat(x), ToFloat(y)))
  }

  /** `validate_file_path(p)`: the stripped path, for a string that is not blank. */
  function ValidateFilePath(p: Value): (r: Result<string>)
    ensures r.Ok? <==> p.VStr? && !IsBlank(p.s)
    ensures r.Ok? ==> r.value == Strip(p.s) && r.value != []
    ensures r.Err? ==> r.exc.kind == ParameterError
  {
    if !Truthy(p) || !p.VStr? then Err(Exc(ParameterError, "File path is required and must be a string"))
    else if IsBlank(p.s) then Err(Exc(ParameterError, "File path cannot be empty"))
    else Ok(Strip(p.s))
  }

  /** Validating a validated path again gives it back unchanged. */
  lemma ValidateFilePathIdempotent(p: Value)
    requires ValidateFilePath(p).Ok?
    ensures ValidateFilePath(VStr(ValidateFilePath(p).value)) == ValidateFilePath(p)
  {
    StripIdempotent(p.s);
  }
}
