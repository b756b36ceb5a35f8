/** The process-level runner (src/utils/applescript_runner.py): argument
    rendering, script resolution and the mapping of an `osascript` exit to a
    result or an `AppleScriptError`.

    The process itself is a parameter: `proc` maps the argument vector to
    what the operating system reports, and `read` maps a path to the file's
    text or the reason it could not be read. */
module ScriptRunner {
  import opened Base
  import opened PyText

  // ---------------------------------------------------------------------
  // json.dumps with its default settings (ensure_ascii, ", " and ": ")
  // ---------------------------------------------------------------------

  /** Every character is printable ASCII, space to tilde. */
  predicate Printable(s: string) {
    forall i :: 0 <= i < |s| ==> ' ' <= s[i] <= '~'
  }

  function HexDigit(n: nat): (c: char)
    requires n < 16
    ensures ' ' <= c <= '~'
  {
    if n < 10 then ('0' as int + n) as char else ('a' as int + n - 10) as char
  }

  /** Four lower-case hex digits, the tail of a `\u` escape. */
  function Hex4(n: nat): (r: string)
    requires n < 0x10000
    ensures |r| == 4 && Printable(r)
  {
    [HexDigit(n / 0x1000), HexDigit(n / 0x100 % 0x10), HexDigit(n / 0x10 % 0x10), HexDigit(n % 0x10)]
  }

  /** How one character is written inside a JSON string. */
  function JsonChar(c: char): (r: string)
    ensures Printable(r)
    ensures ' ' <= c <= '~' && c != '"' && c != '\\' ==> r == [c]
  {
    if c == '"' then "\\\""
    else if c == '\\' then "\\\\"
    else if c == '\n' then "\\n"
    else if c == '\r' then "\\r"
    else if c == '\t' then "\\t"
    else if c == '\U{8}' then "\\b"
    else if c == '\U{C}' then "\\f"
    else if ' ' <= c <= '~' then [c]
    else if c as int < 0x10000 then "\\u" + Hex4(c as int)
    else
      // outside the basic plane: a UTF-16 surrogate pair
      var n := c as int - 0x10000;
      "\\u" + Hex4(0xD800 + n / 0x400) + "\\u" + Hex4(0xDC00 + n % 0x400)
  }

  function JsonEscape(s: string): (r: string)
    ensures Printable(r)
  {
    if s == [] then [] else JsonChar(s[0]) + JsonEscape(s[1..])
  }

  /** Text made only of printable characters other than the quote and the
      backslash is written unchanged. */
  lemma {:induction false} JsonEscapePlain(s: string)
    requires Printable(s) && '"' !in s && '\\' !in s
    ensures JsonEscape(s) == s
  {
    if s != [] {
      JsonEscapePlain(s[1..]);
    }
  }

  function JsonString(s: string): (r: string)
    ensures Printable(r)
  {
    "\"" + JsonEscape(s) + "\""
  }

  lemma {:induction false} JoinPrintable(parts: seq<string>, sep: string)
    requires forall i :: 0 <= i < |parts| ==> Printable(parts[i])
    requires Printable(sep)
    ensures Printable(JoinWith(parts, sep))
  {
    if |parts| > 1 {
      JoinPrintable(parts[1..], sep);
    }
  }

  /** `json.dumps(v)`. Floats keep the text `str()` gives them. */
  function JsonDumps(v: Value): string
    decreases v
  {
    match v
    case VNone => "null"
    case VBool(b) => if b then "true" else "false"
    case VInt(i) => IntText(i)
    case VFloat(f) => f.text
    case VStr(s) => JsonString(s)
    case VList(items) =>
      "[" + JoinWith(seq(|items|, k requires 0 <= k < |items| => JsonDumps(items[k])), ", ") + "]"
    case VDict(entries) =>
      "{" + JoinWith(seq(|entries|, k requires 0 <= k < |entries| =>
                       JsonString(entries[k].0) + ": " + JsonDumps(entries[k].1)), ", ") + "}"
  }

  /** With `ensure_ascii`, the JSON text is printable ASCII whatever the
      strings inside hold (given float texts that are, as `repr` makes them). */
  lemma {:induction false} JsonDumpsPrintable(v: Value)
    requires Printable(FloatTexts(v))
    ensures Printable(JsonDumps(v))
    decreases v
  {
    match v
    case VList(items) =>
      FloatTextsInside(v);
      var parts := seq(|items|, k requires 0 <= k < |items| => JsonDumps(items[k]));
      forall k | 0 <= k < |items| ensures Printable(parts[k]) {
        JsonDumpsPrintable(items[k]);
      }
      JoinPrintable(parts, ", ");
    case VDict(entries) =>
      FloatTextsInside(v);
      var parts := seq(|entries|, k requires 0 <= k < |entries| =>
                       JsonString(entries[k].0) + ": " + JsonDumps(entries[k].1));
      forall k | 0 <= k < |entries| ensures Printable(parts[k]) {
        JsonDumpsPrintable(entries[k].1);
      }
      JoinPrintable(parts, ", ");
    case VInt(i) =>
      assert Printable(IntText(i)) by {
        if i >= 0 { assert IntText(i) == NatText(i); }
        else { assert IntText(i) == "-" + NatText(-i); }
      }
    case _ =>
  }

  /** The float texts that occur in a value, concatenated. */
  function FloatTexts(v: Value): string
  {
    match v
    case VFloat(f) => f.text
    case VList(items) => Concat(seq(|items|, k requires 0 <= k < |items| => FloatTexts(items[k])))
    case VDict(entries) => Concat(seq(|entries|, k requires 0 <= k < |entries| => FloatTexts(entries[k].1)))
    case _ => ""
  }

  function Concat(ss: seq<string>): string {
    if ss == [] then "" else ss[0] + Concat(ss[1..])
  }

  lemma {:induction false} ConcatPrintable(ss: seq<string>, i: int)
    requires Printable(Concat(ss)) && 0 <= i < |ss|
    ensures Printable(ss[i])
  {
    if i > 0 {
      assert forall j :: 0 <= j < |Concat(ss[1..])| ==> Concat(ss)[|ss[0]| + j] == Concat(ss[1..])[j];
      ConcatPrintable(ss[1..], i - 1);
    } else {
      assert forall j :: 0 <= j < |ss[0]| ==> Concat(ss)[j] == ss[0][j];
    }
  }

  /** The float texts of a container's members are part of its own. */
  lemma FloatTextsInside(v: Value)
    requires Printable(FloatTexts(v))
    ensures v.VList? ==> forall k :: 0 <= k < |v.items| ==> Printable(FloatTexts(v.items[k]))
    ensures v.VDict? ==> forall k :: 0 <= k < |v.entries| ==> Printable(FloatTexts(v.entries[k].1))
  {
    if v.VList? {
      var ss := seq(|v.items|, k requires 0 <= k < |v.items| => FloatTexts(v.items[k]));
      forall k | 0 <= k < |v.items| ensures Printable(FloatTexts(v.items[k])) {
        ConcatPrintable(ss, k);
      }
    } else if v.VDict? {
      var ss := seq(|v.entries|, k requires 0 <= k < |v.entries| => FloatTexts(v.entries[k].1));
      forall k | 0 <= k < |v.entries| ensures Printable(FloatTexts(v.entries[k].1)) {
        ConcatPrintable(ss, k);
      }
    }
  }

  // ---------------------------------------------------------------------
  // _format_args
  // ---------------------------------------------------------------------

  /** How one argument is written on the `osascript` command line. */
  function FormatArg(v: Value): string
  {
    match v
    case VDict(_) => JsonDumps(v)
    case VList(_) => JsonDumps(v)
    case VBool(b) => if b then "true" else "false"
    case VInt(_) => PyStr(v)
    case VFloat(_) => PyStr(v)
    case VNone => "missing value"
    case VStr(_) => PyStr(v)
  }

  /** Booleans are tested before numbers: a bool is written as AppleScript's
      `true`/`false`, never as Python's `True`/`False`, and never as a number. */
  lemma BoolsNotPythonOrNumbers(b: bool, i: int)
    ensures FormatArg(VBool(b)) == (if b then "true" else "false")
    ensures FormatArg(VBool(b)) != PyStr(VBool(b))
    ensures FormatArg(VBool(b)) != FormatArg(VInt(i))
  {
    var t := FormatArg(VInt(i));
    assert t[0] == '-' || '0' <= t[0] <= '9' by {
      if i >= 0 { assert t == NatText(i); }
    }
  }

  /** Strings and numbers are written as `str()` writes them; containers as
      printable JSON; `None` as AppleScript's `missing value`. */
  lemma FormatArgCases(v: Value)
    ensures v.VStr? || v.VInt? || v.VFloat? ==> FormatArg(v) == PyStr(v)
    ensures v.VList? || v.VDict? ==> FormatArg(v) == JsonDumps(v)
    ensures (v.VList? || v.VDict?) && Printable(FloatTexts(v)) ==> Printable(FormatArg(v))
    ensures v.VNone? ==> FormatArg(v) == "missing value"
  {
    if (v.VList? || v.VDict?) && Printable(FloatTexts(v)) {
      JsonDumpsPrintable(v);
    }
  }

  /** `_format_args(*args)`: one rendered argument per argument, in order. */
  method FormatArgs(args: seq<Value>) returns (formatted: seq<string>)
    ensures |formatted| == |args|
    ensures forall i :: 0 <= i < |args| ==> formatted[i] == FormatArg(args[i])
    ensures formatted == FormattedArgs(args)
  {
    formatted := [];
    var k := 0;
    while k < |args|
      invariant 0 <= k <= |args|
      invariant |formatted| == k
      invariant forall i :: 0 <= i < k ==> formatted[i] == FormatArg(args[i])
    {
      formatted := formatted + [FormatArg(args[k])];
      k := k + 1;
    }
  }

  /** The same rendering as a function, for the specifications below. */
  function FormattedArgs(args: seq<Value>): (r: seq<string>)
    ensures |r| == |args| && forall i :: 0 <= i < |args| ==> r[i] == FormatArg(args[i])
  {
    seq(|args|, i requires 0 <= i < |args| => FormatArg(args[i]))
  }

  // ---------------------------------------------------------------------
  // run_script, _execute_applescript_file, execute_script
  // ---------------------------------------------------------------------

  /** What the operating system reports for one `subprocess.run`: the exit
      status with both captured streams, or a failure to start the process. */
  datatype ProcessOutcome =
    | Exited(code: int, stdout: string, stderr: string)
    | StartFailed(message: string)

  /** A runner call's result together with every argument vector it started,
      in order. */
  datatype Run = Run(result: Result<string>, launched: seq<seq<string>>)

  /** `subprocess.run(..., check=True)` followed by the two except clauses. */
  function Complete(o: ProcessOutcome): (r: Result<string>)
    ensures r.Ok? <==> o.Exited? && o.code == 0
    ensures r.Ok? ==> r.value == Strip(o.stdout)
    ensures o.Exited? && o.code != 0 ==> r == Err(Exc(AppleScriptError, "AppleScript execution failed: " + Strip(o.stderr)))
    ensures o.StartFailed? ==> r == Err(Exc(AppleScriptError, "Unexpected error during script execution: " + o.message))
  {
    match o
    case Exited(code, out, err) =>
      if code == 0 then Ok(Strip(out))
      else Err(Exc(AppleScriptError, "AppleScript execution failed: " + Strip(err)))
    case StartFailed(m) => Err(Exc(AppleScriptError, "Unexpected error during script execution: " + m))
  }

  /** `execute_script(code)`: one `osascript -e code` process. */
  function ExecuteScript(proc: seq<string> -> ProcessOutcome, code: string): (r: Run)
    ensures r.launched == [["osascript", "-e", code]]
    ensures r.result == Complete(proc(["osascript", "-e", code]))
  {
    var argv := ["osascript", "-e", code];
    Run(Complete(proc(argv)), [argv])
  }

  const FilePrefix := "Failed to execute AppleScript file: "

  /** `_execute_applescript_file(path, ...)`: the file's text run as inline
      code; every failure, the reading of the file included, is re-raised
      under one prefix. */
  function ExecuteFile(read: string -> Result<string>, proc: seq<string> -> ProcessOutcome, path: string): (r: Run)
    ensures read(path).Err? ==> r == Run(Err(Exc(AppleScriptError, FilePrefix + read(path).exc.message)), [])
    ensures read(path).Ok? ==> r.launched == ExecuteScript(proc, read(path).value).launched
    ensures read(path).Ok? && ExecuteScript(proc, read(path).value).result.Ok? ==>
              r.result == ExecuteScript(proc, read(path).value).result
    ensures read(path).Ok? && ExecuteScript(proc, read(path).value).result.Err? ==>
              r.result == Err(Exc(AppleScriptError, FilePrefix + ExecuteScript(proc, read(path).value).result.exc.message))
  {
    match read(path)
    case Err(e) => Run(Err(Exc(AppleScriptError, FilePrefix + e.message)), [])
    case Ok(text) =>
      var run := ExecuteScript(proc, text);
      if run.result.Ok? then run
      else Run(Err(Exc(AppleScriptError, FilePrefix + run.result.exc.message)), run.launched)
  }

  /** A resolved script: a compiled `.scpt` or a source `.applescript`. */
  datatype ScriptFile = Compiled(path: string) | Source(path: string)

  function ScptPath(dir: string, name: string): string { dir + "/" + name + ".scpt" }
  function SourcePath(dir: string, name: string): string { dir + "/" + name + ".applescript" }

  /** The lookup at the top of `run_script`, over the set of existing paths. */
  function ResolveScript(dir: string, name: string, existing: set<string>): (r: Result<ScriptFile>)
    ensures ScptPath(dir, name) in existing ==> r == Ok(Compiled(ScptPath(dir, name)))
    ensures ScptPath(dir, name) !in existing && SourcePath(dir, name) in existing ==>
              r == Ok(Source(SourcePath(dir, name)))
    ensures r.Err? <==> ScptPath(dir, name) !in existing && SourcePath(dir, name) !in existing
    ensures r.Err? ==> r.exc == Exc(AppleScriptError, "Script file not found: " + name + " (tried .scpt and .applescript)")
  {
    if ScptPath(dir, name) in existing then Ok(Compiled(ScptPath(dir, name)))
    else if SourcePath(dir, name) in existing then Ok(Source(SourcePath(dir, name)))
    else Err(Exc(AppleScriptError, "Script file not found: " + name + " (tried .scpt and .applescript)"))
  }

  /** `run_script(name, routine, *args)` */
  function RunScript(dir: string, existing: set<string>, read: string -> Result<string>,
                     proc: seq<string> -> ProcessOutcome,
                     name: string, routine: string, args: seq<Value>): (r: Run)
    ensures ResolveScript(dir, name, existing).Err? ==>
              r == Run(Err(ResolveScript(dir, name, existing).exc), [])
    ensures forall path :: ResolveScript(dir, name, existing) == Ok(Source(path)) ==>
              r == ExecuteFile(read, proc, path)
    ensures forall path :: ResolveScript(dir, name, existing) == Ok(Compiled(path)) ==>
              r.launched == [["osascript", path, routine] + FormattedArgs(args)] &&
              r.result == Complete(proc(r.launched[0]))
  {
    match ResolveScript(dir, name, existing)
    case Err(e) => Run(Err(e), [])
    case Ok(Source(path)) => ExecuteFile(read, proc, path)
    case Ok(Compiled(path)) =>
      var argv := ["osascript", path, routine] + FormattedArgs(args);
      Run(Complete(proc(argv)), [argv])
  }

  /** A missing script fails naming the script, before any process starts. */
  lemma MissingScriptStartsNothing(dir: string, existing: set<string>, read: string -> Result<string>,
                                   proc: seq<string> -> ProcessOutcome,
                                   name: string, routine: string, args: seq<Value>)
    requires ScptPath(dir, name) !in existing && SourcePath(dir, name) !in existing
    ensures RunScript(dir, existing, read, proc, name, routine, args).launched == []
    ensures RunScript(dir, existing, read, proc, name, routine, args).result.Err?
    ensures Contains(RunScript(dir, existing, read, proc, name, routine, args).result.exc.message, name)
  {
    var m := "Script file not found: " + name + " (tried .scpt and .applescript)";
    assert OccursAt(m, name, |"Script file not found: "|) by {
      assert m[|"Script file not found: "|..|"Script file not found: "| + |name|] == name;
    }
  }

  /** A compiled script is preferred, and is started with the routine name
      followed by the rendered arguments. */
  lemma CompiledPreferred(dir: string, existing: set<string>, read: string -> Result<string>,
                          proc: seq<string> -> ProcessOutcome,
                          name: string, routine: string, args: seq<Value>)
    requires ScptPath(dir, name) in existing
    ensures var r := RunScript(dir, existing, read, proc, name, routine, args);
            |r.launched| == 1 && |r.launched[0]| == 3 + |args|
            && r.launched[0][..3] == ["osascript", ScptPath(dir, name), routine]
            && (forall i :: 0 <= i < |args| ==> r.launched[0][3 + i] == FormatArg(args[i]))
            && r.result == Complete(proc(r.launched[0]))
  {
  }

  /** For a source script the routine name and the arguments play no part:
      the file's whole text is run. */
  lemma SourceIgnoresRoutineAndArgs(dir: string, existing: set<string>, read: string -> Result<string>,
                                    proc: seq<string> -> ProcessOutcome, name: string,
                                    routine1: string, args1: seq<Value>,
                                    routine2: string, args2: seq<Value>)
    requires ScptPath(dir, name) !in existing && SourcePath(dir, name) in existing
    ensures RunScript(dir, existing, read, proc, name, routine1, args1)
         == RunScript(dir, existing, read, proc, name, routine2, args2)
         == ExecuteFile(read, proc, SourcePath(dir, name))
  {
  }
}
