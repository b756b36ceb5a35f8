/** Values and exceptions shared by every part of the adapter model.

    A tool call arrives as a JSON argument mapping, so every argument is a
    `Value`. Python exceptions become `Exc` values tagged with their class,
    and an operation that may raise returns a `Result`. */
module Base {

  datatype Option<+T> = None | Some(value: T)

  /** The exception classes that the adapter raises, or that Python raises
      inside it and the adapter catches. The first four are the adapter's own
      hierarchy (src/utils/error_handler.py:9-26): the last three of them
      subclass `KeynoteError`. */
  datatype ErrorKind =
    | KeynoteError
    | AppleScriptError
    | FileOperationError
    | ParameterError
    | KeyError           // arguments["x"] with "x" missing
    | TypeError          // a call with a keyword the callee does not accept
    | AttributeError     // a call of a method the object does not have
    | FileNotFoundError  // os.makedirs('') and other file-system failures
    | ZeroDivisionError  // an average over no slides
    | OtherError

  /** `isinstance(e, KeynoteError)` */
  predicate IsKeynoteError(k: ErrorKind) {
    k.KeynoteError? || k.AppleScriptError? || k.FileOperationError? || k.ParameterError?
  }

  /** A raised exception: its class and `str(e)`. */
  datatype Exc = Exc(kind: ErrorKind, message: string)

  /** The outcome of a Python call that either returns a value or raises. */
  datatype Result<+T> = Ok(value: T) | Err(exc: Exc)

  /** A Python float: its value and the text `str()` gives it. The shortest
      round-trip decimal form is not computed by the model; it is carried. */
  datatype Float = Float(value: real, text: string)

  /** A JSON-decoded argument value, as Python sees it. Dicts keep their
      insertion order. */
  datatype Value =
    | VNone
    | VBool(b: bool)
    | VInt(i: int)
    | VFloat(f: Float)
    | VStr(s: string)
    | VList(items: seq<Value>)
    | VDict(entries: seq<(string, Value)>)

  /** Decimal text of a natural number, as `str()` writes it. */
  function NatText(n: nat): (r: string)
    ensures |r| >= 1
    ensures forall i :: 0 <= i < |r| ==> '0' <= r[i] <= '9'
  {
    var d := ['0' + (n % 10) as char];
    if n < 10 then d else NatText(n / 10) + d
  }

  /** Decimal text of an integer, as `str()` writes it. */
  function IntText(i: int): (r: string)
    ensures |r| >= 1
    ensures r[0] == '-' <==> i < 0
  {
    if i < 0 then "-" + NatText(-i) else NatText(i)
  }

  /** Only zero is written "0". */
  lemma IntTextZero(i: int)
    ensures IntText(i) == "0" <==> i == 0
  {
    if i >= 10 {
      assert |IntText(i)| == |NatText(i / 10)| + 1 >= 2;
    } else if 0 < i {
      assert IntText(i)[0] == '0' + i as char != '0';
    }
  }

  function JoinWith(parts: seq<string>, sep: string): string {
    if parts == [] then ""
    else if |parts| == 1 then parts[0]
    else parts[0] + sep + JoinWith(parts[1..], sep)
  }

  /** `repr()` of a value inside a list or dict. Strings are quoted with
      single quotes; Python's choice of quote and its escapes are not modelled. */
  function Repr(v: Value): string
    decreases v, 1
  {
    match v
    case VStr(s) => "'" + s + "'"
    case _ => PyStr(v)
  }

  /** `str(v)`: what an f-string interpolation of `v` produces. */
  function PyStr(v: Value): string
    decreases v, 0
  {
    match v
    case VNone => "None"
    case VBool(b) => if b then "True" else "False"
    case VInt(i) => IntText(i)
    case VFloat(f) => f.text
    case VStr(s) => s
    case VList(items) =>
      "[" + JoinWith(seq(|items|, k requires 0 <= k < |items| => Repr(items[k])), ", ") + "]"
    case VDict(entries) =>
      "{" + JoinWith(seq(|entries|, k requires 0 <= k < |entries| =>
                       "'" + entries[k].0 + "': " + Repr(entries[k].1)), ", ") + "}"
  }

  /** Python truthiness: `bool(v)`. */
  predicate Truthy(v: Value) {
    match v
    case VNone => false
    case VBool(b) => b
    case VInt(i) => i != 0
    case VFloat(f) => f.value != 0.0
    case VStr(s) => s != ""
    case VList(items) => items != []
    case VDict(entries) => entries != []
  }

  /** `isinstance(v, int)`: a bool is an int in Python. */
  predicate IsInt(v: Value) { v.VInt? || v.VBool? }

  /** The integer an `int`-typed value stands for (True is 1, False is 0). */
  function IntOf(v: Value): int
    requires IsInt(v)
  {
    if v.VInt? then v.i else if v.b then 1 else 0
  }
}
