/** The content tools the server routes to (src/tools/content.py): a text
    box and an image on a slide, each placed by a routine of a script file
    through the runner's `run_function`. */
module Content {
  import opened Base
  import opened PyText
  import opened ErrorHandler
  import opened Keynote

  /** Which script file holds each routine. */
  const ScriptFiles: map<string, string> := map[
    "addTextBox" := "text_content.applescript",
    "addTitle" := "text_content.applescript",
    "addSubtitle" := "text_content.applescript",
    "addBulletList" := "text_content.applescript",
    "addNumberedList" := "text_content.applescript",
    "addCodeBlock" := "text_content.applescript",
    "addQuote" := "text_content.applescript",
    "editTextBox" := "text_content.applescript",
    "addImage" := "media_content.applescript",
    "addShape" := "shapes_tables.applescript",
    "addTable" := "shapes_tables.applescript",
    "setTableCell" := "shapes_tables.applescript",
    "setTextStyle" := "formatting.applescript",
    "positionObject" := "object_management.applescript",
    "resizeObject" := "object_management.applescript",
    "deleteObject" := "object_management.applescript",
    "getSlideContentStats" := "object_management.applescript"
  ]

  const ScriptFileNames: set<string> := {
    "text_content.applescript", "media_content.applescript", "shapes_tables.applescript",
    "formatting.applescript", "object_management.applescript"
  }

  /** The routing table sends every routine to one of the five script files,
      and uses each of them. */
  lemma ScriptFilesRouting()
    ensures forall routine :: routine in ScriptFiles ==> ScriptFiles[routine] in ScriptFileNames
    ensures forall file :: file in ScriptFileNames ==> exists routine :: routine in ScriptFiles && ScriptFiles[routine] == file
    ensures ScriptFiles["addTextBox"] == "text_content.applescript"
    ensures ScriptFiles["addImage"] == "media_content.applescript"
  {
    forall file | file in ScriptFileNames
      ensures exists routine :: routine in ScriptFiles && ScriptFiles[routine] == file
    {
      if file == "text_content.applescript" { assert ScriptFiles["addTextBox"] == file; }
      else if file == "media_content.applescript" { assert ScriptFiles["addImage"] == file; }
      else if file == "shapes_tables.applescript" { assert ScriptFiles["addShape"] == file; }
      else if file == "formatting.applescript" { assert ScriptFiles["setTextStyle"] == file; }
      else { assert ScriptFiles["deleteObject"] == file; }
    }
  }

  /** What a content tool reports, without its wording. */
  datatype Outcome =
    | TextAdded(slide: Value, x: Float, y: Float)
    | EmptyText
    | ImageAdded(slide: Value, x: Float, y: Float, path: string)
    | Failed(message: string)

  /** The verdict of `if not text or not text.strip()`. */
  datatype TextCheck = TextOk | TextEmpty | TextRaised(exc: Exc)

  /** The name Python gives the type of a value in its error messages. */
  function TypeName(v: Value): string {
    match v
    case VNone => "NoneType"
    case VBool(_) => "bool"
    case VInt(_) => "int"
    case VFloat(_) => "float"
    case VStr(_) => "str"
    case VList(_) => "list"
    case VDict(_) => "dict"
  }

  /** A falsy text is empty; a string is checked for blankness; any other
      truthy value has no `strip` method, and the call raises. */
  function CheckText(text: Value): (c: TextCheck)
    ensures c.TextOk? <==> text.VStr? && !IsBlank(text.s)
    ensures c.TextEmpty? <==> !Truthy(text) || (text.VStr? && IsBlank(text.s))
    ensures c.TextRaised? ==> c.exc.kind == AttributeError
  {
    if !Truthy(text) then TextEmpty
    else if text.VStr? then (if IsBlank(text.s) then TextEmpty else TextOk)
    else TextRaised(Exc(AttributeError, "'" + TypeName(text) + "' object has no attribute 'strip'"))
  }

  const TextDefault: (Float, Float) := (Float(100.0, "100.0"), Float(200.0, "200.0"))
  const ImageDefault: (Float, Float) := (Float(300.0, "300.0"), Float(200.0, "200.0"))

  /** `if x == 0.0 and y == 0.0: x, y = default` */
  function WithDefault(p: (Float, Float), d: (Float, Float)): (Float, Float) {
    if p.0.value == 0.0 && p.1.value == 0.0 then d else p
  }

  /** The number a valid coordinate stands for: 0.0 when it is absent. */
  function CoordValue(v: Value): real
    requires CoordinateOk(v)
  {
    if v.VNone? then 0.0 else NumberValue(v)
  }

  /** The position a tool uses for valid coordinates. */
  function Position(x: Value, y: Value, d: (Float, Float)): (Float, Float)
    requires CoordinateOk(x) && CoordinateOk(y)
  {
    WithDefault(ValidateCoordinates(x, y).value, d)
  }

  /** The default is taken exactly when both coordinates are zero, absent
      or not; a single zero coordinate is kept. */
  lemma PositionValues(x: Value, y: Value, d: (Float, Float))
    requires CoordinateOk(x) && CoordinateOk(y)
    ensures CoordValue(x) == 0.0 && CoordValue(y) == 0.0 ==> Position(x, y, d) == d
    ensures !(CoordValue(x) == 0.0 && CoordValue(y) == 0.0) ==>
      Position(x, y, d).0.value == CoordValue(x) && Position(x, y, d).1.value == CoordValue(y)
  {
  }

  /** Everything `add_text_box` checks before it calls the runner. */
  predicate TextBoxAccepted(slide: Value, text: Value, x: Value, y: Value) {
    SlideNumberOk(slide) && CoordinateOk(x) && CoordinateOk(y) && CheckText(text).TextOk?
  }

  /** The one request an accepted `add_text_box` makes. */
  function TextBoxRequest(slide: Value, text: Value, p: (Float, Float)): Request {
    Function(ScriptFiles["addTextBox"], "addTextBox", [VStr(""), slide, text, VFloat(p.0), VFloat(p.1), VInt(0), VInt(0)])
  }

  /** `add_text_box(slide_number, text, x, y)`: the slide number, then the
      coordinates, then the text are checked; only then is the runner called,
      and its answer is not used. */
  function AddTextBox(b: Backend, slide: Value, text: Value, x: Value, y: Value): (r: Reply<Outcome>)
    ensures !TextBoxAccepted(slide, text, x, y) ==> r.calls == []
    ensures TextBoxAccepted(slide, text, x, y) ==> r.calls == [TextBoxRequest(slide, text, Position(x, y, TextDefault))]
    ensures !SlideNumberOk(slide) ==> r.outcome == Failed(ValidateSlideNumber(slide, None).exc.message)
    ensures SlideNumberOk(slide) && !(CoordinateOk(x) && CoordinateOk(y)) ==>
      r.outcome == Failed(ValidateCoordinates(x, y).exc.message)
    ensures r.outcome.EmptyText? <==>
      SlideNumberOk(slide) && CoordinateOk(x) && CoordinateOk(y) && CheckText(text).TextEmpty?
    ensures r.outcome.TextAdded? <==> TextBoxAccepted(slide, text, x, y) && Succeeds(b, r.calls[0])
    ensures r.outcome.TextAdded? ==>
      r.outcome.slide == slide && (r.outcome.x, r.outcome.y) == Position(x, y, TextDefault)
  {
    match ValidateSlideNumber(slide, None)
    case Err(e) => Reply(Failed(e.message), [])
    case Ok(_) =>
      match ValidateCoordinates(x, y)
      case Err(e) => Reply(Failed(e.message), [])
      case Ok(p) =>
        match CheckText(text)
        case TextEmpty => Reply(EmptyText, [])
        case TextRaised(e) => Reply(Failed(e.message), [])
        case TextOk =>
          var q := WithDefault(p, TextDefault);
          var req := TextBoxRequest(slide, text, q);
          match b.answer(req)
          case Ok(_) => Reply(TextAdded(slide, q.0, q.1), [req])
          case Err(e) => Reply(Failed(e.message), [req])
  }

  /** Everything `add_image` checks before it calls the runner. */
  predicate ImageAccepted(slide: Value, imagePath: Value, x: Value, y: Value) {
    SlideNumberOk(slide) && ValidateFilePath(imagePath).Ok? && CoordinateOk(x) && CoordinateOk(y)
  }

  /** The one request an accepted `add_image` makes: the path goes as it
      was given, unstripped. */
  function ImageRequest(slide: Value, imagePath: Value, p: (Float, Float)): Request {
    Function(ScriptFiles["addImage"], "addImage", [VStr(""), slide, imagePath, VFloat(p.0), VFloat(p.1), VInt(0), VInt(0)])
  }

  /** `add_image(slide_number, image_path, x, y)`: the slide number, then
      the path, then the coordinates are checked. */
  function AddImage(b: Backend, slide: Value, imagePath: Value, x: Value, y: Value): (r: Reply<Outcome>)
    ensures !ImageAccepted(slide, imagePath, x, y) ==> r.calls == [] && r.outcome.Failed?
    ensures ImageAccepted(slide, imagePath, x, y) ==> r.calls == [ImageRequest(slide, imagePath, Position(x, y, ImageDefault))]
    ensures !SlideNumberOk(slide) ==> r.outcome == Failed(ValidateSlideNumber(slide, None).exc.message)
    ensures SlideNumberOk(slide) && ValidateFilePath(imagePath).Err? ==>
      r.outcome == Failed(ValidateFilePath(imagePath).exc.message)
    ensures r.outcome.ImageAdded? <==> ImageAccepted(slide, imagePath, x, y) && Succeeds(b, r.calls[0])
    ensures r.outcome.ImageAdded? ==>
      r.outcome.slide == slide && r.outcome.path == imagePath.s &&
      (r.outcome.x, r.outcome.y) == Position(x, y, ImageDefault)
  {
    match ValidateSlideNumber(slide, None)
    case Err(e) => Reply(Failed(e.message), [])
    case Ok(_) =>
      match ValidateFilePath(imagePath)
      case Err(e) => Reply(Failed(e.message), [])
      case Ok(_) =>
        match ValidateCoordinates(x, y)
        case Err(e) => Reply(Failed(e.message), [])
        case Ok(p) =>
          var q := WithDefault(p, ImageDefault);
          var req := ImageRequest(slide, imagePath, q);
          match b.answer(req)
          case Ok(_) => Reply(ImageAdded(slide, q.0, q.1, imagePath.s), [req])
          case Err(e) => Reply(Failed(e.message), [req])
  }

  /** A white-space-only text is refused without a runner call. */
  lemma BlankTextRefused(b: Backend, slide: Value, s: string)
    requires SlideNumberOk(slide) && AllSpace(s)
    ensures AddTextBox(b, slide, VStr(s), VNone, VNone) == Reply(EmptyText, [])
  {
    BlankIffAllSpace(s);
  }
}
