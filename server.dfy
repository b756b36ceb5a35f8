/** The MCP dispatcher (src/server.py): `list_tools` composes the tool
    groups, and `call_tool` routes a tool name to its handler, reading the
    handler's keyword arguments out of the argument dictionary, and turns
    whatever the handler raises into one text block. The handlers are the
    other modules of this model; here each is a collaborator that returns
    its text or raises. */
module Server {
  import opened Base
  import opened PyText

  // ---------------------------------------------------------------------
  // Tool lists
  // ---------------------------------------------------------------------

  const PresentationToolNames: seq<string> := [
    "create_presentation", "open_presentation", "save_presentation", "close_presentation",
    "list_presentations", "set_presentation_theme", "get_presentation_info",
    "get_available_themes", "get_presentation_resolution", "get_slide_size"]

  const SlideToolNames: seq<string> := [
    "add_slide", "delete_slide", "duplicate_slide", "move_slide", "get_slide_count",
    "select_slide", "set_slide_layout", "get_slide_info", "get_available_layouts"]

  const ContentToolNames: seq<string> := ["add_text_box", "add_image"]

  const ExportToolNames: seq<string> := ["screenshot_slide", "export_pdf", "export_images"]

  const SmartLayoutToolNames: seq<string> := [
    "get_available_master_slides", "suggest_layout_for_content",
    "add_slide_with_smart_layout", "get_layout_recommendations"]

  /** Tool groups the package defines but the server neither lists nor
      routes: the Zen, guided-presentation, layout-guidance and Unsplash
      tools. */
  const UnservedToolNames: seq<string> := [
    "validate_zen_principles", "detect_text_overload", "suggest_story_structure",
    "apply_kanso_principles", "check_back_row_visibility",
    "start_presentation_planning", "create_guided_slide", "check_presentation_progress",
    "get_layout_recommendations_for_position",
    "get_detailed_layout_info", "get_contextual_layout_suggestions",
    "get_recent_layout_usage", "get_layout_variety_suggestions",
    "search_unsplash_images", "add_unsplash_image_to_slide", "get_random_unsplash_image"]

  /** `list_tools`: the five groups, in order. */
  function ListTools(): (r: seq<string>)
    ensures |r| == 28
    ensures r[..10] == PresentationToolNames && r[10..19] == SlideToolNames
    ensures r[19..21] == ContentToolNames && r[21..24] == ExportToolNames
    ensures r[24..] == SmartLayoutToolNames
  {
    PresentationToolNames + SlideToolNames + ContentToolNames + ExportToolNames + SmartLayoutToolNames
  }

  // ---------------------------------------------------------------------
  // Routes
  // ---------------------------------------------------------------------

  /** One keyword argument of a handler call: `arguments[key]` or
      `arguments.get(key, default)` (`arguments.get(key)` has the default
      None). */
  datatype Param = Required(key: string) | Defaulted(key: string, default: Value)

  /** How a route reaches its handler: a call that works, a method the
      tool object does not have, or a keyword the method does not take. */
  datatype Target = Handler | MissingMethod(owner: string) | BadKeyword(callee: string, keyword: string)

  datatype Route = Route(target: Target, params: seq<Param>)

  /** The `if`/`elif` chain of `call_tool`: the route for each handled
      name, None for the rest. */
  function RouteOf(name: string): Option<Route> {
    var doc := Defaulted("doc_name", VStr(""));
    var ctype := Required("content_type");
    var cdesc := Defaulted("content_description", VStr(""));
    var slide := Required("slide_number");
    if name == "create_presentation" then
      Some(Route(Handler, [Required("title"), Defaulted("theme", VStr("")), Defaulted("template", VStr(""))]))
    else if name == "open_presentation" then Some(Route(Handler, [Required("file_path")]))
    else if name == "save_presentation" then Some(Route(Handler, [doc]))
    else if name == "close_presentation" then
      Some(Route(Handler, [doc, Defaulted("should_save", VBool(true))]))
    else if name == "list_presentations" then Some(Route(Handler, []))
    else if name == "set_presentation_theme" then Some(Route(Handler, [Required("theme_name"), doc]))
    else if name == "get_presentation_info" then Some(Route(Handler, [doc]))
    else if name == "get_available_themes" then Some(Route(Handler, []))
    else if name == "get_presentation_resolution" then Some(Route(Handler, [doc]))
    else if name == "get_slide_size" then Some(Route(Handler, [doc]))
    else if name == "add_slide" then
      Some(Route(BadKeyword("SlideTools.add_slide", "content_type"),
        [doc, Defaulted("position", VInt(0)), Defaulted("layout", VStr("")),
         Defaulted("content_type", VStr("")), cdesc]))
    else if name == "delete_slide" then Some(Route(Handler, [slide, doc]))
    else if name == "duplicate_slide" then
      Some(Route(Handler, [slide, doc, Defaulted("new_position", VInt(0))]))
    else if name == "move_slide" then
      Some(Route(Handler, [Required("from_position"), Required("to_position"), doc]))
    else if name == "get_slide_count" then Some(Route(Handler, [doc]))
    else if name == "select_slide" then Some(Route(Handler, [slide, doc]))
    else if name == "set_slide_layout" then Some(Route(Handler, [slide, Required("layout"), doc]))
    else if name == "get_slide_info" then Some(Route(Handler, [slide, doc]))
    else if name == "get_available_layouts" then Some(Route(Handler, [doc]))
    else if name == "add_text_box" then
      Some(Route(Handler, [slide, Required("text"), Defaulted("x", VNone), Defaulted("y", VNone)]))
    else if name == "add_image" then
      Some(Route(Handler, [slide, Required("image_path"), Defaulted("x", VNone), Defaulted("y", VNone)]))
    else if name == "set_slide_content" then
      Some(Route(MissingMethod("ContentTools"), [slide, Defaulted("title", VNone), Defaulted("body", VNone)]))
    else if name == "get_slide_default_elements" then
      Some(Route(MissingMethod("ContentTools"), [slide]))
    else if name == "screenshot_slide" then
      Some(Route(Handler, [slide, Required("output_path"), Defaulted("format", VStr("png"))]))
    else if name == "export_pdf" then Some(Route(Handler, [Required("output_path")]))
    else if name == "export_images" then
      Some(Route(Handler, [Required("output_dir"), Defaulted("format", VStr("png"))]))
    else if name == "get_available_master_slides" then Some(Route(Handler, [doc]))
    else if name == "suggest_layout_for_content" then Some(Route(Handler, [ctype, cdesc, doc]))
    else if name == "add_slide_with_smart_layout" then
      Some(Route(Handler, [ctype, cdesc, Defaulted("position", VInt(0)), doc]))
    else if name == "get_layout_recommendations" then Some(Route(Handler, [ctype, cdesc, doc]))
    else None
  }

  // ---------------------------------------------------------------------
  // Binding the arguments
  // ---------------------------------------------------------------------

  type Arguments = map<string, Value>

  /** A parameter the dictionary can supply: optional, or present. */
  predicate Available(p: Param, args: Arguments) {
    p.Defaulted? || p.key in args
  }

  /** The value a parameter receives. */
  function ValueOf(p: Param, args: Arguments): Value
    requires Available(p, args)
  {
    if p.key in args then args[p.key] else p.default
  }

  /** `str(KeyError(key))` */
  function KeyMissing(key: string): Exc {
    Exc(KeyError, "'" + key + "'")
  }

  /** Evaluates the keyword arguments left to right: the first required
      key that is absent raises KeyError; otherwise every parameter gets
      the dictionary's value or its default. */
  function Bind(ps: seq<Param>, args: Arguments): (r: Result<seq<Value>>)
    ensures r.Ok? <==> forall i :: 0 <= i < |ps| ==> Available(ps[i], args)
    ensures r.Ok? ==> |r.value| == |ps| && forall i :: 0 <= i < |ps| ==> r.value[i] == ValueOf(ps[i], args)
    ensures r.Err? ==>
      exists i :: (0 <= i < |ps| && !Available(ps[i], args) &&
        (forall j :: 0 <= j < i ==> Available(ps[j], args)) && r.exc == KeyMissing(ps[i].key))
  {
    if ps == [] then Ok([])
    else if !Available(ps[0], args) then Err(KeyMissing(ps[0].key))
    else
      match Bind(ps[1..], args)
      case Err(e) =>
        assert forall i :: 1 <= i < |ps| ==> ps[i] == ps[1..][i - 1];
        Err(e)
      case Ok(rest) =>
        assert forall i :: 1 <= i < |ps| ==> ps[i] == ps[1..][i - 1];
        Ok([ValueOf(ps[0], args)] + rest)
  }

  /** `str(e)` of the AttributeError for a missing method. */
  function NoAttribute(owner: string, attr: string): string {
    "'" + owner + "' object has no attribute '" + attr + "'"
  }

  /** `str(e)` of the TypeError for a keyword the callee does not take. */
  function UnexpectedKeyword(callee: string, keyword: string): string {
    callee + "() got an unexpected keyword argument '" + keyword + "'"
  }

  // ---------------------------------------------------------------------
  // Exceptions to text
  // ---------------------------------------------------------------------

  /** The `except` clauses in order: the three subclasses before
      `KeynoteError`, anything else as an unknown error. */
  function Render(e: Exc): (text: string)
  {
    match e.kind
    case ParameterError => "❌ Parameter error: " + e.message
    case AppleScriptError => "❌ AppleScript error: " + e.message
    case FileOperationError => "❌ File operation error: " + e.message
    case KeynoteError => "❌ Keynote error: " + e.message
    case _ => "❌ Unknown error: " + e.message
  }

  const UnknownPrefix := "❌ Unknown error: "

  /** Every rendering ends with the exception's text, and exactly the
      exceptions outside the Keynote hierarchy are reported as unknown. */
  lemma RenderClassifies(e: Exc)
    ensures |Render(e)| >= |e.message| && Render(e)[|Render(e)| - |e.message|..] == e.message
    ensures !IsKeynoteError(e.kind) <==> Render(e) == UnknownPrefix + e.message
    ensures e.kind.ParameterError? ==> Render(e) == "❌ Parameter error: " + e.message
  {
    if IsKeynoteError(e.kind) {
      assert Render(e)[2] != 'U' && (UnknownPrefix + e.message)[2] == 'U';
    }
  }

  // ---------------------------------------------------------------------
  // call_tool
  // ---------------------------------------------------------------------

  /** The reply of `call_tool` and the handler call it made, if any. */
  datatype Answer = Answer(blocks: seq<string>, handled: seq<(string, seq<Value>)>)

  /** `call_tool(name, arguments)`. `handle(name, values)` is the routed
      handler run on the bound keyword values. */
  function CallTool(handle: (string, seq<Value>) -> Result<string>, name: string, args: Arguments): (r: Answer)
    ensures |r.blocks| == 1 && |r.handled| <= 1
    ensures RouteOf(name).None? ==> r == Answer(["❌ Unknown tool: " + name], [])
    ensures r.handled != [] <==>
      RouteOf(name).Some? && RouteOf(name).value.target.Handler? && Bind(RouteOf(name).value.params, args).Ok?
    ensures r.handled != [] ==>
      r.handled == [(name, Bind(RouteOf(name).value.params, args).value)] &&
      (handle(r.handled[0].0, r.handled[0].1).Ok? ==> r.blocks == [handle(r.handled[0].0, r.handled[0].1).value]) &&
      (handle(r.handled[0].0, r.handled[0].1).Err? ==> r.blocks == [Render(handle(r.handled[0].0, r.handled[0].1).exc)])
  {
    match RouteOf(name)
    case None => Answer(["❌ Unknown tool: " + name], [])
    case Some(route) =>
      if route.target.MissingMethod? then
        Answer([Render(Exc(AttributeError, NoAttribute(route.target.owner, name)))], [])
      else
        match Bind(route.params, args)
        case Err(e) => Answer([Render(e)], [])
        case Ok(values) =>
          if route.target.BadKeyword? then
            Answer([Render(Exc(TypeError, UnexpectedKeyword(route.target.callee, route.target.keyword)))], [])
          else
            match handle(name, values)
            case Ok(text) => Answer([text], [(name, values)])
            case Err(e) => Answer([Render(e)], [(name, values)])
  }

  /** Every listed tool is routed, and every routed tool but the two
      missing content methods is listed. */
  lemma ListedIffRouted(name: string)
    ensures name in ListTools() ==> RouteOf(name).Some?
    ensures RouteOf(name).Some? && !RouteOf(name).value.target.MissingMethod? ==> name in ListTools()
  {
    if name in ListTools() {
      var i :| 0 <= i < |ListTools()| && ListTools()[i] == name;
      if i < 10 {
        PresentationToolsRouted(i);
      } else if i < 19 {
        SlideToolsRouted(i - 10);
      } else {
        OtherToolsRouted(i - 19);
      }
    }
    RoutedAreListed(name);
  }

  lemma PresentationToolsRouted(i: nat)
    requires i < |PresentationToolNames|
    ensures RouteOf(PresentationToolNames[i]).Some?
  {
  }

  lemma SlideToolsRouted(i: nat)
    requires i < |SlideToolNames|
    ensures RouteOf(SlideToolNames[i]).Some?
  {
  }

  lemma OtherToolsRouted(i: nat)
    requires i < 9
    ensures RouteOf((ContentToolNames + ExportToolNames + SmartLayoutToolNames)[i]).Some?
  {
  }

  lemma RoutedAreListed(name: string)
    ensures RouteOf(name).Some? && !RouteOf(name).value.target.MissingMethod? ==> name in ListTools()
  {
  }

  /** The Zen, guided, layout-guidance and Unsplash tools have no route. */
  lemma UnservedHaveNoRoute(i: nat)
    requires i < |UnservedToolNames|
    ensures RouteOf(UnservedToolNames[i]).None?
  {
    if i < 5 {
      ZenHasNoRoute(i);
    } else if i < 9 {
      GuidedHasNoRoute(i);
    } else if i < 13 {
      GuidanceHasNoRoute(i);
    } else {
      UnsplashHasNoRoute(i);
    }
  }

  lemma ZenHasNoRoute(i: nat)
    requires i < 5
    ensures RouteOf(UnservedToolNames[i]).None?
  {
  }

  lemma GuidedHasNoRoute(i: nat)
    requires 5 <= i < 9
    ensures RouteOf(UnservedToolNames[i]).None?
  {
  }

  lemma GuidanceHasNoRoute(i: nat)
    requires 9 <= i < 13
    ensures RouteOf(UnservedToolNames[i]).None?
  {
  }

  lemma UnsplashHasNoRoute(i: nat)
    requires 13 <= i < 16
    ensures RouteOf(UnservedToolNames[i]).None?
  {
  }

  /** Those tools are not listed, and calling one is answered as an
      unknown tool. */
  lemma UnservedAreUnknown(handle: (string, seq<Value>) -> Result<string>, args: Arguments, i: nat)
    requires i < |UnservedToolNames|
    ensures UnservedToolNames[i] !in ListTools()
    ensures CallTool(handle, UnservedToolNames[i], args) ==
      Answer(["❌ Unknown tool: " + UnservedToolNames[i]], [])
  {
    UnservedHaveNoRoute(i);
    ListedIffRouted(UnservedToolNames[i]);
  }

  /** The `add_slide` route never reaches a handler: its keywords are all
      optional, so binding succeeds, and the call then raises TypeError. */
  lemma AddSlideRouteFails(handle: (string, seq<Value>) -> Result<string>, args: Arguments)
    ensures CallTool(handle, "add_slide", args) ==
      Answer([UnknownPrefix + UnexpectedKeyword("SlideTools.add_slide", "content_type")], [])
  {
    var route := Route(BadKeyword("SlideTools.add_slide", "content_type"),
      [Defaulted("doc_name", VStr("")), Defaulted("position", VInt(0)), Defaulted("layout", VStr("")),
       Defaulted("content_type", VStr("")), Defaulted("content_description", VStr(""))]);
    assert RouteOf("add_slide") == Some(route);
    assert Bind(route.params, args).Ok?;
  }

  /** The two content routes whose methods do not exist fail on the method
      lookup, before any argument is read. */
  lemma MissingContentMethods(handle: (string, seq<Value>) -> Result<string>, args: Arguments)
    ensures CallTool(handle, "set_slide_content", args) ==
      Answer([UnknownPrefix + NoAttribute("ContentTools", "set_slide_content")], [])
    ensures CallTool(handle, "get_slide_default_elements", args) ==
      Answer([UnknownPrefix + NoAttribute("ContentTools", "get_slide_default_elements")], [])
  {
  }

  /** A missing required key is reported through the unknown-error branch,
      naming the key, and no handler runs. */
  lemma MissingTitle(handle: (string, seq<Value>) -> Result<string>, args: Arguments)
    requires "title" !in args
    ensures CallTool(handle, "create_presentation", args) == Answer([UnknownPrefix + KeyMissing("title").message], [])
  {
    var route := Route(Handler, [Required("title"), Defaulted("theme", VStr("")), Defaulted("template", VStr(""))]);
    assert RouteOf("create_presentation") == Some(route);
    assert !Available(route.params[0], args);
    assert Bind(route.params, args) == Err(KeyMissing("title"));
  }

  /** With no optional keys given, the handlers get their defaults:
      the front document and saving on close, ... */
  lemma CloseDefaults(handle: (string, seq<Value>) -> Result<string>)
    ensures CallTool(handle, "close_presentation", map[]).handled ==
      [("close_presentation", [VStr(""), VBool(true)])]
  {
    var ps := [Defaulted("doc_name", VStr("")), Defaulted("should_save", VBool(true))];
    assert RouteOf("close_presentation") == Some(Route(Handler, ps));
    assert Bind(ps, map[]).value == [VStr(""), VBool(true)];
  }

  /** ... a copy placed at position 0, ... */
  lemma DuplicateDefaults(handle: (string, seq<Value>) -> Result<string>, slide: Value)
    ensures CallTool(handle, "duplicate_slide", map["slide_number" := slide]).handled ==
      [("duplicate_slide", [slide, VStr(""), VInt(0)])]
  {
    var ps := [Required("slide_number"), Defaulted("doc_name", VStr("")), Defaulted("new_position", VInt(0))];
    assert RouteOf("duplicate_slide") == Some(Route(Handler, ps));
    var m := map["slide_number" := slide];
    assert Bind(ps, m).Ok?;
    assert Bind(ps, m).value == [slide, VStr(""), VInt(0)];
  }

  /** ... the PNG format for a screenshot, ... */
  lemma ScreenshotFormatDefault(handle: (string, seq<Value>) -> Result<string>, slide: Value, path: string)
    ensures CallTool(handle, "screenshot_slide", map["slide_number" := slide, "output_path" := VStr(path)]).handled ==
      [("screenshot_slide", [slide, VStr(path), VStr("png")])]
  {
    var ps := [Required("slide_number"), Required("output_path"), Defaulted("format", VStr("png"))];
    assert RouteOf("screenshot_slide") == Some(Route(Handler, ps));
    var m := map["slide_number" := slide, "output_path" := VStr(path)];
    assert Bind(ps, m).Ok?;
    assert Bind(ps, m).value == [slide, VStr(path), VStr("png")];
  }

  /** ... and for an image export, ... */
  lemma ImagesFormatDefault(handle: (string, seq<Value>) -> Result<string>, path: string)
    ensures CallTool(handle, "export_images", map["output_dir" := VStr(path)]).handled ==
      [("export_images", [VStr(path), VStr("png")])]
  {
    var ps := [Required("output_dir"), Defaulted("format", VStr("png"))];
    assert RouteOf("export_images") == Some(Route(Handler, ps));
    var m := map["output_dir" := VStr(path)];
    assert Bind(ps, m).Ok?;
    assert Bind(ps, m).value == [VStr(path), VStr("png")];
  }

  /** ... and an empty description at position 0 for a smart-layout
      slide. */
  lemma SmartAddDefaults(handle: (string, seq<Value>) -> Result<string>, contentType: Value)
    ensures CallTool(handle, "add_slide_with_smart_layout", map["content_type" := contentType]).handled ==
      [("add_slide_with_smart_layout", [contentType, VStr(""), VInt(0), VStr("")])]
  {
    var ps := [Required("content_type"), Defaulted("content_description", VStr("")),
               Defaulted("position", VInt(0)), Defaulted("doc_name", VStr(""))];
    assert RouteOf("add_slide_with_smart_layout") == Some(Route(Handler, ps));
    assert Bind(ps, map["content_type" := contentType]).value == [contentType, VStr(""), VInt(0), VStr("")];
  }
}
