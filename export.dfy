/** The export tools (src/tools/export.py; src/tools/export_fixed.py has
    the same logic): a slide screenshot staged through a temporary
    directory, a PDF export and an image-sequence export. The file system
    is a set of existing paths; a directory's contents are the paths below
    it. */
module Export {
  import opened Base
  import opened PyText
  import opened ErrorHandler
  import opened Keynote
  import Content

  /** What an export tool reports, without its wording. */
  datatype Outcome =
    | Saved(path: string)
    | NoScreenshot
    | PdfExported(path: string)
    | ImagesExported(dir: string)
    | Failed(message: string)

  // ---------------------------------------------------------------------
  // Paths
  // ---------------------------------------------------------------------

  /** `p` is `dir` or lies below it. */
  predicate Under(p: string, dir: string) {
    p == dir || (|p| > |dir| && p[..|dir| + 1] == dir + "/")
  }

  /** What `shutil.rmtree(dir)` leaves of `ps`. */
  function Removed(ps: set<string>, dir: string): (r: set<string>)
    ensures forall p :: p in r <==> p in ps && !Under(p, dir)
  {
    set p | p in ps && !Under(p, dir)
  }

  /** Removing a tree no existing path lies in only drops what was added
      to it. */
  lemma RemovedSplits(old_: set<string>, added: set<string>, dir: string)
    requires forall p :: p in old_ ==> !Under(p, dir)
    ensures Removed(old_ + added, dir) == old_ + Removed(added, dir)
  {
  }

  /** The index of the last '/', or -1. */
  function LastSlash(p: string): (i: int)
    ensures -1 <= i < |p|
    ensures i >= 0 ==> p[i] == '/'
    ensures forall k :: i < k < |p| ==> p[k] != '/'
  {
    if p == [] then -1
    else if p[|p| - 1] == '/' then |p| - 1
    else LastSlash(p[..|p| - 1])
  }

  /** Every character of `s` is '/'. */
  predicate AllSlashes(s: string) {
    forall k :: 0 <= k < |s| ==> s[k] == '/'
  }

  /** `s.rstrip('/')` */
  function RStripSlash(s: string): (r: string)
    ensures |r| <= |s| && r == s[..|r|]
    ensures r == [] || r[|r| - 1] != '/'
    ensures !AllSlashes(s) ==> r != []
  {
    if s != [] && s[|s| - 1] == '/' then RStripSlash(s[..|s| - 1]) else s
  }

  /** `os.path.dirname(p)`: the text up to the last '/', trailing slashes
      removed unless it is all slashes. */
  function Dirname(p: string): (d: string)
    ensures d == "" <==> '/' !in p
    ensures |d| <= |p| && d == p[..|d|]
  {
    var head := p[..LastSlash(p) + 1];
    if !AllSlashes(head) then RStripSlash(head) else head
  }

  /** A path with a directory part names it; a bare file name has none. */
  lemma DirnameExamples()
    ensures Dirname("/tmp/out/shot.png") == "/tmp/out"
    ensures Dirname("shot.png") == ""
  {
    var p := "/tmp/out/shot.png";
    assert LastSlash(p) == 8 by {
      assert p[8] == '/';
      assert forall k :: 8 < k < |p| ==> p[k] != '/';
    }
    var head := p[..9];
    assert head == "/tmp/out/";
    assert head[1] != '/';
    assert RStripSlash(head) == RStripSlash("/tmp/out") == "/tmp/out";
  }

  /** `"JPEG" if format.lower() == "jpg" else "PNG"`; a format that is not a
      string has no `lower` method. */
  function FormatOf(format: Value): (r: Result<ImageFormat>)
    ensures r.Ok? <==> format.VStr?
    ensures r.Ok? ==> (r.value == JPEG <==> Lower(format.s) == "jpg")
    ensures r.Err? ==> r.exc.kind == AttributeError
  {
    if format.VStr? then Ok(if Lower(format.s) == "jpg" then JPEG else PNG)
    else Err(Exc(AttributeError, "'" + Content.TypeName(format) + "' object has no attribute 'lower'"))
  }

  /** "jpg" in any case is JPEG; "jpeg" and "png" are PNG. */
  lemma FormatExamples()
    ensures FormatOf(VStr("JPG")) == Ok(JPEG) && FormatOf(VStr("jpg")) == Ok(JPEG)
    ensures FormatOf(VStr("jpeg")) == Ok(PNG) && FormatOf(VStr("png")) == Ok(PNG)
  {
    assert Lower("JPG") == "jpg";
    assert |Lower("jpeg")| == 4;
    assert Lower("png")[0] == 'p';
  }

  /** The exception `os.makedirs('')` raises. */
  const NoDirectory := Exc(FileNotFoundError, "[Errno 2] No such file or directory: ''")

  /** The paths of the files the export left in `dir`. */
  function StagedPaths(dir: string, names: seq<string>): set<string> {
    set n | n in names :: dir + "/" + n
  }

  lemma StagedUnder(dir: string, names: seq<string>)
    ensures forall p :: p in StagedPaths(dir, names) ==> Under(p, dir)
  {
    forall p | p in StagedPaths(dir, names) ensures Under(p, dir) {
      var n :| n in names && p == dir + "/" + n;
      assert p[..|dir| + 1] == dir + "/";
    }
  }

  /** The inputs `screenshot_slide` accepts before touching anything. */
  predicate Accepted(slide: Value, outputPath: Value, format: Value) {
    SlideNumberOk(slide) && ValidateFilePath(outputPath).Ok? && FormatOf(format).Ok?
  }

  /** The export script for one slide into the temporary directory. */
  function ShotRequest(slide: Value, format: Value, temp: string): Request
    requires FormatOf(format).Ok?
  {
    Inline(ExportSlide(PyStr(slide), FormatOf(format).value, temp + "/"))
  }

  /** Removing the temporary tree after a failure restores the paths. */
  lemma CleanupRestores(before: set<string>, temp: string, files: set<string>)
    requires forall p :: p in before ==> !Under(p, temp)
    requires forall p :: p in files ==> Under(p, temp)
    ensures Removed(before + {temp} + files, temp) == before
  {
    RemovedSplits(before, {temp} + files, temp);
  }

  /** After the move and the cleanup only the target directory and the
      target file are new. */
  lemma CleanupKeepsTarget(before: set<string>, temp: string, files: set<string>,
                           dir: string, src: string, out: string)
    requires forall p :: p in before ==> !Under(p, temp)
    requires forall p :: p in files ==> Under(p, temp)
    requires Under(src, temp)
    ensures Removed(before + {temp} + files + {dir} - {src} + {out}, temp) == before + Removed({dir, out}, temp)
  {
    assert Removed(before + {temp} + files + {dir} - {src} + {out}, temp) == Removed(before + {dir, out}, temp);
    RemovedSplits(before, {dir, out}, temp);
  }

  // ---------------------------------------------------------------------
  // The file system and the tools
  // ---------------------------------------------------------------------

  class Exporter {
    /** The paths that exist. */
    var paths: set<string>

    constructor(existing: set<string>)
      ensures paths == existing
    {
      paths := existing;
    }

    /** `os.makedirs(dir, exist_ok=True)`: the empty name raises. Only the
        directory itself is recorded. */
    method MakeDirs(dir: string) returns (err: Option<Exc>)
      modifies this
      ensures dir == "" ==> err == Some(NoDirectory) && paths == old(paths)
      ensures dir != "" ==> err == None && paths == old(paths) + {dir}
    {
      if dir == "" {
        return Some(NoDirectory);
      }
      paths := paths + {dir};
      return None;
    }

    /** `shutil.rmtree(dir)` when `dir` exists. */
    method RemoveTree(dir: string)
      modifies this
      ensures paths == Removed(old(paths), dir)
    {
      paths := Removed(paths, dir);
    }

    /** `screenshot_slide(slide_number, output_path, format)`. The slide
        number, the path and the format are checked before anything is
        created; `temp` is the fresh name `mkdtemp` returns, and `staged`
        what `os.listdir` finds in it after the export. Only the first
        staged file is moved to the target, and the temporary directory is
        gone on every way out. */
    method ScreenshotSlide(b: Backend, slide: Value, outputPath: Value, format: Value,
                           temp: string, staged: seq<string>) returns (r: Reply<Outcome>)
      requires forall p :: p in paths ==> !Under(p, temp)
      modifies this
      ensures forall p :: p in paths ==> !Under(p, temp)
      ensures !Accepted(slide, outputPath, format) ==>
        r.calls == [] && r.outcome.Failed? && paths == old(paths)
      ensures Accepted(slide, outputPath, format) ==> r.calls == [ShotRequest(slide, format, temp)]
      ensures Accepted(slide, outputPath, format) && !Succeeds(b, ShotRequest(slide, format, temp)) ==>
        r.outcome == Failed(b.answer(ShotRequest(slide, format, temp)).exc.message) && paths == old(paths)
      ensures Accepted(slide, outputPath, format) && Succeeds(b, ShotRequest(slide, format, temp)) &&
              Dirname(outputPath.s) == "" ==>
        r.outcome == Failed(NoDirectory.message) && paths == old(paths)
      ensures Accepted(slide, outputPath, format) && Succeeds(b, ShotRequest(slide, format, temp)) &&
              Dirname(outputPath.s) != "" && staged == [] ==>
        r.outcome == NoScreenshot && paths == old(paths) + Removed({Dirname(outputPath.s)}, temp)
      ensures Accepted(slide, outputPath, format) && Succeeds(b, ShotRequest(slide, format, temp)) &&
              Dirname(outputPath.s) != "" && staged != [] ==>
        r.outcome == Saved(outputPath.s) &&
        paths == old(paths) + Removed({Dirname(outputPath.s), outputPath.s}, temp)
    {
      var v := ValidateSlideNumber(slide, None);
      if v.Err? {
        return Reply(Failed(v.exc.message), []);
      }
      var checked := ValidateFilePath(outputPath);
      if checked.Err? {
        return Reply(Failed(checked.exc.message), []);
      }
      var f := FormatOf(format);
      if f.Err? {
        return Reply(Failed(f.exc.message), []);
      }
      var req := Inline(ExportSlide(PyStr(slide), f.value, temp + "/"));
      r := Capture(b, req, outputPath.s, temp, staged);
    }

    /** The part of `screenshot_slide` after the checks: make the temporary
        directory, run the export into it, make the target's directory,
        move the first staged file there, and remove the temporary tree. */
    method Capture(b: Backend, req: Request, out: string, temp: string, staged: seq<string>)
      returns (r: Reply<Outcome>)
      requires forall p :: p in paths ==> !Under(p, temp)
      modifies this
      ensures forall p :: p in paths ==> !Under(p, temp)
      ensures r.calls == [req]
      ensures !Succeeds(b, req) ==> r.outcome == Failed(b.answer(req).exc.message) && paths == old(paths)
      ensures Succeeds(b, req) && Dirname(out) == "" ==>
        r.outcome == Failed(NoDirectory.message) && paths == old(paths)
      ensures Succeeds(b, req) && Dirname(out) != "" && staged == [] ==>
        r.outcome == NoScreenshot && paths == old(paths) + Removed({Dirname(out)}, temp)
      ensures Succeeds(b, req) && Dirname(out) != "" && staged != [] ==>
        r.outcome == Saved(out) && paths == old(paths) + Removed({Dirname(out), out}, temp)
    {
      var dir := Dirname(out);
      ghost var before := paths;
      paths := paths + {temp};
      var answer := b.answer(req);
      var files := StagedPaths(temp, staged);
      StagedUnder(temp, staged);
      if answer.Err? {
        RemoveTree(temp);
        CleanupRestores(before, temp, {});
        return Reply(Failed(answer.exc.message), [req]);
      }
      paths := paths + files;
      var err := MakeDirs(dir);
      if err.Some? {
        RemoveTree(temp);
        CleanupRestores(before, temp, files);
        return Reply(Failed(err.value.message), [req]);
      }
      if staged != [] {
        var src := temp + "/" + staged[0];
        assert src in files;
        paths := paths - {src} + {out};
        RemoveTree(temp);
        CleanupKeepsTarget(before, temp, files, dir, src, out);
        r := Reply(Saved(out), [req]);
      } else {
        assert files == {};
        RemoveTree(temp);
        CleanupKeepsTarget(before, temp, files, dir, temp, dir);
        r := Reply(NoScreenshot, [req]);
      }
    }

    /** `export_pdf(output_path)`: the path is checked and its directory
        made before the export runs; a bare file name has no directory, and
        `makedirs('')` raises. */
    method ExportPdf(b: Backend, outputPath: Value) returns (r: Reply<Outcome>)
      modifies this
      ensures ValidateFilePath(outputPath).Err? ==>
        r == Reply(Failed(ValidateFilePath(outputPath).exc.message), []) && paths == old(paths)
      ensures ValidateFilePath(outputPath).Ok? && Dirname(outputPath.s) == "" ==>
        r == Reply(Failed(NoDirectory.message), []) && paths == old(paths)
      ensures ValidateFilePath(outputPath).Ok? && Dirname(outputPath.s) != "" ==>
        var req := Inline(ExportAsPdf(outputPath.s));
        r.calls == [req] && paths == old(paths) + {Dirname(outputPath.s)} &&
        (Succeeds(b, req) ==> r.outcome == PdfExported(outputPath.s)) &&
        (!Succeeds(b, req) ==> r.outcome == Failed(b.answer(req).exc.message))
    {
      var checked := ValidateFilePath(outputPath);
      if checked.Err? {
        return Reply(Failed(checked.exc.message), []);
      }
      var err := MakeDirs(Dirname(outputPath.s));
      if err.Some? {
        return Reply(Failed(err.value.message), []);
      }
      var req := Inline(ExportAsPdf(outputPath.s));
      match b.answer(req)
      case Ok(_) =>
        r := Reply(PdfExported(outputPath.s), [req]);
      case Err(e) =>
        r := Reply(Failed(e.message), [req]);
    }

    /** `export_images(output_dir, format)`: the directory is made before
        the format is read, so a format that is not a string fails after
        the directory exists. */
    method ExportImages(b: Backend, outputDir: Value, format: Value) returns (r: Reply<Outcome>)
      modifies this
      ensures ValidateFilePath(outputDir).Err? ==>
        r == Reply(Failed(ValidateFilePath(outputDir).exc.message), []) && paths == old(paths)
      ensures ValidateFilePath(outputDir).Ok? ==> paths == old(paths) + {outputDir.s}
      ensures ValidateFilePath(outputDir).Ok? && FormatOf(format).Err? ==>
        r == Reply(Failed(FormatOf(format).exc.message), [])
      ensures ValidateFilePath(outputDir).Ok? && FormatOf(format).Ok? ==>
        var req := Inline(ExportAllAs(FormatOf(format).value, outputDir.s + "/"));
        r.calls == [req] &&
        (Succeeds(b, req) ==> r.outcome == ImagesExported(outputDir.s)) &&
        (!Succeeds(b, req) ==> r.outcome == Failed(b.answer(req).exc.message))
    {
      var checked := ValidateFilePath(outputDir);
      if checked.Err? {
        return Reply(Failed(checked.exc.message), []);
      }
      var err := MakeDirs(outputDir.s);
      if err.Some? {
        assert false;
      }
      var f := FormatOf(format);
      if f.Err? {
        return Reply(Failed(f.exc.message), []);
      }
      var req := Inline(ExportAllAs(f.value, outputDir.s + "/"));
      match b.answer(req)
      case Ok(_) =>
        r := Reply(ImagesExported(outputDir.s), [req]);
      case Err(e) =>
        r := Reply(Failed(e.message), [req]);
    }
  }
}
