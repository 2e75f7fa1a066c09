/** The processing gateway: `POST /process/<macro_type>` takes one uploaded
    CSV, saves it, runs the analysis engine of that kind in a fresh scratch
    directory and answers the first image it finds there; a `finally` block
    then deletes the upload and the scratch directory, swallowing any error.

    The engines, `secure_filename`, saving and `mkdtemp` are collaborators:
    what they do is given as an `Environment`. The file system is a `Disk`
    holding the files of the upload folder and the scratch directories. */
module Gateway {

  import opened Common
  import opened Text

  // ---------------------------------------------------------------------------
  // The extension check

  /** `allowed_file`: there is a `.` and the text after the last one,
      lowercased, is `csv`. */
  predicate AllowedFile(filename: string) {
    '.' in filename && Lower(AfterLast(filename, '.')) == "csv"
  }

  /** The same, stated as a split of the name: a stem, a dot, and an
      extension without dots that lowercases to `csv`. */
  lemma AllowedFileIff(filename: string)
    ensures AllowedFile(filename) <==> exists k :: LastDot(filename, k) && Lower(filename[k + 1..]) == "csv"
  {
    if '.' in filename {
      var k := LastIndexOf(filename, '.').value;
      var tail := filename[k + 1..];
      assert '.' !in tail by {
        forall j | 0 <= j < |tail| ensures tail[j] != '.' {
          assert tail[j] == filename[k + 1 + j];
        }
      }
      assert LastDot(filename, k);
      forall k' | LastDot(filename, k') ensures k' == k {
        DotsBefore(filename, k');
      }
    }
  }

  /** Position `k` holds the last dot of `filename`. */
  predicate LastDot(filename: string, k: int) {
    0 <= k < |filename| && filename[k] == '.' && '.' !in filename[k + 1..]
  }

  lemma DotsBefore(filename: string, k: int)
    requires 0 <= k < |filename| && '.' !in filename[k + 1..]
    ensures forall j :: k < j < |filename| ==> filename[j] != '.'
  {
    forall j | k < j < |filename| ensures filename[j] != '.' {
      assert filename[k + 1..][j - k - 1] == filename[j];
    }
  }

  /** A name split into a stem and an extension without dots is judged by the
      extension alone, without regard to case. */
  lemma AllowedBySplit(stem: string, ext: string)
    requires '.' !in ext
    ensures AllowedFile(stem + "." + ext) <==> Lower(ext) == "csv"
  {
    var f := stem + "." + ext;
    assert f[|stem|] == '.';
    assert f[|stem| + 1..] == ext;
    AllowedFileIff(f);
    if AllowedFile(f) {
      var k :| LastDot(f, k) && Lower(f[k + 1..]) == "csv";
      DotsBefore(f, k);
      assert forall j :: 0 <= j < |ext| ==> f[|stem| + 1 + j] == ext[j];
      assert k == |stem|;
    }
  }

  /** An upper-case extension passes: `a.CSV`. */
  lemma UpperCaseAllowed(f: string)
    requires f == "a.CSV"
    ensures AllowedFile(f)
  {
    assert f == "a" + "." + "CSV";
    AllowedBySplit("a", "CSV");
    assert Lower("CSV") == [LowerChar('C'), LowerChar('S'), LowerChar('V')];
  }

  /** A name that is only the extension passes: `.csv`. */
  lemma BareExtensionAllowed(f: string)
    requires f == ".csv"
    ensures AllowedFile(f)
  {
    assert f == "" + "." + "csv";
    AllowedBySplit("", "csv");
    assert Lower("csv") == [LowerChar('c'), LowerChar('s'), LowerChar('v')];
  }

  /** Only the last extension counts: `a.csv.txt` fails. */
  lemma LastExtensionJudged(f: string)
    requires f == "a.csv.txt"
    ensures !AllowedFile(f)
  {
    assert f == "a.csv" + "." + "txt";
    AllowedBySplit("a.csv", "txt");
    assert Lower("txt")[0] == LowerChar('t');
  }

  /** A name without a dot fails, even `csv`. */
  lemma NoDotRefused(f: string)
    requires f == "csv" || '.' !in f
    ensures !AllowedFile(f)
  {
    assert f == "csv" ==> '.' !in f by {
      if f == "csv" {
        assert forall j :: 0 <= j < |f| ==> f[j] != '.';
      }
    }
  }

  // ---------------------------------------------------------------------------
  // Dispatch

  /** The five analysis engines. */
  datatype Engine = AxesMapGraph | BeltsGraph | ShaperGraph | VibrationsGraph | StaticGraph

  const Kinds: seq<string> := ["axes_map", "belts", "shaper", "vibrations", "static", "excitate"]

  /** The engine of a macro type; `excitate` is served by the static engine. */
  function EngineFor(kind: string): (e: Option<Engine>)
    ensures e.Some? <==> kind in Kinds
    ensures e == Some(StaticGraph) <==> kind == "static" || kind == "excitate"
  {
    if kind == "axes_map" then Some(AxesMapGraph)
    else if kind == "belts" then Some(BeltsGraph)
    else if kind == "shaper" then Some(ShaperGraph)
    else if kind == "vibrations" then Some(VibrationsGraph)
    else if kind == "static" then Some(StaticGraph)
    else if kind == "excitate" then Some(StaticGraph)
    else None
  }

  /** Exactly the six kinds are served, and two kinds share an engine only
      when they are `static` and `excitate`. */
  lemma DispatchClosed(kind: string, other: string)
    ensures EngineFor(kind).Some? <==> kind in Kinds
    ensures EngineFor("excitate") == EngineFor("static") == Some(StaticGraph)
    ensures kind in Kinds && other in Kinds && kind != other && EngineFor(kind) == EngineFor(other) ==>
              {kind, other} == {"static", "excitate"}
  {
  }

  /** Every engine serves some kind. */
  lemma EnginesServed()
    ensures (set k | k in Kinds :: EngineFor(k).value) == {AxesMapGraph, BeltsGraph, ShaperGraph, VibrationsGraph, StaticGraph}
  {
    var served := set k | k in Kinds :: EngineFor(k).value;
    assert EngineFor(Kinds[0]).value in served;
    assert EngineFor(Kinds[1]).value in served;
    assert EngineFor(Kinds[2]).value in served;
    assert EngineFor(Kinds[3]).value in served;
    assert EngineFor(Kinds[4]).value in served;
    assert served == {AxesMapGraph, BeltsGraph, ShaperGraph, VibrationsGraph, StaticGraph};
  }

  // ---------------------------------------------------------------------------
  // The request

  /** What the collaborators of one request do. `secured` is the name
      `secure_filename` gives; `saveError` the error of `file.save`, if any;
      `scratch` the directory `mkdtemp` creates, or its error; `engine` what
      the engine leaves in the scratch directory, in listing order, and the
      error it raises, if any. */
  datatype Scratch = Created(path: string) | MkdtempFailed(message: string)
  datatype EngineRun = EngineRun(written: seq<string>, crash: Option<string>)
  datatype Environment = Environment(
    uploadFolder: string,
    secured: string,
    saveError: Option<string>,
    scratch: Scratch,
    engine: EngineRun)

  datatype Body = ErrorJson(error: string) | FileReply(path: string, mimetype: string)
  datatype Response = Response(status: int, body: Body)

  function UploadPath(env: Environment): string {
    env.uploadFolder + "/" + env.secured
  }

  /** `file.endswith(('.png', '.pdf'))`, case-sensitive. */
  predicate IsGraphFile(name: string) {
    EndsWith(name, ".png") || EndsWith(name, ".pdf")
  }

  /** The `graph_files` list: the paths of the images, in listing order. */
  function Artifacts(dir: string, names: seq<string>): seq<string>
    decreases |names|
  {
    if names == [] then []
    else Artifacts(dir, names[..|names| - 1])
         + (if IsGraphFile(names[|names| - 1]) then [dir + "/" + names[|names| - 1]] else [])
  }

  /** Membership both ways: a path is an artifact exactly when it is the
      path of a listed image. */
  lemma {:induction false} ArtifactsExact(dir: string, names: seq<string>)
    ensures forall a :: a in Artifacts(dir, names) <==> exists n :: n in names && IsGraphFile(n) && a == dir + "/" + n
    ensures Artifacts(dir, names) == [] <==> forall n | n in names :: !IsGraphFile(n)
    decreases |names|
  {
    if names != [] {
      var front := names[..|names| - 1];
      var last := names[|names| - 1];
      ArtifactsExact(dir, front);
      assert names == front + [last];
      assert forall n :: n in names <==> n in front || n == last;
    }
  }

  function BadRequest(message: string): Response {
    Response(400, ErrorJson(message))
  }

  function ServerError(message: string): Response {
    Response(500, ErrorJson(message))
  }

  /** The three checks that answer 400 before the upload is touched. */
  function Precheck(file: Option<string>): Option<Response> {
    if file.None? then Some(BadRequest("No file provided"))
    else if file.value == "" then Some(BadRequest("No file selected"))
    else if !AllowedFile(file.value) then Some(BadRequest("Invalid file type. Only CSV files are allowed"))
    else None
  }

  /** The answer to `POST /process/<kind>` with the uploaded file name `file`
      (None when there is no `file` field). */
  function ProcessResponse(kind: string, file: Option<string>, env: Environment): Response {
    if Precheck(file).Some? then Precheck(file).value
    else if env.saveError.Some? then ServerError(env.saveError.value)
    else if env.scratch.MkdtempFailed? then ServerError(env.scratch.message)
    else if EngineFor(kind).None? then BadRequest("Unknown macro type: " + kind)
    else if env.engine.crash.Some? then ServerError(env.engine.crash.value)
    else
      var graphs := Artifacts(env.scratch.path, env.engine.written);
      if graphs == [] then ServerError("No graphs were generated")
      else Response(200, FileReply(graphs[0], "image/png"))
  }

  /** The 400 checks come in order: the missing field, the empty name, then
      the extension. */
  lemma PrecheckOrder(kind: string, file: Option<string>, env: Environment)
    ensures file.None? ==> ProcessResponse(kind, file, env) == BadRequest("No file provided")
    ensures file == Some("") ==> ProcessResponse(kind, file, env) == BadRequest("No file selected")
    ensures file.Some? && file.value != "" && !AllowedFile(file.value) ==>
              ProcessResponse(kind, file, env) == BadRequest("Invalid file type. Only CSV files are allowed")
    ensures Precheck(file).None? <==> file.Some? && AllowedFile(file.value)
  {
  }

  /** The answer is 200, 400 or 500; 200 exactly when the file passes, it is
      saved, the scratch directory is made, the kind is known, the engine
      does not raise and it leaves an image, and then the answer is an image
      it left, labelled `image/png`. */
  lemma ResponseOutcomes(kind: string, file: Option<string>, env: Environment)
    ensures var r := ProcessResponse(kind, file, env);
            (r.status == 200 || r.status == 400 || r.status == 500)
            && (r.status == 200 <==>
                  Precheck(file).None? && env.saveError.None? && env.scratch.Created? && EngineFor(kind).Some?
                  && env.engine.crash.None? && exists n :: n in env.engine.written && IsGraphFile(n))
            && (r.status == 200 ==>
                  r.body.FileReply? && r.body.mimetype == "image/png"
                  && exists n :: n in env.engine.written && IsGraphFile(n) && r.body.path == env.scratch.path + "/" + n)
  {
    if env.scratch.Created? {
      var graphs := Artifacts(env.scratch.path, env.engine.written);
      ArtifactsExact(env.scratch.path, env.engine.written);
      if graphs != [] {
        assert graphs[0] in graphs;
      }
    }
  }

  /** An exception from saving, `mkdtemp` or the engine is answered with 500
      and its text. */
  lemma ErrorsAnswered(kind: string, file: Option<string>, env: Environment)
    requires Precheck(file).None?
    ensures env.saveError.Some? ==> ProcessResponse(kind, file, env) == ServerError(env.saveError.value)
    ensures env.saveError.None? && env.scratch.MkdtempFailed? ==>
              ProcessResponse(kind, file, env) == ServerError(env.scratch.message)
    ensures env.saveError.None? && env.scratch.Created? && EngineFor(kind).Some? && env.engine.crash.Some? ==>
              ProcessResponse(kind, file, env) == ServerError(env.engine.crash.value)
    ensures env.saveError.None? && env.scratch.Created? && EngineFor(kind).Some? && env.engine.crash.None?
            && (forall n | n in env.engine.written :: !IsGraphFile(n)) ==>
              ProcessResponse(kind, file, env) == ServerError("No graphs were generated")
  {
    if env.scratch.Created? {
      ArtifactsExact(env.scratch.path, env.engine.written);
    }
  }

  /** An unknown kind is refused with 400 without running any engine: what
      the engine would do does not matter. */
  lemma UnknownKindRefused(kind: string, file: Option<string>, env: Environment, engine: EngineRun)
    requires Precheck(file).None? && env.saveError.None? && env.scratch.Created? && kind !in Kinds
    ensures ProcessResponse(kind, file, env) == BadRequest("Unknown macro type: " + kind)
    ensures ProcessResponse(kind, file, env) == ProcessResponse(kind, file, env.(engine := engine))
  {
    DispatchClosed(kind, kind);
  }

  // ---------------------------------------------------------------------------
  // The file system

  /** The names of a listing, as a set. */
  function Members(names: seq<string>): set<string> {
    set n | n in names
  }

  /** No name twice, as in a directory listing. */
  predicate Distinct(names: seq<string>) {
    forall i, j :: 0 <= i < j < |names| ==> names[i] != names[j]
  }

  /** The upload folder's files, and each scratch directory with its entries. */
  class Disk {
    var files: set<string>
    var dirs: map<string, set<string>>

    constructor (files: set<string>, dirs: map<string, set<string>>)
      ensures this.files == files && this.dirs == dirs
    {
      this.files := files;
      this.dirs := dirs;
    }

    /** `file.save(path)`. */
    method Save(path: string)
      modifies this
      ensures files == old(files) + {path} && dirs == old(dirs)
    {
      files := files + {path};
    }

    /** `tempfile.mkdtemp()` returning the fresh `path`. */
    method MakeScratch(path: string)
      requires path !in dirs
      modifies this
      ensures dirs == old(dirs)[path := {}] && files == old(files)
    {
      dirs := dirs[path := {}];
    }

    /** What the engine leaves in its scratch directory. */
    method Deposit(dir: string, names: seq<string>)
      requires dir in dirs
      modifies this
      ensures dirs == old(dirs)[dir := old(dirs)[dir] + Members(names)] && files == old(files)
    {
      dirs := dirs[dir := dirs[dir] + Members(names)];
    }

    /** `os.remove` on an upload; false when the file is not there. */
    method Remove(path: string) returns (ok: bool)
      modifies this
      ensures ok <==> path in old(files)
      ensures files == old(files) - {path} && dirs == old(dirs)
    {
      ok := path in files;
      files := files - {path};
    }

    /** `os.remove` on an entry of a scratch directory. */
    method RemoveEntry(dir: string, name: string) returns (ok: bool)
      modifies this
      ensures ok <==> dir in old(dirs) && name in old(dirs)[dir]
      ensures ok ==> dirs == old(dirs)[dir := old(dirs)[dir] - {name}]
      ensures !ok ==> dirs == old(dirs)
      ensures files == old(files)
    {
      ok := dir in dirs && name in dirs[dir];
      if ok {
        dirs := dirs[dir := dirs[dir] - {name}];
      }
    }

    /** `os.rmdir`: only an empty directory goes. */
    method RemoveDir(dir: string) returns (ok: bool)
      modifies this
      ensures ok <==> dir in old(dirs) && old(dirs)[dir] == {}
      ensures dirs == if ok then old(dirs) - {dir} else old(dirs)
      ensures files == old(files)
    {
      ok := dir in dirs && dirs[dir] == {};
      if ok {
        dirs := dirs - {dir};
      }
    }
  }

  /** The `finally` block: remove the upload, then every entry of the scratch
      directory (when one was made) and the directory itself; the first
      failure ends the cleanup silently. */
  method Cleanup(disk: Disk, path: string, scratch: Option<string>, entries: seq<string>)
    modifies disk
    ensures path in old(disk.files) ==> disk.files == old(disk.files) - {path}
    ensures path !in old(disk.files) ==> disk.files == old(disk.files) && disk.dirs == old(disk.dirs)
    ensures scratch.None? ==> disk.dirs == old(disk.dirs)
    ensures path in old(disk.files) && scratch.Some? && scratch.value in old(disk.dirs)
            && old(disk.dirs)[scratch.value] == Members(entries) && Distinct(entries) ==>
              disk.dirs == old(disk.dirs) - {scratch.value}
  {
    var ok := disk.Remove(path);
    if !ok || scratch.None? {
      return;
    }
    var dir := scratch.value;
    ghost var dirs0 := disk.dirs;
    ghost var tidy := dir in dirs0 && dirs0[dir] == Members(entries) && Distinct(entries);
    var i := 0;
    while i < |entries|
      invariant 0 <= i <= |entries|
      invariant disk.files == old(disk.files) - {path}
      invariant tidy ==> disk.dirs == dirs0[dir := Members(entries[i..])]
    {
      ok := disk.RemoveEntry(dir, entries[i]);
      if !ok {
        return;
      }
      assert tidy ==> Members(entries[i..]) - {entries[i]} == Members(entries[i + 1..]) by {
        if tidy {
          assert entries[i..] == [entries[i]] + entries[i + 1..];
          assert entries[i] !in entries[i + 1..];
        }
      }
      i := i + 1;
    }
    ok := disk.RemoveDir(dir);
    assert tidy ==> disk.dirs == dirs0 - {dir} by {
      if tidy {
        assert entries[i..] == [];
        assert dirs0[dir := {}] - {dir} == dirs0 - {dir};
      }
    }
  }

  /** The disk before one file is saved: the upload path is not a scratch
      directory and a fresh scratch directory is new. */
  predicate Fresh(disk: Disk, env: Environment)
    reads disk
  {
    (env.scratch.Created? ==> env.scratch.path !in disk.dirs) && Distinct(env.engine.written)
  }

  /** `process_data`: the checks, the save, the scratch directory, the
      dispatch, the engine, the artifact loop, and the cleanup. The answer is
      the one `ProcessResponse` gives; a request refused by the checks leaves
      the disk alone, and every other request leaves it as it was but for
      the upload path, whatever happened. */
  method ProcessData(disk: Disk, kind: string, file: Option<string>, env: Environment) returns (r: Response)
    requires Fresh(disk, env)
    modifies disk
    ensures r == ProcessResponse(kind, file, env)
    ensures Precheck(file).Some? ==> disk.files == old(disk.files) && disk.dirs == old(disk.dirs)
    ensures Precheck(file).None? ==> disk.files == old(disk.files) - {UploadPath(env)} && disk.dirs == old(disk.dirs)
  {
    if file.None? {
      return BadRequest("No file provided");
    }
    if file.value == "" {
      return BadRequest("No file selected");
    }
    if !AllowedFile(file.value) {
      return BadRequest("Invalid file type. Only CSV files are allowed");
    }
    var path := UploadPath(env);
    if env.saveError.Some? {
      r := ServerError(env.saveError.value);
      Cleanup(disk, path, None, []);
      return;
    }
    disk.Save(path);
    if env.scratch.MkdtempFailed? {
      r := ServerError(env.scratch.message);
      Cleanup(disk, path, None, []);
      return;
    }
    var dir := env.scratch.path;
    disk.MakeScratch(dir);
    if EngineFor(kind).None? {
      r := BadRequest("Unknown macro type: " + kind);
      Cleanup(disk, path, Some(dir), []);
      return;
    }
    disk.Deposit(dir, env.engine.written);
    assert disk.dirs[dir] == Members(env.engine.written);
    if env.engine.crash.Some? {
      r := ServerError(env.engine.crash.value);
    } else {
      var graphs := CollectGraphs(dir, env.engine.written);
      if graphs == [] {
        r := ServerError("No graphs were generated");
      } else {
        r := Response(200, FileReply(graphs[0], "image/png"));
      }
    }
    Cleanup(disk, path, Some(dir), env.engine.written);
  }

  /** The loop over the listing that keeps the images. */
  method CollectGraphs(dir: string, listing: seq<string>) returns (graphs: seq<string>)
    ensures graphs == Artifacts(dir, listing)
  {
    graphs := [];
    var i := 0;
    while i < |listing|
      invariant 0 <= i <= |listing|
      invariant graphs == Artifacts(dir, listing[..i])
    {
      assert listing[..i + 1][..i] == listing[..i];
      if IsGraphFile(listing[i]) {
        graphs := graphs + [dir + "/" + listing[i]];
      }
      i := i + 1;
    }
    assert listing[..i] == listing;
  }
}
