/** The host's virtual filesystem of fs.go: `PluginFile`, a file value with
    synthetic metadata over a byte source or a byte sink, and `PluginFS`, the
    registry that resolves the two-segment paths `in/<id>` and `out/<id>`.
    Each registry call runs under one mutex in the source; here each call is
    one atomic step.
 */
module Fs {
  import opened Strings

  newtype byte = x: int | 0 <= x < 256

  /** The three `io/fs` sentinel errors the registry returns. */
  datatype FsError = ErrPermission | ErrNotExist | ErrExist

  /** A value or one of the sentinel errors, as Go's `(T, error)` pair. */
  datatype Result<T> = Ok(value: T) | Err(error: FsError)

  /** A Go `error` that may be nil. */
  datatype Status = Nil | Failed(error: FsError)

  /** `io/fs.FileMode`, a 32-bit mask: the type bits at the top, the Unix
      permission bits at the bottom. */
  type FileMode = bv32

  const ModeDir: FileMode := 1 << 31
  const ModeSymlink: FileMode := 1 << 27
  const ModeDevice: FileMode := 1 << 26
  const ModeNamedPipe: FileMode := 1 << 25
  const ModeSocket: FileMode := 1 << 24
  const ModeCharDevice: FileMode := 1 << 21
  const ModeIrregular: FileMode := 1 << 19
  /** The bits that tell a file's type; none set means a regular file. */
  const ModeType: FileMode :=
    ModeDir | ModeSymlink | ModeNamedPipe | ModeSocket | ModeDevice | ModeCharDevice | ModeIrregular
  /** The Unix permission bits, octal 0777. */
  const ModePerm: FileMode := 0x1FF
  /** Read permission for owner, group and others, octal 0444. */
  const ReadOnlyPerm: FileMode := 0x124
  /** Write permission for owner, group and others, octal 0222. */
  const WritePerm: FileMode := 0x92

  /** Both ends of one `io.Pipe`: what the guest writes on the write end the
      host reads on the read end, which sees end-of-stream once the write end
      is closed. The bytes in flight are not modelled. */
  class Pipe {
    var closed: bool

    constructor ()
      ensures !closed
    {
      closed := false;
    }

    /** `io.PipeWriter.Close`: end-of-stream for the reader; closing again is harmless. */
    method CloseWrite()
      modifies this
      ensures closed
    {
      closed := true;
    }
  }

  /** A virtual file. `reader` is the `bytes.Buffer` a read-mode file serves
      (None stands for a nil reader), `writer` the pipe a write-mode file
      feeds, and `mode` is true for write mode. No field changes after
      construction. */
  class PluginFile {
    const name: string
    const reader: Option<seq<byte>>
    const writer: Pipe?
    const mode: bool

    constructor (name: string, reader: Option<seq<byte>>, writer: Pipe?, mode: bool)
      ensures this.name == name && this.reader == reader
      ensures this.writer == writer && this.mode == mode
    {
      this.name := name;
      this.reader := reader;
      this.writer := writer;
      this.mode := mode;
    }

    function Name(): string { name }
    function Size(): int { 0 }
    function IsDir(): bool { false }
    function Mode(): FileMode { ReadOnlyPerm }
    function Type(): FileMode { Mode() & ModeType }
    /** `Info` and `Stat` both describe the file by the file itself, with a nil error. */
    function Info(): Result<PluginFile> { Ok(this) }
    function Stat(): Result<PluginFile> { Ok(this) }

    /** Closes the pipe of a write-mode file; a read-mode file has nothing to
        release. The result is always nil. A write-mode file without a
        writer would dereference nil in the source, hence the requires. */
    method Close() returns (err: Status)
      requires mode ==> writer != null
      modifies writer
      ensures err == Nil
      ensures mode ==> writer.closed
      ensures !mode && writer != null ==> writer.closed == old(writer.closed)
    {
      if mode {
        writer.CloseWrite();
      }
      err := Nil;
    }
  }

  datatype Option<T> = None | Some(value: T)

  /** The file a map holds for `id`, or the not-found error. */
  function Lookup(files: map<string, PluginFile>, id: string): Result<PluginFile>
  {
    if id in files then Ok(files[id]) else Err(ErrNotExist)
  }

  /** `in/<id>` with an `id` that holds no `/`. */
  predicate InPath(name: string) {
    |name| >= 3 && name[..3] == "in/" && '/' !in name[3..]
  }

  /** `out/<id>` with an `id` that holds no `/`. */
  predicate OutPath(name: string) {
    |name| >= 4 && name[..4] == "out/" && '/' !in name[4..]
  }

  /** The registry: read-mode files under `in/<id>`, write-mode files under
      `out/<id>`, both keyed by task id. */
  class PluginFS {
    var inFiles: map<string, PluginFile>
    var outFiles: map<string, PluginFile>

    /** Every task id has both of its files or neither. */
    ghost predicate Paired()
      reads this
    {
      inFiles.Keys == outFiles.Keys
    }

    /** The registry as the host builds it, with two empty maps. */
    constructor ()
      ensures inFiles == map[] && outFiles == map[]
      ensures Paired()
    {
      inFiles := map[];
      outFiles := map[];
    }

    /** `fs.FS.Open`: splits `name` on `/`, wants exactly two segments and
        dispatches on the first. A name of any other shape is a permission
        error; a well-formed name of an unregistered id is not-found. */
    function Open(name: string): (r: Result<PluginFile>)
      reads this
      ensures multiset(name)['/'] != 1 ==> r == Err(ErrPermission)
      ensures r.Ok? ==> r.value in inFiles.Values || r.value in outFiles.Values
    {
      var parts := Split(name, '/');
      SplitSpec(name, '/');
      if |parts| != 2 then Err(ErrPermission)
      else if parts[0] == "in" then Lookup(inFiles, parts[1])
      else if parts[0] == "out" then Lookup(outFiles, parts[1])
      else Err(ErrPermission)
    }

    /** Check-then-insert: an id already present in either map is refused
        with nothing changed; otherwise both files are inserted together. */
    method Register(id: string, inFile: PluginFile, outFile: PluginFile) returns (err: Status)
      modifies this
      ensures err == (if id in old(inFiles) || id in old(outFiles) then Failed(ErrExist) else Nil)
      ensures err.Failed? ==> inFiles == old(inFiles) && outFiles == old(outFiles)
      ensures err == Nil ==> inFiles == old(inFiles)[id := inFile] && outFiles == old(outFiles)[id := outFile]
      ensures old(Paired()) ==> Paired()
    {
      if id in inFiles {
        return Failed(ErrExist);
      }
      if id in outFiles {
        return Failed(ErrExist);
      }
      inFiles := inFiles[id := inFile];
      outFiles := outFiles[id := outFile];
      return Nil;
    }
  }

  /** Splitting a name of the form `<a>/<b>` with separator-free `a` and `b`. */
  lemma SplitPath(name: string, dirLen: nat)
    requires dirLen < |name| && name[dirLen] == '/'
    requires '/' !in name[..dirLen] && '/' !in name[dirLen + 1..]
    ensures Split(name, '/') == [name[..dirLen], name[dirLen + 1..]]
  {
    assert name == name[..dirLen] + ['/'] + name[dirLen + 1..];
    SplitTwo(name[..dirLen], '/', name[dirLen + 1..]);
  }

  /** Two segments split from `name` put it back together around one `/`. */
  lemma TwoSegments(name: string)
    requires |Split(name, '/')| == 2
    ensures var parts := Split(name, '/');
      name == parts[0] + ['/'] + parts[1] && '/' !in parts[0] && '/' !in parts[1]
  {
    var parts := Split(name, '/');
    SplitSpec(name, '/');
    assert Join(parts[1..], '/') == parts[1];
  }

  /** A name `in/<id>` is looked up in the read-mode map. */
  lemma OpenInPath(fs: PluginFS, name: string)
    requires InPath(name)
    ensures fs.Open(name) == Lookup(fs.inFiles, name[3..])
  {
    assert name[..2] == "in";
    SplitPath(name, 2);
  }

  /** A name `out/<id>` is looked up in the write-mode map. */
  lemma OpenOutPath(fs: PluginFS, name: string)
    requires OutPath(name)
    ensures fs.Open(name) == Lookup(fs.outFiles, name[4..])
  {
    assert name[..3] == "out";
    SplitPath(name, 3);
  }

  /** `in/<b>` and `out/<b>` are paths of their direction when `b` holds no `/`. */
  lemma DirectionPath(dir: string, b: string)
    requires '/' !in b
    ensures dir == "in" ==> InPath(dir + ['/'] + b) && (dir + ['/'] + b)[3..] == b
    ensures dir == "out" ==> OutPath(dir + ['/'] + b) && (dir + ['/'] + b)[4..] == b
  {
    var name := dir + ['/'] + b;
    assert name[..|dir| + 1] == dir + ['/'] && name[|dir| + 1..] == b;
  }

  /** A two-segment name whose first segment is `in` or `out` is a path of
      that direction. */
  lemma TwoSegmentsDirection(name: string)
    ensures var parts := Split(name, '/');
      |parts| == 2 ==> (parts[0] == "in" ==> InPath(name)) && (parts[0] == "out" ==> OutPath(name))
  {
    var parts := Split(name, '/');
    if |parts| == 2 {
      TwoSegments(name);
      DirectionPath(parts[0], parts[1]);
    }
  }

  /** Any other name is a permission error. */
  lemma OpenOtherPath(fs: PluginFS, name: string)
    requires !InPath(name) && !OutPath(name)
    ensures fs.Open(name) == Err(ErrPermission)
  {
    TwoSegmentsDirection(name);
  }

  /** Open is decided by the path grammar alone: a permission error exactly
      when the name is neither `in/<id>` nor `out/<id>`, and otherwise the
      lookup of `id` in the map of that direction. */
  lemma OpenSpec(fs: PluginFS, name: string)
    ensures fs.Open(name) == Err(ErrPermission) <==> !InPath(name) && !OutPath(name)
    ensures InPath(name) ==> fs.Open(name) == Lookup(fs.inFiles, name[3..])
    ensures OutPath(name) ==> fs.Open(name) == Lookup(fs.outFiles, name[4..])
  {
    if InPath(name) {
      OpenInPath(fs, name);
    } else if OutPath(name) {
      OpenOutPath(fs, name);
    } else {
      OpenOtherPath(fs, name);
    }
  }

  /** `in/<id>` resolves to exactly the registered read-mode file of `id`,
      is not-found for an unregistered `id`, and is a permission error when
      `id` itself holds a `/` (three segments). */
  lemma OpenIn(fs: PluginFS, id: string)
    ensures fs.Open("in/" + id) ==
      if '/' in id then Err(ErrPermission)
      else if id in fs.inFiles then Ok(fs.inFiles[id])
      else Err(ErrNotExist)
  {
    var name := "in/" + id;
    assert name[..3] == "in/" && name[3..] == id;
    assert !OutPath(name) by {
      if |name| >= 4 { assert name[2] != "out/"[2]; }
    }
    OpenSpec(fs, name);
  }

  /** The same for `out/<id>` and the write-mode files. */
  lemma OpenOut(fs: PluginFS, id: string)
    ensures fs.Open("out/" + id) ==
      if '/' in id then Err(ErrPermission)
      else if id in fs.outFiles then Ok(fs.outFiles[id])
      else Err(ErrNotExist)
  {
    var name := "out/" + id;
    assert name[..4] == "out/" && name[4..] == id;
    assert !InPath(name) by { assert name[0] != "in/"[0]; }
    OpenSpec(fs, name);
  }

  /** A two-segment name whose first segment is neither `in` nor `out` is a
      permission error, never not-found. */
  lemma OpenUnknownDirection(fs: PluginFS, dir: string, id: string)
    requires '/' !in dir && '/' !in id
    requires dir != "in" && dir != "out"
    ensures fs.Open(dir + "/" + id) == Err(ErrPermission)
  {
    var name := dir + "/" + id;
    assert name[..|dir|] == dir && name[|dir|] == '/' && name[|dir| + 1..] == id;
    SplitPath(name, |dir|);
  }

  /** One example of each malformed shape: one segment, three segments and
      the empty name fail the segment count, and an unknown direction falls
      to the default branch; all are permission errors. */
  lemma OpenMalformedExamples(fs: PluginFS)
    ensures fs.Open("in") == Err(ErrPermission)
    ensures fs.Open("in/a/b") == Err(ErrPermission)
    ensures fs.Open("") == Err(ErrPermission)
    ensures fs.Open("x/t") == Err(ErrPermission)
  {
    OpenOtherPath(fs, "in");
    assert "in/a/b"[3..][1] == '/';
    OpenOtherPath(fs, "in/a/b");
    OpenOtherPath(fs, "");
    OpenOtherPath(fs, "x/t");
  }

  /** A second registration of an id fails and the first one's files stay
      the ones Open resolves. */
  method RegisterTwice(fs: PluginFS, id: string, a: PluginFile, b: PluginFile, c: PluginFile, d: PluginFile)
      returns (first: Status, second: Status)
    requires '/' !in id
    requires id !in fs.inFiles && id !in fs.outFiles
    modifies fs
    ensures first == Nil && second == Failed(ErrExist)
    ensures fs.Open("in/" + id) == Ok(a) && fs.Open("out/" + id) == Ok(b)
  {
    first := fs.Register(id, a, b);
    second := fs.Register(id, c, d);
    OpenIn(fs, id);
    OpenOut(fs, id);
  }

  /** The metadata is synthetic: size 0, not a directory, a regular file
      whose permission bits are read-only for everyone, and described by
      the file itself. */
  lemma MetadataIsSynthetic(f: PluginFile)
    ensures f.Size() == 0 && !f.IsDir()
    ensures f.Type() == 0 && (f.Mode() & ModeDir == 0) == !f.IsDir()
    ensures f.Mode() & ModePerm == ReadOnlyPerm && f.Mode() & WritePerm == 0
    ensures f.Info() == Ok(f) && f.Name() == f.name
  {
  }

  /** `Stat` returns the file itself with a nil error, so the described
      file has the same synthetic metadata. */
  lemma StatIsSelf(f: PluginFile)
    ensures f.Stat() == Ok(f)
    ensures f.Stat().value.Size() == 0 && f.Stat().value.Mode() == ReadOnlyPerm
  {
  }
}
