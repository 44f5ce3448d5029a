/** Transfer tasks: a payload source with `open?`, `open`, `read`, `eof?` and
    `close`, over an in-memory string (`SendString`, whose reading methods
    are those of its superclass `Send`) or over a local file (`SendFile`, a
    class of its own).  The underlying IO object (a `StringIO` or a `File`)
    is a value here: the bytes it reads and its read position. */
module Tasks {
  import opened Wrappers
  import opened Base64

  /** `chunk_size` of a new task. */
  const DefaultChunkSize: nat := 1024

  /** An open IO object: its bytes and the position of the next read. */
  datatype Stream = Stream(data: seq<Byte>, pos: nat)

  type Reader = r: Stream | r.pos <= |r.data| witness Stream([], 0)

  /** `eof?` of an open IO object. */
  predicate AtEnd(r: Reader)
  {
    r.pos == |r.data|
  }

  /** `read(n)` on an open IO object: nil once at the end (for n > 0),
      otherwise the next min(n, bytes left) bytes, the position moving past
      them. */
  function ReadBytes(r: Reader, n: nat): (res: (Option<seq<Byte>>, Reader))
    ensures res.1.data == r.data
    ensures res.0.None? <==> n > 0 && AtEnd(r)
    ensures res.0.None? ==> res.1 == r
    ensures res.0.Some? ==>
      && |res.0.value| <= n
      && |res.0.value| == (if |r.data| - r.pos <= n then |r.data| - r.pos else n)
      && (n > 0 ==> |res.0.value| > 0)
      && res.1.pos == r.pos + |res.0.value|
      && r.data[r.pos..] == res.0.value + r.data[res.1.pos..]
  {
    if n > 0 && AtEnd(r) then (None, r)
    else
      var end := if r.pos + n <= |r.data| then r.pos + n else |r.data|;
      (Some(r.data[r.pos..end]), Stream(r.data, end))
  }

  /** `Remote::Session::SendString`: a `Send` whose `_open` makes a
      `StringIO` over `string`.  `file` is `@file`, None when not open. */
  class SendString {
    var remotePath: string
    var chunkSize: nat
    var str: seq<Byte>
    var file: Option<Reader>

    constructor (str: seq<Byte>, remotePath: string)
      ensures this.str == str && this.remotePath == remotePath
      ensures chunkSize == DefaultChunkSize && file == None
    {
      this.str := str;
      this.remotePath := remotePath;
      chunkSize := DefaultChunkSize;
      file := None;
    }

    /** `open?`: true exactly when the IO object is present. */
    function IsOpen(): (b: bool)
      reads this
      ensures b ==> file.Some?
      ensures !b ==> file == None
    {
      file.Some?
    }

    /** `eof?`: true when not open, else that of the IO object. */
    function IsEof(): (b: bool)
      reads this
      ensures !IsOpen() ==> b
      ensures IsOpen() ==> (b <==> AtEnd(file.value))
    {
      file.None? || AtEnd(file.value)
    }

    /** `open`: rewinds an open `StringIO`; otherwise `_open` makes a fresh
        one over `string`. */
    method Open()
      modifies this`file
      ensures old(file).Some? ==> file == Some(Stream(old(file.value.data), 0))
      ensures old(file).None? ==> file == Some(Stream(str, 0))
    {
      if IsOpen() {
        file := Some(Stream(file.value.data, 0));
        return;
      }
      file := Some(Stream(str, 0));
    }

    /** `read`: opens if needed, then reads `chunk_size` bytes. */
    method Read() returns (chunk: Option<seq<Byte>>)
      modifies this`file
      ensures var r := if old(file).Some? then old(file.value) else Stream(str, 0);
              chunk == ReadBytes(r, chunkSize).0 && file == Some(ReadBytes(r, chunkSize).1)
    {
      if !IsOpen() {
        Open();
      }
      var res := ReadBytes(file.value, chunkSize);
      chunk := res.0;
      file := Some(res.1);
    }

    /** `close`: a no-op when not open. */
    method Close()
      modifies this`file
      ensures file == None
    {
      if !IsOpen() {
        return;
      }
      file := None;
    }
  }

  /** The local files `SendFile` can open: a path absent here cannot be
      opened for reading. */
  type FileSystem = map<string, seq<Byte>>

  /** The model's stand-in for the error `File.open` raises when the local
      path cannot be opened (Ruby's own message names the path and the
      kind of failure). */
  const CannotOpen := "No such file or directory"

  /** `Remote::Session::SendFile`: not a `Send`; its `open` closes an open
      file and opens the local file again instead of rewinding. */
  class SendFile {
    var localPath: string
    var remotePath: string
    var chunkSize: nat
    var file: Option<Reader>

    constructor (localPath: string, remotePath: string)
      ensures this.localPath == localPath && this.remotePath == remotePath
      ensures chunkSize == DefaultChunkSize && file == None
    {
      this.localPath := localPath;
      this.remotePath := remotePath;
      chunkSize := DefaultChunkSize;
      file := None;
    }

    /** `open?`: true exactly when the IO object is present. */
    function IsOpen(): (b: bool)
      reads this
      ensures b ==> file.Some?
      ensures !b ==> file == None
    {
      file.Some?
    }

    /** `eof?`: true when not open, else that of the file. */
    function IsEof(): (b: bool)
      reads this
      ensures !IsOpen() ==> b
      ensures IsOpen() ==> (b <==> AtEnd(file.value))
    {
      file.None? || AtEnd(file.value)
    }

    /** `open`: `close if open?`, then `File.open(local_path, 'r')`, which
        fails for a path that cannot be read. */
    method Open(fs: FileSystem) returns (r: Outcome)
      modifies this`file
      ensures localPath in fs ==> r == Pass && file == Some(Stream(fs[localPath], 0))
      ensures localPath !in fs ==> r == Fail(CannotOpen) && file == None
    {
      if IsOpen() {
        Close();
      }
      if localPath !in fs {
        return Fail(CannotOpen);
      }
      file := Some(Stream(fs[localPath], 0));
      return Pass;
    }

    /** `read`: opens if needed (and fails if that fails), then reads
        `chunk_size` bytes. */
    method Read(fs: FileSystem) returns (r: Result<Option<seq<Byte>>>)
      modifies this`file
      ensures old(file).Some? ==>
        r == Success(ReadBytes(old(file.value), chunkSize).0)
        && file == Some(ReadBytes(old(file.value), chunkSize).1)
      ensures old(file).None? && localPath in fs ==>
        r == Success(ReadBytes(Stream(fs[localPath], 0), chunkSize).0)
        && file == Some(ReadBytes(Stream(fs[localPath], 0), chunkSize).1)
      ensures old(file).None? && localPath !in fs ==> r == Failure(CannotOpen) && file == None
    {
      if !IsOpen() {
        var outcome := Open(fs);
        if outcome.Fail? {
          return Failure(outcome.error);
        }
      }
      var res := ReadBytes(file.value, chunkSize);
      file := Some(res.1);
      return Success(res.0);
    }

    /** `close`: a no-op when not open. */
    method Close()
      modifies this`file
      ensures file == None
    {
      if !IsOpen() {
        return;
      }
      file := None;
    }
  }
}
