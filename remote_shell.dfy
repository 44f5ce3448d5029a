/** The remote end of a transfer: what a POSIX shell with `base64` makes of
    the lines `send_file_chunk` sends.  A line `echo -n '<payload>' |
    base64 -d <op> <path>` decodes the payload and truncates (`>`) or
    appends to (`>>`) the file at `path`.  The remote path is taken as one
    word, as the session writes it unquoted. */
module RemoteShell {
  import opened Wrappers
  import opened Base64
  import opened RemoteSession

  /** The remote files a transfer writes. */
  type Files = map<string, seq<Byte>>

  /** A parsed transfer line. */
  datatype Write = Write(payload: string, append: bool, path: string)

  const EchoPrefix := "echo -n '"
  const DecodePipe := "' | base64 -d "

  /** The longest prefix of `s` without a single quote. */
  function UpToQuote(s: string): (r: string)
    ensures r <= s
    ensures forall i :: 0 <= i < |r| ==> r[i] != '\''
    ensures |r| < |s| ==> s[|r|] == '\''
  {
    if s == [] || s[0] == '\'' then [] else [s[0]] + UpToQuote(s[1..])
  }

  /** The redirection and the target that end a line: `>> path` appends,
      `> path` truncates; the target runs to the line feed. */
  function ParseRedirect(redirect: string): Option<(bool, string)>
  {
    var append := ">> " <= redirect;
    if !append && !("> " <= redirect) then None
    else
      var target := redirect[if append then 3 else 2..];
      if target == [] || target[|target| - 1] != '\n' then None
      else Some((append, target[..|target| - 1]))
  }

  /** The quoted payload, the redirection and the target of a line. */
  function ParseLine(line: string): Option<Write>
  {
    if !(EchoPrefix <= line) then None
    else
      var rest := line[|EchoPrefix|..];
      var payload := UpToQuote(rest);
      var after := rest[|payload|..];
      if !(DecodePipe <= after) then None
      else match ParseRedirect(after[|DecodePipe|..])
        case None => None
        case Some((append, path)) => Some(Write(payload, append, path))
  }

  /** One line run by the shell: None when it is not a transfer line or its
      payload does not decode. */
  function RunLine(fs: Files, line: string): Option<Files>
  {
    match ParseLine(line)
    case None => None
    case Some(w) =>
      match Decode(w.payload)
      case None => None
      case Some(bytes) =>
        var before := if w.append && w.path in fs then fs[w.path] else [];
        Some(fs[w.path := before + bytes])
  }

  /** The lines run in order; None from the first line that fails. */
  function RunLines(fs: Files, lines: seq<string>): Option<Files>
    decreases |lines|
  {
    if lines == [] then Some(fs)
    else match RunLine(fs, lines[0])
      case None => None
      case Some(fs') => RunLines(fs', lines[1..])
  }

  lemma ParseRedirectOp(op: string, path: string)
    requires op == Truncate || op == Append
    ensures ParseRedirect(op + " " + path + "\n") == Some((op == Append, path))
  {
    var redirect := op + " " + path + "\n";
    if op == Append {
      assert ">> " <= redirect;
      assert redirect[3..] == path + "\n";
    } else {
      assert redirect[1] == ' ';
      assert !(">> " <= redirect);
      assert "> " <= redirect;
      assert redirect[2..] == path + "\n";
    }
  }

  /** The shell reads back the payload, the redirection and the path of
      every transfer line. */
  lemma ParseTransferLine(payload: string, op: string, path: string)
    requires op == Truncate || op == Append
    requires forall i :: 0 <= i < |payload| ==> payload[i] != '\''
    ensures ParseLine(TransferLine(payload, op, path)) == Some(Write(payload, op == Append, path))
  {
    var redirect := op + " " + path + "\n";
    var tail := DecodePipe + redirect;
    var line := TransferLine(payload, op, path);
    assert line == EchoPrefix + (payload + tail);
    assert line[|EchoPrefix|..] == payload + tail;
    UpToQuoteStops(payload, tail);
    assert (payload + tail)[|payload|..] == tail;
    assert tail[|DecodePipe|..] == redirect;
    ParseRedirectOp(op, path);
  }

  lemma {:induction false} UpToQuoteStops(payload: string, tail: string)
    requires forall i :: 0 <= i < |payload| ==> payload[i] != '\''
    requires tail != [] && tail[0] == '\''
    ensures UpToQuote(payload + tail) == payload
    decreases |payload|
  {
    if payload == [] {
      assert payload + tail == tail;
    } else {
      assert (payload + tail)[1..] == payload[1..] + tail;
      UpToQuoteStops(payload[1..], tail);
    }
  }

  /** One transfer line writes its chunk: after the bytes already there
      for `>>`, in place of them for `>`. */
  lemma RunTransferLine(fs: Files, chunk: seq<Byte>, op: string, path: string)
    requires op == Truncate || op == Append
    ensures RunLine(fs, TransferLine(EncodeLines(chunk), op, path)) ==
      Some(fs[path := (if op == Append && path in fs then fs[path] else []) + chunk])
  {
    ParseTransferLine(EncodeLines(chunk), op, path);
    DecodeEncode(chunk);
  }

  /** Appending `b` and then `c` to the file at `path` is appending `b + c`. */
  lemma AppendTwice(fs: Files, path: string, b: seq<Byte>, c: seq<Byte>)
    requires path in fs
    ensures fs[path := fs[path] + b][path := fs[path] + b + c] == fs[path := fs[path] + (b + c)]
  {
    assert fs[path] + b + c == fs[path] + (b + c);
  }

  lemma Overwrite(fs: Files, path: string, a: seq<Byte>, b: seq<Byte>)
    ensures fs[path := a][path := b] == fs[path := b]
  {
  }

  /** Appending lines add their chunks, in order, to the file. */
  lemma {:induction false} RunAppends(fs: Files, chunks: seq<seq<Byte>>, path: string)
    requires path in fs
    ensures RunLines(fs, LinesFor(chunks, false, path)) == Some(fs[path := fs[path] + Flatten(chunks)])
    decreases |chunks|
  {
    var lines := LinesFor(chunks, false, path);
    if chunks == [] {
      assert fs[path] + Flatten(chunks) == fs[path];
      assert fs[path := fs[path]] == fs;
    } else {
      RunTransferLine(fs, chunks[0], Append, path);
      var fs' := fs[path := fs[path] + chunks[0]];
      assert RunLine(fs, lines[0]) == Some(fs');
      assert lines[1..] == LinesFor(chunks[1..], false, path);
      RunAppends(fs', chunks[1..], path);
      assert Flatten(chunks) == chunks[0] + Flatten(chunks[1..]);
      AppendTwice(fs, path, chunks[0], Flatten(chunks[1..]));
    }
  }

  /** The transfer's round trip: whatever the remote files were, running
      the lines of a transfer leaves exactly `content` at `path`, and
      nothing else changed. */
  lemma TransferWritesContent(fs: Files, path: string, content: seq<Byte>, n: nat)
    requires n > 0
    ensures RunLines(fs, TransferLines(path, content, n)) == Some(fs[path := content])
  {
    var chunks := Chunks(content, n);
    var lines := TransferLines(path, content, n);
    RunTransferLine(fs, chunks[0], Truncate, path);
    var fs' := fs[path := chunks[0]];
    assert RunLine(fs, lines[0]) == Some(fs') by {
      assert [] + chunks[0] == chunks[0];
    }
    assert lines[1..] == LinesFor(chunks[1..], false, path);
    RunAppends(fs', chunks[1..], path);
    ChunksReassemble(content, n);
    assert chunks[0] + Flatten(chunks[1..]) == content;
    Overwrite(fs, path, chunks[0], content);
  }
}
