/** Whole `sudo` sessions: a channel is built over a queue, the remote
    shell answers with the sudo password prompt, some output without the
    root prompt, and then the root prompt once per dispatch cycle.  Each
    driver states everything the session sends, in order. */
module Scenarios {
  import opened Wrappers
  import opened Base64
  import opened Tasks
  import opened RemoteSession

  /** The chunks the remote shell answers with: the password prompt, the
      first output of the root shell (which does not end in the root
      prompt), and the root prompt, which no prompt-table entry matches. */
  predicate Handshake(prompts: PromptTable, passwordChunk: string, echoChunk: string, promptChunk: string)
  {
    && Matches(passwordChunk, PasswordPattern)
    && !Matches(echoChunk, CommandPattern)
    && Matches(promptChunk, CommandPattern)
    && FirstPrompt(prompts, promptChunk).None?
  }

  /** The sudo password, then the prompt-set line. */
  function SetupLines(sudoPassword: Option<string>): seq<string>
  {
    [PasswordLine(sudoPassword), SetPromptLine]
  }

  /** The chunks from byte `p` on: the one at `p`, then those after it. */
  lemma ChunksFrom(content: seq<Byte>, p: nat, n: nat)
    requires n > 0 && p < |content|
    ensures var e := if p + n <= |content| then p + n else |content|;
      Chunks(content[p..], n) == [content[p..e]] + (if e < |content| then Chunks(content[e..], n) else [])
  {
    var e := if p + n <= |content| then p + n else |content|;
    if |content[p..]| <= n {
      assert content[p..e] == content[p..];
    } else {
      assert content[p..][..n] == content[p..e];
      assert content[p..][n..] == content[e..];
    }
  }

  /** A `SendString` opened and then read until `eof?`: the chunks are those
      `Chunks` lays out (none for an empty string, which is at its end as
      soon as it is opened), at most `n` bytes each, and together they are
      the string. */
  method ReadAll(str: seq<Byte>, path: string, n: nat) returns (chunks: seq<seq<Byte>>)
    requires n > 0
    ensures chunks == if str == [] then [] else Chunks(str, n)
    ensures Flatten(chunks) == str
    ensures forall i :: 0 <= i < |chunks| ==> 0 < |chunks[i]| <= n
  {
    var t := new SendString(str, path);
    t.chunkSize := n;
    t.Open();
    chunks := [];
    var all := if str == [] then [] else Chunks(str, n);
    if str != [] {
      assert str[0..] == str;
    }
    while !t.IsEof()
      invariant t.str == str && t.chunkSize == n
      invariant t.file.Some? && t.file.value.data == str
      invariant t.file.value.pos == |str| ==> chunks == all
      invariant t.file.value.pos < |str| ==> chunks + Chunks(str[t.file.value.pos..], n) == all
      decreases |str| - t.file.value.pos
    {
      var p := t.file.value.pos;
      var e := if p + n <= |str| then p + n else |str|;
      ChunksFrom(str, p, n);
      var c := t.Read();
      assert c == Some(str[p..e]) && t.file.value.pos == e;
      if e < |str| {
        Associative(chunks, [str[p..e]], Chunks(str[e..], n));
      }
      chunks := chunks + [c.value];
    }
    ChunksReassemble(str, n);
  }

  /** The first two chunks: the password goes out on the sudo prompt, and
      the prompt-set line on the first output of the root shell. */
  method Login(ch: Channel, passwordChunk: string, echoChunk: string)
    requires ch.phase == AwaitPassword && !ch.awaitingPrompt
    requires Matches(passwordChunk, PasswordPattern) && !Matches(echoChunk, CommandPattern)
    modifies ch, FrontTasks(ch.commands)
    ensures ch.phase == SettingPrompt && ch.awaitingPrompt && ch.commands == old(ch.commands)
    ensures ch.sent == old(ch.sent) + SetupLines(ch.sudoPassword)
    ensures unchanged(FrontTasks(old(ch.commands)))
  {
    ch.OnData(passwordChunk);
    ch.OnData(echoChunk);
  }

  /** A queue of plain commands. */
  function CommandQueue(cmds: seq<string>): seq<Directive>
  {
    seq(|cmds|, i requires 0 <= i < |cmds| => Command(cmds[i]))
  }

  function CommandLines(cmds: seq<string>): seq<string>
  {
    seq(|cmds|, i requires 0 <= i < |cmds| => cmds[i] + "\n")
  }

  /** A chunk of command output: it neither ends a line in the root
      prompt nor matches an entry of the prompt table. */
  predicate Quiet(prompts: PromptTable, chunk: string)
  {
    !Matches(chunk, CommandPattern) && FirstPrompt(prompts, chunk).None?
  }

  /** Output between two root prompts: each chunk is echoed, nothing is
      sent, and the queue and the handler stay as they were. */
  method Output(ch: Channel, outs: seq<string>)
    requires ch.phase == Dispatching || (ch.phase == SettingPrompt && ch.awaitingPrompt)
    requires forall i :: 0 <= i < |outs| ==> Quiet(ch.prompts, outs[i])
    modifies ch, FrontTasks(ch.commands)
    ensures ch.sent == old(ch.sent) && ch.commands == old(ch.commands)
    ensures ch.phase == old(ch.phase) && ch.awaitingPrompt == old(ch.awaitingPrompt)
    ensures ch.stdout == old(ch.stdout) + outs
    ensures unchanged(FrontTasks(old(ch.commands)))
  {
    for i := 0 to |outs|
      invariant ch.sent == old(ch.sent) && ch.commands == old(ch.commands)
      invariant ch.phase == old(ch.phase) && ch.awaitingPrompt == old(ch.awaitingPrompt)
      invariant ch.stdout == old(ch.stdout) + outs[..i]
      invariant unchanged(FrontTasks(old(ch.commands)))
    {
      ch.OnData(outs[i]);
      assert outs[..i + 1] == outs[..i] + [outs[i]];
    }
    assert outs[..|outs|] == outs;
  }

  /** Every chunk of every output is command output. */
  predicate AllQuiet(prompts: PromptTable, outputs: seq<seq<string>>)
  {
    forall k, i :: 0 <= k < |outputs| && 0 <= i < |outputs[k]| ==> Quiet(prompts, outputs[k][i])
  }

  /** Root prompts while only plain commands are queued, `outputs[k]`
      being what the shell prints before its k-th root prompt: one command
      goes out per prompt, in queue order, then `exit`, and the output in
      between sends nothing. */
  method DrainCommands(ch: Channel, cmds: seq<string>, outputs: seq<seq<string>>, promptChunk: string)
    requires ch.phase == Dispatching || (ch.phase == SettingPrompt && ch.awaitingPrompt)
    requires ch.commands == CommandQueue(cmds)
    requires |outputs| == |cmds| + 1 && AllQuiet(ch.prompts, outputs)
    requires Matches(promptChunk, CommandPattern) && FirstPrompt(ch.prompts, promptChunk).None?
    modifies ch
    ensures ch.sent == old(ch.sent) + CommandLines(cmds) + [ExitLine]
    ensures ch.phase == Dispatching && ch.commands == []
  {
    // `cycles` dispatch cycles have run
    var cycles := 0;
    while cycles <= |cmds|
      invariant 0 <= cycles <= |cmds| + 1
      invariant ch.phase == Dispatching || (cycles == 0 && ch.phase == SettingPrompt && ch.awaitingPrompt)
      invariant cycles <= |cmds| ==>
        ch.commands == CommandQueue(cmds)[cycles..] && ch.sent == old(ch.sent) + CommandLines(cmds[..cycles])
      invariant cycles == |cmds| + 1 ==>
        ch.commands == [] && ch.sent == old(ch.sent) + CommandLines(cmds) + [ExitLine]
      decreases |cmds| + 1 - cycles
    {
      assert FrontTasks(ch.commands) == {};
      Output(ch, outputs[cycles]);
      assert FrontTasks(ch.commands) == {};
      ch.OnData(promptChunk);
      if cycles < |cmds| {
        assert CommandLines(cmds[..cycles + 1]) == CommandLines(cmds[..cycles]) + [cmds[cycles] + "\n"];
      } else {
        assert cmds[..cycles] == cmds;
      }
      cycles := cycles + 1;
    }
  }

  /** A queue of plain commands, the shell printing `outputs[k]` before its
      k-th root prompt: after the password and the prompt-set line, one
      command per root prompt, in queue order, then `exit`; the commands'
      output sends nothing. */
  method RunCommands(prompts: PromptTable, sudoPassword: Option<string>, cmds: seq<string>,
                     passwordChunk: string, echoChunk: string, promptChunk: string,
                     outputs: seq<seq<string>>)
    returns (sent: seq<string>)
    requires Handshake(prompts, passwordChunk, echoChunk, promptChunk)
    requires |outputs| == |cmds| + 1 && AllQuiet(prompts, outputs)
    ensures sent == SetupLines(sudoPassword) + CommandLines(cmds) + [ExitLine]
  {
    var ch := new Channel(prompts, sudoPassword, CommandQueue(cmds));
    Login(ch, passwordChunk, echoChunk);
    DrainCommands(ch, cmds, outputs, promptChunk);
    sent := ch.sent;
  }

  lemma Associative<T>(a: seq<T>, b: seq<T>, c: seq<T>)
    ensures a + (b + c) == (a + b) + c
  {
  }

  /** The transfer lines from byte `p` on: the chunk at `p`, then those
      after it. */
  lemma LinesFrom(content: seq<Byte>, p: nat, n: nat, first: bool, path: string)
    requires n > 0 && p < |content|
    ensures var e := if p + n <= |content| then p + n else |content|;
      LinesFor(Chunks(content[p..], n), first, path) ==
        [TransferLine(EncodeLines(content[p..e]), if first then Truncate else Append, path)]
        + (if e < |content| then LinesFor(Chunks(content[e..], n), false, path) else [])
  {
    var e := if p + n <= |content| then p + n else |content|;
    var cs := Chunks(content[p..], n);
    if |content[p..]| <= n {
      assert content[p..e] == content[p..];
    } else {
      assert content[p..][..n] == content[p..e];
      assert content[p..][n..] == content[e..];
      assert cs[1..] == Chunks(content[e..], n);
    }
  }

  /** The transfer lines: the truncating line of the first chunk, then the
      appending lines of the rest. */
  lemma TransferLinesFirst(content: seq<Byte>, n: nat, path: string)
    requires n > 0
    ensures var e := if n <= |content| then n else |content|;
      TransferLines(path, content, n) ==
        [TransferLine(EncodeLines(content[0..e]), Truncate, path)]
        + (if e < |content| then LinesFor(Chunks(content[e..], n), false, path) else [])
  {
    if content == [] {
      assert Chunks(content, n) == [[]];
      assert content[0..0] == [];
    } else {
      assert content[0..] == content;
      LinesFrom(content, 0, n, true, path);
    }
  }

  /** `send_file_chunk` on a task over `content` whose next byte is at
      `p`: the chunk up to `p + n` (or the end) goes out, and the task stays
      open only when bytes remain. */
  lemma ChunkStepFrom(content: seq<Byte>, n: nat, file: Option<Reader>, p: nat)
    requires n > 0 && p < |content|
    requires (file == None && p == 0) || file == Some(Stream(content, p))
    ensures var e := if p + n <= |content| then p + n else |content|;
      ChunkStep(content, n, file) ==
        ChunkOutcome(if file.Some? then Append else Truncate, EncodeLines(content[p..e]),
                     if e == |content| then None else Some(Stream(content, e)))
  {
  }

  /** Root prompts while commands are queued in front of other
      directives: one command goes out per prompt, in queue order, until
      the directives behind them are at the front. */
  method DrainBefore(ch: Channel, before: seq<string>, rest: seq<Directive>, promptChunk: string)
    requires ch.phase == Dispatching || (ch.phase == SettingPrompt && ch.awaitingPrompt)
    requires ch.commands == CommandQueue(before) + rest
    requires Matches(promptChunk, CommandPattern) && FirstPrompt(ch.prompts, promptChunk).None?
    modifies ch
    ensures ch.sent == old(ch.sent) + CommandLines(before) && ch.commands == rest
    ensures before != [] ==> ch.phase == Dispatching
    ensures before == [] ==> ch.phase == old(ch.phase) && ch.awaitingPrompt == old(ch.awaitingPrompt)
  {
    // `cycles` dispatch cycles have run
    var cycles := 0;
    while cycles < |before|
      invariant 0 <= cycles <= |before|
      invariant cycles > 0 ==> ch.phase == Dispatching
      invariant cycles == 0 ==> ch.phase == old(ch.phase) && ch.awaitingPrompt == old(ch.awaitingPrompt)
      invariant ch.commands == CommandQueue(before)[cycles..] + rest
      invariant ch.sent == old(ch.sent) + CommandLines(before[..cycles])
    {
      assert ch.commands[0] == Command(before[cycles]);
      assert FrontTasks(ch.commands) == {};
      ch.OnData(promptChunk);
      assert ch.commands == CommandQueue(before)[cycles + 1..] + rest;
      assert CommandLines(before[..cycles + 1]) == CommandLines(before[..cycles]) + [before[cycles] + "\n"];
      cycles := cycles + 1;
    }
    assert before[..|before|] == before;
  }

  /** The root prompt that reaches a transfer at the front of the queue,
      whether it is the first root prompt or one after earlier commands:
      its first chunk goes out, truncating the remote file; the task is put
      back in front of the directives queued behind it while bytes remain. */
  method StartTransfer(ch: Channel, t: SendString, promptChunk: string, queued: seq<Directive>,
                       content: seq<Byte>, n: nat, path: string)
    requires ch.phase == SettingPrompt || (ch.phase == Dispatching && FirstPrompt(ch.prompts, promptChunk).None?)
    requires ch.commands == [Transfer(t)] + queued
    requires Matches(promptChunk, CommandPattern)
    requires t.str == content && t.chunkSize == n && t.remotePath == path
    requires n > 0 && t.file == None
    modifies ch, t
    ensures t.str == content && t.chunkSize == n && t.remotePath == path
    ensures ch.phase == Dispatching
    ensures var e := if n <= |content| then n else |content|;
      && ch.sent == old(ch.sent) + [TransferLine(EncodeLines(content[0..e]), Truncate, path)]
      && t.file == (if e == |content| then None else Some(Stream(content, e)))
      && ch.commands == (if e == |content| then queued else [Transfer(t)] + queued)
  {
    if content != [] {
      ChunkStepFrom(content, n, t.file, 0);
    } else {
      assert EncodeLines(content[0..0]) == "";
    }
    ch.OnData(promptChunk);
  }

  /** A later root prompt, the task's next byte being at `p`: the next
      chunk goes out, appending to the remote file; the task is put back in
      front of the directives queued behind it while bytes remain. */
  method ContinueTransfer(ch: Channel, t: SendString, promptChunk: string, queued: seq<Directive>,
                          content: seq<Byte>, n: nat, path: string, p: nat)
    requires ch.phase == Dispatching && ch.commands == [Transfer(t)] + queued
    requires Matches(promptChunk, CommandPattern) && FirstPrompt(ch.prompts, promptChunk).None?
    requires t.str == content && t.chunkSize == n && t.remotePath == path
    requires n > 0 && p < |content| && t.file == Some(Stream(content, p))
    modifies ch, t
    ensures t.str == content && t.chunkSize == n && t.remotePath == path
    ensures ch.phase == Dispatching
    ensures var e := if p + n <= |content| then p + n else |content|;
      && ch.sent == old(ch.sent) + [TransferLine(EncodeLines(content[p..e]), Append, path)]
      && t.file == (if e == |content| then None else Some(Stream(content, e)))
      && ch.commands == (if e == |content| then queued else [Transfer(t)] + queued)
  {
    ChunkStepFrom(content, n, t.file, p);
    ch.OnData(promptChunk);
  }

  /** The root prompts after a transfer's first line: each sends the next
      chunk with `>>`, until the lines sent so far are `all`, and the
      directives queued behind the task are at the front again. */
  method SendRemaining(ch: Channel, t: SendString, promptChunk: string, queued: seq<Directive>,
                       content: seq<Byte>, n: nat, path: string, all: seq<string>)
    requires n > 0 && ch.phase == Dispatching
    requires Matches(promptChunk, CommandPattern) && FirstPrompt(ch.prompts, promptChunk).None?
    requires t.str == content && t.chunkSize == n && t.remotePath == path
    requires t.file.None? ==> ch.commands == queued && ch.sent == all
    requires t.file.Some? ==>
      && ch.commands == [Transfer(t)] + queued
      && t.file.value.data == content && 0 < t.file.value.pos < |content|
      && ch.sent + LinesFor(Chunks(content[t.file.value.pos..], n), false, path) == all
    modifies ch, t
    ensures ch.phase == Dispatching && ch.commands == queued && ch.sent == all
  {
    while t.file.Some?
      invariant ch.phase == Dispatching
      invariant t.str == content && t.chunkSize == n && t.remotePath == path
      invariant t.file.None? ==> ch.commands == queued && ch.sent == all
      invariant t.file.Some? ==>
        && ch.commands == [Transfer(t)] + queued
        && t.file.value.data == content && 0 < t.file.value.pos < |content|
        && ch.sent + LinesFor(Chunks(content[t.file.value.pos..], n), false, path) == all
      decreases if t.file.Some? then |content| - t.file.value.pos else 0
    {
      var p := t.file.value.pos;
      var e := if p + n <= |content| then p + n else |content|;
      var line := TransferLine(EncodeLines(content[p..e]), Append, path);
      LinesFrom(content, p, n, false, path);
      var sent0 := ch.sent;
      ContinueTransfer(ch, t, promptChunk, queued, content, n, path, p);
      assert ch.sent == sent0 + [line];
      if e < |content| {
        var rest := LinesFor(Chunks(content[e..], n), false, path);
        assert LinesFor(Chunks(content[p..], n), false, path) == [line] + rest;
        Associative(sent0, [line], rest);
        assert t.file.value.pos == e;
        assert ch.sent + rest == all;
      } else {
        assert LinesFor(Chunks(content[p..], n), false, path) == [line];
        assert ch.sent == all;
      }
    }
  }

  /** The first line of a transfer, the lines sent before it being
      `ch.sent`: what is still to come is the rest of the transfer's lines. */
  method FirstLine(ch: Channel, t: SendString, promptChunk: string, queued: seq<Directive>,
                   content: seq<Byte>, n: nat, path: string)
    requires ch.phase == SettingPrompt || (ch.phase == Dispatching && FirstPrompt(ch.prompts, promptChunk).None?)
    requires ch.commands == [Transfer(t)] + queued
    requires Matches(promptChunk, CommandPattern)
    requires t.str == content && t.chunkSize == n && t.remotePath == path
    requires n > 0 && t.file == None
    modifies ch, t
    ensures ch.phase == Dispatching
    ensures t.str == content && t.chunkSize == n && t.remotePath == path
    ensures t.file.None? ==> ch.commands == queued && ch.sent == old(ch.sent) + TransferLines(path, content, n)
    ensures t.file.Some? ==>
      && ch.commands == [Transfer(t)] + queued
      && t.file.value.data == content && 0 < t.file.value.pos < |content|
      && ch.sent + LinesFor(Chunks(content[t.file.value.pos..], n), false, path)
         == old(ch.sent) + TransferLines(path, content, n)
  {
    var setup := ch.sent;
    var all := setup + TransferLines(path, content, n);
    var e := if n <= |content| then n else |content|;
    var line := TransferLine(EncodeLines(content[0..e]), Truncate, path);
    StartTransfer(ch, t, promptChunk, queued, content, n, path);
    assert ch.sent == setup + [line];
    TransferLinesFirst(content, n, path);
    if e < |content| {
      var rest := LinesFor(Chunks(content[e..], n), false, path);
      assert TransferLines(path, content, n) == [line] + rest;
      Associative(setup, [line], rest);
      assert ch.sent + rest == all;
    } else {
      assert ch.sent == all;
    }
  }

  /** A `SendString` over `content` with chunk size `n`, queued behind the
      commands `before` and in front of the commands `after`: after the
      password and the prompt-set line, one line per root prompt: the
      commands `before`, then exactly the lines `TransferLines` lays out,
      then the commands `after`, in order, and `exit`. */
  method RunTransfer(prompts: PromptTable, sudoPassword: Option<string>, before: seq<string>,
                     content: seq<Byte>, path: string, n: nat, after: seq<string>,
                     passwordChunk: string, echoChunk: string, promptChunk: string)
    returns (sent: seq<string>)
    requires n > 0
    requires Handshake(prompts, passwordChunk, echoChunk, promptChunk)
    ensures sent == SetupLines(sudoPassword) + CommandLines(before) + TransferLines(path, content, n)
                    + CommandLines(after) + [ExitLine]
  {
    var t := new SendString(content, path);
    t.chunkSize := n;
    var queued := CommandQueue(after);
    var ch := new Channel(prompts, sudoPassword, CommandQueue(before) + ([Transfer(t)] + queued));
    Login(ch, passwordChunk, echoChunk);
    DrainBefore(ch, before, [Transfer(t)] + queued, promptChunk);
    var all := SetupLines(sudoPassword) + CommandLines(before) + TransferLines(path, content, n);
    FirstLine(ch, t, promptChunk, queued, content, n, path);
    SendRemaining(ch, t, promptChunk, queued, content, n, path, all);
    DrainCommands(ch, after, seq(|after| + 1, _ => []), promptChunk);
    sent := ch.sent;
  }
}
