/** `Remote::Session`: a privileged interactive shell driven by prompts.

    `sudo` opens a channel with a pseudo-terminal and runs `sudo su` with a
    marker as its password prompt.  Inbound data then goes to one of three
    handlers in turn: the password handler answers the marker with the sudo
    password; the prompt handler sets the root shell's prompt to a second
    marker; the command handler answers the caller's prompts and, whenever
    the command marker ends a line, runs one dispatch cycle: the next queued
    command, the next chunk of a queued transfer, or `exit`. */
module RemoteSession {
  import opened Wrappers
  import opened Base64
  import opened Tasks

  /** The password prompt `sudo` is told to print. */
  const SudoPasswordPrompt := "remote-session-sudo-prompt"

  /** The root shell's prompt once it has been set. */
  const RootCommandPrompt := "remote-session-prompt#"

  /** The command the channel executes. */
  const SudoCommand := "sudo -k -p '" + SudoPasswordPrompt + "' su -"

  /** The line that sets the root prompt; it is sent without a line feed. */
  const SetPromptLine := "export PS1='" + RootCommandPrompt + "'"

  const ExitLine := "exit\n"

  /** The redirections of the first and of every later chunk of a transfer. */
  const Truncate := ">"
  const Append := ">>"

  // ---------------------------------------------------------------------
  // Matching inbound data

  /** A regular expression of the session: literal text, optionally
      followed by Ruby's `$` (end of a line). */
  datatype Pattern = Pattern(text: string, lineEnd: bool)

  const PasswordPattern := Pattern(SudoPasswordPrompt, false)
  const CommandPattern := Pattern(RootCommandPrompt, true)

  /** `p` matches `s` starting at index `i`. */
  predicate MatchesAt(p: Pattern, s: string, i: int)
  {
    && 0 <= i && i + |p.text| <= |s|
    && s[i..i + |p.text|] == p.text
    && (p.lineEnd ==> i + |p.text| == |s| || s[i + |p.text|] == '\n')
  }

  lemma MatchesAtShift(p: Pattern, s: string, i: nat)
    requires 1 <= |s|
    ensures MatchesAt(p, s, i + 1) <==> MatchesAt(p, s[1..], i)
  {
    if i + 1 + |p.text| <= |s| {
      var m := |p.text|;
      var here, there := s[i + 1..i + 1 + m], s[1..][i..i + m];
      assert here == there by {
        forall k | 0 <= k < m ensures here[k] == there[k] {
          assert there[k] == s[1..][i + k];
        }
      }
      if i + 1 + |p.text| < |s| {
        assert s[i + 1 + |p.text|] == s[1..][i + |p.text|];
      }
    }
  }

  /** `s =~ p`: the pattern matches somewhere in `s`. */
  function Matches(s: string, p: Pattern): (b: bool)
    ensures b <==> exists i :: MatchesAt(p, s, i)
    decreases |s|
  {
    if |p.text| > |s| then false
    else if MatchesAt(p, s, 0) then true
    else
      var rest := Matches(s[1..], p);
      assert rest <==> exists i :: MatchesAt(p, s, i) by {
        forall i | MatchesAt(p, s, i) ensures i >= 1 && MatchesAt(p, s[1..], i - 1) {
          MatchesAtShift(p, s, i - 1);
        }
        forall i | MatchesAt(p, s[1..], i) ensures MatchesAt(p, s, i + 1) {
          MatchesAtShift(p, s, i);
        }
      }
      rest
  }

  /** The caller's prompts: (pattern, response) pairs in their order. */
  type PromptTable = seq<(string, string)>

  function PromptPattern(prompts: PromptTable, k: nat): Pattern
    requires k < |prompts|
  {
    Pattern(prompts[k].0, false)
  }

  /** The index of the first prompt whose pattern matches `data`. */
  function FirstPrompt(prompts: PromptTable, data: string): (k: Option<nat>)
    ensures k.Some? ==>
      && k.value < |prompts|
      && Matches(data, PromptPattern(prompts, k.value))
      && forall j :: 0 <= j < k.value ==> !Matches(data, PromptPattern(prompts, j))
    ensures k.None? ==> forall j :: 0 <= j < |prompts| ==> !Matches(data, PromptPattern(prompts, j))
    decreases |prompts|
  {
    if prompts == [] then None
    else if Matches(data, PromptPattern(prompts, 0)) then Some(0)
    else match FirstPrompt(prompts[1..], data)
      case None =>
        assert forall j :: 1 <= j < |prompts| ==> PromptPattern(prompts, j) == PromptPattern(prompts[1..], j - 1);
        None
      case Some(k) =>
        assert forall j :: 1 <= j <= k + 1 ==> PromptPattern(prompts, j) == PromptPattern(prompts[1..], j - 1);
        Some(k + 1)
  }

  // ---------------------------------------------------------------------
  // What is sent

  /** `"#{ @sudo_password }\n"`: a missing password interpolates as "". */
  function PasswordLine(sudoPassword: Option<string>): string
  {
    (if sudoPassword.Some? then sudoPassword.value else "") + "\n"
  }

  /** The shell line that writes one chunk: `payload` is its `encode64`. */
  function TransferLine(payload: string, op: string, path: string): string
  {
    "echo -n '" + payload + "' | base64 -d " + op + " " + path + "\n"
  }

  /** What `send_file_chunk` does to a task whose `@file` is `file`: the
      redirection, the encoded payload and the `@file` it leaves (None when
      the task is closed rather than queued again). */
  datatype ChunkOutcome = ChunkOutcome(op: string, payload: string, file: Option<Reader>)

  function ChunkStep(str: seq<Byte>, chunkSize: nat, file: Option<Reader>): ChunkOutcome
  {
    var op := if file.Some? then Append else Truncate;
    var r := if file.Some? then file.value else Stream(str, 0);
    if AtEnd(r) then ChunkOutcome(op, "", None)
    else
      var res := ReadBytes(r, chunkSize);
      ChunkOutcome(op, EncodeLines(res.0.value), if AtEnd(res.1) then None else Some(res.1))
  }

  /** The pieces a content of bytes is sent in, `n` bytes at a time; an
      empty content is one empty piece. */
  function Chunks(content: seq<Byte>, n: nat): (cs: seq<seq<Byte>>)
    requires n > 0
    ensures |cs| >= 1
    decreases |content|
  {
    if |content| <= n then [content]
    else [content[..n]] + Chunks(content[n..], n)
  }

  /** The lines for `chunks`, the first one truncating when `first`. */
  function LinesFor(chunks: seq<seq<Byte>>, first: bool, path: string): (lines: seq<string>)
    ensures |lines| == |chunks|
    ensures forall i :: 0 <= i < |chunks| ==>
      lines[i] == TransferLine(EncodeLines(chunks[i]), if i == 0 && first then Truncate else Append, path)
  {
    if chunks == [] then []
    else [TransferLine(EncodeLines(chunks[0]), if first then Truncate else Append, path)]
         + LinesFor(chunks[1..], false, path)
  }

  /** Every line sent for one transfer of `content` to `path`. */
  function TransferLines(path: string, content: seq<Byte>, n: nat): seq<string>
    requires n > 0
  {
    LinesFor(Chunks(content, n), true, path)
  }

  function Flatten(cs: seq<seq<Byte>>): seq<Byte>
  {
    if cs == [] then [] else cs[0] + Flatten(cs[1..])
  }

  /** The chunks put back together are the content; each holds at most `n`
      bytes, and none is empty unless the content is. */
  lemma {:induction false} ChunksReassemble(content: seq<Byte>, n: nat)
    requires n > 0
    ensures Flatten(Chunks(content, n)) == content
    ensures forall i :: 0 <= i < |Chunks(content, n)| ==>
      |Chunks(content, n)[i]| <= n && (content != [] ==> Chunks(content, n)[i] != [])
    decreases |content|
  {
    if |content| > n {
      var cs := Chunks(content, n);
      ChunksReassemble(content[n..], n);
      assert cs[1..] == Chunks(content[n..], n);
      assert content[..n] + content[n..] == content;
    } else {
      assert Flatten([content]) == content + Flatten([]);
    }
  }

  lemma MulAtLeast(d: int, n: int)
    requires d >= 1 && n > 0
    ensures d * n >= n
  {
    if d > 1 {
      MulAtLeast(d - 1, n);
      assert d * n == (d - 1) * n + n;
    }
  }

  lemma DivUnique(a: int, n: int, k: int, r: int)
    requires n > 0 && 0 <= r < n && a == k * n + r
    ensures a / n == k
  {
    var k', r' := a / n, a % n;
    assert a == k' * n + r';
    if k' < k {
      MulAtLeast(k - k', n);
    } else if k' > k {
      MulAtLeast(k' - k, n);
    }
  }

  lemma DivStep(x: nat, n: nat)
    requires n > 0
    ensures (x + n) / n == x / n + 1
  {
    var q, r := x / n, x % n;
    assert x == q * n + r;
    assert x + n == (q + 1) * n + r;
    DivUnique(x + n, n, q + 1, r);
  }

  /** ceil(L / n) chunks for a content of L > 0 bytes, one when L = 0. */
  lemma {:induction false} ChunksCount(content: seq<Byte>, n: nat)
    requires n > 0
    ensures |Chunks(content, n)| == if content == [] then 1 else (|content| + n - 1) / n
    decreases |content|
  {
    if |content| > n {
      ChunksCount(content[n..], n);
      DivStep(|content| - 1, n);
    } else if content != [] {
      assert (|content| + n - 1) / n == 1 by {
        DivStep(|content| - 1, n);
        assert (|content| - 1) / n == 0;
      }
    }
  }

  /** The shape of a transfer: ceil(L / n) lines (one for an empty content),
      the first truncating the remote file and every later one appending,
      each carrying the `encode64` of the next chunk. */
  lemma TransferLinesShape(path: string, content: seq<Byte>, n: nat)
    requires n > 0
    ensures |TransferLines(path, content, n)| == if content == [] then 1 else (|content| + n - 1) / n
    ensures forall i :: 0 <= i < |TransferLines(path, content, n)| ==>
      TransferLines(path, content, n)[i] ==
        TransferLine(EncodeLines(Chunks(content, n)[i]), if i == 0 then Truncate else Append, path)
  {
    ChunksCount(content, n);
  }

  /** An empty content is sent as one line with an empty payload that
      truncates the remote file. */
  lemma EmptyTransfer(path: string, n: nat)
    requires n > 0
    ensures TransferLines(path, [], n) == ["echo -n '' | base64 -d > " + path + "\n"]
  {
    assert Chunks([], n) == [[]];
    assert EncodeLines([]) == "";
    assert "echo -n '" + "" + "' | base64 -d " + Truncate + " " == "echo -n '' | base64 -d > ";
  }

  /** With any chunk size, 0 included, an empty content is at its end as
      soon as it is opened: one truncating line with an empty payload, and
      the task is closed without a `read`. */
  lemma EmptyContentStep(n: nat)
    ensures ChunkStep([], n, None) == ChunkOutcome(Truncate, "", None)
  {
  }

  /** With chunk size 0, a non-empty content never advances: every step
      sends an empty payload and leaves the task open where it was, so the
      transfer does not end. */
  lemma ZeroChunkSizeStalls(content: seq<Byte>, file: Option<Reader>)
    requires content != []
    requires file == None || (file.value.data == content && file.value.pos < |content|)
    ensures var o := ChunkStep(content, 0, file);
      && o.payload == ""
      && o.file == Some(if file.Some? then file.value else Stream(content, 0))
  {
    assert EncodeLines([]) == "";
  }

  // ---------------------------------------------------------------------
  // The channel

  /** The data handler the channel has installed; `Exited` once the remote
      shell has ended the channel. */
  datatype Phase = AwaitPassword | SettingPrompt | Dispatching | Exited

  /** Handlers are only ever swapped forward. */
  function Stage(p: Phase): nat
  {
    match p
    case AwaitPassword => 0
    case SettingPrompt => 1
    case Dispatching => 2
    case Exited => 3
  }

  /** A queued directive: a shell command line, or a transfer task (a
      `Send`; see `Dispatched` for other objects). */
  datatype Directive = Command(text: string) | Transfer(task: SendString)

  /** The task `do_command` would work on next. */
  function FrontTasks(q: seq<Directive>): set<SendString>
  {
    if q != [] && q[0].Transfer? then {q[0].task} else {}
  }

  /** `$stderr.puts`: a line feed is added unless the text ends in one. */
  function Puts(s: string): string
  {
    if |s| > 0 && s[|s| - 1] == '\n' then s else s + "\n"
  }

  class Channel {
    const prompts: PromptTable
    const sudoPassword: Option<string>
    /** The command line executed on the channel. */
    const exec: string
    var phase: Phase
    /** `ch[:awaiting_prompt]`: the prompt-set line has been sent. */
    var awaitingPrompt: bool
    /** `ch[:commands]` */
    var commands: seq<Directive>
    /** Everything passed to `ch.send_data`, in order. */
    var sent: seq<string>
    /** Inbound data echoed with `$stdout.write`. */
    var stdout: seq<string>
    /** Extended data forwarded with `$stderr.puts`. */
    var stderr: seq<string>

    /** The channel as `channel_exec` leaves it once `sudo su` runs. */
    constructor (prompts: PromptTable, sudoPassword: Option<string>, commands: seq<Directive>)
      ensures this.prompts == prompts && this.sudoPassword == sudoPassword
      ensures exec == SudoCommand && phase == AwaitPassword && !awaitingPrompt
      ensures this.commands == commands && sent == [] && stdout == [] && stderr == []
    {
      this.prompts := prompts;
      this.sudoPassword := sudoPassword;
      exec := SudoCommand;
      phase := AwaitPassword;
      awaitingPrompt := false;
      this.commands := commands;
      sent := [];
      stdout := [];
      stderr := [];
    }

    /** Whether a chunk of `data` makes the handler of phase `p` run a
        dispatch cycle. */
    function Dispatches(p: Phase, data: string): bool
    {
      || (p == SettingPrompt && Matches(data, CommandPattern))
      || (p == Dispatching && FirstPrompt(prompts, data).None? && Matches(data, CommandPattern))
    }

    /** `send_file_chunk` on task `t`, shifted off the queue leaving
        `rest`, after `s0` had been sent. */
    twostate predicate ChunkSent(t: SendString, rest: seq<Directive>, s0: seq<string>)
      reads this, t
    {
      var o := ChunkStep(old(t.str), old(t.chunkSize), old(t.file));
      && sent == s0 + [TransferLine(o.payload, o.op, old(t.remotePath))]
      && t.file == o.file
      && t.str == old(t.str) && t.chunkSize == old(t.chunkSize) && t.remotePath == old(t.remotePath)
      && commands == (if o.file.None? then rest else [Transfer(t)] + rest)
    }

    /** `do_command` on queue `q`, after `s0` had been sent. */
    twostate predicate Dispatched(q: seq<Directive>, s0: seq<string>)
      reads this, FrontTasks(q)
    {
      if q == [] then sent == s0 + [ExitLine] && commands == []
      else match q[0]
        case Command(text) => sent == s0 + [text + "\n"] && commands == q[1..]
        case Transfer(t) => ChunkSent(t, q[1..], s0)
    }

    /** `handle_sudo_password_prompt` */
    twostate predicate PasswordHandled(data: string)
      reads this
    {
      && stdout == old(stdout) + [data]
      && awaitingPrompt == old(awaitingPrompt) && commands == old(commands)
      && if Matches(data, PasswordPattern) then
           sent == old(sent) + [PasswordLine(sudoPassword)] && phase == SettingPrompt
         else
           sent == old(sent) && phase == AwaitPassword
    }

    /** `set_command_prompt`, the queue being `q` */
    twostate predicate PromptSetHandled(data: string, q: seq<Directive>)
      reads this, FrontTasks(q)
    {
      && stdout == old(stdout) + [data]
      && if Matches(data, CommandPattern) then
           !awaitingPrompt && phase == Dispatching && Dispatched(q, old(sent))
         else if !old(awaitingPrompt) then
           awaitingPrompt && phase == SettingPrompt && sent == old(sent) + [SetPromptLine] && commands == q
         else
           awaitingPrompt && phase == SettingPrompt && sent == old(sent) && commands == q
    }

    /** `on_data`, the queue being `q` */
    twostate predicate DataHandled(data: string, q: seq<Directive>)
      reads this, FrontTasks(q)
    {
      && stdout == old(stdout) + [data]
      && phase == Dispatching && awaitingPrompt == old(awaitingPrompt)
      && match FirstPrompt(prompts, data)
         case Some(k) => sent == old(sent) + [prompts[k].1 + "\n"] && commands == q
         case None =>
           if Matches(data, CommandPattern) then Dispatched(q, old(sent))
           else sent == old(sent) && commands == q
    }

    /** One inbound chunk, given to the installed handler. */
    method OnData(data: string)
      modifies this, FrontTasks(commands)
      ensures old(phase) == AwaitPassword ==> PasswordHandled(data)
      ensures old(phase) == SettingPrompt ==> PromptSetHandled(data, old(commands))
      ensures old(phase) == Dispatching ==> DataHandled(data, old(commands))
      ensures old(phase) == Exited ==> unchanged(this)
      ensures stderr == old(stderr)
      ensures !Dispatches(old(phase), data) ==> unchanged(FrontTasks(old(commands)))
      ensures Stage(old(phase)) <= Stage(phase)
    {
      match phase
      case AwaitPassword => HandleSudoPasswordPrompt(data);
      case SettingPrompt => SetCommandPrompt(data);
      case Dispatching => HandleData(data);
      case Exited =>
    }

    /** Extended data is forwarded and changes nothing else. */
    method OnExtendedData(data: string)
      modifies this`stderr
      ensures stderr == if old(phase) == Exited then old(stderr) else old(stderr) + [Puts(data)]
    {
      if phase != Exited {
        stderr := stderr + [Puts(data)];
      }
    }

    /** The remote shell has ended and the channel is closed: the
        transport's event loop returns. */
    method OnClose()
      modifies this`phase
      ensures phase == Exited
    {
      phase := Exited;
    }

    method HandleSudoPasswordPrompt(data: string)
      requires phase == AwaitPassword
      modifies this
      ensures PasswordHandled(data)
      ensures stderr == old(stderr)
    {
      stdout := stdout + [data];
      if Matches(data, PasswordPattern) {
        sent := sent + [PasswordLine(sudoPassword)];
        phase := SettingPrompt;
      }
    }

    method SetCommandPrompt(data: string)
      requires phase == SettingPrompt
      modifies this, FrontTasks(commands)
      ensures PromptSetHandled(data, old(commands))
      ensures stderr == old(stderr)
      ensures !Matches(data, CommandPattern) ==> unchanged(FrontTasks(old(commands)))
    {
      stdout := stdout + [data];
      if Matches(data, CommandPattern) {
        awaitingPrompt := false;
        phase := Dispatching;
        DoCommand();
      } else if !awaitingPrompt {
        awaitingPrompt := true;
        sent := sent + [SetPromptLine];
      }
    }

    method HandleData(data: string)
      requires phase == Dispatching
      modifies this, FrontTasks(commands)
      ensures DataHandled(data, old(commands))
      ensures stderr == old(stderr)
      ensures !Dispatches(Dispatching, data) ==> unchanged(FrontTasks(old(commands)))
    {
      stdout := stdout + [data];
      var k := FirstPrompt(prompts, data);
      if k.Some? {
        sent := sent + [prompts[k.value].1 + "\n"];
        return;
      }
      if Matches(data, CommandPattern) {
        DoCommand();
      }
    }

    /** `do_command`: one dispatch cycle. */
    method DoCommand()
      modifies this, FrontTasks(commands)
      ensures Dispatched(old(commands), old(sent))
      ensures phase == old(phase) && awaitingPrompt == old(awaitingPrompt)
      ensures stdout == old(stdout) && stderr == old(stderr)
    {
      if |commands| > 0 {
        var command := commands[0];
        commands := commands[1..];
        match command
        case Transfer(t) => SendFileChunk(t);
        case Command(text) => sent := sent + [text + "\n"];
      } else {
        sent := sent + [ExitLine];
      }
    }

    /** `send_file_chunk` */
    method SendFileChunk(t: SendString)
      modifies this, t
      ensures ChunkSent(t, old(commands), old(sent))
      ensures phase == old(phase) && awaitingPrompt == old(awaitingPrompt)
      ensures stdout == old(stdout) && stderr == old(stderr)
    {
      var op;
      if t.IsOpen() {
        op := Append;
      } else {
        t.Open();
        op := Truncate;
      }
      var payload;
      if !t.IsEof() {
        var chunk := t.Read();
        payload := EncodeLines(chunk.value);
      } else {
        payload := "";
      }
      sent := sent + [TransferLine(payload, op, t.remotePath)];
      if t.IsEof() {
        t.Close();
      } else {
        commands := [Transfer(t)] + commands;
      }
    }
  }

  // ---------------------------------------------------------------------
  // The session

  /** The keys of the options map given to the transport. */
  datatype SshOption = PasswordOption | KeysOption | PortOption

  datatype SshValue = Text(text: string) | Keys(keys: seq<string>) | Number(number: nat)

  /** `ssh_options`: an entry for each of the password, the private key
      (as a one-key list) and the port that was given, and no other. */
  function SshOptions(password: Option<string>, privateKey: Option<string>, port: Option<nat>)
    : (m: map<SshOption, SshValue>)
    ensures PasswordOption in m <==> password.Some?
    ensures KeysOption in m <==> privateKey.Some?
    ensures PortOption in m <==> port.Some?
    ensures password.Some? ==> m[PasswordOption] == Text(password.value)
    ensures privateKey.Some? ==> m[KeysOption] == Keys([privateKey.value])
    ensures port.Some? ==> m[PortOption] == Number(port.value)
  {
    var s := map[];
    var s := if password.Some? then s[PasswordOption := Text(password.value)] else s;
    var s := if privateKey.Some? then s[KeysOption := Keys([privateKey.value])] else s;
    if port.Some? then s[PortOption := Number(port.value)] else s
  }

  /** The options hash of `Session.new`; an absent key is None. */
  datatype Options = Options(
    username: Option<string>,
    password: Option<string>,
    port: Option<nat>,
    privateKey: Option<string>,
    prompts: Option<PromptTable>,
    sudoPassword: Option<string>)

  /** The argument of `sudo`: one directive, or a list of them. */
  datatype Commands = One(directive: Directive) | Many(directives: seq<Directive>)

  /** `[ *commands ]`: a single directive becomes a one-element queue, a
      list is queued as it is, in its order. */
  function Splat(commands: Commands): (q: seq<Directive>)
    ensures commands.One? ==> |q| == 1 && q[0] == commands.directive
    ensures commands.Many? ==> |q| == |commands.directives|
    ensures commands.Many? ==> forall i :: 0 <= i < |q| ==> q[i] == commands.directives[i]
  {
    match commands
    case One(d) => [d]
    case Many(ds) => ds
  }

  const SessionClosed := "Session is closed"
  const NoPty := "Could not obtain pty"
  const SudoFailed := "Could not execute sudo su command"
  /** What calling `close` on the missing transport session raises. */
  const NoSession := "undefined method `close' for nil:NilClass"

  class Session {
    const host: string
    var username: string
    var password: Option<string>
    var port: Option<nat>
    var privateKey: Option<string>
    var prompts: PromptTable
    var sudoPassword: Option<string>
    /** `@session` is a live transport session (not nil). */
    var connected: bool
    /** The arguments `connect` gave to the transport. */
    var connection: (string, string, map<SshOption, SshValue>)
    /** Lines written with `puts`. */
    var stdout: seq<string>

    /** `initialize`, then `connect`; the current user name is the
        environment's `USER`, passed in as `envUser`. */
    constructor (host: string, options: Options, envUser: string)
      ensures this.host == host
      ensures username == (if options.username.Some? then options.username.value else envUser)
      ensures password == options.password && port == options.port
      ensures privateKey == options.privateKey && sudoPassword == options.sudoPassword
      ensures prompts == (if options.prompts.Some? then options.prompts.value else [])
      ensures connected && stdout == []
      ensures connection == (host, username, SshOptions(password, privateKey, port))
    {
      this.host := host;
      username := if options.username.Some? then options.username.value else envUser;
      password := options.password;
      port := options.port;
      privateKey := options.privateKey;
      prompts := if options.prompts.Some? then options.prompts.value else [];
      sudoPassword := options.sudoPassword;
      stdout := [];
      new;
      connected := true;
      connection := (host, username, SshOptions(password, privateKey, port));
    }

    /** `run`: the remote command's output is `output`. */
    method Run(command: string, output: string) returns (r: Outcome)
      modifies this`stdout
      ensures !connected ==> r == Fail(SessionClosed) && stdout == old(stdout)
      ensures connected ==> r == Pass && stdout == old(stdout) + [Puts("@" + host + ": " + command), Puts(output)]
    {
      if !connected {
        return Fail(SessionClosed);
      }
      stdout := stdout + [Puts("@" + host + ": " + command)];
      stdout := stdout + [Puts(output)];
      return Pass;
    }

    /** `sudo`: the channel it opens, ready for inbound data, or the error
        it raises.  Whether the pseudo-terminal was granted and whether
        `sudo su` started are the transport's answers. */
    method Sudo(commands: Commands, ptyGranted: bool, execStarted: bool) returns (r: Result<Channel>)
      ensures !connected ==> r == Failure(SessionClosed)
      ensures connected && !ptyGranted ==> r == Failure(NoPty)
      ensures connected && ptyGranted && !execStarted ==> r == Failure(SudoFailed)
      ensures connected && ptyGranted && execStarted ==>
        && r.Success? && fresh(r.value)
        && r.value.commands == Splat(commands)
        && r.value.prompts == prompts && r.value.sudoPassword == sudoPassword
        && r.value.exec == SudoCommand && r.value.phase == AwaitPassword && !r.value.awaitingPrompt
        && r.value.sent == [] && r.value.stdout == [] && r.value.stderr == []
    {
      if !connected {
        return Failure(SessionClosed);
      }
      var queue := Splat(commands);
      if !ptyGranted {
        return Failure(NoPty);
      }
      if !execStarted {
        return Failure(SudoFailed);
      }
      var ch := new Channel(prompts, sudoPassword, queue);
      return Success(ch);
    }

    /** `close`: ends the transport session; a second `close` raises, the
        session being nil by then. */
    method Close() returns (r: Outcome)
      modifies this`connected
      ensures !connected
      ensures r == if old(connected) then Pass else Fail(NoSession)
    {
      if !connected {
        return Fail(NoSession);
      }
      connected := false;
      return Pass;
    }
  }
}
