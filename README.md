# remote-session in Dafny

A model of `Remote::Session`, a Ruby library that logs in to a host over
SSH, becomes root with `sudo su -` by answering the password prompt, and
then drives the root shell: it sends one queued command each time the root
prompt comes back, and uploads files or strings by sending them as
`echo -n '<base64>' | base64 -d > path` lines, one chunk per prompt.

The model covers:

- **Base64** (`base64.dfy`). Ruby's `Base64.encode64` is the padded
  alphabet of section 4 of RFC 4648, broken into lines of 60
  characters, each ended by a line feed. The 60 is Ruby's own line length;
  section 6.8 of RFC 2045 only caps MIME lines at 76. The remote `base64 -d` is a decoder
  that skips line feeds. `DecodeEncode` proves that the remote side decodes
  exactly the bytes that were encoded.
- **Transfer tasks** (`tasks.dfy`).
  - `SendString` is `Send` together with its `_open` over a `StringIO`.
  - `SendFile` is a separate class over a local file system, given as a map
    from path to bytes.
  - Both are classes whose `file` field is the open IO object: a value made
    of the bytes and the read position, or None when closed.
- **The session** (`session.dfy`).
  - `Channel` is the channel's state machine. It holds the installed data
    handler, the `:awaiting_prompt` latch and the `:commands` queue, and it
    logs everything sent and echoed.
  - There is one method per handler, plus `do_command` and
    `send_file_chunk`, each specified by what it sends and how it changes the
    queue and the task.
  - `Session` covers `initialize`/`connect`, `run`, `sudo` and `close`, with
    the closed-session guard and the two fatal setup errors.
  - The file also defines the exact wire lines and how a transfer cuts its
    content into chunks.
- **The remote shell** (`remote_shell.dfy`). It parses a transfer line and
  applies it to a map of remote files. `TransferWritesContent` proves that
  the lines of a transfer leave exactly the content at the remote path.
- **Whole sessions** (`scenarios.dfy`). These are driver methods that build
  a channel over a queue and feed it the shell's answers. They prove that a
  command queue sends each command in queue order and then `exit`. They
  prove that a transfer sends exactly the lines `TransferLines` lays out,
  all of them before any directive queued behind it.
  They also prove that reading a `SendString` to its end yields its content
  in chunks.

Behaviours of the code that are easy to misread, all modelled as written:

- `on_data` echoes every chunk before it looks at the prompt table
  (`lib/remote/session.rb:133`), including chunks the table answers.
- `send_file_chunk` tests `eof?` after the read (`lib/remote/session.rb:177`).
  A content of L > 0 bytes therefore takes ⌈L / chunk_size⌉ lines, not one
  more line carrying an empty payload. An empty content takes one line.
- The `export PS1=...` line is sent with no line feed
  (`lib/remote/session.rb:127`). An interactive shell therefore does not run it
  until more input follows. The whole-session drivers in `scenarios.dfy`
  take it as given that the root prompt arrives after this line.
- Sending `exit` does not swap the handler. The channel stops only when the
  transport reports it closed, which is `Channel.OnClose`.
- A `SendFile` in the queue is not sent in chunks: `do_command` transfers only a `Send` (`lib/remote/session.rb:150`).
- `SendFile#open` closes and reopens the file (`lib/remote/session/send_file.rb:39-42`).
  It does not rewind it.

Inputs the library takes from its environment are parameters of the model:

- the `USER` environment variable;
- the output of `exec!`;
- whether the pseudo-terminal was granted;
- whether `sudo su` started;
- the local files a `SendFile` can read.

## Model

| member | source | states |
|---|---|---|
| Base64.Encode | lib/remote/session.rb:170 | the unbroken encoding has 4·⌈n/3⌉ characters, none a line feed or a quote |
| Base64.EncodeLines | lib/remote/session.rb:170 | `encode64` is empty exactly for no bytes and never contains a single quote, so the payload stays inside the quoted `echo` argument |
| Base64.DecodeEncode | lib/remote/session.rb:170 | `base64 -d` of `encode64(b)` gives back exactly `b` |
| Tasks.ReadBytes | lib/remote/session/send.rb:16-20 | `read(n)` returns nil exactly when n > 0 at the end. Otherwise it returns exactly the next min(n, bytes left) bytes and moves the position past exactly those bytes |
| Tasks.SendString.constructor | lib/remote/session/send_string.rb:11-14 | a new task keeps the string and the remote path, has chunk size 1024 and is not open |
| Tasks.SendString.IsOpen | lib/remote/session/send.rb:27-29 | `open?` is true exactly when the IO object is present |
| Tasks.SendString.IsEof | lib/remote/session/send.rb:22-25 | `eof?` is true when not open; when open it is true iff the position is at the end |
| Tasks.SendString.Open | lib/remote/session/send.rb:31-38 | an open task is rewound to position 0 over the same bytes; a closed one gets a fresh reader over the string (`_open`, send_string.rb:18-20) |
| Tasks.SendString.Read | lib/remote/session/send.rb:16-20 | opens lazily, then returns `read(chunk_size)` and leaves the reader advanced past it |
| Tasks.SendString.Close | lib/remote/session/send.rb:40-44 | afterwards the task is not open, whether or not it was |
| Tasks.SendFile.constructor | lib/remote/session/send_file.rb:11-16 | a new task keeps both paths, has chunk size 1024 and is not open |
| Tasks.SendFile.IsOpen | lib/remote/session/send_file.rb:18-20 | `open?` is true exactly when the IO object is present |
| Tasks.SendFile.IsEof | lib/remote/session/send_file.rb:22-25 | `eof?` is true when not open; when open it is true iff the position is at the end |
| Tasks.SendFile.Open | lib/remote/session/send_file.rb:39-42 | closes, then reopens the local file at position 0; an unreadable path fails and leaves the task closed |
| Tasks.SendFile.Read | lib/remote/session/send_file.rb:27-31 | reads `chunk_size` bytes from the open file, or opens it first; an unreadable path fails |
| Tasks.SendFile.Close | lib/remote/session/send_file.rb:33-37 | afterwards the task is not open, whether or not it was |
| RemoteSession.Matches | lib/remote/session.rb:13 | a chunk matches a marker iff the marker occurs in it, ending a line (before a line feed or at the end) when the marker is anchored with `$` |
| RemoteSession.FirstPrompt | lib/remote/session.rb:135-140 | the index of the first prompt-table entry the chunk matches, with no earlier entry matching; None iff no entry matches |
| RemoteSession.SshOptions | lib/remote/session.rb:79-85 | the options have a password, keys or port entry iff that setting was given; keys is the one-element list of the private key |
| RemoteSession.ChunksReassemble | lib/remote/session.rb:168-181 | the chunks a transfer reads concatenate to the content; each has at most chunk-size bytes and none is empty unless the content is |
| RemoteSession.ChunksCount | lib/remote/session.rb:168-181 | a content of L > 0 bytes is sent in ⌈L / chunk_size⌉ chunks, an empty one in one chunk |
| RemoteSession.TransferLinesShape | lib/remote/session.rb:160-182 | a transfer sends one line per chunk; the first line truncates with `>` and every later line appends with `>>`, each carrying the `encode64` of its chunk |
| RemoteSession.EmptyTransfer | lib/remote/session.rb:168-175 | an empty content is sent as the single line `echo -n '' \| base64 -d > path` |
| RemoteSession.EmptyContentStep | lib/remote/session.rb:168-171 | with any chunk size, 0 included, an empty content sends one `>` line with an empty payload and the task is closed without a read |
| RemoteSession.ZeroChunkSizeStalls | lib/remote/session.rb:168-181 | with chunk size 0, a non-empty content sends an empty payload on every step and the task stays open where it was |
| RemoteSession.Channel.constructor | lib/remote/session.rb:91-97 | after `channel_exec` the queue is the given commands, `sudo -k -p '<marker>' su -` was executed, and the password handler is installed |
| RemoteSession.Channel.OnData | lib/remote/session.rb:105-145 | a chunk goes to the installed handler; handlers are only swapped forward, a closed channel ignores data, and a chunk that starts no dispatch cycle leaves the front task untouched |
| RemoteSession.Channel.OnExtendedData | lib/remote/session.rb:99-101 | extended data is forwarded to standard error with `puts` and changes nothing else |
| RemoteSession.Channel.OnClose | lib/remote/session.rb:61 | once the channel closes, no handler runs |
| RemoteSession.Channel.HandleSudoPasswordPrompt | lib/remote/session.rb:105-112 | echoes the chunk; the password line is sent, and the prompt-setting handler installed, iff the chunk contains the sudo marker |
| RemoteSession.Channel.SetCommandPrompt | lib/remote/session.rb:116-130 | a chunk ending a line in the root marker clears the latch, installs `on_data` and runs one dispatch cycle; otherwise the `export PS1` line is sent once, when the latch is first set |
| RemoteSession.Channel.HandleData | lib/remote/session.rb:132-145 | the first matching prompt entry's answer is sent and the queue is untouched; otherwise a root-marker chunk runs one dispatch cycle and any other chunk sends nothing |
| RemoteSession.Channel.DoCommand | lib/remote/session.rb:147-158 | an empty queue sends `exit\n`; a command is shifted off and sent with a line feed; a transfer task is shifted off and given to `send_file_chunk` |
| RemoteSession.Channel.SendFileChunk | lib/remote/session.rb:160-182 | sends `>` and opens the task if it was closed, else `>>`. The payload is the `encode64` of the next chunk, or empty at the end. The task is closed at the end, otherwise put back at the front with the rest of the queue untouched |
| RemoteSession.Session.constructor | lib/remote/session.rb:31-42 | keeps the options (the user name defaulting to `USER`, the prompts to an empty table) and connects with `ssh_options` |
| RemoteSession.Session.Run | lib/remote/session.rb:44-48 | fails with "Session is closed" after `close`; otherwise prints the command line and its output |
| RemoteSession.Splat | lib/remote/session.rb:52 | `[ *commands ]`: a single directive becomes the one-element queue, a list becomes the queue of its elements in order |
| RemoteSession.Session.Sudo | lib/remote/session.rb:50-62 | fails with "Session is closed", "Could not obtain pty" or "Could not execute sudo su command"; otherwise opens a channel whose queue is `[*commands]` |
| RemoteSession.Session.Close | lib/remote/session.rb:64-67 | the session is closed afterwards; closing twice raises |
| RemoteShell.ParseTransferLine | lib/remote/session.rb:175 | the shell reads back, from every transfer line, the payload, the redirection and the path it was built from |
| RemoteShell.RunAppends | lib/remote/session.rb:162 | appending lines add their chunks to the remote file in order |
| RemoteShell.TransferWritesContent | lib/remote/session.rb:160-182 | whatever the remote files were, the lines of a transfer leave exactly the content at the remote path and change no other file |
| Scenarios.ReadAll | lib/remote/session/send_string.rb:18-20 | a string read from `open` to `eof?` comes out as its chunks. Each chunk is non-empty and at most `chunk_size` bytes, and together they are the string. An empty string is at its end as soon as it is opened |
| Scenarios.ChunkStepFrom | lib/remote/session.rb:168-181 | with bytes left at position p, `send_file_chunk` sends the bytes from p up to p + chunk_size and keeps the task open iff bytes remain after them |
| Scenarios.Login | lib/remote/session.rb:105-130 | the sudo prompt, then the first output of the root shell, send the password and then the prompt-set line |
| Scenarios.DrainBefore | lib/remote/session.rb:132-158 | while commands are queued in front of other directives, each root prompt sends the next command with a line feed, in queue order, until the directives behind them are at the front |
| Scenarios.StartTransfer | lib/remote/session.rb:160-182 | the root prompt that reaches a transfer at the front of the queue, whether `set_command_prompt` or `on_data` receives it, sends its first chunk with `>` and puts the task back in front of the rest of the queue while bytes remain |
| Scenarios.ContinueTransfer | lib/remote/session.rb:160-182 | each later dispatch sends the next chunk with `>>` and keeps the task in front of the rest of the queue while bytes remain |
| Scenarios.Output | lib/remote/session.rb:132-145 | chunks of command output, matching neither the root prompt nor a prompt-table entry, are echoed and send nothing, leaving the queue and the handler as they were |
| Scenarios.DrainCommands | lib/remote/session.rb:132-158 | while only commands are queued, each root prompt sends the next command with a line feed, the prompt after the last one sends `exit\n`, and the command output printed before each prompt sends nothing |
| Scenarios.RunCommands | lib/remote/session.rb:132-158 | a queue of commands, with any command output between the root prompts, sends the password, the prompt-set line, each command with a line feed in queue order, then `exit\n` |
| Scenarios.FirstLine | lib/remote/session.rb:160-182 | the first line of a transfer is the first of its `TransferLines`; what remains to be sent is the rest of them, or nothing when the content fits in one chunk |
| Scenarios.SendRemaining | lib/remote/session.rb:160-182 | after a transfer's first line, the root prompts send the remaining chunks with `>>` until all of its lines are sent and the directives behind it are at the front |
| Scenarios.RunTransfer | lib/remote/session.rb:147-182 | a transfer queued between two lists of commands sends the password and the prompt-set line, then the commands before it, then exactly the transfer's lines (one per chunk, `>` then `>>`), and only then the commands after it in order and `exit\n` |

## Left out

- The SSH and SFTP transport is not modelled: `Net::SSH.start`, `open_channel`, `request_pty`, `exec`, `exec!`, the event `loop` and `put`. The model keeps only their outcomes, as parameters (pty granted, `sudo su` started, the output of `exec!`) and as the `Channel.OnClose` event.
- Caller prompt patterns are matched as literal text, not as Ruby regular expressions. The two markers contain no regular-expression metacharacters, and `$` is modelled as matching at a line end.
- Echoing to standard output and standard error is kept only as logs of strings.
- `USER` is a parameter of `Session.constructor`, not read from the environment.
- `Session.open` is left out: it is `new`, the block, then `close`.
- lib/remote/session/version.rb is not part of this model (a version string).
- A bare `Send.new` is not modelled: it has no `_open`, so its first `read` fails. `SendString` stands for `Send` together with its subclass.
- A `SendFile` placed in the queue is not a `Send`, so `do_command` sends its `to_s` as a command. The model's queue holds command texts and `SendString` tasks, and such an object is modelled as its command text.
- `SendFile` errors raised while it is in a transfer are not modelled, because `do_command` never transfers a `SendFile`.
- RemoteShell: the remote path is taken as one shell word ending at the line feed; shell quoting and expansion of the path are not modelled.
- RemoteShell.TransferWritesContent and the transfer drivers: chunk size 0 is excluded. For a non-empty content, `read(0)` then returns an empty chunk forever and the transfer never ends (`RemoteSession.ZeroChunkSizeStalls`). An empty content still sends its one `>` line with chunk size 0, because `eof?` is true as soon as it is opened (`RemoteSession.EmptyContentStep`).
- Scenarios.RunTransfer: the remote shell prints no output between the root prompts of a transfer; command output between prompts is covered by `Scenarios.RunCommands` and `Scenarios.Output`.
- The same task object queued twice is handled by the handlers' object-level contracts, not by the whole-session drivers, which each queue a single fresh task.
- Integer widths do not matter here: positions and sizes are unbounded naturals, as Ruby integers are.
- Tasks.SendFile.Open: the error of an unopenable local file is one stand-in message; Ruby's `Errno` message (which names the path) and the kind of failure (a missing file, a permission problem) are abstracted.
- `chunk_size` is a public accessor in the source, but the model's `chunkSize` is a natural number. Setting it to nil, where `read(nil)` returns the whole rest, is not modelled.
- A negative `chunk_size`, on which `read` raises `ArgumentError`, is not modelled either, for the same reason.
- Strings sent by `SendString` are taken as their bytes, which is what `StringIO#read` counts; character encodings are not modelled.
