# mpv IPC client: protocol core in Dafny

This project models the protocol logic of the mpv IPC client (`src/ipc.rs`). That logic sits between the Unix socket and the caller. It has four parts:

- **Command-line encoder.** `run_command` builds the outbound line `{ "command": ["cmd", "arg1", ...] }` followed by a newline. Each argument is placed between quotes exactly as given, with no JSON escaping.
- **Reply-wait loop.** `send_command_sync` starts with an empty buffer. It clears the buffer and refills it with the next incoming line until the buffer's text contains `"error":`, then returns that line.
- **Reply classifier.** The parsed reply's `"error"` member is looked at (a missing key or a non-object reads as `Null`):
  - `"success"` gives `Ok(())`.
  - Any other string `s` gives `MpvError(s)`.
  - Anything else gives `UnexpectedResult`.
  - A parse failure gives `JsonParseError` with the parser's message.
- **Event classifier.** `listen` reads one line and removes trailing whitespace. It parses the rest and maps the `"event"` string:
  - `"seek"` gives `Seek`, `"pause"` gives `Pause` and `"unpause"` gives `Play`, each carrying the position returned by a follow-up position query. If that query fails, its `unwrap` panics.
  - Any other string gives `Unimplemented`.
  - A line whose `"event"` is not a string reaches `unreachable!()`.

Files and modules:

- `json.dfy` (`Json`): the parsed JSON value, and indexing by key with `Null` for a missing member.
- `protocol.dfy` (`Protocol`): `ErrorCode`, `Event`, `Result`, and the parser's outcome `ParseResult`.
- `command_line.dfy` (`CommandLine`): the encoder, a method with a loop proved to produce `Line(command, args)`. Beside it is a decoder `ParseLine` used as a reference, with a round-trip lemma.
- `reply.dfy` (`Reply`): the wait loop, the reply classifier, and one whole `run_command` call.
- `events.dfy` (`Events`): `trim_end`, the event-name map and `listen`.

Inputs from outside the process are parameters:

- The JSON parser (serde_json) is a function `parse: string -> ParseResult`.
- The lines arriving on the socket are a `seq<string>`. Each element is what one `read_line` appends, terminator included.
- The outcome of the position query that `listen` makes for the three typed events is a parameter `query` (a position or an error).
- `f64` values are opaque bit patterns (`Json.F64`).

Three behaviours of the code that the model keeps:

- Arguments are inserted raw, without JSON escaping. `UnescapedArgumentsCollide` shows two calls that put the same line on the wire.
- A reply is recognised by the text `"error":` anywhere in the line, not by a parsed key.
- A line in `listen` with no string `"event"` reaches `unreachable!()`, modelled as the outcome `Panicked`.

## Model

| member | source | states |
|---|---|---|
| `CommandLine.Encode` | src/ipc.rs:53-61 | the line built by pushing onto the string one argument at a time is `Line(command, args)`: the opening text, the command, a quote, `, "arg"` per argument in order, then `] }` and a newline; with no arguments it is `{ "command": ["cmd"] }` and a newline |
| `CommandLine.LineLength` | src/ipc.rs:54-60 | the line is 20 characters plus the command's length plus, for each argument, its length plus 4 |
| `CommandLine.ArgsTextLength` | src/ipc.rs:55-59 | the argument part grows by each argument's length plus 4 (the `, "` and closing quote) |
| `CommandLine.CommandVerbatim` | src/ipc.rs:54 | the line opens with `{ "command": ["`, followed by the command unchanged and a quote |
| `CommandLine.ArgumentVerbatim` | src/ipc.rs:56-58 | argument i appears unchanged at its offset, preceded by `, "` and followed by a quote |
| `CommandLine.ParseLineRoundTrip` | src/ipc.rs:54-60 | for a command and arguments without quotes, the line reads back by `ParseLine` (a decoder that splits on quotes) to exactly that command and that argument list, in order; a JSON reader needs more than the absence of quotes, since backslashes and control characters in an argument also change what it reads |
| `CommandLine.UnescapedArgumentsCollide` | src/ipc.rs:57 | because nothing is escaped, the one argument `a", "b` and the two arguments `a`, `b` produce the same line |
| `Json.Index` | src/ipc.rs:64 | an object holding the key yields that member; a missing key or a non-object yields `Null` |
| `Reply.FirstReplyIndex` | src/ipc.rs:87-90 | the position of the first line whose text contains `"error":`; no earlier line contains it |
| `Reply.AwaitReply` | src/ipc.rs:84-93 | reads at least one line; returns the first line, in arrival order, that contains `"error":`; every line read before it lacks `"error":` and is dropped; the number of lines read is that line's position plus one |
| `Reply.ClassifyReply` | src/ipc.rs:62-75 | `Ok(())` exactly when the reply parses to an object whose `"error"` is the string `"success"`; `MpvError(s)` exactly when `"error"` is another string `s`, carrying `s`; `UnexpectedResult` exactly when the parsed reply has no string `"error"` (missing key or non-object included); `JsonParseError` with the parser's message exactly when parsing fails |
| `Reply.RunCommand` | src/ipc.rs:53-76 | one call writes `Line(command, args)`, reads up to and including the first line containing `"error":`, and returns the classification of that line's parse |
| `Reply.PropertyNotFound` | src/ipc.rs:67-68 | the reply `{"error": "property not found"}` gives `MpvError("property not found")` |
| `Events.TrimEnd` | src/ipc.rs:101 | the result is the prefix of the line that does not end in whitespace, with only Unicode whitespace after it |
| `Events.TrimEndIgnoresTrailingWhitespace` | src/ipc.rs:101 | appending whitespace to a line does not change its trimmed form |
| `Events.TrimEndIdempotent` | src/ipc.rs:101 | trimming twice is the same as trimming once |
| `Events.EventFromName` | src/ipc.rs:107-123 | `"seek"`, `"pause"` and `"unpause"` map to `Seek`, `Pause` and `Play` with the queried position, each name to its own variant only; every other name and only those map to `Unimplemented`, which carries no position |
| `Events.ClassifyEvent` | src/ipc.rs:103-129 | a parse failure returns `JsonParseError` with the parser's message, and only a parse failure returns an error; the outcome is a panic exactly when the parsed line has no string `"event"` (missing, or not an object: the `unreachable!()`) or names a typed event while the position query failed (the `unwrap`); otherwise the event is `Unimplemented` for an untyped name, whatever the query answered, and the name map applied to the queried position for `seek`, `pause` and `unpause` |
| `Events.Listen` | src/ipc.rs:98-130 | one call parses the next line with its trailing whitespace removed (the empty line at end of stream): it returns an error exactly when that parse fails, and then `JsonParseError` with the parser's message; it panics when the parsed line has no string `"event"`; it returns `Unimplemented` for an untyped event name, and the typed event with the queried position for `seek`, `pause` and `unpause` when the query succeeds |
| `Events.ListenIgnoresTrailingWhitespace` | src/ipc.rs:98-103 | `listen` gives the same outcome for a line with or without trailing whitespace such as its newline |
| `Events.IdleIsUnimplemented` | src/ipc.rs:120-122 | `{"event": "idle"}` gives `Unimplemented` |

## Left out

- Socket plumbing is I/O and is not modelled: `connect`, `disconnect` with its shutdown-and-drain loop, `Drop`, `get_stream_ref`, and building the buffered readers. Incoming lines are an input sequence instead.
- Each call of `send_command_sync` creates a fresh `BufReader` and drops it afterwards, and `listen` reads through a different buffered reader. Bytes read ahead by one reader and lost when it is dropped are not modelled: each element of the input sequence is one whole line.
- `Reply.AwaitReply` requires that some incoming line contains `"error":`. `read_line` at end of stream leaves the buffer empty, so the source loops forever there, and the model does not cover that non-terminating case.
- The panics on a failed write and on read errors are I/O error paths and are not modelled.
- The JSON parser (serde_json) is a foreign library and is the parameter `parse`.
- `get_current_pos` is a socket round trip and is not modelled; `listen` takes its outcome as the parameter `query`. That function also embeds `{{` and a literal backslash-n in its raw command string, and calls `as_f64` on the whole reply object.
- Events.ClassifyEvent: the position query's outcome is an input, so the model returns `Seek`, `Pause` or `Play` whenever that input is a position. As written, `get_current_pos` cannot produce one: its reply line must contain `"error":` and so is an object, `as_f64` on an object gives nothing and the `unwrap` at src/ipc.rs:151 panics; a parse failure becomes an error that the `unwrap` at src/ipc.rs:109, 113 and 117 panics on; and since its command has no real newline, the reply it waits for may never come. So in the source the three typed events always end in a panic or a hang, and the model shows this only through the `query` failure case.
- `play`, `pause` and `seek` are `unimplemented!()`, so there is nothing to model.
- The `MpvCommand` enum is declared but never used by any operation, so it is not modelled.
- The `log::debug!` calls are side effects only.
- `f64` arithmetic: positions are opaque bit patterns, and nothing computes with them.
- `src/lib.rs` is an unfinished asynchronous stub with no protocol logic, and is not part of this model.
