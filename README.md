# ircts core, modelled in Dafny

ircts is a compliance test harness for IRC servers. This project models the part of the harness that
the `run` command executes once its configuration is loaded:

- every declared test is first marked as cancelled (`N/A`, "Test cancelled and not run");
- a first connection sends `CAP LS 302` and folds the server's `CAP LS` replies (IRCv3 capability
  negotiation, continuation lines marked `*`) into the maps of supported capabilities and their values,
  answering the final line with `QUIT`;
- every test's handler then runs, groups and tests in declaration order, each under its `Group-Test` key.

It also models the layers under that:

- the only test, `SASL-Login-PLAIN`, with:
  - its precondition branches
  - the PLAIN credential message (RFC 4616, section 2) and its base64 form (RFC 4648, section 4)
  - the order of its six requests
  - the state machine over the replies (001, 900, 903 and the failure numerics of IRCv3 SASL 3.1)
- the results table
- the run manager's nickname generator
- connections and their traffic transcript
- the connection pool
- the line-buffered socket

Modules, one per component: `Wrappers`, `Text` (the Go `strings` functions used), `Base64`, `Config`,
`Wire` (the message library's boundary), `Sockets`, `Connections`, `Tests`, `SaslSuite` and `Harness`.

## How the outside world appears

- **Network.** The network is an input. Dialling yields a `Dial`: either refused with a reason, or a
  stream over which the server sends a fixed string and on which every write fails with a fixed error
  or none. A socket is a class:
  - `input` holds what is still to be read;
  - `output` holds what has been flushed.
- **Messages.** Parsing and encoding IRC messages (the `ircmsg` library) are function inputs that may
  fail.
- **Randomness.** The nine random bytes of a nickname are a `Nonce` input.
- **Test sessions.** A test handler's session (its dial outcome and nonce) is given per test key by
  `sessions`.
- **Handler verdicts.** The verdict each handler records is `SaslSuite.LoginPlainResult`. The run
  methods carry it as a ghost function `verdict`, pinned to that definition by their precondition
  `Describes`.
- **Printing.** The printed progress lines are returned as sequences of strings.

## Behaviour kept as the code has it

- `Socket.Disconnect` tests `!connected` (lib/conn/socket.go:118). So a connected socket is never marked
  disconnected and its stream is never closed. The class keeps this behaviour, and a destroyed
  connection's socket stays connected with no close call (see `LoginPlainHandler`). The finding below
  states and proves the intended behaviour beside it.
- `TestResults.Set` stores the explanation `text` as the traffic and drops its `traffic` argument
  (lib/tests/tests.go:90). A failure's printed transcript is therefore its explanation.
- The `CAP` loop's `err` is shadowed inside the loop (ircts.go:72-81). So the loop stops only on a read
  or parse error. Reading goes on after `QUIT`, and a server that sends several final lines gets several
  `QUIT`s.
- A continuation line with exactly three parameters makes the code index `params[3]` out of range, a
  Go panic. The run then ends in the `Panicked` outcome instead of being excluded by a precondition.
- The error paths of `main` that call `log.Fatalln` end the run in `Fatal(message)`.

## Model

| member | source | states |
|---|---|---|
| Text.FieldsSeparated | ircts.go:86 | `strings.Fields` gives back exactly the words of any text of non-empty, space-free words separated by non-empty runs of white space, with optional white space at either end |
| Text.FieldsSkipsSpace | ircts.go:86 | white space in front of a text adds no field |
| Text.FieldsUnwords | ircts.go:86 | splitting a space-joined list of non-empty, space-free tokens on white space gives the tokens back |
| Text.SplitOnEqualsParts | ircts.go:87-92 | a token splits on its first `=`: the name has no `=`, name, `=` and value rebuild the token, and without `=` the value is empty |
| Text.TrimCrLf | lib/conn/socket.go:83 | the result is a prefix of the line that does not end in CR or LF, and only CR and LF characters were removed |
| Text.UpperIsLs | ircts.go:84 | `ToUpper(p) == "LS"` exactly for the two-character spellings of `ls` in any case, the long s included |
| Text.IndexOf | lib/tests/saslSuite.go:42-47 | the first occurrence of an element (a NUL byte in the PLAIN message, a line feed in a read), or -1 exactly when it has none |
| Base64.Encode | lib/tests/tests.go:124 | the encoding of `n` bytes is `4 * ceil(n / 3)` characters long |
| Base64.DigitInjective | lib/tests/tests.go:124 | distinct six-bit values are written as distinct alphabet characters |
| Base64.EncodeUnpadded | lib/tests/tests.go:124-126 | a whole number of three-byte groups encodes to alphabet characters only (no padding) |
| Sockets.ReadLine | lib/conn/socket.go:81-83 | a read consumes up to and including the first LF and trims trailing CR/LF; without an LF it consumes everything and is incomplete |
| Sockets.FramedLineReadsBack | lib/conn/socket.go:81-95 | reading back a sent line (framed with CR LF) yields that line and leaves what follows, if and only if the line has no LF and does not end in CR |
| Sockets.WireBytesConcat | lib/conn/socket.go:103-111 | the bytes of two message batches sent one after the other are the concatenation of each batch's bytes |
| Sockets.DisconnectAsWritten | lib/conn/socket.go:114-122 | the connected flag never changes, and the stream is closed only when the socket was already disconnected |
| Sockets.DisconnectIntended | lib/conn/socket.go:114-122 | the socket ends disconnected, and the stream is closed once if it was connected |
| Sockets.AsWrittenNeverCloses | lib/conn/socket.go:118-121 | any number of disconnects leave a connected socket connected and never close its stream |
| Sockets.IntendedClosesOnce | lib/conn/socket.go:118-121 | with the intended test, one or more disconnects leave it disconnected with exactly one close |
| Sockets.IdleAfterClose | lib/conn/socket.go:118-121 | with the intended test, disconnecting a closed socket again changes nothing |
| Sockets.Socket.constructor | lib/conn/socket.go:64-71 | a new socket is connected, with nothing read or written |
| Sockets.Socket.Connected | lib/conn/socket.go:125-130 | reads the flag and changes nothing |
| Sockets.Socket.GetLine | lib/conn/socket.go:74-84 | disconnected: `("", ErrorDisconnected)` and no input consumed; otherwise the line `ReadLine` gives, with `EOF` when no LF remains |
| Sockets.Socket.SendLine | lib/conn/socket.go:87-100 | disconnected: `ErrorDisconnected` and nothing written; otherwise the stream's write error, and `line + CR LF` is appended only when the write succeeds |
| Sockets.Socket.SendMessage | lib/conn/socket.go:103-111 | an encoding error is returned with nothing written; otherwise it acts as `SendLine` on the encoded line |
| Sockets.Socket.Disconnect | lib/conn/socket.go:114-122 | its effect is exactly `DisconnectAsWritten` |
| Sockets.ConnectSocket | lib/conn/socket.go:37-61 | a refused dial returns its error and no socket; an accepted one returns a fresh connected socket over the stream |
| Connections.TranscriptAppend | lib/conn/connections.go:37-63 | the transcript of successive sends and reads is the concatenation of theirs, in call order |
| Connections.Next | lib/conn/connections.go:55-63 | any outcome other than a failed read consumes input |
| Connections.GetLineObserves | lib/conn/connections.go:55-63 | a `GetLine` followed by parsing observes exactly `Next`'s event |
| Connections.Replies | lib/tests/saslSuite.go:52-63 | the events of a read-and-parse loop end with the first failed read, and only there |
| Connections.LoggedSnoc | lib/conn/connections.go:57-61 | observing one more event logs that event's line, unless it is a failed read |
| Connections.Connection.constructor | lib/conn/connections.go:87-89 | a new connection holds its socket, with an empty nickname and transcript |
| Connections.Connection.Nick | lib/conn/connections.go:23-27 | returns the nickname and changes nothing |
| Connections.Connection.Traffic | lib/conn/connections.go:30-34 | returns the transcript and changes nothing |
| Connections.Connection.SendLine | lib/conn/connections.go:37-42 | the transcript gains `" -> " + line + "\n"` whatever the write's outcome, and the socket sends the line |
| Connections.Connection.SendMessage | lib/conn/connections.go:45-47 | delegates to the socket; the transcript is untouched |
| Connections.Connection.SendSimpleMessage | lib/conn/connections.go:50-52 | `SendMessage` with no tags and no prefix |
| Connections.Connection.GetLine | lib/conn/connections.go:55-63 | the socket's read, with `"<-  " + line + "\n"` logged only when the read succeeds |
| Connections.ConnectionPool.constructor | lib/conn/connections.go:74-78 | the registry starts empty |
| Connections.ConnectionPool.NewConnection | lib/conn/connections.go:81-96 | refused: error `"Failed to connect to server: " + reason` and the registry unchanged; accepted: a fresh connection with an empty transcript and nickname, registered as in use |
| Connections.ConnectionPool.DestroyConnection | lib/conn/connections.go:99-107 | disconnects the socket as written and removes exactly that connection |
| Tests.ReturnValue | lib/tests/tests.go:16-26 | every code lies in 0..2, and 0 is exactly `Success` (the zero value) |
| Tests.ReturnValuesDistinct | lib/tests/tests.go:18-26 | the three outcomes have three distinct codes |
| Tests.ReturnStringsDistinct | lib/tests/tests.go:28-35 | `Success`, `Failed` and `N/A` label the three codes one to one |
| Tests.TestResults.constructor | lib/tests/tests.go:78-84 | three empty maps |
| Tests.TestResults.Set | lib/tests/tests.go:87-91 | overwrites code and text under `name` and stores the text as the traffic; every other key keeps its entries |
| Tests.TestResults.Print | lib/tests/tests.go:94-103 | prints the name-outcome line and the text line, plus the `---`-bracketed traffic only for a failure; a name never set reads as `Success` |
| Tests.InTestNames | ircts.go:54-57 | a key is listed exactly when some declared test of some group has it |
| Tests.RunManager.constructor | lib/tests/tests.go:113-117 | a run manager with an empty results table and the given pool and configuration |
| Tests.RunManager.NewNick | lib/tests/tests.go:120-127 | nine base64 alphabet characters, a prefix of the encoding of the nine random bytes (so the slice is in bounds) |
| SaslSuite.PlainRoundTrip | lib/tests/saslSuite.go:42-48 | splitting the PLAIN message at its first two NULs gives back the identities and the password, when the identities hold no NUL |
| SaslSuite.FeedAppend | lib/tests/saslSuite.go:51-89 | running the reply state machine over two event sequences in turn is running it over their concatenation |
| SaslSuite.FinishedStays | lib/tests/saslSuite.go:51-89 | once a verdict is recorded, later events do not change it |
| SaslSuite.EndsFinished | lib/tests/saslSuite.go:52-57 | a stream ending in a failed read always yields a verdict |
| SaslSuite.WaitingMeans | lib/tests/saslSuite.go:73-82 | while waiting, the flags say exactly whether a 900 and a 903 arrived, and every event so far was passed over (no 903 before a 900) |
| SaslSuite.HasSnoc | lib/tests/saslSuite.go:73-82 | a command has arrived after one more event iff it had before or that event is it |
| SaslSuite.SuccessIff | lib/tests/saslSuite.go:65-82 | the verdict is `Success` if and only if a 001 arrives while waiting with both 900 and 903 seen |
| SaslSuite.FinishingEvent | lib/tests/saslSuite.go:65-67 | a success is produced by a 001 met with both flags set |
| SaslSuite.FailureNumericEnds | lib/tests/saslSuite.go:83-88 | any of 901, 902, 904-908 met while waiting fails the test with the unexpected-numeric text, whatever follows |
| SaslSuite.EarlyWelcomeFails | lib/tests/saslSuite.go:65-71 | a 001 met before both flags are set fails the test with the early-welcome text |
| SaslSuite.UnorderedSuccessFails | lib/tests/saslSuite.go:76-80 | a 903 met while waiting with no 900 before it fails the test at once with the unordered-success text, whatever follows |
| SaslSuite.ErrorFails | lib/tests/saslSuite.go:53-63 | a failed read or an unparsable line met while waiting fails the test with `"Could not get reply line: "` or `"Failed to parse reply line: "` before the error, whatever follows |
| SaslSuite.CompliantServerSucceeds | lib/tests/saslSuite.go:65-82 | 900, 903, then 001 yields the success verdict |
| SaslSuite.LoginPlainResult | lib/tests/saslSuite.go:20-89 | no account: `NotApplicable` with the no-account text; the handler returns false exactly when there is an account and the dial fails, recording the setup-failure text; success needs an account and a connection |
| SaslSuite.NickIsPrefix | lib/tests/saslSuite.go:38 | the nickname the handler sends is the one its nonce determines |
| SaslSuite.SendRegistration | lib/tests/saslSuite.go:37-39 | the socket gains the bytes of `CAP REQ sasl`, `NICK`, `USER t 0 * <name>`, in that order |
| SaslSuite.SendAuthentication | lib/tests/saslSuite.go:41-49 | the socket gains the bytes of `AUTHENTICATE PLAIN`, `AUTHENTICATE <payload>`, `CAP END`, in that order |
| SaslSuite.ReadReply | lib/tests/saslSuite.go:53-88 | one pass of the reply loop is the state machine's step on the event read; the transcript gains the line if one was read |
| SaslSuite.AwaitVerdict | lib/tests/saslSuite.go:51-89 | the loop returns the verdict of the whole reply stream, and the transcript gains every line read |
| SaslSuite.LoginPlainHandler | lib/tests/saslSuite.go:20-90 | records exactly `LoginPlainResult`'s verdict under `name` (text also as traffic), returns its flag, opens a connection only with an account and an accepted dial, sends the six requests with the PLAIN payload `user NUL user NUL password` in order, and leaves the registry as it was |
| SaslSuite.OnConnection | lib/tests/saslSuite.go:35-89 | once connected: the verdict of the reply stream is recorded under `name`, the six requests are on the wire, and the connection is removed from the registry (its socket still connected, as written) |
| SaslSuite.Exchange | lib/tests/saslSuite.go:37-89 | the PLAIN payload is `user NUL user NUL password` in base64, the six requests are sent in order, and the verdict is that of the whole reply stream |
| SaslSuite.Observed | lib/conn/connections.go:55-63 | after one more event, the transcript and the state machine have both moved on by that event |
| SaslSuite.FinishedAfter | lib/tests/saslSuite.go:51-89 | the verdict the loop stops with is that of the whole stream |
| SaslSuite.SentNext | lib/tests/saslSuite.go:37-49 | each send extends the bytes of the first `i` requests to those of the first `i + 1` |
| Harness.RecordHas | ircts.go:54-59 | after writing under each listed name, a key is present iff it was or is listed; a listed key holds its new value, and any other key keeps its old one |
| Harness.RecordOverwrites | ircts.go:53-126 | writing the same names again erases every trace of the first writing (a run's verdicts replace the pre-marking) |
| Harness.AllTestNames | lib/tests/tests.go:132-136 | the registered suite has the single key `SASL-Login-PLAIN` |
| Harness.PreMark | ircts.go:53-60 | every declared test's key holds `NotApplicable` and the cancellation text (also as traffic); other keys are untouched |
| Harness.MarkGroup | ircts.go:55-59 | every test of one group is marked under its `Group-Test` key, in order |
| Harness.MergeTokens | ircts.go:86-106 | recording tokens keeps the two maps' key sets equal |
| Harness.LastValueNamed | ircts.go:86-106 | a name has a winning value exactly when some token carries that name |
| Harness.MergedName | ircts.go:93-105 | the last token naming a capability sets it to supported with that token's value (empty without `=`); a name no token carries keeps its entries |
| Harness.MergeTokensAppend | ircts.go:86-106 | recording two lists in turn records their concatenation |
| Harness.MergeFields | ircts.go:97-106 | the loop over `strings.Fields` records every token in order |
| Harness.Handle | ircts.go:83-110 | only a `CAP` with more than two parameters and `LS` second changes the maps; a final line sends exactly one `QUIT`, a continuation sends nothing, and a continuation with three parameters panics |
| Harness.PassOn | ircts.go:72-110 | a pass keeps the two maps' key sets equal |
| Harness.ReadPass | ircts.go:72-110 | a pass that does not stop the loop consumed input and did not panic |
| Harness.Negotiate | ircts.go:71-111 | the exchange keeps the two maps' key sets equal |
| Harness.NegotiateMergesAll | ircts.go:72-111 | the lines of a multi-line list merge into one: the final maps record every advertised token in order |
| Harness.OtherMessageSkipped | ircts.go:83 | a message that is not a `CAP LS` reply is logged and leaves both maps as they were |
| Harness.StopsAtError | ircts.go:73-81 | a failed read or an unparsable line ends the exchange, keeping everything recorded so far |
| Harness.SentBytesAppend | ircts.go:71-111 | the bytes of the sends of two logs in turn are the concatenation of each one's |
| Harness.HandleMessage | ircts.go:83-110 | the loop body on a parsed message does what `Handle` says, logging and sending the `QUIT` it sends |
| Harness.ReadCapLine | ircts.go:73-110 | one pass of the loop does what `PassOn` says on the event read; the transcript and output gain exactly its entries |
| Harness.NegotiateCaps | ircts.go:71-111 | sends `CAP LS 302`, then the maps, panic, input left, transcript and output are those of `Negotiate`; the two maps have equal key sets |
| Harness.TestLines | ircts.go:120-121 | as many lines as the group has tests |
| Harness.ProgressLinesCount | ircts.go:117-121 | two header lines per group and one line per test |
| Harness.RecordAppend | ircts.go:117-126 | writing two name lists in turn writes their concatenation |
| Harness.Invoke | ircts.go:123-124 | the handler records its verdict under `name` and leaves the registry as it was |
| Harness.RunGroup | ircts.go:120-125 | each test of the group runs in declaration order under its `Group-Test` key, and its verdict is written there |
| Harness.RunTests | ircts.go:117-126 | groups then tests run in declaration order; every key ends with its handler's verdict, the progress lines are printed, and every connection opened is destroyed |
| Harness.Run | ircts.go:47-126 | refused first dial: fatal `"Failed to connect to server for initial caps: Failed to connect to server: " + reason` with every test still cancelled; a panic on a short continuation line also leaves every test cancelled; otherwise the negotiated maps, the progress lines, every test's own verdict and an empty registry |

## Left out

- Locks (`sync.Mutex`, `sync.RWMutex`) and concurrency: every operation is one sequential step.
- Dialling: TCP or TLS, the address and `insecureTLSConfig` (lib/conn/utils.go) are not modelled; the dial's outcome is an input.
- The `ircmsg` library: parsing and encoding are function inputs; tags, prefixes and line-length limits are not modelled.
- Configuration loading (`utils.LoadConfig`, YAML), command-line parsing with docopt, and `log.Fatalln` exiting the process: the configuration is an input and an exit is the `Fatal` outcome.
- The results printout at ircts.go:128-135 is not part of this model; `TestResults.Print` models one test's lines.
- `init()` registration: the registered groups are the constant `AllTests`.
- `supportedCaps` and `capValues` are never used after negotiation; the model returns them in the `Completed` outcome.
- `Test.RequiredCaps` and `ClientsRequiredAtStart` are declared but never consulted; they are data only.
- `MakeSocket` and the stream behind it: the class constructor stands for `MakeSocket`; reads and writes of the stream are `input` and `output`.
- Sockets.Socket.GetLine: a stream read error other than end of input is not modelled; only `EOF` is.
- Sockets.Socket.GetLine: the server's input is finite and then closed, so a read past it returns `EOF` at once. `ReadBytes('\n')` blocks until a line feed arrives or the peer closes, so a server that stays open without sending a full line hangs the source forever; the model does not capture that hang.
- Sockets.Socket.SendLine: a write error is fixed per stream; a write that succeeds but whose flush fails is the same as a failed write.
- Text.ToUpper: only `a`-`z` and U+017F are upper-cased; other characters are kept, which does not affect a comparison with `LS`.
- Base64.Encode: only the length (and, for whole three-byte groups, the alphabet) is proved; no decoder is modelled.
- Tests.RunManager.NewNick: the random bytes are an input; the nickname is never assigned to `Connection.nick`, as in the source.
- Harness.Run: a Go panic on a short continuation line ends the process; the model returns `Panicked` with the results as pre-marked, and the first connection stays registered.
- Harness.Run: the model always ends in `Fatal`, `Panicked` or `Completed` because every server input is finite and then closed. In the source, the capability loop ends only when the server closes the connection (after `QUIT`), and the SASL reply loop waits forever on a server that stays open but silent; those hangs are not modelled.
- Harness.Run: the verdicts are stated through the ghost function `verdict`, which the precondition `Describes` makes equal to `LoginPlainResult` for every key.

## Findings

| source | as written | input that shows it | evidently intended | confidence | as-written member | corrected member |
|---|---|---|---|---|---|---|
| lib/conn/socket.go:118 | `Disconnect` marks the socket disconnected and closes its stream only when it is already disconnected | a connected socket and one call of `Disconnect` (as `DestroyConnection` does): it stays connected and the stream is never closed | on the first call, mark it disconnected and close the stream once; later calls do nothing | high, not executed | Sockets.AsWrittenNeverCloses | Sockets.IntendedClosesOnce |
