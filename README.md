# kssh: a verified model of the client's decisions

kssh is a command-line SSH client. It looks up a target host in a Kaginawa directory server
and reaches that host through an SSH relay. This project models in Dafny the decisions the
client makes around its I/O, and proves properties of them. Six modules, one file each:

- `Wrappers` (`wrappers.dfy`): the `Option` and `Result` shapes. They stand for Go's `nil` and
  its `(value, error)` returns.
- `Strings` (`strings.dfy`): the parts of Go's `strings` and `bufio` packages the client uses.
  - `Count`, `Split`, `Join`, `Replace(…, 1)`.
  - `TrimSpace`, using the white-space set of `unicode.IsSpace`.
  - The line tokens of `bufio.ScanLines`: a trailing `\r` is dropped, and a final line without
    a newline is kept.
- `Config` (`config.dfy`): the configuration file of config.go. `loadConfig` is modelled as its
  scanner loop. The save content is the `Sprintf` string that `config.save` writes.
- `Resolver` (`resolver.dfy`): the directory client of resolver.go.
  - The `client` class, whose constructor rewrites `server` in place.
  - The request URLs and headers.
  - How `retrieve` classifies HTTP statuses.
  - The JSON lookups.
- `Ssh` (`ssh.dfy`): ssh.go.
  - `createSSHConfig`, a method that grows the auth list by appending.
  - The `connect` retry loop. Each pass gets its outcome from an abstract `Attempt`. The loop
    records a trace of dial, handshake and close events, and tracks the open connections as
    ghost state.
  - The terminal steps that follow the loop.
- `Kssh` (`kssh.dfy`): main.go.
  - Configuration precedence and the prompt's acceptance rule.
  - `[user@]host` splitting.
  - Procedure assembly, a loop.
  - Endpoint prefixing and MAC versus custom-ID routing.
  - The freshness filter, a loop.
  - `selectTarget`, a loop over the numbers typed.
  - `start`'s outcomes.

The modules take as parameters everything that comes from outside the program:

- the contents of files;
- the clock, as `now` in Unix seconds;
- the OS user;
- the answers of the HTTP transport, the JSON decoder, the SSH library, the terminal and the SDK client;
- the keyboard input.

main.go disagrees with config.go, ssh.go and resolver.go on three points. Each file is modelled as written:

- The configuration record in main.go has two fields config.go does not declare,
  `defaultUser` and `defaultPassword`. `Kssh.AppConfig` has them. The file and the prompt
  leave them empty.
- main.go calls a four-argument `connect` that returns a session (main.go:215). ssh.go's
  `connect` takes three arguments and returns nothing. `Kssh.Start` ends with a `Connect`
  outcome that carries the arguments. `Ssh.Connect` models ssh.go's function.
- main.go uses the SDK's node and relay types, not resolver.go's. `Kssh.Report` is the SDK
  record, and `Kssh.Start` is generic over the relay type.

Three facts about the connection code shape the model:

- The `connect` loop has no retry bound (ssh.go:31).
- The password is read once, before the loop (ssh.go:14-19), and every attempt uses it.
- `fatalf` calls `os.Exit`, which skips the deferred `terminal.Restore`. So the terminal is
  restored only when the shell ends normally. See Findings.

The login falls back to the OS user's `Name` (main.go:82). In Go's `os/user` that is the
account's display name, such as `Jane Doe`, not its login name (`Username`), so this fallback
probably does not give a usable SSH user. The model takes the value as a parameter and passes
it on unchanged.

## Model

| member | source | states |
|---|---|---|
| `Strings.Lines` | config.go:31-33 | scanner tokens never contain a newline |
| `Strings.LinesOfTerminated` | config.go:31-33 | a newline-terminated line comes out as one token, without a final carriage return |
| `Strings.JoinSplit` | main.go:70-73 | joining the pieces of a split with the separator gives back the original string |
| `Strings.TrimSpaceIsTrimmed` | config.go:35 | a trimmed value has no white space at either end |
| `Config.LoadConfig` | config.go:27-43 | a read failure gives "failed to load PATH: ERR"; otherwise the loop's result is `Parsed` of the scanned lines, i.e. each field comes from the last line carrying its key |
| `Config.AdminKeyLine` | config.go:34-36 | an `AdminKey ` line sets the key to the rest of the line trimmed, and leaves the server alone |
| `Config.ServerLine` | config.go:38-40 | a `Server ` line sets the server to the rest of the line trimmed, and leaves the key alone |
| `Config.OtherLine` | config.go:32-42 | a line with neither prefix, `Server` without its space included, changes nothing |
| `Config.AbsentKey` | config.go:21 | a key that no line carries leaves its field empty |
| `Config.LastOccurrenceWins` | config.go:32-43 | when a key occurs on several lines, the last one decides the value |
| `Config.SavedLines` | config.go:62 | when neither field holds a newline, the saved content scans as exactly two lines, `Server <server>` and `AdminKey <key>` (a final `\r` of a field is dropped) |
| `Config.LoadSaved` | config.go:62 | when neither field holds a newline, reading saved content back gives the fields with surrounding white space trimmed |
| `Config.RoundTrip` | config.go:62 | saving and reloading gives back any configuration whose fields hold no newline and no surrounding white space |
| `Resolver.WithScheme` | resolver.go:40-42 | the server is kept exactly when it starts with `http`, otherwise `https://` is put in front; the result starts with `http` |
| `Resolver.WithSchemeIdempotent` | resolver.go:40-42 | normalising twice equals normalising once |
| `Resolver.WithSchemeKeepsHttpHost` | resolver.go:40-42 | `httpbin.org` keeps no scheme at all |
| `Resolver.Client.constructor` | resolver.go:35-44 | the client's server is the normalised server, and its key is the given key |
| `Resolver.Client.UrlsCarryIdVerbatim` | resolver.go:72 | the node, custom-ID and relay URLs are the server, a fixed path and the identifier, unescaped; distinct identifiers give distinct URLs |
| `Resolver.Client.NewRequest` | resolver.go:47-52 | the request has exactly the headers `Authorization` (`token ` then the key) and `Accept: application/json` |
| `Resolver.Client.Retrieve` | resolver.go:46-69 | 404 is no body and no error; 200 with a readable body is the body; any other status is "server respond HTTP STATUS" |
| `Resolver.Client.Lookup` | resolver.go:71-105 | retrieval errors are reported with the given identifier; a found body is decoded; a 404 hands the decoder empty input |
| `Resolver.Client.FindByID` | resolver.go:71-81 | the node lookup fetches `NodeUrl(mac)`, reports a retrieval failure with the MAC address, succeeds iff the decoder accepts the body (empty on a 404) and then returns the decoded report, and otherwise fails with "failed to parse response: ERR" |
| `Resolver.Client.FindByCustomID` | resolver.go:83-93 | the custom-ID lookup fetches `CustomIdUrl(cid)`, reports a retrieval failure with the custom ID, succeeds iff the decoder accepts the body and then returns the decoded list, and otherwise fails with "failed to parse response: ERR" |
| `Resolver.Client.FindSshServer` | resolver.go:95-105 | the relay lookup fetches `ServerUrl(host)`, reports a retrieval failure with the host, succeeds iff the decoder accepts the body and then returns the decoded relay, and otherwise fails with "failed to parse response: ERR" |
| `Resolver.Client.NotFoundBecomesParseError` | resolver.go:58-60 | as written, when the service answers 404 a lookup fails with a parse error |
| `Resolver.Client.LookupOrNone` | resolver.go:58-60 | the corrected lookup: not-found is an ordinary result exactly when the service says 404; every other answer agrees with `Lookup` |
| `Ssh.ClientConfigFor` | ssh.go:101-117 | a key that fails to parse is an error; otherwise the key method comes first iff a key is given, the password method last iff a password is given, the length is the number of non-empty credentials and the user is copied |
| `Ssh.CreateSSHConfig` | ssh.go:101-117 | the appending construction yields `ClientConfigFor` |
| `Ssh.TryOnce` | ssh.go:32-64 | one pass emits the events of its outcome; only EOF handshake and session errors are retried, and a retried pass holds no connection when it ends; for a retried or connected pass, the ghost set of open connections agrees with replaying its events |
| `Ssh.RetryLoop` | ssh.go:31-65 | the loop's result and trace are those of `Run` over the outcomes given |
| `Ssh.Connect` | ssh.go:13-65 | password-read and configuration failures are fatal before any dial; both configurations are built once, then the loop runs |
| `Ssh.ConnectUsesOnePassword` | ssh.go:14-28 | a failed password read dials nothing; every handshake of every attempt offers the target user with the password read once as its only method (none when it is empty), and every relay dial uses the relay's configuration |
| `Ssh.RunResult` | ssh.go:31 | with no retry bound, the result is decided by the first outcome that is not an EOF error, and is pending while all outcomes are retries |
| `Ssh.UnboundedRetries` | ssh.go:43-51 | for every plan, any number of EOF handshake failures followed by a clean attempt connects on that attempt |
| `Ssh.RunUsesPlan` | ssh.go:14-28 | every attempt dials the same relay and target with the same two configurations |
| `Ssh.AttemptOpen` | ssh.go:43-63 | a retried attempt closes every connection it opened; a connected one keeps the relay and the client open |
| `Ssh.RunNoLeak` | ssh.go:55-64 | no connection is open when an attempt dials the relay; a connected run keeps exactly the last attempt's relay and client |
| `Ssh.Attach` | ssh.go:67-98 | the PTY is requested as `xterm`, height then width, echo on, speeds 14400, iff the size is known; the shell starts iff the PTY and shell requests succeed; the deferred restore runs iff the shell ends cleanly, and the process exits iff the session is aborted |
| `Ssh.AttachLeavesRawOnShellError` | ssh.go:73-98 | as written, a shell that ends with an error leaves the terminal raw |
| `Ssh.AttachRestoring` | ssh.go:73-98 | the corrected flow, which restores the terminal before each `fatalf` exit, has the same outcome as written, always restores the terminal, and restores it before any exit |
| `Kssh.ConfigPrecedence` | main.go:56-67 | the flags are used only when both are given, then an existing file, then the prompt; the chosen source's server and key are the values used; a load failure is fatal with its error, as is a failed save of the prompted answers ("failed to create PATH: ERR"); sources after the chosen one are not consulted |
| `Kssh.Prompted` | main.go:108-129 | a scanned token is accepted iff it is non-empty after trimming, and then the value is the trimmed token |
| `Kssh.PromptedConfigReloads` | main.go:105-134 | prompted answers survive `config.save` and a later `loadConfig` unchanged |
| `Kssh.ResolveLogin` | main.go:69-83 | a target with exactly one `@` splits into a user and a host that rejoin to the target and hold no `@`; otherwise the host is the target and the login is the configured default user with its password, else the OS user with no password (its lookup failure is fatal); a default password comes only from the configuration |
| `Kssh.FileCommandsAreLines` | main.go:90-96 | a procedure file contributes exactly its non-empty lines, each as often as it occurs, in their order, each one line; it contributes nothing iff all its lines are empty |
| `Kssh.AssembleProcedure` | main.go:47-49 | the argument command comes first; an unreadable procedure file is fatal; the file's non-empty lines follow; a named file that leaves the procedure empty is fatal |
| `Kssh.AppendNonEmpty` | main.go:90-96 | the scanner loop appends exactly the file's non-empty lines, in order, after the commands already present |
| `Kssh.CommandLineAppend` | main.go:218 | one command runs as itself; each further command is appended after ` && `, in order |
| `Kssh.Endpoint` | main.go:164-167 | `https://` is prepended iff the server starts with neither `http://` nor `https://`; the result always starts with one of them |
| `Kssh.EndpointIdempotent` | main.go:164-167 | prefixing twice equals prefixing once |
| `Kssh.FilterSubsequence` | main.go:191-195 | what a filter keeps is a subsequence of its input |
| `Kssh.FilterMultiplicity` | main.go:191-195 | a filter keeps every accepted element as many times as it occurs in the input, and no other element |
| `Kssh.FilterFresh` | main.go:190-195 | the loop collects exactly `Alive`: the reports whose age is below the threshold, in input order |
| `Kssh.AliveReports` | main.go:192 | a report is kept iff it is in the input and `now - ServerTime < freshness * 60` holds (strict), as many times as it occurs; the kept reports are a subsequence of the input; nothing is kept iff every report is stale |
| `Kssh.ChooseAccepts` | main.go:136-160 | one report is returned without reading any answer; otherwise every answer before the accepted one is rejected, an answer `n` is accepted iff it scanned and `1 <= n <= len`, and it selects `reports[n-1]` |
| `Kssh.SelectTarget` | main.go:136-160 | the prompt loop returns the choice and the number of answers read that `Choose` gives |
| `Kssh.MenuAddress` | main.go:141-147 | the menu shows the IPv4 address whenever there is one, and the IPv6 one otherwise; it is empty only when both are |
| `Kssh.FindReport` | main.go:173-200 | five colons route to the MAC lookup, anything else to the custom-ID lookup; no record is "target not found", only stale records is "target timestamp is out of date", a single fresh record is taken without asking, otherwise the choice of `Choose` among the fresh records is taken; a found MAC node is taken; a lookup error is fatal with its message; a chosen report is the found node or a fresh member of the list |
| `Kssh.StartSpec` | main.go:163-226 | a client error is fatal; a lookup's fatal or pending outcome is `start`'s; a report with port 0 is "ssh not connected."; a relay lookup error is "failed to get ssh server information: ERR" and a missing relay "unknown ssh server: HOST"; with a non-zero port and a found relay `start` proceeds; proceeding uses the chosen report's port and the relay found for its host, hands over to the listener iff listen mode is on, and otherwise to `connect` with the login and the procedure joined by ` && ` (none for a terminal) |
| `Kssh.Start` | main.go:163-226 | the step-by-step `start` decides exactly `StartSpec` |

## Left out

- listen.go is not part of this model: its accept loop and the pair of copying goroutines are sockets and concurrency.
- io.go's `fatalf` ends the process; the model returns a `Fatal` (or `Failure`) value with the message instead. `fatalf` passes its arguments as one slice (`a`, not `a...`). So the first verb prints the whole slice in brackets, and every later verb prints `%!v(MISSING)`. For example, main.go:88 prints `failed to load [PATH ERR]: %!v(MISSING)`. The model's messages carry the text the format strings intend.
- `safeClose` is a close plus an error print; the model records the close as an event and leaves the print out.
- File reads and writes, `os.Stat`, and the `os.UserConfigDir` path defaulting: the model receives the file's content or the read error, and the error `config.save` returns.
- Flag parsing, the version flag and the usage exit: the model receives the flag values.
- `user.Current`, the clock and keyboard input are parameters: the OS user's `Name`, `now` in Unix seconds, and the sequence of scanned answers.
- `Kssh.ResolveLogin`: a failing `user.Current` is a `panic(err)` (main.go:80), which prints a stack trace and exits with status 2, not through `fatalf`; the model returns it as a `Failure` carrying the error, like every other fatal outcome.
- The SSH library (`ssh.Dial`, `NewClientConn`, `NewSession`, `ParsePrivateKey`) and the terminal calls (`ReadPassword`, `MakeRaw`, `GetSize`, `Wait`) are outcomes given to the model.
- The `net/http` round trip and JSON decoding are oracles (`Transport`, `decode`); the SDK client's lookups are the `Directory` oracle.
- `execCommand` and `openTerminal` are not part of this model; `Start` stops at the hand-over to `connect`, carrying the command line.
- `Ssh.RetryLoop`: the loop is unbounded in Go; the model runs over a finite sequence of attempt outcomes and returns `Pending` when they run out.
- `Kssh.SelectTarget`: the prompt asks for ever; the model reads a finite sequence of answers and returns `None` when they run out (`Undecided` in `start`).
- `Kssh.Fresh`: Go's `time.Duration` is 64-bit, so a huge freshness multiplies with wrap-around and `Sub` saturates; the model compares unbounded integers.
- `Strings.Lines`: `bufio.Scanner` stops at a line longer than 64 KiB and the code does not check `Err()`; the model assumes every line fits.
- Go strings are byte strings; the model works on characters. Emptiness, prefixes and the white space `TrimSpace` removes agree for valid UTF-8.
- `Ssh.Attach`: `terminal.Restore` with the nil state left by a failed `MakeRaw` is not modelled beyond the fact that the deferred call runs.

## Findings

| source | as written | input that shows it | evidently intended | confidence | as-written member | corrected member |
|---|---|---|---|---|---|---|
| resolver.go:40-42 | `newClient` adds `https://` only when the server does not start with `http` | server `httpbin.org` keeps no scheme, so its URLs have none | add the scheme unless the server starts with `http://` or `https://`, as main.go:165 does | medium, not executed | `Resolver.WithSchemeKeepsHttpHost` | `Kssh.Endpoint` |
| resolver.go:58-60 | `retrieve` answers a 404 with a nil body and no error, and the lookups hand that body to `json.Unmarshal` | any lookup the service answers with 404 fails with "failed to parse response" | not-found is an ordinary outcome of a lookup | high, not executed | `Resolver.Client.NotFoundBecomesParseError` | `Resolver.Client.LookupOrNone` |
| ssh.go:73-98 | the raw terminal is restored by a deferred call, and every later failure goes through `fatalf`, whose `os.Exit` skips deferred calls | a remote shell that exits with status 1 makes `Wait` fail, and the terminal stays raw | restore the terminal on every exit path | medium, not executed | `Ssh.AttachLeavesRawOnShellError` | `Ssh.AttachRestoring` |
