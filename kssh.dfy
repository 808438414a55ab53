/**
 * The decisions main.go takes before a session is opened: where the configuration comes from,
 * who logs in, which commands make up the procedure, and how `start` turns a target into a
 * relay and a port. The directory service is the Kaginawa SDK client; the model receives its
 * answers as functions (`Directory`). The clock, the OS user and the keyboard are parameters.
 */
module Kssh {
  import opened Wrappers
  import opened Strings
  import Config

  /** The configuration main.go works with: config.go's two fields plus a default login. */
  datatype AppConfig = AppConfig(server: string, apiKey: string, defaultUser: string, defaultPassword: string)

  /** A node report of the SDK, restricted to what main.go reads. */
  datatype Report = Report(
    id: string, localIPv4: string, localIPv6: string, adapter: string, hostname: string,
    sshServerHost: string, sshRemotePort: int, serverTime: int)

  // ---------------------------------------------------------------------------------------
  // Filtering a sequence

  /** The elements of `s` that `keep` accepts, in their order. */
  function Filter<T>(s: seq<T>, keep: T -> bool): (r: seq<T>)
    ensures |r| <= |s|
    decreases |s|
  {
    if s == [] then []
    else Filter(s[..|s| - 1], keep) + (if keep(s[|s| - 1]) then [s[|s| - 1]] else [])
  }

  lemma FilterSnoc<T>(s: seq<T>, x: T, keep: T -> bool)
    ensures Filter(s + [x], keep) == Filter(s, keep) + (if keep(x) then [x] else [])
  {
    assert (s + [x])[..|s + [x]| - 1] == s;
  }

  lemma {:induction false} FilterMembers<T>(s: seq<T>, keep: T -> bool, x: T)
    ensures x in Filter(s, keep) <==> x in s && keep(x)
    decreases |s|
  {
    if s != [] {
      var init := s[..|s| - 1];
      FilterMembers(init, keep, x);
      assert s == init + [s[|s| - 1]];
    }
  }

  /** A filter keeps every accepted element as often as it occurs, and no other element. */
  lemma {:induction false} FilterMultiplicity<T>(s: seq<T>, keep: T -> bool, x: T)
    ensures multiset(Filter(s, keep))[x] == if keep(x) then multiset(s)[x] else 0
    decreases |s|
  {
    if s != [] {
      var init, last := s[..|s| - 1], s[|s| - 1];
      FilterMultiplicity(init, keep, x);
      assert s == init + [last];
      assert multiset(s) == multiset(init) + multiset{last};
      assert multiset(Filter(s, keep)) == multiset(Filter(init, keep)) + multiset(if keep(last) then [last] else []);
    }
  }

  /** Nothing is left exactly when no element is accepted. */
  lemma FilterEmpty<T>(s: seq<T>, keep: T -> bool)
    ensures Filter(s, keep) == [] <==> forall x :: x in s ==> !keep(x)
  {
    if Filter(s, keep) == [] {
      forall x | x in s
        ensures !keep(x)
      {
        FilterMembers(s, keep, x);
      }
    } else {
      var x := Filter(s, keep)[0];
      FilterMembers(s, keep, x);
    }
  }

  // ---------------------------------------------------------------------------------------
  // Configuration sources (main.go:56-67, 105-134)

  /**
   * The configuration `main` settles on: the `-k`/`-s` flags when both are given, else the
   * configuration file at `path` when it exists (`loaded` is what loading it gives), else the
   * prompt's answers, which `configPrompt` then saves (`saveError` is what `config.save`
   * returns). Neither the file nor the prompt carries a default login.
   */
  function ChooseConfig(flagKey: string, flagServer: string, path: string, fileExists: bool,
                        loaded: Result<Config.Config, string>, prompted: Config.Config, saveError: Option<string>): Result<AppConfig, string> {
    if |flagKey| > 0 && |flagServer| > 0 then Success(AppConfig(flagServer, flagKey, "", ""))
    else if fileExists then
      match loaded
      case Success(c) => Success(AppConfig(c.server, c.apiKey, "", ""))
      case Failure(e) => Failure(e)
    else
      match saveError
      case Some(e) => Failure("failed to create " + path + ": " + e)
      case None => Success(AppConfig(prompted.server, prompted.apiKey, "", ""))
  }

  /**
   * Each source is used only when every source before it is unavailable, the values it holds
   * are the ones used, and the sources after it are not consulted.
   */
  lemma ConfigPrecedence(
    flagKey: string, flagServer: string, path: string, fileExists: bool,
    loaded: Result<Config.Config, string>, prompted: Config.Config, saveError: Option<string>,
    otherExists: bool, otherLoaded: Result<Config.Config, string>, otherPrompted: Config.Config, otherSaveError: Option<string>)
    ensures var r := ChooseConfig(flagKey, flagServer, path, fileExists, loaded, prompted, saveError);
      |flagKey| > 0 && |flagServer| > 0 ==>
        r == Success(AppConfig(flagServer, flagKey, "", ""))
        && ChooseConfig(flagKey, flagServer, path, otherExists, otherLoaded, otherPrompted, otherSaveError) == r
    ensures var r := ChooseConfig(flagKey, flagServer, path, fileExists, loaded, prompted, saveError);
      (flagKey == "" || flagServer == "") && fileExists ==>
        ChooseConfig(flagKey, flagServer, path, fileExists, loaded, otherPrompted, otherSaveError) == r
        && (loaded.Success? ==> r == Success(AppConfig(loaded.value.server, loaded.value.apiKey, "", "")))
        && (loaded.Failure? ==> r == Failure(loaded.error))
    ensures var r := ChooseConfig(flagKey, flagServer, path, fileExists, loaded, prompted, saveError);
      (flagKey == "" || flagServer == "") && !fileExists ==>
        ChooseConfig(flagKey, flagServer, path, fileExists, otherLoaded, prompted, saveError) == r
        && (saveError.None? ==> r == Success(AppConfig(prompted.server, prompted.apiKey, "", "")))
        && (saveError.Some? ==> r == Failure("failed to create " + path + ": " + saveError.value))
  {
  }

  /** The rule each prompt applies to a scanned token: it is trimmed and accepted when something is left. */
  function Prompted(scanned: Result<string, string>): (r: Option<string>)
    ensures r.Some? <==> scanned.Success? && TrimSpace(scanned.value) != ""
    ensures r.Some? ==> r.value == TrimSpace(scanned.value) && Trimmed(r.value)
  {
    if scanned.Failure? then None
    else
      var v := TrimSpace(scanned.value);
      if |v| == 0 then None
      else
        TrimSpaceIsTrimmed(scanned.value);
        Some(v)
  }

  /**
   * What the prompt accepted survives `config.save` and a later `loadConfig`. A token of
   * `fmt.Scan` holds no white space, so in particular no newline.
   */
  lemma PromptedConfigReloads(server: Result<string, string>, apiKey: Result<string, string>)
    requires server.Success? && apiKey.Success?
    requires '\n' !in server.value && '\n' !in apiKey.value
    ensures Prompted(server).Some? && Prompted(apiKey).Some? ==>
      var c := Config.Config(Prompted(server).value, Prompted(apiKey).value);
      Config.Parsed(Lines(Config.SaveContent(c))) == c
  {
    if Prompted(server).Some? && Prompted(apiKey).Some? {
      var s, k := Prompted(server).value, Prompted(apiKey).value;
      TrimmedHasNoNewline(server.value);
      TrimmedHasNoNewline(apiKey.value);
      Config.RoundTrip(Config.Config(s, k));
    }
  }

  lemma TrimmedHasNoNewline(s: string)
    requires '\n' !in s
    ensures '\n' !in TrimSpace(s)
  {
    var l := TrimLeft(s);
    assert l == s[|s| - |l|..];
    assert '\n' !in l;
    var r := TrimRight(l);
    assert r == l[..|r|];
  }

  /** `a` is `b` with some elements left out: each element of `b`, from the end, is either dropped or matched. */
  predicate SubsequenceOf<T(==)>(a: seq<T>, b: seq<T>)
    decreases |b|
  {
    if b == [] then a == []
    else
      SubsequenceOf(a, b[..|b| - 1])
      || (a != [] && a[|a| - 1] == b[|b| - 1] && SubsequenceOf(a[..|a| - 1], b[..|b| - 1]))
  }

  /** What a filter keeps is a subsequence of its input: the survivors stay in their original order. */
  lemma {:induction false} FilterSubsequence<T>(s: seq<T>, keep: T -> bool)
    ensures SubsequenceOf(Filter(s, keep), s)
    decreases |s|
  {
    if s != [] {
      var init, last := s[..|s| - 1], s[|s| - 1];
      var f := Filter(init, keep);
      FilterSubsequence(init, keep);
      assert s[..|s| - 1] == init && s[|s| - 1] == last;
      if keep(last) {
        assert Filter(s, keep) == f + [last];
        assert (f + [last])[..|f + [last]| - 1] == f;
      } else {
        assert Filter(s, keep) == f;
      }
    }
  }

  // ---------------------------------------------------------------------------------------
  // Who logs in (main.go:69-83)

  /** The host part of the target and the login used on it. */
  datatype Login = Login(host: string, username: string, defaultPassword: string)

  /**
   * `[user@]target`: a target with exactly one `@` names its user; otherwise the configured
   * default user logs in with the configured default password, and failing that the OS user
   * (`u.Name` of `user.Current`, whose failure is the `panic`) logs in with no password.
   */
  function ResolveLogin(target: string, config: AppConfig, osUser: Result<string, string>): (r: Result<Login, string>)
    ensures Count(target, '@') == 1 ==>
      r.Success? && r.value.username + "@" + r.value.host == target
      && '@' !in r.value.username && '@' !in r.value.host
    ensures Count(target, '@') != 1 ==> r.Success? ==> r.value.host == target
    ensures Count(target, '@') != 1 && config.defaultUser != "" ==>
      r == Success(Login(target, config.defaultUser, config.defaultPassword))
    ensures Count(target, '@') != 1 && config.defaultUser == "" ==>
      r == if osUser.Success? then Success(Login(target, osUser.value, "")) else Failure(osUser.error)
    ensures r.Success? && r.value.defaultPassword != "" ==> Count(target, '@') != 1 && config.defaultUser != ""
  {
    if Count(target, '@') == 1 then
      var split := Split(target, '@');
      JoinSplit(target, '@');
      assert split[1..] == [split[1]];
      Success(Login(split[1], split[0], ""))
    else if |config.defaultUser| > 0 then
      Success(Login(target, config.defaultUser, config.defaultPassword))
    else
      match osUser
      case Success(name) => Success(Login(target, name, ""))
      case Failure(e) => Failure(e)
  }

  // ---------------------------------------------------------------------------------------
  // The procedure (main.go:47-49, 85-100, 217-218)

  /** The command formed by the arguments after the target: all of them joined by spaces, when there are any. */
  function ArgCommand(args: seq<string>): seq<string> {
    if |args| > 0 then [Join(args, " ")] else []
  }

  predicate NonEmpty(s: string) {
    |s| > 0
  }

  /** The commands a procedure file holds: its scanned lines, the empty ones dropped. */
  function FileCommands(content: string): seq<string> {
    Filter(Lines(content), NonEmpty)
  }

  /** A procedure file contributes exactly its non-empty lines, in their order, each a single line. */
  lemma FileCommandsAreLines(content: string)
    ensures forall c :: c in FileCommands(content) <==> c in Lines(content) && c != ""
    ensures forall c :: multiset(FileCommands(content))[c] == if c != "" then multiset(Lines(content))[c] else 0
    ensures SubsequenceOf(FileCommands(content), Lines(content))
    ensures forall k :: 0 <= k < |FileCommands(content)| ==> '\n' !in FileCommands(content)[k]
    ensures FileCommands(content) == [] <==> forall c :: c in Lines(content) ==> c == ""
  {
    var lines := Lines(content);
    forall c
      ensures c in FileCommands(content) <==> c in lines && c != ""
    {
      FilterMembers(lines, NonEmpty, c);
    }
    forall c
      ensures multiset(FileCommands(content))[c] == if c != "" then multiset(lines)[c] else 0
    {
      FilterMultiplicity(lines, NonEmpty, c);
    }
    FilterSubsequence(lines, NonEmpty);
    FilterEmpty(lines, NonEmpty);
    forall k | 0 <= k < |FileCommands(content)|
      ensures '\n' !in FileCommands(content)[k]
    {
      var c := FileCommands(content)[k];
      FilterMembers(lines, NonEmpty, c);
      var j :| 0 <= j < |lines| && lines[j] == c;
    }
  }

  /**
   * The procedure `main` assembles: the argument command first, then, when a procedure file
   * is named (`procFile`), its non-empty lines; `content` is what reading that file gives.
   * An unreadable file and a named file that leaves the procedure empty are fatal.
   */
  method AssembleProcedure(args: seq<string>, procFile: string, content: Result<string, string>) returns (r: Result<seq<string>, string>)
    ensures procFile == "" ==> r == Success(ArgCommand(args))
    ensures procFile != "" && content.Failure? ==> r == Failure("failed to load " + procFile + ": " + content.error)
    ensures procFile != "" && content.Success? ==>
      var procedure := ArgCommand(args) + FileCommands(content.value);
      r == if procedure == [] then Failure("procedure is empty: " + procFile) else Success(procedure)
  {
    var procedure: seq<string> := [];
    if |args| > 0 {
      procedure := procedure + [Join(args, " ")];
    }
    assert procedure == ArgCommand(args);
    if |procFile| > 0 {
      if content.Failure? {
        return Failure("failed to load " + procFile + ": " + content.error);
      }
      procedure := AppendNonEmpty(procedure, Lines(content.value));
      if |procedure| == 0 {
        return Failure("procedure is empty: " + procFile);
      }
    }
    return Success(procedure);
  }

  /** The scanner loop over a procedure file: every non-empty line is appended, in order. */
  method AppendNonEmpty(procedure: seq<string>, lines: seq<string>) returns (p: seq<string>)
    ensures p == procedure + Filter(lines, NonEmpty)
  {
    p := procedure;
    var i := 0;
    while i < |lines|
      invariant 0 <= i <= |lines|
      invariant p == procedure + Filter(lines[..i], NonEmpty)
    {
      assert lines[..i + 1] == lines[..i] + [lines[i]];
      FilterSnoc(lines[..i], lines[i], NonEmpty);
      if |lines[i]| > 0 {
        p := p + [lines[i]];
      }
      i := i + 1;
    }
    assert lines[..i] == lines;
  }

  /** The one command line a procedure is run as. */
  function CommandLine(procedure: seq<string>): string {
    Join(procedure, " && ")
  }

  /** A single command runs as itself, and each further command is appended after ` && `, in order. */
  lemma {:induction false} CommandLineAppend(procedure: seq<string>, command: string)
    ensures CommandLine([command]) == command
    ensures procedure != [] ==> CommandLine(procedure + [command]) == CommandLine(procedure) + " && " + command
    decreases |procedure|
  {
    if |procedure| == 1 {
      assert (procedure + [command])[1..] == [command];
    } else if |procedure| > 1 {
      var rest := procedure[1..];
      assert (procedure + [command])[1..] == rest + [command];
      assert (procedure + [command])[0] == procedure[0];
      CommandLineAppend(rest, command);
    }
  }

  // ---------------------------------------------------------------------------------------
  // The endpoint and the route of a lookup (main.go:164-173)

  /** `start` puts `https://` in front of a server that names neither `http://` nor `https://`. */
  function Endpoint(server: string): (r: string)
    ensures r == server <==> HasPrefix(server, "http://") || HasPrefix(server, "https://")
    ensures r != server ==> r == "https://" + server
    ensures HasPrefix(r, "http://") || HasPrefix(r, "https://")
  {
    if !HasPrefix(server, "http://") && !HasPrefix(server, "https://") then "https://" + server else server
  }

  lemma EndpointIdempotent(server: string)
    ensures Endpoint(Endpoint(server)) == Endpoint(server)
  {
  }

  /** A target with exactly five colons is looked up as a MAC address, anything else as a custom ID. */
  predicate IsMac(target: string) {
    Count(target, ':') == 5
  }

  // ---------------------------------------------------------------------------------------
  // Report freshness (main.go:190-198)

  /**
   * `time.Now().Sub(time.Unix(r.ServerTime, 0)) < freshness minutes`. `now` is the clock in
   * whole Unix seconds: the bound is a whole number of seconds, so dropping the clock's
   * fraction leaves the comparison unchanged.
   */
  predicate Fresh(now: int, freshness: int, r: Report) {
    now - r.serverTime < freshness * 60
  }

  /** The reports that pass the freshness threshold, in their order. */
  function Alive(reports: seq<Report>, now: int, freshness: int): seq<Report> {
    Filter(reports, r => Fresh(now, freshness, r))
  }

  /** The loop that collects `aliveReports`. */
  method FilterFresh(reports: seq<Report>, now: int, freshness: int) returns (alive: seq<Report>)
    ensures alive == Alive(reports, now, freshness)
  {
    alive := [];
    var i := 0;
    while i < |reports|
      invariant 0 <= i <= |reports|
      invariant alive == Alive(reports[..i], now, freshness)
    {
      assert reports[..i + 1] == reports[..i] + [reports[i]];
      FilterSnoc(reports[..i], reports[i], r => Fresh(now, freshness, r));
      if now - reports[i].serverTime < freshness * 60 {
        alive := alive + [reports[i]];
      }
      i := i + 1;
    }
    assert reports[..i] == reports;
  }

  /** The filter keeps exactly the fresh reports, as a subsequence of the input; nothing is kept exactly when every report is stale. */
  lemma AliveReports(reports: seq<Report>, now: int, freshness: int)
    ensures forall r :: r in Alive(reports, now, freshness) <==> r in reports && Fresh(now, freshness, r)
    ensures forall r :: multiset(Alive(reports, now, freshness))[r] == if Fresh(now, freshness, r) then multiset(reports)[r] else 0
    ensures SubsequenceOf(Alive(reports, now, freshness), reports)
    ensures Alive(reports, now, freshness) == [] <==> forall r :: r in reports ==> !Fresh(now, freshness, r)
  {
    var keep := (r: Report) => Fresh(now, freshness, r);
    forall r
      ensures r in Alive(reports, now, freshness) <==> r in reports && Fresh(now, freshness, r)
    {
      FilterMembers(reports, keep, r);
    }
    forall r
      ensures multiset(Alive(reports, now, freshness))[r] == if Fresh(now, freshness, r) then multiset(reports)[r] else 0
    {
      FilterMultiplicity(reports, keep, r);
    }
    FilterSubsequence(reports, keep);
    FilterEmpty(reports, keep);
  }

  // ---------------------------------------------------------------------------------------
  // Choosing among several reports (main.go:136-160)

  /** A number typed at the `number > ` prompt is accepted when it names one of `count` choices, counting from 1. */
  predicate Accepts(answer: Result<int, string>, count: nat) {
    answer.Success? && 1 <= answer.value <= count
  }

  /** The prompt loop over the scanned answers: the report the first accepted answer names, and how many answers were read. */
  function Pick(reports: seq<Report>, answers: seq<Result<int, string>>): (Option<Report>, nat)
    decreases |answers|
  {
    if answers == [] then (None, 0)
    else if Accepts(answers[0], |reports|) then (Some(reports[answers[0].value - 1]), 1)
    else
      var rest := Pick(reports, answers[1..]);
      (rest.0, rest.1 + 1)
  }

  /**
   * `selectTarget`: a single report is returned without asking; otherwise the answers are read
   * until one is accepted. `None` when the answers run out: the prompt would go on asking.
   */
  function Choose(reports: seq<Report>, answers: seq<Result<int, string>>): (Option<Report>, nat) {
    if |reports| == 1 then (Some(reports[0]), 0) else Pick(reports, answers)
  }

  /**
   * Without asking when there is one report; otherwise every answer before the accepted one
   * is rejected, and the accepted answer `n` selects `reports[n - 1]`.
   */
  lemma {:induction false} ChooseAccepts(reports: seq<Report>, answers: seq<Result<int, string>>)
    ensures |reports| == 1 ==> Choose(reports, answers) == (Some(reports[0]), 0)
    ensures |reports| != 1 ==>
      var (choice, used) := Choose(reports, answers);
      used <= |answers|
      && (choice.None? ==> used == |answers|)
      && (choice.Some? ==>
            used > 0 && Accepts(answers[used - 1], |reports|) && choice.value == reports[answers[used - 1].value - 1])
      && forall j :: 0 <= j < used && (choice.None? || j < used - 1) ==> !Accepts(answers[j], |reports|)
    decreases |answers|
  {
    if |reports| != 1 && answers != [] && !Accepts(answers[0], |reports|) {
      ChooseAccepts(reports, answers[1..]);
      var rest := Pick(reports, answers[1..]);
      assert forall j :: 0 <= j < rest.1 ==> answers[1..][j] == answers[j + 1];
    }
  }

  /** The loop of `selectTarget` over the scanned numbers; a failed scan is skipped like an out-of-range number. */
  method SelectTarget(reports: seq<Report>, answers: seq<Result<int, string>>) returns (choice: Option<Report>, used: nat)
    ensures (choice, used) == Choose(reports, answers)
  {
    if |reports| == 1 {
      return Some(reports[0]), 0;
    }
    var i := 0;
    assert answers[0..] == answers;
    while i < |answers|
      invariant 0 <= i <= |answers|
      invariant Pick(reports, answers) == (Pick(reports, answers[i..]).0, Pick(reports, answers[i..]).1 + i)
    {
      assert answers[i..][0] == answers[i] && answers[i..][1..] == answers[i + 1..];
      var answer := answers[i];
      i := i + 1;
      if answer.Failure? {
        continue;
      }
      var n := answer.value - 1;
      if n < 0 || n >= |reports| {
        continue;
      }
      return Some(reports[n]), i;
    }
    assert answers[i..] == [];
    return None, i;
  }

  /** The address the choice menu shows for a report: the IPv6 one only when there is no IPv4 one. */
  function MenuAddress(r: Report): (a: string)
    ensures r.localIPv4 != "" ==> a == r.localIPv4
    ensures r.localIPv4 == "" ==> a == r.localIPv6
    ensures a == "" <==> r.localIPv4 == "" && r.localIPv6 == ""
  {
    if |r.localIPv4| == 0 && |r.localIPv6| > 0 then r.localIPv6 else r.localIPv4
  }

  // ---------------------------------------------------------------------------------------
  // `start` (main.go:163-226)

  /** The Kaginawa SDK client: its endpoint and its key. */
  datatype SdkClient = SdkClient(endpoint: string, apiKey: string)

  /**
   * The SDK's answers: the error `NewClient` gives, `FindNode`, `ListNodesByCustomID` and
   * `FindSSHServerByHostname`. `S` is the SDK's relay record, which main.go only passes on.
   */
  datatype Directory<S> = Directory(
    newClient: SdkClient -> Option<string>,
    findNode: (SdkClient, string) -> Result<Option<Report>, string>,
    listByCustomId: (SdkClient, string) -> Result<seq<Report>, string>,
    findSshServer: (SdkClient, string) -> Result<Option<S>, string>)

  /** How a stage of `start` ends: it goes on with a value, it is fatal, or it waits at the prompt for ever. */
  datatype Outcome<T> = Proceed(value: T) | Fatal(msg: string) | Undecided

  /** What `start` hands over to: the listener, or `connect` with the command line to run (none: an interactive terminal). */
  datatype Next<S> =
    | Listen(tunnel: S, port: int)
    | Connect(tunnel: S, username: string, defaultPassword: string, port: int, command: Option<string>)

  /** The report `start` settles on, from the MAC lookup or from the fresh reports of the custom-ID lookup. */
  function FindReport<S>(client: SdkClient, target: string, now: int, freshness: int,
                         answers: seq<Result<int, string>>, dir: Directory<S>): (r: Outcome<Report>)
    ensures IsMac(target) && dir.findNode(client, target).Failure? ==> r == Fatal(dir.findNode(client, target).error)
    ensures IsMac(target) && dir.findNode(client, target) == Success(None) ==> r == Fatal("target not found: " + target)
    ensures IsMac(target) && dir.findNode(client, target).Success? && dir.findNode(client, target).value.Some? ==>
      r == Proceed(dir.findNode(client, target).value.value)
    ensures !IsMac(target) && dir.listByCustomId(client, target).Failure? ==> r == Fatal(dir.listByCustomId(client, target).error)
    ensures !IsMac(target) && dir.listByCustomId(client, target) == Success([]) ==> r == Fatal("target not found: " + target)
    ensures !IsMac(target) && dir.listByCustomId(client, target).Success? && dir.listByCustomId(client, target).value != []
      && (forall x :: x in dir.listByCustomId(client, target).value ==> !Fresh(now, freshness, x))
      ==> r == Fatal("target timestamp is out of date")
    ensures !IsMac(target) && dir.listByCustomId(client, target).Success?
      && |Alive(dir.listByCustomId(client, target).value, now, freshness)| == 1
      ==> r == Proceed(Alive(dir.listByCustomId(client, target).value, now, freshness)[0])
    ensures !IsMac(target) && dir.listByCustomId(client, target).Success?
      && Alive(dir.listByCustomId(client, target).value, now, freshness) != []
      ==> r == match Choose(Alive(dir.listByCustomId(client, target).value, now, freshness), answers).0
             case None => Undecided
             case Some(x) => Proceed(x)
    ensures r.Proceed? && IsMac(target) ==> dir.findNode(client, target) == Success(Some(r.value))
    ensures r.Proceed? && !IsMac(target) ==>
      dir.listByCustomId(client, target).Success?
      && r.value in dir.listByCustomId(client, target).value && Fresh(now, freshness, r.value)
  {
    if IsMac(target) then
      match dir.findNode(client, target)
      case Failure(e) => Fatal(e)
      case Success(None) => Fatal("target not found: " + target)
      case Success(Some(report)) => Proceed(report)
    else
      match dir.listByCustomId(client, target)
      case Failure(e) => Fatal(e)
      case Success(reports) =>
        var alive := Alive(reports, now, freshness);
        AliveReports(reports, now, freshness);
        if reports == [] then Fatal("target not found: " + target)
        else if alive == [] then Fatal("target timestamp is out of date")
        else
          ChooseAccepts(alive, answers);
          match Choose(alive, answers).0
          case None => Undecided
          case Some(report) => Proceed(report)
  }

  /** Everything `start` decides, from the configuration to the hand-over. */
  function StartSpec<S>(config: AppConfig, login: Login, procedure: seq<string>, listen: bool, now: int, freshness: int,
                        answers: seq<Result<int, string>>, dir: Directory<S>): (r: Outcome<Next<S>>)
    ensures dir.newClient(SdkClient(Endpoint(config.server), config.apiKey)).Some? ==>
      r == Fatal("failed to prepare API client: " + dir.newClient(SdkClient(Endpoint(config.server), config.apiKey)).value)
    ensures r.Proceed? ==>
      var client := SdkClient(Endpoint(config.server), config.apiKey);
      var found := FindReport(client, login.host, now, freshness, answers, dir);
      found.Proceed? && found.value.sshRemotePort != 0 && r.value.port == found.value.sshRemotePort
      && dir.findSshServer(client, found.value.sshServerHost) == Success(Some(r.value.tunnel))
    ensures r.Proceed? ==> (r.value.Listen? <==> listen)
    ensures r.Proceed? && r.value.Connect? ==>
      r.value.username == login.username && r.value.defaultPassword == login.defaultPassword
      && r.value.command == if procedure == [] then None else Some(CommandLine(procedure))
    ensures var client := SdkClient(Endpoint(config.server), config.apiKey);
      var found := FindReport(client, login.host, now, freshness, answers, dir);
      dir.newClient(client).None? ==>
        (found.Fatal? ==> r == Fatal(found.msg))
        && (found.Undecided? ==> r == Undecided)
        && (found.Proceed? && found.value.sshRemotePort == 0 ==> r == Fatal("ssh not connected."))
    ensures var client := SdkClient(Endpoint(config.server), config.apiKey);
      var found := FindReport(client, login.host, now, freshness, answers, dir);
      dir.newClient(client).None? && found.Proceed? && found.value.sshRemotePort != 0 ==>
        var port, host := found.value.sshRemotePort, found.value.sshServerHost;
        var relay := dir.findSshServer(client, host);
        (relay.Failure? ==> r == Fatal("failed to get ssh server information: " + relay.error))
        && (relay == Success(None) ==> r == Fatal("unknown ssh server: " + host))
        && (relay.Success? && relay.value.Some? ==>
              r == Proceed(
                if listen then Listen(relay.value.value, port)
                else Connect(relay.value.value, login.username, login.defaultPassword, port,
                             if procedure == [] then None else Some(CommandLine(procedure)))))
  {
    var client := SdkClient(Endpoint(config.server), config.apiKey);
    match dir.newClient(client)
    case Some(e) => Fatal("failed to prepare API client: " + e)
    case None =>
      match FindReport(client, login.host, now, freshness, answers, dir)
      case Fatal(e) => Fatal(e)
      case Undecided => Undecided
      case Proceed(report) =>
        if report.sshRemotePort == 0 then Fatal("ssh not connected.")
        else
          match dir.findSshServer(client, report.sshServerHost)
          case Failure(e) => Fatal("failed to get ssh server information: " + e)
          case Success(None) => Fatal("unknown ssh server: " + report.sshServerHost)
          case Success(Some(tunnel)) =>
            if listen then Proceed(Listen(tunnel, report.sshRemotePort))
            else
              var command := if |procedure| > 0 then Some(CommandLine(procedure)) else None;
              Proceed(Connect(tunnel, login.username, login.defaultPassword, report.sshRemotePort, command))
  }

  /** `start`, step by step, up to the hand-over to the listener or to `connect`. */
  method Start<S>(config: AppConfig, login: Login, procedure: seq<string>, listen: bool, now: int, freshness: int,
                  answers: seq<Result<int, string>>, dir: Directory<S>) returns (r: Outcome<Next<S>>)
    ensures r == StartSpec(config, login, procedure, listen, now, freshness, answers, dir)
  {
    var endpoint := config.server;
    if !HasPrefix(endpoint, "http://") && !HasPrefix(endpoint, "https://") {
      endpoint := "https://" + endpoint;
    }
    var client := SdkClient(endpoint, config.apiKey);
    var err := dir.newClient(client);
    if err.Some? {
      return Fatal("failed to prepare API client: " + err.value);
    }
    var report: Report;
    if Count(login.host, ':') == 5 {
      var found := dir.findNode(client, login.host);
      if found.Failure? {
        return Fatal(found.error);
      }
      if found.value.None? {
        return Fatal("target not found: " + login.host);
      }
      report := found.value.value;
    } else {
      var reports := dir.listByCustomId(client, login.host);
      if reports.Failure? {
        return Fatal(reports.error);
      }
      if |reports.value| == 0 {
        return Fatal("target not found: " + login.host);
      }
      var alive := FilterFresh(reports.value, now, freshness);
      if |alive| == 0 {
        return Fatal("target timestamp is out of date");
      }
      var choice, _ := SelectTarget(alive, answers);
      if choice.None? {
        return Undecided;
      }
      report := choice.value;
    }
    if report.sshRemotePort == 0 {
      return Fatal("ssh not connected.");
    }
    var tunnel := dir.findSshServer(client, report.sshServerHost);
    if tunnel.Failure? {
      return Fatal("failed to get ssh server information: " + tunnel.error);
    }
    if tunnel.value.None? {
      return Fatal("unknown ssh server: " + report.sshServerHost);
    }
    if listen {
      return Proceed(Listen(tunnel.value.value, report.sshRemotePort));
    }
    var command := if |procedure| > 0 then Some(CommandLine(procedure)) else None;
    return Proceed(Connect(tunnel.value.value, login.username, login.defaultPassword, report.sshRemotePort, command));
  }
}
