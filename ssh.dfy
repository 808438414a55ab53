/**
 * The connection logic of ssh.go: `createSSHConfig` builds the authentication list, `connect`
 * dials the relay, then the target through it, and retries the whole sequence when the target's
 * handshake or session request ends in `EOF`. Dialling, handshakes and terminal calls are library
 * code: the model receives their outcomes, and records what the loop does as a trace of events.
 */
module Ssh {
  import opened Wrappers
  import opened Strings
  import Resolver

  /** A private key that `ssh.ParsePrivateKey` accepted. */
  datatype Signer = Signer(key: string)

  datatype AuthMethod = PublicKeys(signer: Signer) | PasswordAuth(password: string)

  /** `ssh.ClientConfig` as `createSSHConfig` fills it; `ignoreHostKey` stands for `InsecureIgnoreHostKey`. */
  datatype ClientConfig = ClientConfig(user: string, auth: seq<AuthMethod>, ignoreHostKey: bool)

  function Present(s: string): nat {
    if |s| > 0 then 1 else 0
  }

  /**
   * The configuration `createSSHConfig` returns. `keyError` is the answer of `ssh.ParsePrivateKey`
   * for a key: `None` when it parses.
   */
  function ClientConfigFor(user: string, key: string, password: string, keyError: string -> Option<string>): (r: Result<ClientConfig, string>)
    ensures r.Failure? <==> key != "" && keyError(key).Some?
    ensures r.Failure? ==> r.error == keyError(key).value
    ensures r.Success? ==> r.value.user == user && r.value.ignoreHostKey
    ensures r.Success? ==> |r.value.auth| == Present(key) + Present(password)
    ensures r.Success? ==> (key != "" <==> |r.value.auth| > 0 && r.value.auth[0] == PublicKeys(Signer(key)))
    ensures r.Success? ==> (password != "" <==> |r.value.auth| > 0 && r.value.auth[|r.value.auth| - 1] == PasswordAuth(password))
  {
    if key != "" && keyError(key).Some? then Failure(keyError(key).value)
    else
      var keys := if key != "" then [PublicKeys(Signer(key))] else [];
      var passwords := if password != "" then [PasswordAuth(password)] else [];
      Success(ClientConfig(user, keys + passwords, true))
  }

  /** `createSSHConfig`: the list starts empty and grows by one method per non-empty credential. */
  method CreateSSHConfig(user: string, key: string, password: string, keyError: string -> Option<string>) returns (r: Result<ClientConfig, string>)
    ensures r == ClientConfigFor(user, key, password, keyError)
  {
    var auth: seq<AuthMethod> := [];
    if |key| > 0 {
      var e := keyError(key);
      if e.Some? {
        return Failure(e.value);
      }
      auth := auth + [PublicKeys(Signer(key))];
    }
    ghost var keys := auth;
    if |password| > 0 {
      auth := auth + [PasswordAuth(password)];
    }
    assert keys == (if key != "" then [PublicKeys(Signer(key))] else []);
    assert auth == keys + (if password != "" then [PasswordAuth(password)] else []);
    return Success(ClientConfig(user, auth, true));
  }

  /** What happens in one pass of the `connect` loop, step by step. */
  datatype Attempt =
    | TunnelDialFail(msg: string)   // `ssh.Dial` to the relay fails
    | TargetDialFail(msg: string)   // `tConn.Dial` to the forwarded port fails
    | HandshakeError(msg: string)   // `ssh.NewClientConn` fails
    | SessionError(msg: string)     // `client.NewSession` fails
    | Established                   // all four succeed

  /** The loop retries exactly the handshake and session errors whose message ends in `EOF`. */
  predicate Retryable(a: Attempt) {
    (a.HandshakeError? || a.SessionError?) && HasSuffix(a.msg, "EOF")
  }

  /** The connections of attempt `attempt`: the relay transport, the forwarded channel, and the SSH client that takes the channel over. */
  datatype Conn = TunnelConn(attempt: nat) | TargetConn(attempt: nat) | ClientConn(attempt: nat)

  /** A `host:port` dial address. */
  datatype Address = Address(host: string, port: int)

  datatype Event =
    | DialTunnel(attempt: nat, addr: Address, config: ClientConfig, ok: bool)
    | DialTarget(attempt: nat, addr: Address, ok: bool)
    | Handshake(attempt: nat, addr: Address, config: ClientConfig, ok: bool)
    | NewSession(attempt: nat, ok: bool)
    | Close(conn: Conn)

  /** The connections open after an event: a successful handshake hands the channel over to the client. */
  function Apply(open: set<Conn>, e: Event): set<Conn> {
    match e
    case DialTunnel(k, _, _, ok) => if ok then open + {TunnelConn(k)} else open
    case DialTarget(k, _, ok) => if ok then open + {TargetConn(k)} else open
    case Handshake(k, _, _, ok) => if ok then open - {TargetConn(k)} + {ClientConn(k)} else open
    case NewSession(_, _) => open
    case Close(c) => open - {c}
  }

  function OpenAfter(open: set<Conn>, trace: seq<Event>): set<Conn>
    decreases |trace|
  {
    if trace == [] then open else OpenAfter(Apply(open, trace[0]), trace[1..])
  }

  lemma {:induction false} OpenAfterAppend(open: set<Conn>, a: seq<Event>, b: seq<Event>)
    ensures OpenAfter(open, a + b) == OpenAfter(OpenAfter(open, a), b)
    decreases |a|
  {
    if a != [] {
      assert (a + b)[0] == a[0];
      assert (a + b)[1..] == a[1..] + b;
      OpenAfterAppend(Apply(open, a[0]), a[1..], b);
    } else {
      assert a + b == b;
    }
  }

  lemma OpenAfterCons(open: set<Conn>, e: Event, rest: seq<Event>)
    ensures OpenAfter(open, [e] + rest) == OpenAfter(Apply(open, e), rest)
  {
    assert ([e] + rest)[1..] == rest;
  }

  /** Everything the loop uses, fixed before it starts: both addresses and both configurations. */
  datatype Plan = Plan(relay: Address, target: Address, tunnelConfig: ClientConfig, sshConfig: ClientConfig)

  datatype ConnectResult =
    | Connected(attempt: nat)   // the loop left by `break`; that attempt's connections stay open
    | Fatal(msg: string)        // `fatalf`: the process ends
    | Pending(attempts: nat)    // every given outcome asked for a retry; the loop would go on

  /** The events of one attempt, ending with the two closes when it is retried. */
  function AttemptEvents(k: nat, a: Attempt, p: Plan): seq<Event> {
    var tunnel := DialTunnel(k, p.relay, p.tunnelConfig, !a.TunnelDialFail?);
    var target := DialTarget(k, p.target, !a.TargetDialFail?);
    var handshake := Handshake(k, p.target, p.sshConfig, !a.HandshakeError?);
    match a
    case TunnelDialFail(_) => [tunnel]
    case TargetDialFail(_) => [tunnel, target]
    case HandshakeError(m) =>
      [tunnel, target, handshake] + (if HasSuffix(m, "EOF") then [Close(TargetConn(k)), Close(TunnelConn(k))] else [])
    case SessionError(m) =>
      [tunnel, target, handshake, NewSession(k, false)]
      + (if HasSuffix(m, "EOF") then [Close(ClientConn(k)), Close(TunnelConn(k))] else [])
    case Established => [tunnel, target, handshake, NewSession(k, true)]
  }

  /** How an attempt that is not retried ends the loop. */
  function Verdict(k: nat, a: Attempt): ConnectResult {
    match a
    case TunnelDialFail(m) => Fatal("failed to connect SSH tunneling server: " + m)
    case TargetDialFail(m) => Fatal("failed to connect: " + m)
    case HandshakeError(m) => Fatal("failed to create tunneling connection: " + m)
    case SessionError(m) => Fatal("failed to create client session: " + m)
    case Established => Connected(k)
  }

  /** The loop from attempt `k` on, over the outcomes `attempts`: its result and its events. */
  function Run(k: nat, attempts: seq<Attempt>, p: Plan): (ConnectResult, seq<Event>)
    decreases |attempts|
  {
    if attempts == [] then (Pending(k), [])
    else
      var events := AttemptEvents(k, attempts[0], p);
      if Retryable(attempts[0]) then
        var next := Run(k + 1, attempts[1..], p);
        (next.0, events + next.1)
      else (Verdict(k, attempts[0]), events)
  }

  lemma RunCons(k: nat, attempts: seq<Attempt>, p: Plan)
    requires attempts != []
    ensures !Retryable(attempts[0]) ==> Run(k, attempts, p) == (Verdict(k, attempts[0]), AttemptEvents(k, attempts[0], p))
    ensures Retryable(attempts[0]) ==>
      Run(k, attempts, p).0 == Run(k + 1, attempts[1..], p).0
      && Run(k, attempts, p).1 == AttemptEvents(k, attempts[0], p) + Run(k + 1, attempts[1..], p).1
  {
  }

  /** How one pass of the loop body ends: `continue`, or leaving the loop with a result. */
  datatype Step = Retry | Stop(result: ConnectResult)

  /**
   * One pass of the loop body. `open` is the ghost set of connections held when the pass
   * ends: none on a retry, the relay and the client when the session is established.
   */
  method TryOnce(k: nat, a: Attempt, p: Plan) returns (step: Step, events: seq<Event>, ghost open: set<Conn>)
    ensures events == AttemptEvents(k, a, p)
    ensures step == if Retryable(a) then Retry else Stop(Verdict(k, a))
    ensures step == Retry ==> open == {}
    ensures step == Stop(Connected(k)) ==> open == {TunnelConn(k), ClientConn(k)}
    ensures step == Retry || step == Stop(Connected(k)) ==> open == OpenAfter({}, events)
  {
    AttemptOpen(k, a, p);
    open := {};
    // Connect to the relay.
    if a.TunnelDialFail? {
      events := [DialTunnel(k, p.relay, p.tunnelConfig, false)];
      return Stop(Fatal("failed to connect SSH tunneling server: " + a.msg)), events, open;
    }
    events := [DialTunnel(k, p.relay, p.tunnelConfig, true)];
    open := open + {TunnelConn(k)};
    // Connect to the target through the relay.
    if a.TargetDialFail? {
      events := events + [DialTarget(k, p.target, false)];
      return Stop(Fatal("failed to connect: " + a.msg)), events, open;
    }
    events := events + [DialTarget(k, p.target, true)];
    open := open + {TargetConn(k)};
    if a.HandshakeError? {
      events := events + [Handshake(k, p.target, p.sshConfig, false)];
      if HasSuffix(a.msg, "EOF") {
        events := events + [Close(TargetConn(k))];
        open := open - {TargetConn(k)};
        events := events + [Close(TunnelConn(k))];
        open := open - {TunnelConn(k)};
        return Retry, events, open;
      }
      return Stop(Fatal("failed to create tunneling connection: " + a.msg)), events, open;
    }
    events := events + [Handshake(k, p.target, p.sshConfig, true)];
    open := open - {TargetConn(k)} + {ClientConn(k)};
    // Open the session.
    if a.SessionError? {
      events := events + [NewSession(k, false)];
      if HasSuffix(a.msg, "EOF") {
        events := events + [Close(ClientConn(k))];
        open := open - {ClientConn(k)};
        events := events + [Close(TunnelConn(k))];
        open := open - {TunnelConn(k)};
        return Retry, events, open;
      }
      return Stop(Fatal("failed to create client session: " + a.msg)), events, open;
    }
    events := events + [NewSession(k, true)];
    return Stop(Connected(k)), events, open;
  }

  /** The `for` loop of `connect`: passes are made until one does not ask for a retry. */
  method RetryLoop(attempts: seq<Attempt>, p: Plan) returns (r: ConnectResult, trace: seq<Event>)
    ensures r == Run(0, attempts, p).0 && trace == Run(0, attempts, p).1
  {
    trace := [];
    var k := 0;
    assert attempts[0..] == attempts;
    while k < |attempts|
      invariant 0 <= k <= |attempts|
      invariant Run(0, attempts, p).0 == Run(k, attempts[k..], p).0
      invariant Run(0, attempts, p).1 == trace + Run(k, attempts[k..], p).1
    {
      assert attempts[k..][0] == attempts[k] && attempts[k..][1..] == attempts[k + 1..];
      RunCons(k, attempts[k..], p);
      var step, events, open := TryOnce(k, attempts[k], p);
      trace := trace + events;
      if step.Stop? {
        return step.result, trace;
      }
      // No connection of this attempt is left open when the next one dials.
      assert open == {};
      k := k + 1;
    }
    assert attempts[k..] == [];
    r := Pending(k);
  }

  /** `connect` up to the end of its loop: the password is read once and both configurations are built before the first attempt. */
  function ConnectSpec(
    tunnel: Resolver.SshServer, user: string, port: int, password: Result<string, string>,
    keyError: string -> Option<string>, attempts: seq<Attempt>): (ConnectResult, seq<Event>)
  {
    match password
    case Failure(e) => (Fatal("failed to read password: " + e), [])
    case Success(pw) =>
      match ClientConfigFor(tunnel.user, tunnel.key, tunnel.password, keyError)
      case Failure(e) => (Fatal("failed to create SSH config: " + e), [])
      case Success(tunnelConfig) =>
        var sshConfig := ClientConfigFor(user, "", pw, keyError).value;
        Run(0, attempts, Plan(Address(tunnel.host, tunnel.port), Address("localhost", port), tunnelConfig, sshConfig))
  }

  method Connect(
    tunnel: Resolver.SshServer, user: string, port: int, password: Result<string, string>,
    keyError: string -> Option<string>, attempts: seq<Attempt>) returns (r: ConnectResult, trace: seq<Event>)
    ensures (r, trace) == ConnectSpec(tunnel, user, port, password, keyError, attempts)
  {
    if password.Failure? {
      return Fatal("failed to read password: " + password.error), [];
    }
    var tunnelConfig := CreateSSHConfig(tunnel.user, tunnel.key, tunnel.password, keyError);
    if tunnelConfig.Failure? {
      return Fatal("failed to create SSH config: " + tunnelConfig.error), [];
    }
    // With no key to parse this call cannot fail, so the error check after it is never taken.
    var sshConfig := CreateSSHConfig(user, "", password.value, keyError);
    var plan := Plan(Address(tunnel.host, tunnel.port), Address("localhost", port), tunnelConfig.value, sshConfig.value);
    r, trace := RetryLoop(attempts, plan);
  }

  /**
   * The password is read once: every handshake of every attempt offers the same configuration,
   * the target user with that password as its only method (none when it is empty), and every
   * relay dial uses the relay's configuration.
   */
  lemma ConnectUsesOnePassword(
    tunnel: Resolver.SshServer, user: string, port: int, password: Result<string, string>,
    keyError: string -> Option<string>, attempts: seq<Attempt>)
    ensures password.Failure? ==> ConnectSpec(tunnel, user, port, password, keyError, attempts).1 == []
    ensures forall e :: e in ConnectSpec(tunnel, user, port, password, keyError, attempts).1 && e.Handshake? ==>
      password.Success? && e.config == ClientConfigFor(user, "", password.value, keyError).value
      && e.config.user == user && e.config.auth == (if password.value == "" then [] else [PasswordAuth(password.value)])
    ensures forall e :: e in ConnectSpec(tunnel, user, port, password, keyError, attempts).1 && e.DialTunnel? ==>
      ClientConfigFor(tunnel.user, tunnel.key, tunnel.password, keyError) == Success(e.config)
  {
    if password.Success? {
      var tc := ClientConfigFor(tunnel.user, tunnel.key, tunnel.password, keyError);
      if tc.Success? {
        var pw := password.value;
        var sc := ClientConfigFor(user, "", pw, keyError).value;
        var plan := Plan(Address(tunnel.host, tunnel.port), Address("localhost", port), tc.value, sc);
        RunUsesPlan(0, attempts, plan);
        if pw != "" {
          assert sc.auth == [PasswordAuth(pw)];
        }
      }
    }
  }

  // ---------------------------------------------------------------------------------------
  // Properties of the loop

  /** The number of leading outcomes that the loop retries. */
  function LeadingRetries(attempts: seq<Attempt>): (n: nat)
    ensures n <= |attempts|
    ensures forall j :: 0 <= j < n ==> Retryable(attempts[j])
    ensures n < |attempts| ==> !Retryable(attempts[n])
  {
    if attempts == [] || !Retryable(attempts[0]) then 0 else 1 + LeadingRetries(attempts[1..])
  }

  /**
   * The loop has no retry bound: it retries every leading `EOF` error and stops at the first
   * other outcome, which decides the result; it connects only on an attempt where every step succeeds.
   */
  lemma {:induction false} RunResult(k: nat, attempts: seq<Attempt>, p: Plan)
    ensures var n := LeadingRetries(attempts);
      Run(k, attempts, p).0 == if n == |attempts| then Pending(k + n) else Verdict(k + n, attempts[n])
    decreases |attempts|
  {
    if attempts != [] && Retryable(attempts[0]) {
      RunResult(k + 1, attempts[1..], p);
    }
  }

  /** Any number of handshake resets followed by a clean attempt connects on that attempt. */
  lemma UnboundedRetries(m: nat, msg: string, p: Plan)
    requires HasSuffix(msg, "EOF")
    ensures Run(0, seq(m, _ => HandshakeError(msg)) + [Established], p).0 == Connected(m)
  {
    var attempts := seq(m, _ => HandshakeError(msg)) + [Established];
    assert forall j :: 0 <= j < m ==> attempts[j] == HandshakeError(msg);
    LeadingRetriesAll(attempts, m);
    RunResult(0, attempts, p);
  }

  lemma {:induction false} LeadingRetriesAll(attempts: seq<Attempt>, m: nat)
    requires m <= |attempts|
    requires forall j :: 0 <= j < m ==> Retryable(attempts[j])
    requires m < |attempts| ==> !Retryable(attempts[m])
    ensures LeadingRetries(attempts) == m
    decreases m
  {
    if m > 0 {
      assert forall j :: 0 <= j < m - 1 ==> attempts[1..][j] == attempts[j + 1];
      LeadingRetriesAll(attempts[1..], m - 1);
    }
  }

  /** Every attempt dials the same relay and target with the configurations built before the loop. */
  lemma {:induction false} RunUsesPlan(k: nat, attempts: seq<Attempt>, p: Plan)
    ensures forall e :: e in Run(k, attempts, p).1 && e.DialTunnel? ==> e.addr == p.relay && e.config == p.tunnelConfig
    ensures forall e :: e in Run(k, attempts, p).1 && e.DialTarget? ==> e.addr == p.target
    ensures forall e :: e in Run(k, attempts, p).1 && e.Handshake? ==> e.addr == p.target && e.config == p.sshConfig
    decreases |attempts|
  {
    if attempts != [] && Retryable(attempts[0]) {
      RunUsesPlan(k + 1, attempts[1..], p);
    }
  }

  /** The connections an attempt leaves open: none when it is retried, relay and client when it connects. */
  lemma AttemptOpen(k: nat, a: Attempt, p: Plan)
    ensures Retryable(a) ==> OpenAfter({}, AttemptEvents(k, a, p)) == {}
    ensures a.Established? ==> OpenAfter({}, AttemptEvents(k, a, p)) == {TunnelConn(k), ClientConn(k)}
  {
    var tunnel := DialTunnel(k, p.relay, p.tunnelConfig, true);
    var target := DialTarget(k, p.target, true);
    var s1, s2, s3 := {TunnelConn(k)}, {TunnelConn(k), TargetConn(k)}, {TunnelConn(k), ClientConn(k)};
    if Retryable(a) || a.Established? {
      var ok := !a.HandshakeError?;
      var handshake := Handshake(k, p.target, p.sshConfig, ok);
      var after := if ok then s3 else s2;
      var tail :=
        if a.HandshakeError? then [Close(TargetConn(k)), Close(TunnelConn(k))]
        else if a.SessionError? then [NewSession(k, false), Close(ClientConn(k)), Close(TunnelConn(k))]
        else [NewSession(k, true)];
      assert AttemptEvents(k, a, p) == [tunnel] + ([target] + ([handshake] + tail));
      assert Apply({}, tunnel) == s1;
      assert Apply(s1, target) == s2;
      assert Apply(s2, handshake) == after;
      OpenAfterCons({}, tunnel, [target] + ([handshake] + tail));
      OpenAfterCons(s1, target, [handshake] + tail);
      OpenAfterCons(s2, handshake, tail);
      if a.HandshakeError? {
        assert Apply(s2, tail[0]) == s1 && Apply(s1, tail[1]) == {};
        OpenAfterCons(s2, tail[0], [tail[1]]);
        OpenAfterCons(s1, tail[1], []);
      } else if a.SessionError? {
        assert Apply(s3, tail[1]) == s1 && Apply(s1, tail[2]) == {};
        OpenAfterCons(s3, tail[0], [tail[1], tail[2]]);
        OpenAfterCons(s3, tail[1], [tail[2]]);
        OpenAfterCons(s1, tail[2], []);
      } else {
        OpenAfterCons(s3, tail[0], []);
      }
    }
  }

  /** Retried attempts leave nothing open, and a dial happens only when no connection is open. */
  lemma {:induction false} RunNoLeak(k: nat, attempts: seq<Attempt>, p: Plan)
    ensures forall i :: 0 <= i < |Run(k, attempts, p).1| && Run(k, attempts, p).1[i].DialTunnel? ==>
      OpenAfter({}, Run(k, attempts, p).1[..i]) == {}
    ensures Run(k, attempts, p).0.Pending? ==> OpenAfter({}, Run(k, attempts, p).1) == {}
    ensures Run(k, attempts, p).0.Connected? ==>
      OpenAfter({}, Run(k, attempts, p).1) == {TunnelConn(Run(k, attempts, p).0.attempt), ClientConn(Run(k, attempts, p).0.attempt)}
    decreases |attempts|
  {
    if attempts != [] {
      var a := attempts[0];
      var events := AttemptEvents(k, a, p);
      AttemptOpen(k, a, p);
      assert forall i :: 0 < i < |events| ==> !events[i].DialTunnel?;
      if Retryable(a) {
        var rest := Run(k + 1, attempts[1..], p).1;
        RunNoLeak(k + 1, attempts[1..], p);
        var t := events + rest;
        forall i | 0 <= i < |t| && t[i].DialTunnel?
          ensures OpenAfter({}, t[..i]) == {}
        {
          if i >= |events| {
            assert t[..i] == events + rest[..i - |events|];
            assert rest[i - |events|] == t[i];
            OpenAfterAppend({}, events, rest[..i - |events|]);
          } else {
            assert i == 0;
          }
        }
        OpenAfterAppend({}, events, rest);
      }
    }
  }

  // ---------------------------------------------------------------------------------------
  // The terminal part of `connect`, after the loop

  datatype TerminalModes = TerminalModes(echo: int, inputSpeed: int, outputSpeed: int)

  datatype PtyRequest = PtyRequest(term: string, height: int, width: int, modes: TerminalModes)

  /** `session.RequestPty("xterm", h, w, modes)` with echo on and both speeds 14400. */
  function PtyFor(width: int, height: int): PtyRequest {
    PtyRequest("xterm", height, width, TerminalModes(1, 14400, 14400))
  }

  /** The answers of the terminal calls: `MakeRaw`, `GetSize` (width, height), `RequestPty`, `Shell`, `Wait`. */
  datatype TerminalCalls = TerminalCalls(
    makeRaw: Option<string>, size: Result<(int, int), string>,
    requestPty: Option<string>, shell: Option<string>, wait: Option<string>)

  datatype ShellEnd = Finished | Aborted(msg: string)

  /** The terminal calls and process exits `connect` makes once the loop is over, in order. */
  datatype TerminalStep = MakeRaw | GetSize | RequestPty | StartShell | WaitShell | Restore | Exit

  /** `raw`: raw mode was acquired; `steps`: what was done, in order, up to the end of `connect` or of the process. */
  datatype AttachResult = AttachResult(end: ShellEnd, pty: Option<PtyRequest>, shellStarted: bool, raw: bool, steps: seq<TerminalStep>) {
    /** The deferred `terminal.Restore` ran. */
    predicate RestoreRuns() {
      Restore in steps
    }
  }

  /** How `fatalf` leaves after `steps`: at once as written; the corrected flow restores the terminal first. */
  function Fatalf(steps: seq<TerminalStep>, restoreFirst: bool): seq<TerminalStep> {
    if restoreFirst then steps + [Restore, Exit] else steps + [Exit]
  }

  /**
   * The terminal handling. A `MakeRaw` failure is printed and ignored; every later failure
   * leaves through `fatalf`. Only a normal return runs the deferred `Restore`.
   */
  function Drive(io: TerminalCalls, restoreFirst: bool): AttachResult {
    var raw := io.makeRaw.None?;
    var sized := [MakeRaw, GetSize];
    match io.size
    case Failure(e) => AttachResult(Aborted(e), None, false, raw, Fatalf(sized, restoreFirst))
    case Success((w, h)) =>
      var pty := PtyFor(w, h);
      var requested := sized + [RequestPty];
      if io.requestPty.Some? then
        AttachResult(Aborted("failed to request terminal: " + io.requestPty.value), Some(pty), false, raw, Fatalf(requested, restoreFirst))
      else
        var started := requested + [StartShell];
        if io.shell.Some? then
          AttachResult(Aborted("failed to start shell: " + io.shell.value), Some(pty), false, raw, Fatalf(started, restoreFirst))
        else
          var waited := started + [WaitShell];
          if io.wait.Some? then
            AttachResult(Aborted("session brake: " + io.wait.value), Some(pty), true, raw, Fatalf(waited, restoreFirst))
          else AttachResult(Finished, Some(pty), true, raw, waited + [Restore])
  }

  /**
   * The terminal handling as written: `fatalf` calls `os.Exit`, which skips deferred calls,
   * so `Restore` runs only when the remote shell ends cleanly.
   */
  function Attach(io: TerminalCalls): (r: AttachResult)
    ensures r.raw <==> io.makeRaw.None?
    ensures r.pty.Some? <==> io.size.Success?
    ensures r.pty.Some? ==> r.pty.value == PtyFor(io.size.value.0, io.size.value.1)
    ensures r.shellStarted <==> io.size.Success? && io.requestPty.None? && io.shell.None?
    ensures r.end == Finished <==> r.shellStarted && io.wait.None?
    ensures r.RestoreRuns() <==> r.end == Finished
    ensures r.end.Aborted? <==> Exit in r.steps
  {
    Drive(io, false)
  }

  /** A remote shell that ends with an error leaves the local terminal in raw mode. */
  lemma AttachLeavesRawOnShellError()
    ensures var r := Attach(TerminalCalls(None, Success((80, 24)), None, None, Some("Process exited with status 1")));
      r.raw && !r.RestoreRuns() && r.end.Aborted?
  {
  }

  /**
   * The terminal handling with the terminal restored before every `fatalf` exit: the same
   * outcome as written, the terminal is always restored, and never after the process exits.
   */
  function AttachRestoring(io: TerminalCalls): (r: AttachResult)
    ensures r.end == Attach(io).end && r.pty == Attach(io).pty && r.shellStarted == Attach(io).shellStarted
    ensures r.raw == Attach(io).raw
    ensures r.RestoreRuns()
    ensures forall i :: 0 <= i < |r.steps| && r.steps[i] == Exit ==> Restore in r.steps[..i]
  {
    Drive(io, true)
  }
}
