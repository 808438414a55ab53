/**
 * The directory-service client of resolver.go: the server prefix rule of `newClient`, the
 * requests it builds, how `retrieve` classifies HTTP statuses, and the three lookups.
 * The HTTP round trip and JSON decoding are library calls; the model receives their answers
 * as functions (`Transport`, `decode`).
 */
module Resolver {
  import opened Wrappers
  import opened Strings

  newtype byte = b: int | 0 <= b < 256

  /** A node record as the service returns it (resolver.go:12-20). */
  datatype Report = Report(
    id: string, customId: string, sshServerHost: string, sshRemotePort: int,
    localIPv4: string, hostname: string, serverTime: int)

  /** The connection descriptor of a relay host (resolver.go:22-28). */
  datatype SshServer = SshServer(host: string, port: int, user: string, key: string, password: string)

  datatype Request = Request(verb: string, url: string, headers: map<string, string>)

  /** `status` and `statusText` are `resp.StatusCode` and `resp.Status`; `body` is what reading the body gives. */
  datatype Response = Response(status: int, statusText: string, body: Result<seq<byte>, string>)

  /** What `net/http` does: whether a request for (verb, url) can be built, and what sending one returns. */
  datatype Transport = Transport(
    prepare: (string, string) -> Option<string>,
    send: Request -> Result<Response, string>)

  const MethodGet := "GET"
  const StatusOK := 200
  const StatusNotFound := 404

  /** The rule of `newClient`: `https://` is put in front of a server that does not start with `http`. */
  function WithScheme(server: string): (r: string)
    ensures HasPrefix(r, "http")
    ensures r == server <==> HasPrefix(server, "http")
    ensures !HasPrefix(server, "http") ==> r == "https://" + server
  {
    if HasPrefix(server, "http") then server else "https://" + server
  }

  lemma WithSchemeIdempotent(server: string)
    ensures WithScheme(WithScheme(server)) == WithScheme(server)
  {
  }

  /** A host name that merely starts with `http` keeps no scheme at all. */
  lemma WithSchemeKeepsHttpHost()
    ensures WithScheme("httpbin.org") == "httpbin.org"
    ensures !HasPrefix(WithScheme("httpbin.org"), "http://") && !HasPrefix(WithScheme("httpbin.org"), "https://")
  {
    assert HasPrefix("httpbin.org", "http");
    assert "httpbin.org"[..7][4] == 'b' != "http://"[4];
    assert "httpbin.org"[..8][4] == 'b' != "https://"[4];
  }

  class Client {
    var server: string
    var apiKey: string

    /** `newClient`: the fields are set, then the server is rewritten in place when it lacks the prefix. */
    constructor (server: string, apiKey: string)
      ensures this.server == WithScheme(server) && this.apiKey == apiKey
    {
      this.server := server;
      this.apiKey := apiKey;
      new;
      if !HasPrefix(this.server, "http") {
        this.server := "https://" + this.server;
      }
    }

    function NodeUrl(mac: string): string
      reads this
    {
      server + "/nodes/" + mac
    }

    function CustomIdUrl(cid: string): string
      reads this
    {
      server + "/nodes?custom-id=" + cid
    }

    function ServerUrl(host: string): string
      reads this
    {
      server + "/servers/" + host
    }

    /** The identifiers go into the request URLs verbatim; distinct identifiers give distinct URLs. */
    lemma UrlsCarryIdVerbatim(a: string, b: string)
      ensures HasPrefix(NodeUrl(a), server) && NodeUrl(a)[|server + "/nodes/"|..] == a
      ensures HasPrefix(CustomIdUrl(a), server) && CustomIdUrl(a)[|server + "/nodes?custom-id="|..] == a
      ensures HasPrefix(ServerUrl(a), server) && ServerUrl(a)[|server + "/servers/"|..] == a
      ensures NodeUrl(a) == NodeUrl(b) ==> a == b
      ensures CustomIdUrl(a) == CustomIdUrl(b) ==> a == b
      ensures ServerUrl(a) == ServerUrl(b) ==> a == b
    {
      var n, q, s := server + "/nodes/", server + "/nodes?custom-id=", server + "/servers/";
      assert NodeUrl(a) == n + a && NodeUrl(b) == n + b;
      assert CustomIdUrl(a) == q + a && CustomIdUrl(b) == q + b;
      assert ServerUrl(a) == s + a && ServerUrl(b) == s + b;
      assert (n + a)[..|server|] == server && (n + a)[|n|..] == a && (n + b)[|n|..] == b;
      assert (q + a)[..|server|] == server && (q + a)[|q|..] == a && (q + b)[|q|..] == b;
      assert (s + a)[..|server|] == server && (s + a)[|s|..] == a && (s + b)[|s|..] == b;
    }

    /** The request `retrieve` builds: the API key as a `token` authorization, JSON accepted. */
    function NewRequest(verb: string, url: string): (req: Request)
      reads this
      ensures req.verb == verb && req.url == url
      ensures req.headers.Keys == {"Authorization", "Accept"}
      ensures HasPrefix(req.headers["Authorization"], "token ")
      ensures req.headers["Authorization"][|"token "|..] == apiKey
      ensures req.headers["Accept"] == "application/json"
    {
      var auth := "token " + apiKey;
      assert auth[..|"token "|] == "token " && auth[|"token "|..] == apiKey;
      Request(verb, url, map["Authorization" := auth, "Accept" := "application/json"])
    }

    /**
     * `retrieve`: 404 gives no body and no error, 200 gives the body, any other status is an
     * error, as are a request that cannot be built, a failed exchange and an unreadable body.
     */
    function Retrieve(url: string, verb: string, t: Transport): (r: Result<Option<seq<byte>>, string>)
      reads this
      ensures r == Success(None) <==>
        t.prepare(verb, url).None? && t.send(NewRequest(verb, url)).Success?
        && t.send(NewRequest(verb, url)).value.status == StatusNotFound
      ensures r.Success? && r.value.Some? <==>
        t.prepare(verb, url).None? && t.send(NewRequest(verb, url)).Success?
        && t.send(NewRequest(verb, url)).value.status == StatusOK
        && t.send(NewRequest(verb, url)).value.body.Success?
      ensures r.Success? && r.value.Some? ==> r.value.value == t.send(NewRequest(verb, url)).value.body.value
      ensures t.prepare(verb, url).None? && t.send(NewRequest(verb, url)).Success?
        && t.send(NewRequest(verb, url)).value.status !in {StatusOK, StatusNotFound}
        ==> r == Failure("server respond HTTP " + t.send(NewRequest(verb, url)).value.statusText)
    {
      match t.prepare(verb, url)
      case Some(e) => Failure("failed to prepare request: " + e)
      case None =>
        match t.send(NewRequest(verb, url))
        case Failure(e) => Failure("failed to communicate Kaginawa Server: " + e)
        case Success(resp) =>
          if resp.status == StatusNotFound then Success(None)
          else if resp.status != StatusOK then Failure("server respond HTTP " + resp.statusText)
          else
            match resp.body
            case Failure(e) => Failure("failed to read body: " + e)
            case Success(raw) => Success(Some(raw))
    }

    /**
     * `findByID`, `findByCustomID` and `sshServer`, on `NodeUrl`, `CustomIdUrl` and `ServerUrl`:
     * a GET of `url`, then the body handed to the JSON decoder. A missing body (the 404 case)
     * reaches the decoder as empty input.
     */
    function Lookup<T>(url: string, what: string, t: Transport, decode: seq<byte> -> Result<T, string>): (r: Result<T, string>)
      reads this
      ensures Retrieve(url, MethodGet, t).Failure? ==> r == Failure("failed to find " + what + ": " + Retrieve(url, MethodGet, t).error)
      ensures Retrieve(url, MethodGet, t) == Success(None) ==> (r.Success? <==> decode([]).Success?)
      ensures Retrieve(url, MethodGet, t).Success? && Retrieve(url, MethodGet, t).value.Some? ==>
        var body := Retrieve(url, MethodGet, t).value.value;
        (r.Success? <==> decode(body).Success?) && (r.Success? ==> r.value == decode(body).value)
    {
      match Retrieve(url, MethodGet, t)
      case Failure(e) => Failure("failed to find " + what + ": " + e)
      case Success(body) =>
        match decode(body.GetOr([]))
        case Failure(e) => Failure("failed to parse response: " + e)
        case Success(v) => Success(v)
    }

    /** `findByID`: the node at `NodeUrl(mac)`; a failure is reported with the MAC address. */
    function FindByID(mac: string, t: Transport, decode: seq<byte> -> Result<Report, string>): (r: Result<Report, string>)
      reads this
      ensures var got := Retrieve(NodeUrl(mac), MethodGet, t);
        (got.Failure? ==> r == Failure("failed to find " + mac + ": " + got.error))
        && (got.Success? ==> (r.Success? <==> decode(got.value.GetOr([])).Success?))
        && (got.Success? && r.Success? ==> r.value == decode(got.value.GetOr([])).value)
        && (got.Success? && decode(got.value.GetOr([])).Failure? ==>
              r == Failure("failed to parse response: " + decode(got.value.GetOr([])).error))
    {
      Lookup(NodeUrl(mac), mac, t, decode)
    }

    /** `findByCustomID`: the nodes at `CustomIdUrl(cid)`; a failure is reported with the custom ID. */
    function FindByCustomID(cid: string, t: Transport, decode: seq<byte> -> Result<seq<Report>, string>): (r: Result<seq<Report>, string>)
      reads this
      ensures var got := Retrieve(CustomIdUrl(cid), MethodGet, t);
        (got.Failure? ==> r == Failure("failed to find " + cid + ": " + got.error))
        && (got.Success? ==> (r.Success? <==> decode(got.value.GetOr([])).Success?))
        && (got.Success? && r.Success? ==> r.value == decode(got.value.GetOr([])).value)
        && (got.Success? && decode(got.value.GetOr([])).Failure? ==>
              r == Failure("failed to parse response: " + decode(got.value.GetOr([])).error))
    {
      Lookup(CustomIdUrl(cid), cid, t, decode)
    }

    /** `sshServer`: the relay at `ServerUrl(host)`; a failure is reported with the host name. */
    function FindSshServer(host: string, t: Transport, decode: seq<byte> -> Result<SshServer, string>): (r: Result<SshServer, string>)
      reads this
      ensures var got := Retrieve(ServerUrl(host), MethodGet, t);
        (got.Failure? ==> r == Failure("failed to find " + host + ": " + got.error))
        && (got.Success? ==> (r.Success? <==> decode(got.value.GetOr([])).Success?))
        && (got.Success? && r.Success? ==> r.value == decode(got.value.GetOr([])).value)
        && (got.Success? && decode(got.value.GetOr([])).Failure? ==>
              r == Failure("failed to parse response: " + decode(got.value.GetOr([])).error))
    {
      Lookup(ServerUrl(host), host, t, decode)
    }

    /**
     * As written, a lookup turns the service's not-found answer into a parse error: the decoder
     * (`json.Unmarshal`) rejects empty input, and that is what a 404 hands it.
     */
    lemma NotFoundBecomesParseError<T>(url: string, what: string, t: Transport, decode: seq<byte> -> Result<T, string>)
      requires decode([]).Failure?
      requires t.prepare(MethodGet, url).None? && t.send(NewRequest(MethodGet, url)).Success?
      requires t.send(NewRequest(MethodGet, url)).value.status == StatusNotFound
      ensures Lookup(url, what, t, decode) == Failure("failed to parse response: " + decode([]).error)
    {
    }

    /** A lookup that keeps not-found an ordinary outcome, as `retrieve` intends; on every other answer it agrees with `Lookup`. */
    function LookupOrNone<T>(url: string, what: string, t: Transport, decode: seq<byte> -> Result<T, string>): (r: Result<Option<T>, string>)
      reads this
      ensures r == Success(None) <==> Retrieve(url, MethodGet, t) == Success(None)
      ensures Retrieve(url, MethodGet, t) != Success(None) ==>
        r == match Lookup(url, what, t, decode) case Success(v) => Success(Some(v)) case Failure(e) => Failure(e)
    {
      match Retrieve(url, MethodGet, t)
      case Failure(e) => Failure("failed to find " + what + ": " + e)
      case Success(None) => Success(None)
      case Success(Some(body)) =>
        match decode(body)
        case Failure(e) => Failure("failed to parse response: " + e)
        case Success(v) => Success(Some(v))
    }
  }
}
