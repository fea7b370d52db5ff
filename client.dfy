/**
 * `LibreViewAPI` of api_client.py: the session client as an object whose methods
 * update its fields and talk through the scripted transport. The source retries by
 * calling itself; here each retry is one more turn of a loop, and every method is
 * proved to do exactly what the session functions of protocol.dfy describe.
 */
module Client {
  import opened Wrappers
  import opened PyValue
  import opened Http
  import opened Protocol
  import opened ProtocolLemmas
  import opened SeqFacts

  class LibreViewApi {
    var region: Value
    var baseUrl: string
    var token: Value
    var accountIdHash: Option<string>
    var patientId: Value
    var minVersion: Value

    /** The network every request goes through. */
    const net: Transport
    /** `hashlib.sha256(...).hexdigest()`, left abstract. */
    const sha256: string -> string
    /** `str()` of a value that is not a string, left abstract. */
    const show: Value -> string

    /** The client's fields as one value. */
    function State(): Session
      reads this
    {
      Session(region, baseUrl, token, accountIdHash, patientId, minVersion)
    }

    /** The host always matches the region. */
    ghost predicate Valid()
      reads this
    {
      baseUrl == BuildApiUrl(region, show)
    }

    constructor (region: Value, net: Transport, sha256: string -> string, show: Value -> string)
      ensures Valid()
      ensures State() == NewSession(region, show)
      ensures token == Null && accountIdHash == None && patientId == Null && minVersion == Str(DefaultApiVersion)
      ensures this.net == net && this.sha256 == sha256 && this.show == show
    {
      this.net := net;
      this.sha256 := sha256;
      this.show := show;
      this.region := region;
      this.baseUrl := BuildApiUrl(region, show);
      this.token := Null;
      this.accountIdHash := None;
      this.patientId := Null;
      this.minVersion := Str(DefaultApiVersion);
    }

    /** `get_headers`: the "version" header is always the current version. */
    method GetHeaders() returns (headers: map<string, Value>)
      ensures "version" in headers && headers["version"] == minVersion
      ensures headers == Headers(minVersion)
    {
      headers := Headers(minVersion);
    }

    /** `_fetch_connections`. */
    method FetchConnections() returns (ok: bool)
      modifies this, net
      ensures var r := Protocol.FetchConnections(old(State()), old(net.replies), show);
        ok == r.result && State() == r.session && net.replies == r.replies && net.sent == old(net.sent) + r.sent
    {
      if !Truthy(token) || !HasHash(accountIdHash) {
        return false;
      }
      var headers := GetHeaders();
      headers := headers["authorization" := Str("Bearer " + Text(token, show))]["account-id" := Str(accountIdHash.value)];
      var reply := net.Send(Request(Get, baseUrl + "/llu/connections", headers, None));
      match FirstPatientId(reply)
      case None =>
        ok := false;
      case Some(pid) =>
        patientId := pid;
        ok := patientId != Null;
    }

    /** The post at the head of `login`: the credentials to the login endpoint with the current headers. */
    method PostLogin(cred: Credentials) returns (reply: Reply)
      modifies net
      ensures (reply, net.replies) == Next(old(net.replies))
      ensures net.sent == old(net.sent) + [LoginRequest(State(), cred)]
    {
      var headers := GetHeaders();
      reply := net.Send(Request(Post, baseUrl + "/llu/auth/login", headers, Some(cred)));
    }

    /**
     * `login`. The source calls itself again after an upgrade or a redirect; here each
     * such retry is one more turn of the loop, with the updated fields.
     */
    method Login(email: string, password: string) returns (ok: bool)
      requires Valid()
      modifies this, net
      ensures Valid()
      ensures var r := Protocol.Login(old(State()), Credentials(email, password), old(net.replies), sha256, show);
        ok == r.result && State() == r.session && net.replies == r.replies && net.sent == old(net.sent) + r.sent
    {
      var cred := Credentials(email, password);
      ghost var goal := Protocol.Login(State(), cred, net.replies, sha256, show);
      ghost var done: seq<Request> := [];
      while true
        invariant Valid()
        invariant net.sent == old(net.sent) + done
        invariant goal == After(done, Protocol.Login(State(), cred, net.replies, sha256, show))
        decreases |net.replies|
      {
        ghost var s := State();
        ghost var replies := net.replies;
        ghost var req := LoginRequest(s, cred);
        var reply := PostLogin(cred);
        AppendAssoc(old(net.sent), done, [req]);
        ghost var before := done;
        done := done + [req];
        assert replies != [] ==> reply == replies[0];
        match ClassifyLogin(reply)
        case Upgrade(v) =>
          LoginUpgradeStep(s, cred, replies, v, sha256, show);
          minVersion := v;
          assert State() == s.(minVersion := v);
          AfterPrepend(before, req, Protocol.Login(State(), cred, net.replies, sha256, show));
        case Redirect(r) =>
          LoginRedirectStep(s, cred, replies, r, sha256, show);
          region := r;
          baseUrl := BuildApiUrl(r, show);
          assert State() == s.(region := r, baseUrl := BuildApiUrl(r, show));
          AfterPrepend(before, req, Protocol.Login(State(), cred, net.replies, sha256, show));
        case Failed =>
          LoginStopStep(s, cred, replies, sha256, show);
          return false;
        case TokenOnly(t) =>
          LoginStopStep(s, cred, replies, sha256, show);
          token := t;
          return false;
        case Accepted(t, id) =>
          LoginAcceptedStep(s, cred, replies, t, id, sha256, show);
          token := t;
          accountIdHash := Some(sha256(id));
          assert State() == s.(token := t, accountIdHash := Some(sha256(id)));
          ghost var next := Protocol.FetchConnections(State(), net.replies, show);
          AfterPrepend(before, req, next);
          ok := FetchConnections();
          AppendAssoc(old(net.sent), done, next.sent);
          return;
      }
    }

    /** `fetch_glucose_data`: refuses without a full session, retries on a version upgrade. */
    method FetchGlucoseData() returns (data: Option<GlucoseData>)
      modifies this, net
      ensures var r := Protocol.FetchGlucose(old(State()), old(net.replies), show);
        data == r.result && State() == r.session && net.replies == r.replies && net.sent == old(net.sent) + r.sent
      ensures region == old(region) && baseUrl == old(baseUrl) && token == old(token)
      ensures accountIdHash == old(accountIdHash) && patientId == old(patientId)
    {
      ghost var goal := Protocol.FetchGlucose(State(), net.replies, show);
      ghost var done: seq<Request> := [];
      while true
        invariant net.sent == old(net.sent) + done
        invariant region == old(region) && baseUrl == old(baseUrl) && token == old(token)
        invariant accountIdHash == old(accountIdHash) && patientId == old(patientId)
        invariant goal == After(done, Protocol.FetchGlucose(State(), net.replies, show))
        decreases |net.replies|
      {
        if !Truthy(patientId) || !Truthy(token) || !HasHash(accountIdHash) {
          FetchRefusesWithoutSession(State(), net.replies, show);
          return None;
        }
        ghost var s := State();
        ghost var replies := net.replies;
        var headers := GetHeaders();
        headers := headers["authorization" := Str("Bearer " + Text(token, show))]["account-id" := Str(accountIdHash.value)];
        var req := Request(Get, baseUrl + "/llu/connections/" + Text(patientId, show) + "/graph", headers, None);
        assert req == GraphRequest(s, show);
        var reply := net.Send(req);
        AppendAssoc(old(net.sent), done, [req]);
        ghost var before := done;
        done := done + [req];
        assert replies != [] ==> reply == replies[0];
        match ClassifyGraph(reply)
        case GraphUpgrade(v) =>
          FetchUpgradeStep(s, replies, v, show);
          minVersion := v;
          assert State() == s.(minVersion := v);
          AfterPrepend(before, req, Protocol.FetchGlucose(State(), net.replies, show));
        case GraphFailed =>
          FetchStopStep(s, replies, show);
          return None;
        case GraphData(d) =>
          FetchStopStep(s, replies, show);
          return Some(d);
      }
    }
  }
}
