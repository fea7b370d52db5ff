/**
 * The session protocol of `LibreViewAPI` (api_client.py) as functions over the
 * session fields and the script of replies: what a login, a connection lookup and
 * a graph fetch send, which reply sends them round again, and what they leave in
 * the session. The class in client.dfy runs the same protocol step by step and is
 * proved to agree with these functions.
 */
module Protocol {
  import opened Wrappers
  import opened PyValue
  import opened Http

  const DefaultApiVersion: string := "4.16.0"
  const DefaultApiUrl: string := "https://api.libreview.io"
  const RegionUrlPrefix: string := "https://api-"
  const RegionUrlSuffix: string := ".libreview.io"

  /** The fields of a client: `None` of Python is `Null` (or `None` for the digest). */
  datatype Session = Session(
    region: Value,
    baseUrl: string,
    token: Value,
    accountIdHash: Option<string>,
    patientId: Value,
    minVersion: Value)

  /** What a call returned, the session it left, the replies still unread and the requests it sent. */
  datatype Run<T> = Run(result: T, session: Session, replies: seq<Reply>, sent: seq<Request>)

  /** `_build_api_url`: a region-scoped host for a truthy region, the global host otherwise. */
  function BuildApiUrl(region: Value, show: Value -> string): (url: string)
    ensures url == DefaultApiUrl <==> !Truthy(region)
    ensures Truthy(region) ==> |url| > |DefaultApiUrl| && url[..|RegionUrlPrefix|] == RegionUrlPrefix
  {
    if Truthy(region) then RegionUrlPrefix + Text(region, show) + RegionUrlSuffix else DefaultApiUrl
  }

  /** Reads the region back out of a region-scoped host; the global host has none. */
  function RegionOfUrl(url: string): Option<string>
  {
    if |url| > |RegionUrlPrefix| + |RegionUrlSuffix|
       && url[..|RegionUrlPrefix|] == RegionUrlPrefix
       && url[|url| - |RegionUrlSuffix|..] == RegionUrlSuffix
    then Some(url[|RegionUrlPrefix|..|url| - |RegionUrlSuffix|])
    else None
  }

  /** A string region gives a host that names exactly that region; None and "" give the global host. */
  lemma BuildApiUrlRoundTrip(region: string, show: Value -> string)
    ensures region != "" ==> BuildApiUrl(Str(region), show) == RegionUrlPrefix + region + RegionUrlSuffix
    ensures region == "" ==> BuildApiUrl(Str(region), show) == DefaultApiUrl
    ensures BuildApiUrl(Null, show) == DefaultApiUrl
    ensures RegionOfUrl(BuildApiUrl(Str(region), show)) == if region == "" then None else Some(region)
  {
    var url := BuildApiUrl(Str(region), show);
    if region != "" {
      assert url[..|RegionUrlPrefix|] == RegionUrlPrefix;
      assert url[|url| - |RegionUrlSuffix|..] == RegionUrlSuffix;
      assert url[|RegionUrlPrefix|..|url| - |RegionUrlSuffix|] == region;
    } else {
      assert |url| == |DefaultApiUrl|;
    }
  }

  /** `get_headers`: fixed headers plus the negotiated version. */
  function Headers(minVersion: Value): map<string, Value>
  {
    map[
      "accept-encoding" := Str("gzip"),
      "cache-control" := Str("no-cache"),
      "connection" := Str("Keep-Alive"),
      "content-type" := Str("application/json"),
      "product" := Str("llu.android"),
      "version" := minVersion]
  }

  /** The "version" header a request carried. */
  function VersionOf(req: Request): Option<Value>
  {
    if "version" in req.headers then Some(req.headers["version"]) else None
  }

  /** The headers of an authenticated request: bearer token and hashed account id added. */
  function AuthHeaders(s: Session, show: Value -> string): map<string, Value>
  {
    Headers(s.minVersion)
      ["authorization" := Str("Bearer " + Text(s.token, show))]
      ["account-id" := Str(if s.accountIdHash.Some? then s.accountIdHash.value else "None")]
  }

  /** A fresh client: nothing authenticated yet and the default version. */
  function NewSession(region: Value, show: Value -> string): Session
  {
    Session(region, BuildApiUrl(region, show), Null, None, Null, Str(DefaultApiVersion))
  }

  /** Python truthiness of the stored digest. */
  predicate HasHash(h: Option<string>)
  {
    h.Some? && h.value != ""
  }

  /** The guard of `fetch_glucose_data`: patient id, token and digest all truthy. */
  predicate Ready(s: Session)
  {
    Truthy(s.patientId) && Truthy(s.token) && HasHash(s.accountIdHash)
  }

  function LoginRequest(s: Session, cred: Credentials): Request
  {
    Request(Post, s.baseUrl + "/llu/auth/login", Headers(s.minVersion), Some(cred))
  }

  function ConnectionsRequest(s: Session, show: Value -> string): Request
  {
    Request(Get, s.baseUrl + "/llu/connections", AuthHeaders(s, show), None)
  }

  function GraphRequest(s: Session, show: Value -> string): Request
  {
    Request(Get, s.baseUrl + "/llu/connections/" + Text(s.patientId, show) + "/graph", AuthHeaders(s, show), None)
  }

  /**
   * The version-upgrade signal of a 403 body: `data.minimumVersion` when the body is
   * a dict whose "data" is a dict holding that key. Any other body either fails the
   * membership test or raises while indexing, and both end the call.
   */
  function MinimumVersion(body: Option<Value>): Option<Value>
  {
    if body.Some? && body.value.Obj? && "data" in body.value.fields then
      var data := body.value.fields["data"];
      if data.Obj? && "minimumVersion" in data.fields then Some(data.fields["minimumVersion"]) else None
    else None
  }

  /** How one login reply drives the state machine. */
  datatype LoginReply =
    | Upgrade(version: Value)                  // 403 with data.minimumVersion: retry with it
    | Redirect(region: Value)                  // status 0 with redirect and region: retry there
    | Failed                                   // any error before the token is read
    | TokenOnly(token: Value)                  // token stored, but no usable account id
    | Accepted(token: Value, accountId: string)

  function ClassifyLogin(reply: Reply): (r: LoginReply)
    ensures r.Upgrade? <==> reply.Response? && reply.status == 403 && MinimumVersion(reply.body).Some?
    ensures r.Upgrade? ==> r.version == MinimumVersion(reply.body).value
    ensures !r.Upgrade? && !r.Failed? ==>
      reply.Response? && !IsHttpError(reply.status) && reply.body.Some? && r == LoginBody(reply.body.value)
    ensures (reply.Response? && !(reply.status == 403 && MinimumVersion(reply.body).Some?)
             && !IsHttpError(reply.status) && reply.body.Some?) ==> r == LoginBody(reply.body.value)
    ensures reply.NetworkError? || (!r.Upgrade? && (IsHttpError(reply.status) || reply.body.None?)) ==> r == Failed
  {
    match reply
    case NetworkError => Failed
    case Response(status, body) =>
      if status == 403 && MinimumVersion(body).Some? then Upgrade(MinimumVersion(body).value)
      else if IsHttpError(status) || body.None? then Failed
      else LoginBody(body.value)
  }

  /** Lines 52-68 of the login: the redirect test, then token and account id. */
  function LoginBody(data: Value): (r: LoginReply)
    ensures !r.Upgrade?
    ensures r.Redirect? ==>
      && data.Obj? && Lookup(data.fields, "data", Obj(map[])).Obj?
      && var loginData := Lookup(data.fields, "data", Obj(map[])).fields;
         && PyEq(Lookup(data.fields, "status", Null), Int(0))
         && Truthy(Lookup(loginData, "redirect", Null)) && Truthy(Lookup(loginData, "region", Null))
         && r.region == loginData["region"]
    ensures r.Accepted? ==> Truthy(r.token) && r.accountId != ""
    ensures !data.Obj? || !Lookup(data.fields, "data", Obj(map[])).Obj? ==> r == Failed
    ensures data.Obj? && Lookup(data.fields, "data", Obj(map[])).Obj? ==>
      var loginData := Lookup(data.fields, "data", Obj(map[])).fields;
      var redirect := PyEq(Lookup(data.fields, "status", Null), Int(0))
                      && Truthy(Lookup(loginData, "redirect", Null)) && Truthy(Lookup(loginData, "region", Null));
      var ticket := Lookup(loginData, "authTicket", Obj(map[]));
      && (redirect ==> r == Redirect(loginData["region"]))
      && (!redirect && !ticket.Obj? ==> r == Failed)
      && (!redirect && ticket.Obj? ==> r == TokenOnlyOrAccepted(Lookup(ticket.fields, "token", Null), loginData))
  {
    match DictGet(data, "data", Obj(map[]))
    case None => Failed
    case Some(loginData) =>
      if !loginData.Obj? then Failed
      else if PyEq(Lookup(data.fields, "status", Null), Int(0))
              && Truthy(Lookup(loginData.fields, "redirect", Null))
              && Truthy(Lookup(loginData.fields, "region", Null))
      then Redirect(loginData.fields["region"])
      else
        match DictGet(Lookup(loginData.fields, "authTicket", Obj(map[])), "token", Null)
        case None => Failed
        case Some(token) => TokenOnlyOrAccepted(token, loginData.fields)
  }

  /** After `self.token` is assigned: the account id must be truthy, and a string to be hashed. */
  function TokenOnlyOrAccepted(token: Value, loginData: map<string, Value>): (r: LoginReply)
    ensures r.TokenOnly? || r.Accepted?
    ensures r.TokenOnly? ==> r.token == token
    ensures r.Accepted? ==> r.token == token && Truthy(token) && r.accountId != ""
    ensures var user := Lookup(loginData, "user", Obj(map[]));
      r.Accepted? <==>
        Truthy(token) && user.Obj? && Lookup(user.fields, "id", Null).Str? && Lookup(user.fields, "id", Null).s != ""
    ensures r.Accepted? ==> r.accountId == Lookup(Lookup(loginData, "user", Obj(map[])).fields, "id", Null).s
  {
    match DictGet(Lookup(loginData, "user", Obj(map[])), "id", Null)
    case None => TokenOnly(token)
    case Some(id) =>
      if !Truthy(token) || !Truthy(id) || !id.Str? then TokenOnly(token) else Accepted(token, id.s)
  }

  /**
   * The outcome of a connections reply: the `patientId` of the first connection
   * (`Null` when that entry has none), or None when the call failed or the list is empty.
   */
  function FirstPatientId(reply: Reply): (r: Option<Value>)
    ensures r.Some? <==>
      && reply.Response? && !IsHttpError(reply.status) && reply.body.Some? && reply.body.value.Obj?
      && var connections := Lookup(reply.body.value.fields, "data", List([]));
         connections.List? && connections.items != [] && connections.items[0].Obj?
    ensures r.Some? ==>
      r.value == Lookup(Lookup(reply.body.value.fields, "data", List([])).items[0].fields, "patientId", Null)
  {
    match reply
    case NetworkError => None
    case Response(status, body) =>
      if IsHttpError(status) || body.None? then None
      else
        match DictGet(body.value, "data", List([]))
        case None => None
        case Some(connections) =>
          if !Truthy(connections) || !connections.List? then None
          else
            match DictGet(connections.items[0], "patientId", Null)
            case None => None
            case Some(pid) => Some(pid)
  }

  /** `_fetch_connections`: discovers the primary connection, always the first one. */
  function FetchConnections(s: Session, replies: seq<Reply>, show: Value -> string): (r: Run<bool>)
    ensures r.session == s.(patientId := r.session.patientId)
    ensures r.result ==> Truthy(r.session.token) && HasHash(r.session.accountIdHash) && r.session.patientId != Null
    ensures |r.sent| <= 1 && |r.replies| <= |replies|
  {
    if !Truthy(s.token) || !HasHash(s.accountIdHash) then Run(false, s, replies, [])
    else
      var (reply, rest) := Next(replies);
      var req := ConnectionsRequest(s, show);
      match FirstPatientId(reply)
      case None => Run(false, s, rest, [req])
      case Some(pid) => Run(pid != Null, s.(patientId := pid), rest, [req])
  }

  /** A run preceded by requests already sent. */
  function After<T>(done: seq<Request>, r: Run<T>): Run<T>
  {
    r.(sent := done + r.sent)
  }

  function Prepend<T>(req: Request, r: Run<T>): Run<T>
  {
    After([req], r)
  }

  /** `login`: posts the credentials and follows upgrades and redirects until an outcome. */
  function Login(s: Session, cred: Credentials, replies: seq<Reply>, sha256: string -> string,
                 show: Value -> string): (r: Run<bool>)
    ensures r.sent != [] && r.sent[0] == LoginRequest(s, cred)
    ensures |r.replies| <= |replies|
    decreases |replies|
  {
    var req := LoginRequest(s, cred);
    if replies == [] then Run(false, s, [], [req])
    else
      var rest := replies[1..];
      match ClassifyLogin(replies[0])
      case Upgrade(v) => Prepend(req, Login(s.(minVersion := v), cred, rest, sha256, show))
      case Redirect(region) =>
        Prepend(req, Login(s.(region := region, baseUrl := BuildApiUrl(region, show)), cred, rest, sha256, show))
      case Failed => Run(false, s, rest, [req])
      case TokenOnly(token) => Run(false, s.(token := token), rest, [req])
      case Accepted(token, id) =>
        Prepend(req, FetchConnections(s.(token := token, accountIdHash := Some(sha256(id))), rest, show))
  }

  /** The dict `fetch_glucose_data` returns. */
  datatype Current = Current(value: Value, trend: Value, timestamp: Value, color: Value)
  datatype GlucoseData = GlucoseData(current: Current, graph: Value)

  /** Lines 130-142: picks the measurement and the graph out of a graph reply body. */
  function Reshape(data: Value): (r: Option<GlucoseData>)
    ensures r.Some? ==>
      && data.Obj? && Lookup(data.fields, "data", Obj(map[])).Obj?
      && r.value.graph == Lookup(Lookup(data.fields, "data", Obj(map[])).fields, "graphData", List([]))
  {
    match DictGet(data, "data", Obj(map[]))
    case None => None
    case Some(inner) =>
      match DictGet(inner, "connection", Obj(map[]))
      case None => None
      case Some(connection) =>
        match DictGet(connection, "glucoseMeasurement", Obj(map[]))
        case None => None
        case Some(gm) =>
          if !gm.Obj? then None
          else
            Some(GlucoseData(
              Current(Lookup(gm.fields, "Value", Null), Lookup(gm.fields, "TrendArrow", Null),
                      Lookup(gm.fields, "Timestamp", Null), Lookup(gm.fields, "MeasurementColor", Null)),
              Lookup(inner.fields, "graphData", List([]))))
  }

  datatype GraphReply = GraphUpgrade(version: Value) | GraphFailed | GraphData(data: GlucoseData)

  function ClassifyGraph(reply: Reply): (r: GraphReply)
    ensures r.GraphUpgrade? <==> reply.Response? && reply.status == 403 && MinimumVersion(reply.body).Some?
    ensures r.GraphUpgrade? ==> r.version == MinimumVersion(reply.body).value
    ensures r.GraphData? <==>
      reply.Response? && !(reply.status == 403 && MinimumVersion(reply.body).Some?)
      && !IsHttpError(reply.status) && reply.body.Some? && Reshape(reply.body.value).Some?
    ensures r.GraphData? ==> Reshape(reply.body.value) == Some(r.data)
  {
    match reply
    case NetworkError => GraphFailed
    case Response(status, body) =>
      if status == 403 && MinimumVersion(body).Some? then GraphUpgrade(MinimumVersion(body).value)
      else if IsHttpError(status) || body.None? then GraphFailed
      else
        match Reshape(body.value)
        case None => GraphFailed
        case Some(d) => GraphData(d)
  }

  /** `fetch_glucose_data`: refuses without a full session, follows version upgrades. */
  function FetchGlucose(s: Session, replies: seq<Reply>, show: Value -> string): (r: Run<Option<GlucoseData>>)
    ensures !Ready(s) ==> r.sent == [] && r.replies == replies && r.result.None?
    ensures r.result.Some? ==> Ready(s) && r.sent != []
    ensures |r.replies| <= |replies|
    decreases |replies|
  {
    if !Ready(s) then Run(None, s, replies, [])
    else
      var req := GraphRequest(s, show);
      if replies == [] then Run(None, s, [], [req])
      else
        match ClassifyGraph(replies[0])
        case GraphUpgrade(v) => Prepend(req, FetchGlucose(s.(minVersion := v), replies[1..], show))
        case GraphFailed => Run(None, s, replies[1..], [req])
        case GraphData(d) => Run(Some(d), s, replies[1..], [req])
  }
}
