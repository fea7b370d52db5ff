/**
 * What the session protocol guarantees over a whole login or fetch, whatever the
 * server says and however often it asks to retry.
 */
module ProtocolLemmas {
  import opened Wrappers
  import opened PyValue
  import opened Http
  import opened Protocol

  /** The replies a run used up are a prefix of the script; `used` is their number. */
  predicate ConsumedPrefix<T>(replies: seq<Reply>, r: Run<T>)
  {
    |r.replies| <= |replies| && r.replies == replies[|replies| - |r.replies|..]
  }

  /** One request per reply read, plus one unanswered request only when the script ran out. */
  predicate OneReplyPerRequest<T>(replies: seq<Reply>, r: Run<T>)
    requires |r.replies| <= |replies|
  {
    var used := |replies| - |r.replies|;
    |r.sent| == used || (|r.sent| == used + 1 && r.replies == [])
  }

  /** A version upgrade logs in again with the version the server asked for. */
  lemma LoginUpgradeStep(s: Session, cred: Credentials, replies: seq<Reply>, v: Value,
                         sha256: string -> string, show: Value -> string)
    requires replies != [] && ClassifyLogin(replies[0]) == Upgrade(v)
    ensures Login(s, cred, replies, sha256, show)
      == Prepend(LoginRequest(s, cred), Login(s.(minVersion := v), cred, replies[1..], sha256, show))
  {
  }

  /** A redirect logs in again on the host of the region the server named. */
  lemma LoginRedirectStep(s: Session, cred: Credentials, replies: seq<Reply>, region: Value,
                          sha256: string -> string, show: Value -> string)
    requires replies != [] && ClassifyLogin(replies[0]) == Redirect(region)
    ensures Login(s, cred, replies, sha256, show)
      == Prepend(LoginRequest(s, cred),
                 Login(s.(region := region, baseUrl := BuildApiUrl(region, show)), cred, replies[1..], sha256, show))
  {
  }

  /** An accepted login keeps the token and the digest and goes on to the connection lookup. */
  lemma LoginAcceptedStep(s: Session, cred: Credentials, replies: seq<Reply>, token: Value, id: string,
                          sha256: string -> string, show: Value -> string)
    requires replies != [] && ClassifyLogin(replies[0]) == Accepted(token, id)
    ensures Login(s, cred, replies, sha256, show)
      == Prepend(LoginRequest(s, cred),
                 FetchConnections(s.(token := token, accountIdHash := Some(sha256(id))), replies[1..], show))
  {
  }

  /** A network error, a refusal or a reply without the account id ends the login in failure. */
  lemma LoginStopStep(s: Session, cred: Credentials, replies: seq<Reply>, sha256: string -> string,
                      show: Value -> string)
    requires replies == [] || ClassifyLogin(replies[0]).Failed? || ClassifyLogin(replies[0]).TokenOnly?
    ensures var step := ClassifyLogin(Next(replies).0);
      Login(s, cred, replies, sha256, show)
        == Run(false, if step.TokenOnly? then s.(token := step.token) else s, Next(replies).1, [LoginRequest(s, cred)])
  {
  }

  /** Requests already sent and a run that follows one more request. */
  lemma AfterPrepend<T>(done: seq<Request>, req: Request, r: Run<T>)
    ensures After(done, Prepend(req, r)) == After(done + [req], r)
  {
  }

  /** A 403 either carries `data.minimumVersion`, which becomes the new version, or fails the login. */
  lemma Login403(body: Option<Value>)
    ensures MinimumVersion(body).Some? ==> ClassifyLogin(Response(403, body)) == Upgrade(MinimumVersion(body).value)
    ensures MinimumVersion(body).None? ==> ClassifyLogin(Response(403, body)) == Failed
    ensures MinimumVersion(body).Some? ==> ClassifyGraph(Response(403, body)) == GraphUpgrade(MinimumVersion(body).value)
    ensures MinimumVersion(body).None? ==> ClassifyGraph(Response(403, body)) == GraphFailed
  {
  }

  /** A successful login leaves a token, a digest and a discovered patient id. */
  lemma {:induction false} LoginSuccess(s: Session, cred: Credentials, replies: seq<Reply>,
                                        sha256: string -> string, show: Value -> string)
    ensures var r := Login(s, cred, replies, sha256, show);
      r.result ==> Truthy(r.session.token) && HasHash(r.session.accountIdHash) && r.session.patientId != Null
    decreases |replies|
  {
    if replies == [] || ClassifyLogin(replies[0]).Failed? || ClassifyLogin(replies[0]).TokenOnly? {
      LoginStopStep(s, cred, replies, sha256, show);
    } else {
      match ClassifyLogin(replies[0])
      case Upgrade(v) =>
        LoginUpgradeStep(s, cred, replies, v, sha256, show);
        LoginSuccess(s.(minVersion := v), cred, replies[1..], sha256, show);
      case Redirect(region) =>
        LoginRedirectStep(s, cred, replies, region, sha256, show);
        LoginSuccess(s.(region := region, baseUrl := BuildApiUrl(region, show)), cred, replies[1..], sha256, show);
      case Accepted(token, id) =>
        LoginAcceptedStep(s, cred, replies, token, id, sha256, show);
    }
  }

  /** The host always stays the one built from the region, across any number of redirects. */
  lemma {:induction false} LoginKeepsHost(s: Session, cred: Credentials, replies: seq<Reply>,
                                          sha256: string -> string, show: Value -> string)
    requires s.baseUrl == BuildApiUrl(s.region, show)
    ensures var r := Login(s, cred, replies, sha256, show);
      r.session.baseUrl == BuildApiUrl(r.session.region, show)
    decreases |replies|
  {
    if replies == [] || ClassifyLogin(replies[0]).Failed? || ClassifyLogin(replies[0]).TokenOnly? {
      LoginStopStep(s, cred, replies, sha256, show);
    } else {
      match ClassifyLogin(replies[0])
      case Upgrade(v) =>
        LoginUpgradeStep(s, cred, replies, v, sha256, show);
        LoginKeepsHost(s.(minVersion := v), cred, replies[1..], sha256, show);
      case Redirect(region) =>
        LoginRedirectStep(s, cred, replies, region, sha256, show);
        LoginKeepsHost(s.(region := region, baseUrl := BuildApiUrl(region, show)), cred, replies[1..], sha256, show);
      case Accepted(token, id) =>
        LoginAcceptedStep(s, cred, replies, token, id, sha256, show);
    }
  }

  /** Every retry posts the same credentials; only the connection lookup is not a post. */
  lemma {:induction false} LoginSameCredentials(s: Session, cred: Credentials, replies: seq<Reply>,
                                                sha256: string -> string, show: Value -> string)
    ensures var r := Login(s, cred, replies, sha256, show);
      && r.sent != []
      && r.sent[0] == LoginRequest(s, cred)
      && forall i :: 0 <= i < |r.sent| ==> (r.sent[i].verb == Post <==> r.sent[i].payload == Some(cred))
    decreases |replies|
  {
    var req := LoginRequest(s, cred);
    if replies == [] || ClassifyLogin(replies[0]).Failed? || ClassifyLogin(replies[0]).TokenOnly? {
      LoginStopStep(s, cred, replies, sha256, show);
    } else {
      match ClassifyLogin(replies[0])
      case Upgrade(v) =>
        LoginUpgradeStep(s, cred, replies, v, sha256, show);
        LoginSameCredentials(s.(minVersion := v), cred, replies[1..], sha256, show);
        PrependPosts(req, Login(s.(minVersion := v), cred, replies[1..], sha256, show), cred);
      case Redirect(region) =>
        var s' := s.(region := region, baseUrl := BuildApiUrl(region, show));
        LoginRedirectStep(s, cred, replies, region, sha256, show);
        LoginSameCredentials(s', cred, replies[1..], sha256, show);
        PrependPosts(req, Login(s', cred, replies[1..], sha256, show), cred);
      case Accepted(token, id) =>
        var s' := s.(token := token, accountIdHash := Some(sha256(id)));
        LoginAcceptedStep(s, cred, replies, token, id, sha256, show);
        PrependPosts(req, FetchConnections(s', replies[1..], show), cred);
    }
  }

  /** A post of `cred` in front of requests that post exactly when they carry `cred`. */
  lemma PrependPosts<T>(req: Request, r: Run<T>, cred: Credentials)
    requires req.verb == Post && req.payload == Some(cred)
    requires forall i :: 0 <= i < |r.sent| ==> (r.sent[i].verb == Post <==> r.sent[i].payload == Some(cred))
    ensures var p := Prepend(req, r);
      p.sent[0] == req && forall i :: 0 <= i < |p.sent| ==> (p.sent[i].verb == Post <==> p.sent[i].payload == Some(cred))
  {
    var p := Prepend(req, r);
    assert forall i :: 1 <= i < |p.sent| ==> p.sent[i] == r.sent[i - 1];
  }

  /** The "version" header of the last request of a run, if it sent any. */
  function LastVersion<T>(r: Run<T>): Option<Value>
  {
    if r.sent == [] then None else VersionOf(r.sent[|r.sent| - 1])
  }

  /** The last request of a run that follows one more request is still the run's own last request. */
  lemma LastVersionPrepend<T>(req: Request, r: Run<T>)
    requires r.sent != []
    ensures LastVersion(Prepend(req, r)) == LastVersion(r)
  {
    assert Prepend(req, r).sent[|r.sent|] == r.sent[|r.sent| - 1];
  }

  /**
   * `_fetch_connections`: without a truthy token and digest it sends nothing and
   * returns False. Otherwise it sends one GET to `/llu/connections` carrying the
   * bearer token, the digest and the version, and reads one reply. The patient id
   * becomes the first connection's `patientId` when there is a first connection,
   * and the call returns True exactly when that id is not None.
   */
  lemma FetchConnectionsSpec(s: Session, replies: seq<Reply>, show: Value -> string)
    ensures var r := FetchConnections(s, replies, show);
      !Truthy(s.token) || !HasHash(s.accountIdHash) ==> r == Run(false, s, replies, [])
    ensures var r := FetchConnections(s, replies, show);
      var (reply, rest) := Next(replies);
      var pid := FirstPatientId(reply);
      Truthy(s.token) && HasHash(s.accountIdHash) ==>
        && |r.sent| == 1 && r.sent[0].verb == Get && r.sent[0].url == s.baseUrl + "/llu/connections"
        && r.sent[0].payload == None
        && r.sent[0].headers["authorization"] == Str("Bearer " + Text(s.token, show))
        && r.sent[0].headers["account-id"] == Str(s.accountIdHash.value)
        && r.sent[0].headers["version"] == s.minVersion
        && r.replies == rest
        && r.session == (if pid.Some? then s.(patientId := pid.value) else s)
        && (r.result <==> pid.Some? && pid.value != Null)
  {
  }

  /** The connection lookup sends at most one request, carrying the session's version. */
  lemma FetchConnectionsVersion(s: Session, replies: seq<Reply>, show: Value -> string)
    ensures var r := FetchConnections(s, replies, show);
      r.session.minVersion == s.minVersion && |r.sent| <= 1
      && (r.sent != [] ==> LastVersion(r) == Some(s.minVersion))
  {
  }

  /** The last request of a login carries the version the session ends with: an upgrade is always tried. */
  lemma {:induction false} LoginLastVersion(s: Session, cred: Credentials, replies: seq<Reply>,
                                            sha256: string -> string, show: Value -> string)
    ensures var r := Login(s, cred, replies, sha256, show);
      r.sent != [] && LastVersion(r) == Some(r.session.minVersion)
    decreases |replies|
  {
    var req := LoginRequest(s, cred);
    if replies == [] || ClassifyLogin(replies[0]).Failed? || ClassifyLogin(replies[0]).TokenOnly? {
      LoginStopStep(s, cred, replies, sha256, show);
    } else {
      match ClassifyLogin(replies[0])
      case Upgrade(v) =>
        LoginUpgradeStep(s, cred, replies, v, sha256, show);
        LoginLastVersion(s.(minVersion := v), cred, replies[1..], sha256, show);
        LastVersionPrepend(req, Login(s.(minVersion := v), cred, replies[1..], sha256, show));
      case Redirect(region) =>
        LoginRedirectStep(s, cred, replies, region, sha256, show);
        var s' := s.(region := region, baseUrl := BuildApiUrl(region, show));
        LoginLastVersion(s', cred, replies[1..], sha256, show);
        LastVersionPrepend(req, Login(s', cred, replies[1..], sha256, show));
      case Accepted(token, id) =>
        LoginAcceptedStep(s, cred, replies, token, id, sha256, show);
        var s' := s.(token := token, accountIdHash := Some(sha256(id)));
        FetchConnectionsVersion(s', replies[1..], show);
        var next := FetchConnections(s', replies[1..], show);
        if next.sent != [] {
          LastVersionPrepend(req, next);
        }
    }
  }

  /** A failed login never invents a patient id: it keeps the old one or, after discovery, None. */
  lemma {:induction false} LoginFailureKeepsPatient(s: Session, cred: Credentials, replies: seq<Reply>,
                                                    sha256: string -> string, show: Value -> string)
    ensures var r := Login(s, cred, replies, sha256, show);
      !r.result ==> r.session.patientId == s.patientId || r.session.patientId == Null
    decreases |replies|
  {
    if replies == [] || ClassifyLogin(replies[0]).Failed? || ClassifyLogin(replies[0]).TokenOnly? {
      LoginStopStep(s, cred, replies, sha256, show);
    } else {
      match ClassifyLogin(replies[0])
      case Upgrade(v) =>
        LoginUpgradeStep(s, cred, replies, v, sha256, show);
        LoginFailureKeepsPatient(s.(minVersion := v), cred, replies[1..], sha256, show);
      case Redirect(region) =>
        LoginRedirectStep(s, cred, replies, region, sha256, show);
        LoginFailureKeepsPatient(s.(region := region, baseUrl := BuildApiUrl(region, show)), cred, replies[1..], sha256, show);
      case Accepted(token, id) =>
        LoginAcceptedStep(s, cred, replies, token, id, sha256, show);
    }
  }

  /** The version only ever changes to a value a 403 reply in the script dictated. */
  lemma {:induction false} LoginVersionFromServer(s: Session, cred: Credentials, replies: seq<Reply>,
                                                  sha256: string -> string, show: Value -> string)
    ensures var r := Login(s, cred, replies, sha256, show);
      r.session.minVersion == s.minVersion
      || exists i :: 0 <= i < |replies| && replies[i].Response? && replies[i].status == 403
                     && MinimumVersion(replies[i].body) == Some(r.session.minVersion)
    decreases |replies|
  {
    if replies != [] {
      var r := Login(s, cred, replies, sha256, show);
      match ClassifyLogin(replies[0])
      case Upgrade(v) =>
        LoginVersionFromServer(s.(minVersion := v), cred, replies[1..], sha256, show);
        if r.session.minVersion == v {
          assert replies[0].Response? && replies[0].status == 403 && MinimumVersion(replies[0].body) == Some(v);
        } else {
          var i :| 0 <= i < |replies[1..]| && replies[1..][i].Response? && replies[1..][i].status == 403
                   && MinimumVersion(replies[1..][i].body) == Some(r.session.minVersion);
          assert replies[i + 1] == replies[1..][i];
        }
      case Redirect(region) =>
        var s' := s.(region := region, baseUrl := BuildApiUrl(region, show));
        LoginVersionFromServer(s', cred, replies[1..], sha256, show);
        if r.session.minVersion != s.minVersion {
          var i :| 0 <= i < |replies[1..]| && replies[1..][i].Response? && replies[1..][i].status == 403
                   && MinimumVersion(replies[1..][i].body) == Some(r.session.minVersion);
          assert replies[i + 1] == replies[1..][i];
        }
      case _ =>
    }
  }

  /** The connection lookup reads at most one reply, from the front of the script. */
  lemma FetchConnectionsConsumes(s: Session, replies: seq<Reply>, show: Value -> string)
    ensures var r := FetchConnections(s, replies, show);
      ConsumedPrefix(replies, r) && OneReplyPerRequest(replies, r)
  {
  }

  /** A run that follows one request which read the first reply keeps both properties. */
  lemma ConsumesAfterOne<T>(replies: seq<Reply>, req: Request, r: Run<T>)
    requires replies != []
    requires ConsumedPrefix(replies[1..], r) && OneReplyPerRequest(replies[1..], r)
    ensures ConsumedPrefix(replies, Prepend(req, r)) && OneReplyPerRequest(replies, Prepend(req, r))
  {
    assert replies[|replies| - |r.replies|..] == replies[1..][|replies[1..]| - |r.replies|..];
  }

  /** A login reads its replies in order from the front of the script, one per request. */
  lemma {:induction false} LoginConsumesInOrder(s: Session, cred: Credentials, replies: seq<Reply>,
                                                sha256: string -> string, show: Value -> string)
    ensures var r := Login(s, cred, replies, sha256, show);
      ConsumedPrefix(replies, r) && OneReplyPerRequest(replies, r)
    decreases |replies|
  {
    if replies != [] {
      var req := LoginRequest(s, cred);
      match ClassifyLogin(replies[0])
      case Upgrade(v) =>
        LoginUpgradeStep(s, cred, replies, v, sha256, show);
        LoginConsumesInOrder(s.(minVersion := v), cred, replies[1..], sha256, show);
        ConsumesAfterOne(replies, req, Login(s.(minVersion := v), cred, replies[1..], sha256, show));
      case Redirect(region) =>
        var s' := s.(region := region, baseUrl := BuildApiUrl(region, show));
        LoginRedirectStep(s, cred, replies, region, sha256, show);
        LoginConsumesInOrder(s', cred, replies[1..], sha256, show);
        ConsumesAfterOne(replies, req, Login(s', cred, replies[1..], sha256, show));
      case Accepted(token, id) =>
        var s' := s.(token := token, accountIdHash := Some(sha256(id)));
        LoginAcceptedStep(s, cred, replies, token, id, sha256, show);
        FetchConnectionsConsumes(s', replies[1..], show);
        ConsumesAfterOne(replies, req, FetchConnections(s', replies[1..], show));
      case _ =>
    }
  }

  /**
   * `login` returns True as soon as the first connection has any patient id that is
   * not None, but `fetch_glucose_data` wants a truthy one: an empty-string id gives a
   * successful login after which every fetch is refused.
   */
  lemma LoginSucceedsButFetchRefuses(s: Session, cred: Credentials, replies: seq<Reply>, token: Value, id: string,
                                     sha256: string -> string, show: Value -> string)
    requires |replies| >= 2 && ClassifyLogin(replies[0]) == Accepted(token, id)
    requires Truthy(token) && sha256(id) != "" && FirstPatientId(replies[1]) == Some(Str(""))
    ensures var r := Login(s, cred, replies, sha256, show);
      && r.result && r.session.patientId == Str("")
      && FetchGlucose(r.session, r.replies, show) == Run(None, r.session, r.replies, [])
  {
    LoginAcceptedStep(s, cred, replies, token, id, sha256, show);
    assert replies[1..][0] == replies[1];
  }

  /** Such replies exist: a well-formed login answer and a connection whose patient id is "". */
  lemma EmptyPatientIdReplies()
    ensures ClassifyLogin(Response(200, Some(Obj(map[
              "status" := Int(0),
              "data" := Obj(map["authTicket" := Obj(map["token" := Str("t")]), "user" := Obj(map["id" := Str("u")])])]))))
         == Accepted(Str("t"), "u")
    ensures FirstPatientId(Response(200, Some(Obj(map["data" := List([Obj(map["patientId" := Str("")])])]))))
         == Some(Str(""))
  {
    var loginData := Obj(map["authTicket" := Obj(map["token" := Str("t")]), "user" := Obj(map["id" := Str("u")])]);
    var body := Obj(map["status" := Int(0), "data" := loginData]);
    assert !Truthy(Lookup(loginData.fields, "redirect", Null));
    assert LoginBody(body) == Accepted(Str("t"), "u");
  }

  /** Without a full session a fetch returns None, changes nothing and sends nothing. */
  lemma FetchRefusesWithoutSession(s: Session, replies: seq<Reply>, show: Value -> string)
    requires !Ready(s)
    ensures FetchGlucose(s, replies, show) == Run(None, s, replies, [])
  {
  }

  /** A version upgrade fetches again with the version the server asked for. */
  lemma FetchUpgradeStep(s: Session, replies: seq<Reply>, v: Value, show: Value -> string)
    requires Ready(s) && replies != [] && ClassifyGraph(replies[0]) == GraphUpgrade(v)
    ensures FetchGlucose(s, replies, show)
      == Prepend(GraphRequest(s, show), FetchGlucose(s.(minVersion := v), replies[1..], show))
  {
  }

  /** Any other reply, or none, ends the fetch with the data it carries, if any. */
  lemma FetchStopStep(s: Session, replies: seq<Reply>, show: Value -> string)
    requires Ready(s) && (replies == [] || !ClassifyGraph(replies[0]).GraphUpgrade?)
    ensures var step := ClassifyGraph(Next(replies).0);
      FetchGlucose(s, replies, show)
        == Run(if step.GraphData? then Some(step.data) else None, s, Next(replies).1, [GraphRequest(s, show)])
  {
  }

  /** A fetch changes nothing in the session but the version, and reads its replies in order. */
  lemma {:induction false} FetchTouchesOnlyVersion(s: Session, replies: seq<Reply>, show: Value -> string)
    ensures var r := FetchGlucose(s, replies, show);
      && r.session == s.(minVersion := r.session.minVersion)
      && ConsumedPrefix(replies, r) && OneReplyPerRequest(replies, r)
    decreases |replies|
  {
    if Ready(s) {
      if replies == [] || !ClassifyGraph(replies[0]).GraphUpgrade? {
        FetchStopStep(s, replies, show);
      } else {
        var v := ClassifyGraph(replies[0]).version;
        var next := FetchGlucose(s.(minVersion := v), replies[1..], show);
        FetchUpgradeStep(s, replies, v, show);
        FetchTouchesOnlyVersion(s.(minVersion := v), replies[1..], show);
        ConsumesAfterOne(replies, GraphRequest(s, show), next);
      }
    }
  }

  /** The last request of a fetch carries the version the session ends with. */
  lemma {:induction false} FetchLastVersion(s: Session, replies: seq<Reply>, show: Value -> string)
    ensures var r := FetchGlucose(s, replies, show);
      r.sent != [] ==> LastVersion(r) == Some(r.session.minVersion)
    decreases |replies|
  {
    if Ready(s) {
      if replies == [] || !ClassifyGraph(replies[0]).GraphUpgrade? {
        FetchStopStep(s, replies, show);
      } else {
        var v := ClassifyGraph(replies[0]).version;
        var next := FetchGlucose(s.(minVersion := v), replies[1..], show);
        FetchUpgradeStep(s, replies, v, show);
        FetchLastVersion(s.(minVersion := v), replies[1..], show);
        if next.sent != [] {
          LastVersionPrepend(GraphRequest(s, show), next);
        }
      }
    }
  }

  /** A fetch that returns data got it, reshaped, from the last reply it read, a non-error response. */
  lemma {:induction false} FetchResultFromReply(s: Session, replies: seq<Reply>, show: Value -> string)
    ensures var r := FetchGlucose(s, replies, show);
      r.result.Some? ==>
        Ready(s) && |r.replies| < |replies|
        && var last := replies[|replies| - |r.replies| - 1];
           last.Response? && !IsHttpError(last.status) && last.body.Some?
           && Reshape(last.body.value) == r.result
    decreases |replies|
  {
    if Ready(s) {
      if replies == [] || !ClassifyGraph(replies[0]).GraphUpgrade? {
        FetchStopStep(s, replies, show);
      } else {
        var v := ClassifyGraph(replies[0]).version;
        var next := FetchGlucose(s.(minVersion := v), replies[1..], show);
        FetchUpgradeStep(s, replies, v, show);
        FetchResultFromReply(s.(minVersion := v), replies[1..], show);
        if next.result.Some? {
          assert replies[|replies| - |next.replies| - 1] == replies[1..][|replies[1..]| - |next.replies| - 1];
        }
      }
    }
  }

  /**
   * The reshaping of a graph reply: the current reading is the measurement's
   * `Value`, `TrendArrow`, `Timestamp` and `MeasurementColor` (None when absent) and
   * the graph is `graphData` ([] when absent); a body whose levels are not dicts fails.
   */
  lemma ReshapeFields(data: Value)
    ensures Reshape(data).Some? <==>
      data.Obj?
      && Lookup(data.fields, "data", Obj(map[])).Obj?
      && Lookup(Lookup(data.fields, "data", Obj(map[])).fields, "connection", Obj(map[])).Obj?
      && Lookup(Lookup(Lookup(data.fields, "data", Obj(map[])).fields, "connection", Obj(map[])).fields,
                "glucoseMeasurement", Obj(map[])).Obj?
    ensures Reshape(data).Some? ==>
      var inner := Lookup(data.fields, "data", Obj(map[])).fields;
      var gm := Lookup(Lookup(inner, "connection", Obj(map[])).fields, "glucoseMeasurement", Obj(map[])).fields;
      var d := Reshape(data).value;
      && d.current.value == Lookup(gm, "Value", Null)
      && d.current.trend == Lookup(gm, "TrendArrow", Null)
      && d.current.timestamp == Lookup(gm, "Timestamp", Null)
      && d.current.color == Lookup(gm, "MeasurementColor", Null)
      && d.graph == Lookup(inner, "graphData", List([]))
  {
  }
}
