/**
 * Properties of the `QTH` client that relate several of its operations:
 * what the first reply to a query decides, the re-authentication after an
 * expired session, the attempt bound, the merge order of `lookupCallsign`,
 * and a worked example of flattening a search section.
 */
module HamQthProps {
  import opened Wrappers
  import opened XmlDom
  import opened HamQthInfo
  import opened HamQthSpec

  // ------------------------------------------------------------ login

  /** With credentials and at least one attempt, `__getSessionId` sends exactly one login. */
  lemma SessionSendsOneLogin(cfg: Config, st: State)
    requires HasLogin(st) && cfg.maxLogins > 0
    ensures SessionSpec(cfg, st).state.log == st.log + [LoginRequest(st.username.value, st.password.value)]
  {
  }

  /** With at least one attempt, `__getSessionId` never reports exhausted attempts. */
  lemma SessionNotExhausted(cfg: Config, st: State)
    requires cfg.maxLogins > 0
    ensures SessionSpec(cfg, st).result != Err(LookupFailed(AttemptsExceeded))
  {
  }

  /**
   * A successful login sets the session to the `session_id` of the reply;
   * a failed one leaves the session as it was.
   */
  lemma SessionSetOnlyOnSuccess(cfg: Config, st: State)
    requires HasLogin(st) && cfg.maxLogins > 0
    ensures var reply := cfg.answer(|st.log|, LoginRequest(st.username.value, st.password.value));
      var r := SessionSpec(cfg, st);
      && (r.result.Ok? <==>
            reply.Document? && Info(reply.root, "session").Some? && "session_id" in Info(reply.root, "session").value)
      && (r.result.Ok? ==> r.state.sessionId == Some(Info(reply.root, "session").value["session_id"]))
      && (r.result.Err? ==> r.state.sessionId == st.sessionId)
  {
  }

  /** The error a failed login raises, by the shape of its reply. */
  lemma SessionErrors(cfg: Config, st: State)
    requires HasLogin(st) && cfg.maxLogins > 0
    ensures var reply := cfg.answer(|st.log|, LoginRequest(st.username.value, st.password.value));
      var r := SessionSpec(cfg, st).result;
      && (reply.TransportFailure? ==> r == Err(UrlError))
      && (reply.Unparsable? ==> r == Err(XmlParseError))
      && (reply.Document? && Info(reply.root, "session").None? ==> r.Err? && r.error.ValueError?)
      && (reply.Document? && Info(reply.root, "session").Some? && "session_id" !in Info(reply.root, "session").value
          && "error" in Info(reply.root, "session").value
          ==> r == Err(LoginFailed(Info(reply.root, "session").value["error"])))
      && (reply.Document? && Info(reply.root, "session").Some? && "session_id" !in Info(reply.root, "session").value
          && "error" !in Info(reply.root, "session").value
          ==> r.Err? && r.error.ValueError?)
  {
  }

  // ----------------------------------------------------------- queries

  /** The request a query pass sends from state `st`. */
  function QueryRequest(cfg: Config, st: State, callsign: string, queryType: string): Request
    requires queryType in {"CALL", "BIO", "ACTIVITY"}
  {
    QueryFor(queryType, st.sessionId, callsign, cfg.appId).value
  }

  /** The first request of a loop with passes left is the query, with the current session. */
  lemma QueryLoopSendsQueryFirst(cfg: Config, st: State, callsign: string, queryType: string, trials: nat)
    requires trials > 0 && queryType in {"CALL", "BIO", "ACTIVITY"}
    ensures st.log + [QueryRequest(cfg, st, callsign, queryType)] <= QueryLoop(cfg, st, callsign, queryType, trials).state.log
  {
    var req := QueryRequest(cfg, st, callsign, queryType);
    var st1 := Send(cfg, st, req).1;
    var p := AfterReply(cfg, st1, Classify(Send(cfg, st, req).0));
    assert QueryPass(cfg, st, callsign, queryType) == p;
    var after := if p.Done? then p.step.state else p.state;
    assert st1.log <= after.log;
    if p.Retry? {
      assert after.log <= QueryLoop(cfg, p.state, callsign, queryType, Pred(trials)).state.log;
    }
  }

  /**
   * With a session and at least one attempt, the reply to the first query
   * decides the outcome, except for an expired session: a search section
   * is the result, "Callsign not found" is terminal, any other error text
   * is a ValueError, a missing `error` field a KeyError, a body that does
   * not parse gives None, and in each case exactly that one query was sent.
   */
  lemma FirstReplyDecides(cfg: Config, st: State, callsign: string, queryType: string)
    requires st.sessionId.Some? && cfg.maxLogins > 0 && queryType in {"CALL", "BIO", "ACTIVITY"}
    ensures var req := QueryRequest(cfg, st, callsign, queryType);
      var reply := cfg.answer(|st.log|, req);
      var sent := st.(log := st.log + [req]);
      var r := AuthGetSpec(cfg, st, callsign, queryType);
      && (reply.TransportFailure? ==> r == Step(Err(UrlError), sent))
      && (reply.Unparsable? ==> r == Step(Ok(None), sent))
      && (reply.Document? && Info(reply.root, "search").Some? ==> r == Step(Ok(Info(reply.root, "search")), sent))
      && (reply.Document? && Info(reply.root, "search").None? && Info(reply.root, "session").None? ==>
            r == Step(Err(ValueError("Did not get session or search in response")), sent))
      && (reply.Document? && Info(reply.root, "search").None? && Info(reply.root, "session").Some? ==>
            var session := Info(reply.root, "session").value;
            && ("error" !in session ==> r == Step(Err(KeyError("error")), sent))
            && ("error" in session && session["error"] == CallsignNotFoundText ==> r == Step(Err(CallsignNotFound), sent))
            && ("error" in session && session["error"] != CallsignNotFoundText && session["error"] != SessionExpiredText ==>
                  r == Step(Err(ValueError(session["error"])), sent)))
  {
    var req := QueryRequest(cfg, st, callsign, queryType);
    var reply := cfg.answer(|st.log|, req);
    var sent := st.(log := st.log + [req]);
    assert Send(cfg, st, req) == (reply, sent);
    assert QueryPass(cfg, st, callsign, queryType) == AfterReply(cfg, sent, Classify(reply));
    assert AuthGetSpec(cfg, st, callsign, queryType) == QueryLoop(cfg, st, callsign, queryType, Trials(cfg));
  }

  /** An unknown query type raises ValueError before any request is sent. */
  lemma UnknownQueryType(cfg: Config, st: State, callsign: string, queryType: string)
    requires st.sessionId.Some? && cfg.maxLogins > 0 && queryType !in {"CALL", "BIO", "ACTIVITY"}
    ensures AuthGetSpec(cfg, st, callsign, queryType) == Step(Err(ValueError("Unexpected query type")), st)
  {
  }

  /**
   * An unknown query type never reaches the service as a query, with or
   * without a session: the result is an error, and any request sent is the
   * login that comes first.
   */
  lemma UnknownQueryTypeSendsNoQuery(cfg: Config, st: State, callsign: string, queryType: string)
    requires queryType !in {"CALL", "BIO", "ACTIVITY"}
    ensures var r := AuthGetSpec(cfg, st, callsign, queryType);
      r.result.Err? && Queries(r.state.log) == Queries(st.log)
  {
    SessionCounts(cfg, st);
  }

  /** With no attempts, the loop body never runs: LookupFailed, whatever the query type, and nothing is sent. */
  lemma NoAttempts(cfg: Config, st: State, callsign: string, queryType: string)
    requires st.sessionId.Some? && cfg.maxLogins <= 0
    ensures AuthGetSpec(cfg, st, callsign, queryType) == Step(Err(LookupFailed(AttemptsExceeded)), st)
  {
  }

  /** Without a session, the first request `__makeAuthenticatedGet` sends is a login. */
  lemma LoginBeforeFirstQuery(cfg: Config, st: State, callsign: string, queryType: string)
    requires st.sessionId.None? && HasLogin(st) && cfg.maxLogins > 0
    ensures var r := AuthGetSpec(cfg, st, callsign, queryType);
      |r.state.log| > |st.log| && r.state.log[|st.log|] == LoginRequest(st.username.value, st.password.value)
  {
    SessionSendsOneLogin(cfg, st);
    var login := SessionSpec(cfg, st);
    var r := AuthGetSpec(cfg, st, callsign, queryType);
    assert login.state.log <= r.state.log;
    assert r.state.log[|st.log|] == login.state.log[|st.log|];
  }

  /** The reply to the query said the session had expired. */
  predicate ExpiredReply(cfg: Config, st: State, callsign: string, queryType: string)
    requires queryType in {"CALL", "BIO", "ACTIVITY"}
  {
    var reply := cfg.answer(|st.log|, QueryRequest(cfg, st, callsign, queryType));
    && reply.Document? && Info(reply.root, "search").None? && Info(reply.root, "session").Some?
    && "error" in Info(reply.root, "session").value
    && Info(reply.root, "session").value["error"] == SessionExpiredText
  }

  /** A pass whose query finds the session expired goes on to log in again. */
  lemma ExpiredPass(cfg: Config, st: State, callsign: string, queryType: string)
    requires queryType in {"CALL", "BIO", "ACTIVITY"} && ExpiredReply(cfg, st, callsign, queryType)
    ensures var sent := st.(log := st.log + [QueryRequest(cfg, st, callsign, queryType)]);
      QueryPass(cfg, st, callsign, queryType) == AfterReply(cfg, sent, Expired)
  {
    var req := QueryRequest(cfg, st, callsign, queryType);
    var reply := cfg.answer(|st.log|, req);
    assert Send(cfg, st, req) == (reply, st.(log := st.log + [req]));
    assert Classify(reply) == Expired;
  }

  /** After an expired session, the outcome is that of the login, or of the remaining passes. */
  lemma ExpiredLoop(cfg: Config, st: State, callsign: string, queryType: string)
    requires st.sessionId.Some? && queryType in {"CALL", "BIO", "ACTIVITY"}
    requires cfg.maxLogins > 0 && ExpiredReply(cfg, st, callsign, queryType)
    ensures var relogin := SessionSpec(cfg, st.(log := st.log + [QueryRequest(cfg, st, callsign, queryType)]));
      AuthGetSpec(cfg, st, callsign, queryType) ==
        if relogin.result.Err? then Step(Err(relogin.result.error), relogin.state)
        else QueryLoop(cfg, relogin.state, callsign, queryType, Pred(Trials(cfg)))
  {
    ExpiredPass(cfg, st, callsign, queryType);
    assert AuthGetSpec(cfg, st, callsign, queryType) == QueryLoop(cfg, st, callsign, queryType, Trials(cfg));
  }

  /** Sequence regrouping, stated apart so the retry proofs below do not search for it. */
  lemma AppendTwo<T>(s: seq<T>, a: T, b: T)
    ensures s + [a] + [b] == s + [a, b]
  {
  }

  /** As `AppendTwo`, for the three requests of a retried query. */
  lemma AppendThree<T>(s: seq<T>, a: T, b: T, c: T)
    ensures s + [a] + [b] + [c] == s + [a, b, c]
  {
  }

  /** "Session does not exist or expired": the client logs in again right after the query. */
  lemma ExpiredSessionLogsIn(cfg: Config, st: State, callsign: string, queryType: string)
    requires st.sessionId.Some? && HasLogin(st) && queryType in {"CALL", "BIO", "ACTIVITY"}
    requires cfg.maxLogins > 0 && ExpiredReply(cfg, st, callsign, queryType)
    ensures var req := QueryRequest(cfg, st, callsign, queryType);
      var login := LoginRequest(st.username.value, st.password.value);
      st.log + [req, login] <= AuthGetSpec(cfg, st, callsign, queryType).state.log
  {
    var req := QueryRequest(cfg, st, callsign, queryType);
    var relogin := SessionSpec(cfg, st.(log := st.log + [req]));
    SessionSendsOneLogin(cfg, st.(log := st.log + [req]));
    AppendTwo(st.log, req, LoginRequest(st.username.value, st.password.value));
    ExpiredLoop(cfg, st, callsign, queryType);
    var r := AuthGetSpec(cfg, st, callsign, queryType);
    if relogin.result.Ok? {
      assert relogin.state.log <= QueryLoop(cfg, relogin.state, callsign, queryType, Pred(Trials(cfg))).state.log;
    }
  }

  /** After a pass that retries, with a pass left, the next request is the query again. */
  lemma RetryThenQuery(cfg: Config, st: State, callsign: string, queryType: string, trials: nat)
    requires trials > 1 && queryType in {"CALL", "BIO", "ACTIVITY"}
    requires QueryPass(cfg, st, callsign, queryType).Retry?
    ensures var next := QueryPass(cfg, st, callsign, queryType).state;
      next.log + [QueryRequest(cfg, next, callsign, queryType)] <= QueryLoop(cfg, st, callsign, queryType, trials).state.log
  {
    var next := QueryPass(cfg, st, callsign, queryType).state;
    assert QueryLoop(cfg, st, callsign, queryType, trials) == QueryLoop(cfg, next, callsign, queryType, Pred(trials));
    QueryLoopSendsQueryFirst(cfg, next, callsign, queryType, Pred(trials));
  }

  /**
   * When that login succeeds and an attempt is left, the request after it
   * is the same query again, with the new session identifier.
   */
  lemma ExpiredSessionRetries(cfg: Config, st: State, callsign: string, queryType: string)
    requires st.sessionId.Some? && HasLogin(st) && queryType in {"CALL", "BIO", "ACTIVITY"}
    requires cfg.maxLogins > 1 && ExpiredReply(cfg, st, callsign, queryType)
    requires SessionSpec(cfg, st.(log := st.log + [QueryRequest(cfg, st, callsign, queryType)])).result.Ok?
    ensures var req := QueryRequest(cfg, st, callsign, queryType);
      var login := LoginRequest(st.username.value, st.password.value);
      var relogin := SessionSpec(cfg, st.(log := st.log + [req]));
      st.log + [req, login, QueryRequest(cfg, relogin.state, callsign, queryType)]
        <= AuthGetSpec(cfg, st, callsign, queryType).state.log
  {
    var req := QueryRequest(cfg, st, callsign, queryType);
    var login := LoginRequest(st.username.value, st.password.value);
    var sent := st.(log := st.log + [req]);
    var relogin := SessionSpec(cfg, sent);
    SessionSendsOneLogin(cfg, sent);
    ExpiredPass(cfg, st, callsign, queryType);
    assert QueryPass(cfg, st, callsign, queryType) == Retry(relogin.state);
    RetryThenQuery(cfg, st, callsign, queryType, Trials(cfg));
    var again := QueryRequest(cfg, relogin.state, callsign, queryType);
    AppendThree(st.log, req, login, again);
  }

  /**
   * When the loop reports exhausted attempts, every one of its passes sent
   * a query: the bound was used up by expired sessions, not by anything else.
   */
  lemma {:induction false} ExhaustedUsesEveryAttempt(cfg: Config, st: State, callsign: string, queryType: string, trials: nat)
    requires cfg.maxLogins > 0
    ensures var r := QueryLoop(cfg, st, callsign, queryType, trials);
      r.result == Err(LookupFailed(AttemptsExceeded)) ==> Queries(r.state.log) == Queries(st.log) + trials
    decreases trials
  {
    if trials > 0 {
      var p := QueryPass(cfg, st, callsign, queryType);
      match QueryFor(queryType, st.sessionId, callsign, cfg.appId)
      case None =>
      case Some(req) =>
        var (reply, st1) := Send(cfg, st, req);
        assert p == AfterReply(cfg, st1, Classify(reply));
        if Classify(reply).Expired? {
          SessionNotExhausted(cfg, st1);
        }
      if p.Retry? {
        ExhaustedUsesEveryAttempt(cfg, p.state, callsign, queryType, Pred(trials));
      }
    }
  }

  /** The same for `__makeAuthenticatedGet` as a whole: LookupFailed means `max_logins` queries were sent. */
  lemma AuthGetExhausted(cfg: Config, st: State, callsign: string, queryType: string)
    requires cfg.maxLogins > 0
    ensures var r := AuthGetSpec(cfg, st, callsign, queryType);
      r.result == Err(LookupFailed(AttemptsExceeded)) ==> Queries(r.state.log) == Queries(st.log) + cfg.maxLogins
  {
    if st.sessionId.None? {
      SessionNotExhausted(cfg, st);
      SessionCounts(cfg, st);
      ExhaustedUsesEveryAttempt(cfg, SessionSpec(cfg, st).state, callsign, queryType, Trials(cfg));
    } else {
      ExhaustedUsesEveryAttempt(cfg, st, callsign, queryType, Trials(cfg));
    }
  }

  // ---------------------------------------------------- session reuse

  /** A log that extends another holds at least as many logins. */
  lemma {:induction false} LoginsMono(a: seq<Request>, b: seq<Request>)
    requires a <= b
    ensures Logins(a) <= Logins(b)
    decreases |b|
  {
    if |a| < |b| {
      assert a <= b[..|b| - 1];
      LoginsMono(a, b[..|b| - 1]);
    } else {
      assert a == b;
    }
  }

  /**
   * One pass of the query loop: a pass that ends the loop without a login
   * leaves the session and the files as they were, and a pass that goes on
   * to another has sent a login.
   */
  lemma PassKeepsSession(cfg: Config, st: State, callsign: string, queryType: string)
    ensures var p := QueryPass(cfg, st, callsign, queryType);
      && (p.Done? && Logins(p.step.state.log) == Logins(st.log) ==>
            p.step.state.sessionId == st.sessionId && p.step.state.files == st.files)
      && (p.Retry? ==> Logins(p.state.log) > Logins(st.log))
  {
    var q := QueryFor(queryType, st.sessionId, callsign, cfg.appId);
    if q.Some? {
      var (reply, st1) := Send(cfg, st, q.value);
      CountsOfExtended(st.log, q.value);
      AfterReplyKeepsSession(cfg, st1, Classify(reply));
    }
  }

  /** The verdict on a reply, as `PassKeepsSession` states it for the whole pass. */
  lemma AfterReplyKeepsSession(cfg: Config, st: State, v: Verdict)
    ensures var p := AfterReply(cfg, st, v);
      && (p.Done? && Logins(p.step.state.log) == Logins(st.log) ==>
            p.step.state.sessionId == st.sessionId && p.step.state.files == st.files)
      && (p.Retry? ==> Logins(p.state.log) > Logins(st.log))
  {
    if v.Expired? {
      SessionFailureKeepsState(cfg, st);
      SessionSuccess(cfg, st);
      if HasLogin(st) {
        CountsOfExtended(st.log, LoginRequest(st.username.value, st.password.value));
      }
    }
  }

  /**
   * The session identifier is reused until the service rejects it: when
   * the query loop sends no login, it ends with the session and the
   * credential file it started with.
   */
  lemma {:induction false} QueryLoopKeepsSession(cfg: Config, st: State, callsign: string, queryType: string, trials: nat)
    ensures var r := QueryLoop(cfg, st, callsign, queryType, trials);
      Logins(r.state.log) == Logins(st.log) ==> r.state.sessionId == st.sessionId && r.state.files == st.files
  {
    if trials > 0 {
      PassKeepsSession(cfg, st, callsign, queryType);
      match QueryPass(cfg, st, callsign, queryType)
      case Done(_) =>
      case Retry(st2) =>
        LoginsMono(st2.log, QueryLoop(cfg, st2, callsign, queryType, Pred(trials)).state.log);
    }
  }

  /**
   * `__makeAuthenticatedGet` changes the session or the credential file
   * only by logging in: when it sends no login, both are as they were.
   */
  lemma AuthGetKeepsSession(cfg: Config, st: State, callsign: string, queryType: string)
    ensures var r := AuthGetSpec(cfg, st, callsign, queryType);
      Logins(r.state.log) == Logins(st.log) ==> r.state.sessionId == st.sessionId && r.state.files == st.files
  {
    if st.sessionId.None? {
      var login := SessionSpec(cfg, st);
      SessionFailureKeepsState(cfg, st);
      SessionSuccess(cfg, st);
      if login.result.Ok? {
        CountsOfExtended(st.log, LoginRequest(st.username.value, st.password.value));
        LoginsMono(login.state.log, QueryLoop(cfg, login.state, callsign, queryType, Trials(cfg)).state.log);
      }
    } else {
      QueryLoopKeepsSession(cfg, st, callsign, queryType, Trials(cfg));
    }
  }

  // ------------------------------------------------------------ lookup

  /**
   * When all three parts return a map, `lookupCallsign` has every key of
   * the three, and a key takes its value from the last part that has it:
   * ACTIVITY over BIO over CALL.
   */
  lemma LookupMergeOrder(cfg: Config, st: State, callsign: string)
    requires var call := AuthGetSpec(cfg, st, callsign, "CALL");
      && call.result.Ok? && call.result.value.Some?
      && var bio := AuthGetSpec(cfg, call.state, callsign, "BIO");
      && bio.result.Ok? && bio.result.value.Some?
      && var act := AuthGetSpec(cfg, bio.state, callsign, "ACTIVITY");
      && act.result.Ok? && act.result.value.Some?
    ensures var call := AuthGetSpec(cfg, st, callsign, "CALL");
      var bio := AuthGetSpec(cfg, call.state, callsign, "BIO");
      var act := AuthGetSpec(cfg, bio.state, callsign, "ACTIVITY");
      var c, b, a := call.result.value.value, bio.result.value.value, act.result.value.value;
      var r := LookupSpec(cfg, st, callsign, true, true, true);
      && r.state == act.state
      && r.result.Ok?
      && r.result.value.Keys == c.Keys + b.Keys + a.Keys
      && (forall k :: k in a ==> r.result.value[k] == a[k])
      && (forall k :: k in b && k !in a ==> r.result.value[k] == b[k])
      && (forall k :: k in c && k !in b && k !in a ==> r.result.value[k] == c[k])
  {
    var call := AuthGetSpec(cfg, st, callsign, "CALL");
    var bio := AuthGetSpec(cfg, call.state, callsign, "BIO");
    var act := AuthGetSpec(cfg, bio.state, callsign, "ACTIVITY");
    var c, b, a := call.result.value.value, bio.result.value.value, act.result.value.value;
    var m1 := Update(map[], c);
    var m2 := Update(m1, b);
    var m3 := Update(m2, a);
    assert LookupPart(cfg, Step(Ok(map[]), st), callsign, "CALL", true) == Step(Ok(m1), call.state);
    assert LookupPart(cfg, Step(Ok(m1), call.state), callsign, "BIO", true) == Step(Ok(m2), bio.state);
    assert LookupPart(cfg, Step(Ok(m2), bio.state), callsign, "ACTIVITY", true) == Step(Ok(m3), act.state);
  }

  /** A part that fails ends `lookupCallsign` with its error; the later parts send nothing. */
  lemma LookupStopsAtError(cfg: Config, st: State, callsign: string, getBio: bool, getActivity: bool)
    requires AuthGetSpec(cfg, st, callsign, "CALL").result.Err?
    ensures var call := AuthGetSpec(cfg, st, callsign, "CALL");
      LookupSpec(cfg, st, callsign, true, getBio, getActivity) == Step(Err(call.result.error), call.state)
  {
  }

  /** The reply of one part of `lookupCallsign`: a part not asked for sends nothing and gives None. */
  function PartReply(cfg: Config, st: State, callsign: string, queryType: string, wanted: bool): Step<Option<map<string, string>>>
  {
    if wanted then AuthGetSpec(cfg, st, callsign, queryType) else Step(Ok(None), st)
  }

  /** What one reply adds to the merged dictionary: a None reply adds nothing. */
  function Contribution(o: Option<map<string, string>>): map<string, string>
  {
    if o.Some? then o.value else map[]
  }

  /** Merging with nothing leaves a dictionary as it was. */
  lemma UpdateEmpty(d: map<string, string>)
    ensures Update(d, map[]) == d && Update(map[], d) == d
  {
  }

  /**
   * `lookupCallsign` for every choice of flags. The parts asked for are
   * queried in the order CALL, BIO, ACTIVITY, each from the state the
   * previous one left. The first part that fails gives the result: its
   * error and its state, and no later part is queried. When none fails, the
   * result is the CALL map updated with the BIO map and then the ACTIVITY
   * map, where a part not asked for or answered None adds nothing.
   */
  lemma LookupCharacterised(cfg: Config, st: State, callsign: string, getCallsignInfo: bool, getBio: bool, getActivity: bool)
    ensures var c := PartReply(cfg, st, callsign, "CALL", getCallsignInfo);
      var b := PartReply(cfg, c.state, callsign, "BIO", getBio);
      var a := PartReply(cfg, b.state, callsign, "ACTIVITY", getActivity);
      var r := LookupSpec(cfg, st, callsign, getCallsignInfo, getBio, getActivity);
      && (c.result.Err? ==> r == Step(Err(c.result.error), c.state))
      && (c.result.Ok? && b.result.Err? ==> r == Step(Err(b.result.error), b.state))
      && (c.result.Ok? && b.result.Ok? && a.result.Err? ==> r == Step(Err(a.result.error), a.state))
      && (c.result.Ok? && b.result.Ok? && a.result.Ok? ==>
            r == Step(Ok(Update(Update(Contribution(c.result.value), Contribution(b.result.value)), Contribution(a.result.value))), a.state))
  {
    var c := PartReply(cfg, st, callsign, "CALL", getCallsignInfo);
    var b := PartReply(cfg, c.state, callsign, "BIO", getBio);
    var a := PartReply(cfg, b.state, callsign, "ACTIVITY", getActivity);
    if c.result.Ok? {
      var m1 := Contribution(c.result.value);
      UpdateEmpty(m1);
      assert LookupPart(cfg, Step(Ok(map[]), st), callsign, "CALL", getCallsignInfo) == Step(Ok(m1), c.state);
      if b.result.Ok? {
        var m2 := Update(m1, Contribution(b.result.value));
        UpdateEmpty(m1);
        assert LookupPart(cfg, Step(Ok(m1), c.state), callsign, "BIO", getBio) == Step(Ok(m2), b.state);
        if a.result.Ok? {
          UpdateEmpty(m2);
          assert LookupPart(cfg, Step(Ok(m2), b.state), callsign, "ACTIVITY", getActivity) ==
                 Step(Ok(Update(m2, Contribution(a.result.value))), a.state);
        }
      }
    }
  }

  /**
   * A requested part whose query gives None (an unparsable reply) is
   * skipped: with CALL giving `c`, BIO None and ACTIVITY `a`, the lookup
   * gives `c` updated with `a`.
   */
  lemma LookupSkipsNone(cfg: Config, st: State, callsign: string)
    requires var call := AuthGetSpec(cfg, st, callsign, "CALL");
      && call.result.Ok? && call.result.value.Some?
      && var bio := AuthGetSpec(cfg, call.state, callsign, "BIO");
      && bio.result == Ok(None)
      && AuthGetSpec(cfg, bio.state, callsign, "ACTIVITY").result.Ok?
    ensures var call := AuthGetSpec(cfg, st, callsign, "CALL");
      var bio := AuthGetSpec(cfg, call.state, callsign, "BIO");
      var act := AuthGetSpec(cfg, bio.state, callsign, "ACTIVITY");
      var c := call.result.value.value;
      var r := LookupSpec(cfg, st, callsign, true, true, true);
      && r.state == act.state
      && (act.result.value.Some? ==> r.result == Ok(Update(c, act.result.value.value)))
      && (act.result.value.None? ==> r.result == Ok(c))
  {
    LookupCharacterised(cfg, st, callsign, true, true, true);
    var call := AuthGetSpec(cfg, st, callsign, "CALL");
    UpdateEmpty(call.result.value.value);
  }

  // ----------------------------------------------------------- example

  /** A search section `<search><nick>W1AW</nick><grid>FN31</grid></search>` flattens to its two fields. */
  lemma SearchExample()
    ensures var rt := Element("HamQTH", [Element("search", [
        Element("nick", [Text("W1AW")]),
        Element("grid", [Text("FN31")])])]);
      Info(rt, "search") == Some(map["nick" := "W1AW", "grid" := "FN31"])
  {
    var nick := Element("nick", [Text("W1AW")]);
    var grid := Element("grid", [Text("FN31")]);
    var search := Element("search", [nick, grid]);
    var rt := Element("HamQTH", [search]);
    assert ElementsIn([grid], "search") == [];
    assert ElementsIn([nick, grid], "search") == [];
    assert ElementsIn([search], "search") == [search];
    assert ElementsIn([Text("FN31")], "*") == [];
    assert ElementsIn([Text("W1AW")], "*") == [];
    assert ElementsIn([grid], "*") == [grid];
    assert ElementsIn([nick, grid], "*") == [nick, grid];
    assert [nick, grid][..1] == [nick];
    assert PutTexts(map[], "nick", [Text("W1AW")]) == map["nick" := "W1AW"];
    assert Collect([nick]) == map["nick" := "W1AW"];
    assert Collect([nick, grid]) == map["nick" := "W1AW", "grid" := "FN31"];
  }
}
