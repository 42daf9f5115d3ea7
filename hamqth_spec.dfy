/**
 * The behaviour of the `QTH` client of hamqthlib.py as functions over a
 * state value. The state holds the client's fields, the credential files
 * on disk and the log of HTTP requests sent so far; each HTTP exchange is
 * answered by an oracle `answer(n, request)` for the n-th request.
 */
module HamQthSpec {
  import opened Wrappers
  import opened XmlDom
  import opened HamQthInfo

  /** The client identifier appended to the application identifier. */
  const Agent := "hamqthpy0.01"

  /** The default bound on login and query attempts. */
  const MaxLoginTrial := 3

  /** The exceptions the client raises (the four QTH exceptions and the Python built-ins). */
  datatype Error =
    | NoLogin(message: string)
    | LoginFailed(message: string)
    | LookupFailed(message: string)
    | CallsignNotFound
    | ValueError(message: string)
    | TypeError
    | KeyError(key: string)
    | XmlParseError
    | UrlError

  /** One HTTP GET, by the parameters its URL carries. */
  datatype Request =
    | LoginRequest(username: string, password: string)
    | CallRequest(sessionId: string, callsign: string, appId: string)
    | BioRequest(sessionId: string, callsign: string)
    | ActivityRequest(sessionId: string, callsign: string)

  /** What the service answers: a parsed document, a body that does not parse, or no answer. */
  datatype Reply = Document(root: Node) | Unparsable | TransportFailure

  /** The content of a credential file: a JSON object, or anything `json.load` rejects. */
  datatype FileContent = Json(fields: map<string, string>) | Corrupt

  /** What stays fixed for one client: its file path, identifier, attempt bound and the service. */
  datatype Config = Config(cfgPath: string, appId: string, maxLogins: int, answer: (nat, Request) -> Reply)

  datatype State = State(
    username: Option<string>,
    password: Option<string>,
    sessionId: Option<string>,
    storeCreds: bool,
    files: map<string, FileContent>,
    log: seq<Request>)

  /** The outcome of one operation and the state it leaves behind. */
  datatype Step<T> = Step(result: Result<T, Error>, state: State)

  const NoLoginMessage := "HamQTH username and password have not been set"
  const AttemptsExceeded := "number of query attempts exceeded"
  const CallsignNotFoundText := "Callsign not found"
  const SessionExpiredText := "Session does not exist or expired"

  // ---------------------------------------------------------------- config

  predicate IsAlnum(c: char)
  {
    'a' <= c <= 'z' || 'A' <= c <= 'Z' || '0' <= c <= '9'
  }

  predicate IsWhitespace(c: char)
  {
    c == ' ' || c == '\t' || c == '\n' || c == '\r' || c == '\U{B}' || c == '\U{C}'
  }

  /** The characters of `s` that are alphanumeric or a space, in order. */
  function KeepAlnumSpace(s: string): string
  {
    if s == [] then []
    else (if IsAlnum(s[0]) || s[0] == ' ' then [s[0]] else []) + KeepAlnumSpace(s[1..])
  }

  /** `s.rstrip()`: `s` without its trailing whitespace. */
  function RStrip(s: string): (r: string)
    ensures r <= s
    ensures r == [] || !IsWhitespace(r[|r| - 1])
    ensures forall i :: |r| <= i < |s| ==> IsWhitespace(s[i])
    decreases |s|
  {
    if s == [] || !IsWhitespace(s[|s| - 1]) then s else RStrip(s[..|s| - 1])
  }

  /** The application identifier as it appears in the configuration file name. */
  function CleanAppId(applicationId: string): string
  {
    RStrip(KeepAlnumSpace(applicationId))
  }

  function ConfigPath(configPath: string, applicationId: string): string
  {
    configPath + "-" + CleanAppId(applicationId)
  }

  function AppId(applicationId: string): string
  {
    applicationId + ":" + Agent
  }

  lemma {:induction false} KeepAlnumSpaceKept(s: string)
    ensures forall i :: 0 <= i < |KeepAlnumSpace(s)| ==> IsAlnum(KeepAlnumSpace(s)[i]) || KeepAlnumSpace(s)[i] == ' '
    ensures (forall i :: 0 <= i < |s| ==> IsAlnum(s[i]) || s[i] == ' ') ==> KeepAlnumSpace(s) == s
  {
    if s != [] {
      KeepAlnumSpaceKept(s[1..]);
      assert s == [s[0]] + s[1..];
    }
  }

  /** A single character is kept exactly when it is alphanumeric or a space. */
  lemma KeepOneChar(c: char)
    ensures KeepAlnumSpace([c]) == (if IsAlnum(c) || c == ' ' then [c] else [])
  {
  }

  /**
   * The join filters its input piece by piece: with `KeepOneChar`, every
   * alphanumeric or space of the identifier is kept, in order, and every
   * other character dropped.
   */
  lemma {:induction false} KeepAlnumSpaceAppend(a: string, b: string)
    ensures KeepAlnumSpace(a + b) == KeepAlnumSpace(a) + KeepAlnumSpace(b)
    decreases |a|
  {
    if a == [] {
      assert a + b == b;
    } else {
      assert (a + b)[0] == a[0];
      assert (a + b)[1..] == a[1..] + b;
      KeepAlnumSpaceAppend(a[1..], b);
    }
  }

  /**
   * The configuration path of `__init__`: the given path, a dash, and the
   * identifier with every character that is not alphanumeric or a space
   * dropped and trailing spaces removed.
   */
  lemma ConfigPathShape(configPath: string, applicationId: string)
    ensures var path := ConfigPath(configPath, applicationId);
      var clean := CleanAppId(applicationId);
      && path[..|configPath| + 1] == configPath + "-"
      && path[|configPath| + 1..] == clean
      && (forall i :: 0 <= i < |clean| ==> IsAlnum(clean[i]) || clean[i] == ' ')
      && (clean == [] || clean[|clean| - 1] != ' ')
  {
    var kept := KeepAlnumSpace(applicationId);
    var clean := CleanAppId(applicationId);
    KeepAlnumSpaceKept(applicationId);
    assert forall i :: 0 <= i < |clean| ==> clean[i] == kept[i];
    var path := ConfigPath(configPath, applicationId);
    assert path == (configPath + "-") + clean;
  }

  /**
   * Cleaning only drops trailing spaces from the kept characters, and it
   * is idempotent, which keeps the path stable whatever identifier
   * produced it.
   */
  lemma CleanAppIdIdempotent(applicationId: string)
    ensures var kept := KeepAlnumSpace(applicationId);
      var clean := CleanAppId(applicationId);
      && clean <= kept
      && (forall i :: |clean| <= i < |kept| ==> kept[i] == ' ')
      && CleanAppId(clean) == clean
  {
    var kept := KeepAlnumSpace(applicationId);
    var clean := CleanAppId(applicationId);
    KeepAlnumSpaceKept(applicationId);
    assert forall i :: 0 <= i < |clean| ==> clean[i] == kept[i];
    KeepAlnumSpaceKept(clean);
    assert KeepAlnumSpace(clean) == clean;
    forall i | |clean| <= i < |kept| ensures kept[i] == ' ' {
      assert IsWhitespace(kept[i]);
    }
  }

  // ---------------------------------------------------------- credentials

  /** `loginInfoExists`. */
  predicate HasLogin(st: State)
  {
    !(st.username.None? || st.password.None?)
  }

  /** The JSON object `__writeStoredCredentials` dumps. */
  function CredRecord(username: string, password: string, sessionId: Option<string>): map<string, string>
  {
    var cdata := map["u" := username, "p" := password];
    if sessionId.Some? then cdata["sid" := sessionId.value] else cdata
  }

  /**
   * `__writeStoredCredentials`: nothing when credentials are not stored,
   * ValueError when a credential is missing, otherwise the file holds
   * exactly `u`, `p` and, when there is a session, `sid`.
   */
  function WriteStored(cfg: Config, st: State): (r: Step<()>)
    ensures !st.storeCreds ==> r == Step(Ok(()), st)
    ensures st.storeCreds && !HasLogin(st) ==> r.result.Err? && r.result.error.ValueError? && r.state == st
    ensures st.storeCreds && HasLogin(st) ==>
      && r.result.Ok?
      && r.state == st.(files := r.state.files)
      && r.state.files.Keys == st.files.Keys + {cfg.cfgPath}
      && (forall path :: path in st.files && path != cfg.cfgPath ==> r.state.files[path] == st.files[path])
      && r.state.files[cfg.cfgPath].Json?
      && var f := r.state.files[cfg.cfgPath].fields;
        && f.Keys == (if st.sessionId.Some? then {"u", "p", "sid"} else {"u", "p"})
        && f["u"] == st.username.value
        && f["p"] == st.password.value
        && (st.sessionId.Some? ==> f["sid"] == st.sessionId.value)
  {
    if !st.storeCreds then Step(Ok(()), st)
    else if st.username.None? || st.password.None? then
      Step(Err(ValueError("Attempt to save credentials which haven't been set")), st)
    else
      var record := CredRecord(st.username.value, st.password.value, st.sessionId);
      Step(Ok(()), st.(files := st.files[cfg.cfgPath := Json(record)]))
  }

  /**
   * `__readStoredCredentials`: fields are assigned in the order `u`, `p`,
   * `sid`; a missing file, an unreadable one or a missing key stops the
   * assignments silently, keeping those already made.
   */
  function ReadStored(cfg: Config, st: State): (r: State)
    ensures r.storeCreds == st.storeCreds && r.files == st.files && r.log == st.log
    ensures (cfg.cfgPath !in st.files || st.files[cfg.cfgPath].Corrupt? || "u" !in st.files[cfg.cfgPath].fields) ==> r == st
    ensures cfg.cfgPath in st.files && st.files[cfg.cfgPath].Json? && "u" in st.files[cfg.cfgPath].fields ==>
      var f := st.files[cfg.cfgPath].fields;
      && r.username == Some(f["u"])
      && ("p" !in f ==> r.password == st.password && r.sessionId == st.sessionId)
      && ("p" in f ==> r.password == Some(f["p"]) && r.sessionId == (if "sid" in f then Some(f["sid"]) else None))
  {
    if cfg.cfgPath !in st.files then st
    else match st.files[cfg.cfgPath]
      case Corrupt => st
      case Json(jdata) =>
        if "u" !in jdata then st
        else
          var st1 := st.(username := Some(jdata["u"]));
          if "p" !in jdata then st1
          else st1.(password := Some(jdata["p"]), sessionId := if "sid" in jdata then Some(jdata["sid"]) else None)
  }

  /** `__removeStoredCredentials`. */
  function RemoveStored(cfg: Config, st: State): (r: State)
    ensures r == st.(files := r.files)
    ensures r.files.Keys == st.files.Keys - {cfg.cfgPath}
    ensures forall path :: path in r.files ==> r.files[path] == st.files[path]
  {
    st.(files := st.files - {cfg.cfgPath})
  }

  /** Saving and then loading the credentials gives back the same username, password and session. */
  lemma StoreRoundTrip(cfg: Config, st: State)
    requires st.storeCreds && HasLogin(st)
    ensures var saved := WriteStored(cfg, st).state;
      ReadStored(cfg, saved) == saved && saved == st.(files := saved.files)
  {
  }

  /** The state `__init__` leaves: no credentials, then loaded from or removed from the disk. */
  function InitState(cfg: Config, storeCreds: bool, files: map<string, FileContent>, log: seq<Request>): (r: State)
    ensures r.log == log && r.storeCreds == storeCreds
    ensures !storeCreds ==> r == State(None, None, None, false, files - {cfg.cfgPath}, log)
    ensures storeCreds ==> r == ReadStored(cfg, State(None, None, None, true, files, log))
  {
    var st := State(None, None, None, storeCreds, files, log);
    if storeCreds then ReadStored(cfg, st) else RemoveStored(cfg, st)
  }

  /**
   * After `__init__` with storing on, `loginInfoExists` tells whether
   * stored credentials were retrieved: exactly when the credential file
   * parses and holds both `u` and `p`, which are then the credentials.
   */
  lemma InitRetrievesLogin(cfg: Config, files: map<string, FileContent>, log: seq<Request>)
    ensures var st := InitState(cfg, true, files, log);
      && (HasLogin(st) <==>
            cfg.cfgPath in files && files[cfg.cfgPath].Json? && "u" in files[cfg.cfgPath].fields && "p" in files[cfg.cfgPath].fields)
      && (HasLogin(st) ==>
            var f := files[cfg.cfgPath].fields;
            st.username == Some(f["u"]) && st.password == Some(f["p"]) && st.sessionId == (if "sid" in f then Some(f["sid"]) else None))
  {
  }

  // -------------------------------------------------------------- network

  /** Send one request: the oracle answers it, and the log records it. */
  function Send(cfg: Config, st: State, req: Request): (Reply, State)
  {
    (cfg.answer(|st.log|, req), st.(log := st.log + [req]))
  }

  /** `range(max_logins)` runs this many times. */
  function Trials(cfg: Config): nat
  {
    if cfg.maxLogins > 0 then cfg.maxLogins else 0
  }

  /** How `'%s'` renders the session identifier. */
  function SidText(sessionId: Option<string>): string
  {
    match sessionId
    case Some(s) => s
    case None => "None"
  }

  function IsLogin(req: Request): bool
  {
    req.LoginRequest?
  }

  /** The number of data queries in a log. */
  function Queries(log: seq<Request>): nat
  {
    if log == [] then 0 else Queries(log[..|log| - 1]) + (if IsLogin(log[|log| - 1]) then 0 else 1)
  }

  /** The number of login requests in a log. */
  function Logins(log: seq<Request>): nat
  {
    if log == [] then 0 else Logins(log[..|log| - 1]) + (if IsLogin(log[|log| - 1]) then 1 else 0)
  }

  lemma CountsOfExtended(log: seq<Request>, req: Request)
    ensures Queries(log + [req]) == Queries(log) + (if IsLogin(req) then 0 else 1)
    ensures Logins(log + [req]) == Logins(log) + (if IsLogin(req) then 1 else 0)
  {
    assert (log + [req])[..|log|] == log;
  }

  // -------------------------------------------------------------- session

  /**
   * `__getSessionId`: errs before any request without a username (or,
   * since the URL is built by concatenation, without a password); every
   * pass of its loop returns or raises, so it sends at most one login.
   */
  function SessionSpec(cfg: Config, st: State): (r: Step<()>)
    ensures r.state.username == st.username && r.state.password == st.password
    ensures r.state.storeCreds == st.storeCreds
    ensures r.state.log == st.log || (HasLogin(st) && r.state.log == st.log + [LoginRequest(st.username.value, st.password.value)])
  {
    if st.username.None? then Step(Err(NoLogin(NoLoginMessage)), st)
    else if st.password.None? then Step(Err(TypeError), st)
    else if cfg.maxLogins <= 0 then Step(Err(LookupFailed(AttemptsExceeded)), st)
    else
      var (reply, st1) := Send(cfg, st, LoginRequest(st.username.value, st.password.value));
      match reply
      case TransportFailure => Step(Err(UrlError), st1)
      case Unparsable => Step(Err(XmlParseError), st1)
      case Document(rt) =>
        match Info(rt, "session")
        case None => Step(Err(ValueError("Did not find a session element in a request for session ID")), st1)
        case Some(sessionD) =>
          if "session_id" in sessionD then
            WriteStored(cfg, st1.(sessionId := Some(sessionD["session_id"])))
          else if "error" in sessionD then Step(Err(LoginFailed(sessionD["error"])), st1)
          else Step(Err(ValueError("Did not find session_id or error in session element")), st1)
  }

  /**
   * The errors `__getSessionId` raises before any request: no username,
   * no password, and a retry bound that allows no attempt.
   */
  lemma SessionOutcome(cfg: Config, st: State)
    ensures var r := SessionSpec(cfg, st);
      && (st.username.None? ==> r == Step(Err(NoLogin(NoLoginMessage)), st))
      && (st.username.Some? && st.password.None? ==> r == Step(Err(TypeError), st))
      && (HasLogin(st) && cfg.maxLogins <= 0 ==> r == Step(Err(LookupFailed(AttemptsExceeded)), st))
  {
  }

  /** A login that fails leaves the session and the files as they were. */
  lemma SessionFailureKeepsState(cfg: Config, st: State)
    ensures var r := SessionSpec(cfg, st);
      r.result.Err? ==> r.state.sessionId == st.sessionId && r.state.files == st.files
  {
    if HasLogin(st) && cfg.maxLogins > 0 {
      var (reply, st1) := Send(cfg, st, LoginRequest(st.username.value, st.password.value));
      if reply.Document? && Info(reply.root, "session").Some? && "session_id" in Info(reply.root, "session").value {
        assert WriteStored(cfg, st1.(sessionId := Some(Info(reply.root, "session").value["session_id"]))).result.Ok?;
      }
    }
  }

  /** A login that succeeds sent one login request, took `session_id` from the reply and saved it. */
  lemma SessionSuccess(cfg: Config, st: State)
    ensures var r := SessionSpec(cfg, st);
      r.result.Ok? ==>
        && HasLogin(st) && r.state.log == st.log + [LoginRequest(st.username.value, st.password.value)]
        && var reply := cfg.answer(|st.log|, LoginRequest(st.username.value, st.password.value));
        && reply.Document?
        && Info(reply.root, "session").Some?
        && "session_id" in Info(reply.root, "session").value
        && r.state.sessionId == Some(Info(reply.root, "session").value["session_id"])
        && r.state.files == WriteStored(cfg, r.state.(files := st.files)).state.files
  {
  }

  /** A login attempt sends no data query and at most one login. */
  lemma SessionCounts(cfg: Config, st: State)
    ensures Queries(SessionSpec(cfg, st).state.log) == Queries(st.log)
    ensures Logins(SessionSpec(cfg, st).state.log) <= Logins(st.log) + 1
  {
    if HasLogin(st) {
      CountsOfExtended(st.log, LoginRequest(st.username.value, st.password.value));
    }
  }

  // --------------------------------------------------------------- queries

  /** How one reply to a data query is read. */
  datatype Verdict =
    | Found(fields: map<string, string>)   // a search section, flattened
    | NotFound                             // session error "Callsign not found"
    | Expired                              // session error "Session does not exist or expired"
    | OtherError(text: string)             // any other session error
    | NoErrorText                          // a session section without an error field
    | NoSection                            // neither section
    | Malformed                            // the body does not parse
    | Unreachable                          // the request itself failed

  /** The decision in the body of `__makeAuthenticatedGet`'s loop. */
  function Classify(reply: Reply): (v: Verdict)
    ensures v.Found? <==> reply.Document? && Info(reply.root, "search").Some?
    ensures v.Found? ==> v.fields == Info(reply.root, "search").value
    ensures v.Malformed? <==> reply.Unparsable?
    ensures v.Unreachable? <==> reply.TransportFailure?
    ensures v.NoSection? <==> reply.Document? && Info(reply.root, "search").None? && Info(reply.root, "session").None?
    ensures (v.NotFound? || v.Expired? || v.OtherError? || v.NoErrorText?) <==>
      reply.Document? && Info(reply.root, "search").None? && Info(reply.root, "session").Some?
    ensures v.NoErrorText? <==> (reply.Document? && Info(reply.root, "search").None? &&
      Info(reply.root, "session").Some? && "error" !in Info(reply.root, "session").value)
    ensures v.NotFound? ==> Info(reply.root, "session").value["error"] == CallsignNotFoundText
    ensures v.Expired? ==> Info(reply.root, "session").value["error"] == SessionExpiredText
    ensures v.OtherError? ==> (v.text == Info(reply.root, "session").value["error"] &&
      v.text != CallsignNotFoundText && v.text != SessionExpiredText)
  {
    match reply
    case TransportFailure => Unreachable
    case Unparsable => Malformed
    case Document(rt) =>
      match Info(rt, "search")
      case Some(searchD) => Found(searchD)
      case None =>
        match Info(rt, "session")
        case None => NoSection
        case Some(sessionD) =>
          if "error" !in sessionD then NoErrorText
          else if sessionD["error"] == CallsignNotFoundText then NotFound
          else if sessionD["error"] == SessionExpiredText then Expired
          else OtherError(sessionD["error"])
  }

  /** The URL chosen by query type; None for an unknown type. */
  function QueryFor(queryType: string, sessionId: Option<string>, callsign: string, appId: string): (r: Option<Request>)
    ensures r.Some? <==> queryType in {"CALL", "BIO", "ACTIVITY"}
    ensures r.Some? ==> !IsLogin(r.value)
  {
    if queryType == "CALL" then Some(CallRequest(SidText(sessionId), callsign, appId))
    else if queryType == "BIO" then Some(BioRequest(SidText(sessionId), callsign))
    else if queryType == "ACTIVITY" then Some(ActivityRequest(SidText(sessionId), callsign))
    else None
  }

  /** How one pass of the query loop ends: with an outcome, or ready for another pass. */
  datatype Pass = Done(step: Step<Option<map<string, string>>>) | Retry(state: State)

  /**
   * What a pass does with the verdict on its reply, from the state after
   * the query was sent: only an expired session followed by a successful
   * login leads to another pass, and that sends one login and no query.
   */
  function AfterReply(cfg: Config, st: State, v: Verdict): (p: Pass)
    ensures var after := if p.Done? then p.step.state else p.state;
      && after.username == st.username && after.password == st.password
      && after.storeCreds == st.storeCreds
      && st.log <= after.log
      && Queries(after.log) == Queries(st.log)
      && Logins(after.log) <= Logins(st.log) + 1
    ensures p.Retry? ==> v.Expired? && p.state.sessionId.Some?
  {
    match v
    case Unreachable => Done(Step(Err(UrlError), st))
    case Malformed => Done(Step(Ok(None), st))
    case Found(searchD) => Done(Step(Ok(Some(searchD)), st))
    case NotFound => Done(Step(Err(CallsignNotFound), st))
    case OtherError(errText) => Done(Step(Err(ValueError(errText)), st))
    case NoErrorText => Done(Step(Err(KeyError("error")), st))
    case NoSection => Done(Step(Err(ValueError("Did not get session or search in response")), st))
    case Expired =>
      var login := SessionSpec(cfg, st);
      SessionCounts(cfg, st);
      if login.result.Err? then Done(Step(Err(login.result.error), login.state))
      else Retry(login.state)
  }

  /**
   * One pass of `__makeAuthenticatedGet`'s loop: send the query and act on
   * the verdict. A pass sends one query and at most one login.
   */
  function QueryPass(cfg: Config, st: State, callsign: string, queryType: string): (p: Pass)
    ensures var after := if p.Done? then p.step.state else p.state;
      && after.username == st.username && after.password == st.password
      && after.storeCreds == st.storeCreds
      && st.log <= after.log
      && Queries(after.log) <= Queries(st.log) + 1
      && Logins(after.log) <= Logins(st.log) + 1
    ensures p.Retry? ==> Queries(p.state.log) == Queries(st.log) + 1 && p.state.sessionId.Some?
  {
    match QueryFor(queryType, st.sessionId, callsign, cfg.appId)
    case None => Done(Step(Err(ValueError("Unexpected query type")), st))
    case Some(req) =>
      var (reply, st1) := Send(cfg, st, req);
      CountsOfExtended(st.log, req);
      AfterReply(cfg, st1, Classify(reply))
  }

  /**
   * The number of passes left after one more. The loop and the method
   * that runs it both count down through this function, so the verifier
   * matches their recursive steps without arithmetic.
   */
  function Pred(n: nat): nat
    requires n > 0
  {
    n - 1
  }

  /**
   * The loop of `__makeAuthenticatedGet` with `trials` passes left. It
   * sends at most `trials` queries and `trials` logins, and the
   * credentials never change.
   */
  function QueryLoop(cfg: Config, st: State, callsign: string, queryType: string, trials: nat): (r: Step<Option<map<string, string>>>)
    ensures r.state.username == st.username && r.state.password == st.password
    ensures r.state.storeCreds == st.storeCreds
    ensures st.log <= r.state.log
    ensures Queries(r.state.log) <= Queries(st.log) + trials
    ensures Logins(r.state.log) <= Logins(st.log) + trials
    decreases trials
  {
    if trials == 0 then Step(Err(LookupFailed(AttemptsExceeded)), st)
    else
      match QueryPass(cfg, st, callsign, queryType)
      case Done(outcome) => outcome
      case Retry(st2) => QueryLoop(cfg, st2, callsign, queryType, Pred(trials))
  }

  /**
   * One pass of the loop: a pass that ends the loop gives the loop's
   * outcome, and after a pass that retries the remaining passes do.
   */
  lemma QueryLoopStep(cfg: Config, before: State, after: State, callsign: string, queryType: string,
                      trials: nat, done: bool, r: Result<Option<map<string, string>>, Error>,
                      goal: Step<Option<map<string, string>>>)
    requires trials > 0 && QueryLoop(cfg, before, callsign, queryType, trials) == goal
    requires done ==> QueryPass(cfg, before, callsign, queryType) == Done(Step(r, after))
    requires !done ==> QueryPass(cfg, before, callsign, queryType) == Retry(after)
    ensures done ==> Step(r, after) == goal
    ensures !done ==> QueryLoop(cfg, after, callsign, queryType, Pred(trials)) == goal
  {
  }

  /**
   * `__makeAuthenticatedGet`: authenticate first when there is no session,
   * then run the loop; at most `max_logins` queries go out.
   */
  function AuthGetSpec(cfg: Config, st: State, callsign: string, queryType: string): (r: Step<Option<map<string, string>>>)
    ensures r.state.username == st.username && r.state.password == st.password
    ensures r.state.storeCreds == st.storeCreds
    ensures st.log <= r.state.log
    ensures Queries(r.state.log) <= Queries(st.log) + Trials(cfg)
    ensures Logins(r.state.log) <= Logins(st.log) + 1 + Trials(cfg)
  {
    if st.sessionId.None? then
      var login := SessionSpec(cfg, st);
      SessionCounts(cfg, st);
      if login.result.Err? then Step(Err(login.result.error), login.state)
      else QueryLoop(cfg, login.state, callsign, queryType, Trials(cfg))
    else QueryLoop(cfg, st, callsign, queryType, Trials(cfg))
  }

  // ---------------------------------------------------------------- lookup

  /** `d.update(other)`: every key of either, the value of `other` winning. */
  function Update(d: map<string, string>, other: map<string, string>): (r: map<string, string>)
    ensures r.Keys == d.Keys + other.Keys
    ensures forall k :: k in other ==> r[k] == other[k]
    ensures forall k :: k in d && k !in other ==> r[k] == d[k]
  {
    d + other
  }

  /** One flagged part of `lookupCallsign`: query, and merge a result that is not None. */
  function LookupPart(cfg: Config, acc: Step<map<string, string>>, callsign: string, queryType: string, wanted: bool): Step<map<string, string>>
  {
    if acc.result.Err? || !wanted then acc
    else
      var got := AuthGetSpec(cfg, acc.state, callsign, queryType);
      match got.result
      case Err(e) => Step(Err(e), got.state)
      case Ok(None) => Step(acc.result, got.state)
      case Ok(Some(res)) => Step(Ok(Update(acc.result.value, res)), got.state)
  }

  /** `lookupCallsign`: the CALL, then BIO, then ACTIVITY parts merged in that order. */
  function LookupSpec(cfg: Config, st: State, callsign: string, getCallsignInfo: bool, getBio: bool, getActivity: bool): (r: Step<map<string, string>>)
    ensures !getCallsignInfo && !getBio && !getActivity ==> r == Step(Ok(map[]), st)
  {
    var start := Step(Ok(map[]), st);
    var afterCall := LookupPart(cfg, start, callsign, "CALL", getCallsignInfo);
    var afterBio := LookupPart(cfg, afterCall, callsign, "BIO", getBio);
    LookupPart(cfg, afterBio, callsign, "ACTIVITY", getActivity)
  }

  /**
   * `setLoginInfo`: ValueError, changing nothing, when a credential is
   * missing; otherwise both are set, the session is dropped, the storing
   * flag is overridden when given, and the new credentials are saved.
   */
  function SetLoginSpec(cfg: Config, st: State, username: Option<string>, password: Option<string>, storeCredentials: Option<bool>): (r: Step<()>)
    ensures r.result.Ok? <==> username.Some? && password.Some?
    ensures r.result.Err? ==> r.state == st && r.result.error.ValueError?
    ensures r.result.Ok? ==>
      && r.state.username == username && r.state.password == password
      && r.state.sessionId.None?
      && HasLogin(r.state)
      && r.state.log == st.log
      && r.state.storeCreds == (if storeCredentials.Some? then storeCredentials.value else st.storeCreds)
      && (r.state.storeCreds ==> r.state.files == st.files[cfg.cfgPath := Json(map["u" := username.value, "p" := password.value])])
      && (storeCredentials == Some(false) ==> r.state.files == st.files - {cfg.cfgPath})
      && (storeCredentials.None? && !st.storeCreds ==> r.state.files == st.files)
  {
    if username.None? || password.None? then Step(Err(ValueError("Username and password must be supplied")), st)
    else
      var st1 := st.(username := username, password := password);
      var st2 :=
        match storeCredentials
        case None => st1
        case Some(true) => st1.(storeCreds := true)
        case Some(false) => RemoveStored(cfg, st1.(storeCreds := false));
      WriteStored(cfg, st2.(sessionId := None))
  }
}
