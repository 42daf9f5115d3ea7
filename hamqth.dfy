/**
 * The `QTH` class of hamqthlib.py: a client for the hamqth.com callsign
 * database whose methods update its credential and session fields in
 * place. The credential files and the web service are objects of their
 * own; every method is proved to have exactly the effect that a
 * matching specification function (of HamQthSpec or HamQthInfo)
 * describes.
 */
module HamQth {
  import opened Wrappers
  import opened XmlDom
  import opened HamQthInfo
  import opened HamQthSpec

  /** The local files, by path: what `open`, `json.dump` and `os.remove` act on. */
  class Disk {
    var files: map<string, FileContent>

    constructor(files: map<string, FileContent>)
      ensures this.files == files
    {
      this.files := files;
    }
  }

  /** The web service. It answers the n-th request it receives by `answer`. */
  class Network {
    const answer: (nat, Request) -> Reply
    var log: seq<Request>

    constructor(answer: (nat, Request) -> Reply)
      ensures this.answer == answer && log == []
    {
      this.answer := answer;
      log := [];
    }

    /** `urlopen(url).read()` followed by parsing. */
    method Get(req: Request) returns (reply: Reply)
      modifies this
      ensures log == old(log) + [req]
      ensures reply == answer(|old(log)|, req)
    {
      reply := answer(|log|, req);
      log := log + [req];
    }
  }

  class QTH {
    const cfgPath: string
    const maxLogins: int
    const appId: string
    const disk: Disk
    const net: Network
    var username: Option<string>
    var password: Option<string>
    var sessionId: Option<string>
    var storeCreds: bool

    /** The parts of the client that never change. */
    function Cfg(): Config
    {
      Config(cfgPath, appId, maxLogins, net.answer)
    }

    /** The client's fields together with the disk and the request log. */
    function Snapshot(): State
      reads this, disk, net
    {
      HamQthSpec.State(username, password, sessionId, storeCreds, disk.files, net.log)
    }

    constructor(configPath: string, maxLogins: int := MaxLoginTrial, storeCredentials: bool := false,
                applicationId: string := "", disk: Disk, net: Network)
      modifies disk
      ensures cfgPath == ConfigPath(configPath, applicationId)
      ensures appId == AppId(applicationId)
      ensures this.maxLogins == maxLogins && this.disk == disk && this.net == net
      ensures Snapshot() == InitState(Cfg(), storeCredentials, old(disk.files), old(net.log))
    {
      var appidClean := CleanAppId(applicationId);
      cfgPath := configPath + "-" + appidClean;
      username := None;
      password := None;
      sessionId := None;
      this.maxLogins := maxLogins;
      appId := applicationId + ":" + Agent;
      storeCreds := storeCredentials;
      this.disk := disk;
      this.net := net;
      new;
      if storeCreds {
        ReadStoredCredentials();
      } else {
        RemoveStoredCredentials();
      }
    }

    /** `__readStoredCredentials`: every failure is swallowed. */
    method ReadStoredCredentials()
      modifies this
      ensures Snapshot() == ReadStored(Cfg(), old(Snapshot()))
    {
      if cfgPath !in disk.files {
        return;
      }
      match disk.files[cfgPath]
      case Corrupt =>
        return;
      case Json(jdata) =>
        if "u" !in jdata {
          return;
        }
        username := Some(jdata["u"]);
        if "p" !in jdata {
          return;
        }
        password := Some(jdata["p"]);
        if "sid" in jdata {
          sessionId := Some(jdata["sid"]);
        } else {
          sessionId := None;
        }
    }

    /** `__writeStoredCredentials`. */
    method WriteStoredCredentials() returns (r: Result<(), Error>)
      modifies disk
      ensures Step(r, Snapshot()) == WriteStored(Cfg(), old(Snapshot()))
    {
      if !storeCreds {
        return Ok(());
      }
      if username.None? || password.None? {
        return Err(ValueError("Attempt to save credentials which haven't been set"));
      }
      var cdata := CredRecord(username.value, password.value, sessionId);
      disk.files := disk.files[cfgPath := Json(cdata)];
      return Ok(());
    }

    /** `__removeStoredCredentials`. */
    method RemoveStoredCredentials()
      modifies disk
      ensures Snapshot() == RemoveStored(Cfg(), old(Snapshot()))
    {
      if cfgPath in disk.files {
        disk.files := disk.files - {cfgPath};
      }
    }

    /** `__getSessionId`: one login exchange; every pass of its loop returns. */
    method GetSessionId() returns (r: Result<(), Error>)
      modifies this, disk, net
      ensures Step(r, Snapshot()) == SessionSpec(Cfg(), old(Snapshot()))
    {
      if username.None? {
        return Err(NoLogin(NoLoginMessage));
      }
      if password.None? {
        // the login URL is built by concatenating the password
        return Err(TypeError);
      }
      var login := LoginRequest(username.value, password.value);
      for queryTrial := 0 to Trials(Cfg())
        invariant Snapshot() == old(Snapshot())
      {
        var reply := net.Get(login);
        match reply
        case TransportFailure =>
          return Err(UrlError);
        case Unparsable =>
          return Err(XmlParseError);
        case Document(rt) =>
          var sessionD := GetInfo(rt, "session");
          if sessionD.None? {
            return Err(ValueError("Did not find a session element in a request for session ID"));
          }
          if "session_id" in sessionD.value {
            sessionId := Some(sessionD.value["session_id"]);
            r := WriteStoredCredentials();
            return;
          } else if "error" in sessionD.value {
            return Err(LoginFailed(sessionD.value["error"]));
          } else {
            return Err(ValueError("Did not find session_id or error in session element"));
          }
      }
      return Err(LookupFailed(AttemptsExceeded));
    }

    /** `__getInfo`: flatten the first `tagName` element into a dictionary. */
    method GetInfo(rt: Node, tagName: string) returns (r: Option<map<string, string>>)
      ensures r == Info(rt, tagName)
    {
      var ansD: map<string, string> := map[];
      var rtElements := ElementsByTagName(rt, tagName);
      if |rtElements| < 1 {
        return None;
      }
      var sElems := ElementsByTagName(rtElements[0], "*");
      for i := 0 to |sElems|
        invariant ansD == Collect(sElems[..i])
      {
        var s := sElems[i];
        ansD := PutChildTexts(ansD, NodeName(s), ChildNodes(s));
        assert sElems[..i + 1][..i] == sElems[..i];
      }
      assert sElems[..|sElems|] == sElems;
      return Some(ansD);
    }

    /** The inner loop of `__getInfo`: every text child of one element is stored under its name. */
    method PutChildTexts(ans: map<string, string>, key: string, kids: seq<Node>) returns (m: map<string, string>)
      ensures m == PutTexts(ans, key, kids)
    {
      m := ans;
      for j := 0 to |kids|
        invariant m == PutTexts(ans, key, kids[..j])
      {
        var ss := kids[j];
        assert kids[..j + 1][..j] == kids[..j];
        if ss.Text? {
          m := m[key := ss.data];
        }
      }
      assert kids[..|kids|] == kids;
    }

    /**
     * One pass of `__makeAuthenticatedGet`'s loop: `done` is false only
     * when the session had expired and the new login succeeded.
     */
    method QueryOnce(callsign: string, queryType: string) returns (done: bool, r: Result<Option<map<string, string>>, Error>)
      modifies this, disk, net
      ensures done ==> QueryPass(Cfg(), old(Snapshot()), callsign, queryType) == Done(Step(r, Snapshot()))
      ensures !done ==> QueryPass(Cfg(), old(Snapshot()), callsign, queryType) == Retry(Snapshot())
    {
      done := true;
      var query := QueryFor(queryType, sessionId, callsign, appId);
      if query.None? {
        return true, Err(ValueError("Unexpected query type"));
      }
      var reply := net.Get(query.value);
      if reply.TransportFailure? {
        return true, Err(UrlError);
      }
      if reply.Unparsable? {
        // "Failed to Parse XML"
        return true, Ok(None);
      }
      var rt := reply.root;
      var searchD := GetInfo(rt, "search");
      if searchD.Some? {
        var res := GetInfo(rt, "search");
        return true, Ok(res);
      }
      var sessionD := GetInfo(rt, "session");
      if sessionD.Some? {
        if "error" !in sessionD.value {
          return true, Err(KeyError("error"));
        }
        var errText := sessionD.value["error"];
        if errText == CallsignNotFoundText {
          return true, Err(CallsignNotFound);
        } else if errText == SessionExpiredText {
          var login := GetSessionId();
          if login.Err? {
            return true, Err(login.error);
          }
          return false, Ok(None);
        } else {
          return true, Err(ValueError(errText));
        }
      } else {
        return true, Err(ValueError("Did not get session or search in response"));
      }
    }

    /** One pass of the retry loop, stated against the passes that remain after it. */
    method QueryStep(callsign: string, queryType: string, ghost left: nat,
                     ghost goal: Step<Option<map<string, string>>>)
      returns (done: bool, r: Result<Option<map<string, string>>, Error>)
      requires left > 0 && QueryLoop(Cfg(), Snapshot(), callsign, queryType, left) == goal
      modifies this, disk, net
      ensures done ==> Step(r, Snapshot()) == goal
      ensures !done ==> QueryLoop(Cfg(), Snapshot(), callsign, queryType, Pred(left)) == goal
    {
      ghost var before := Snapshot();
      done, r := QueryOnce(callsign, queryType);
      QueryLoopStep(Cfg(), before, Snapshot(), callsign, queryType, left, done, r, goal);
    }

    /** The `for query_trial in range(self.max_logins)` loop of `__makeAuthenticatedGet`. */
    method RunQueryLoop(callsign: string, queryType: string) returns (r: Result<Option<map<string, string>>, Error>)
      modifies this, disk, net
      ensures Step(r, Snapshot()) == QueryLoop(Cfg(), old(Snapshot()), callsign, queryType, Trials(Cfg()))
    {
      ghost var goal := QueryLoop(Cfg(), Snapshot(), callsign, queryType, Trials(Cfg()));
      var left: nat := Trials(Cfg());
      while left > 0
        invariant QueryLoop(Cfg(), Snapshot(), callsign, queryType, left) == goal
      {
        var done, res := QueryStep(callsign, queryType, left, goal);
        if done {
          return res;
        }
        left := Pred(left);
      }
      return Err(LookupFailed(AttemptsExceeded));
    }

    /** `__makeAuthenticatedGet`: a query, re-authenticating when the session has expired. */
    method MakeAuthenticatedGet(callsign: string, queryType: string) returns (r: Result<Option<map<string, string>>, Error>)
      modifies this, disk, net
      ensures Step(r, Snapshot()) == AuthGetSpec(Cfg(), old(Snapshot()), callsign, queryType)
    {
      if sessionId.None? {
        var login := GetSessionId();
        if login.Err? {
          return Err(login.error);
        }
      }
      r := RunQueryLoop(callsign, queryType);
    }

    /** `setLoginInfo`. */
    method SetLoginInfo(username: Option<string>, password: Option<string>, storeCredentials: Option<bool> := None)
      returns (r: Result<(), Error>)
      modifies this, disk
      ensures Step(r, Snapshot()) == SetLoginSpec(Cfg(), old(Snapshot()), username, password, storeCredentials)
    {
      if username.None? || password.None? {
        return Err(ValueError("Username and password must be supplied"));
      }
      this.username := username;
      this.password := password;
      if storeCredentials.Some? {
        if storeCredentials.value {
          storeCreds := true;
        } else {
          storeCreds := false;
          RemoveStoredCredentials();
        }
      }
      sessionId := None;
      r := WriteStoredCredentials();
    }

    /** `loginInfoExists`. */
    predicate LoginInfoExists(): (r: bool)
      reads this, disk, net
      ensures r == HasLogin(Snapshot())
    {
      !(username.None? || password.None?)
    }

    /** `lookupCallsign`: the requested parts, merged in the order CALL, BIO, ACTIVITY. */
    method LookupCallsign(callsign: string, getCallsignInfo: bool := true, getBio: bool := false, getActivity: bool := false)
      returns (r: Result<map<string, string>, Error>)
      modifies this, disk, net
      ensures Step(r, Snapshot()) == LookupSpec(Cfg(), old(Snapshot()), callsign, getCallsignInfo, getBio, getActivity)
    {
      ghost var acc := Step(Ok(map[]), Snapshot());
      var results: map<string, string> := map[];
      if getCallsignInfo {
        var res := MakeAuthenticatedGet(callsign, "CALL");
        if res.Err? {
          return Err(res.error);
        }
        if res.value.Some? {
          results := Update(results, res.value.value);
        }
      }
      acc := LookupPart(Cfg(), acc, callsign, "CALL", getCallsignInfo);
      assert acc == Step(Ok(results), Snapshot());
      if getBio {
        var res := MakeAuthenticatedGet(callsign, "BIO");
        if res.Err? {
          return Err(res.error);
        }
        if res.value.Some? {
          results := Update(results, res.value.value);
        }
      }
      acc := LookupPart(Cfg(), acc, callsign, "BIO", getBio);
      assert acc == Step(Ok(results), Snapshot());
      if getActivity {
        var res := MakeAuthenticatedGet(callsign, "ACTIVITY");
        if res.Err? {
          return Err(res.error);
        }
        if res.value.Some? {
          results := Update(results, res.value.value);
        }
      }
      return Ok(results);
    }
  }
}
