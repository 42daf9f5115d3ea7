# hamqthlib in Dafny

A model of `hamqthlib`, a Python client for the hamqth.com amateur-radio
callsign database, and of the record builder in its example script
`apitest.py`. Both are proved correct against specifications.

The `QTH` client does four things:
- it logs in with a username and password to obtain a session identifier;
- it keeps the credentials and the session in a JSON file;
- it sends CALL, BIO and ACTIVITY queries for a callsign, and flattens the
  `search` section of each XML reply into a dictionary;
- it logs in again when the service says the session has expired, up to
  `max_logins` attempts.

The script reads the looked-up fields, writes them as one ADI record of
length-prefixed data-specifiers `<NAME:LEN>DATA` ended by `<eor>`, and
wraps the record in an upload map.

Modules:

- `Wrappers`: `Option` and `Result`.
- `XmlDom`: the part of the DOM the client reads. Nodes are elements, text
  nodes and comments. It defines `nodeName`, `childNodes` and
  `getElementsByTagName`, which searches in document order and treats `*`
  as a wildcard.
- `HamQthInfo`: `__getInfo` as a function, with its characterisation.
- `HamQthSpec`: every `QTH` operation as a function over a `State` value.
  A `State` holds the client's fields, the files on disk and the log of
  HTTP requests. A `Config` holds the file path, the application
  identifier, `max_logins` and the web service. The service is an oracle
  `answer(n, request)` for the n-th request.
- `HamQth`: the `QTH` class itself. Its fields are updated in place by
  methods with loops, next to `Disk` (the files) and `Network` (the
  service and its request log). Each method is proved to leave exactly
  the state and result that the matching `HamQthSpec` or `HamQthInfo`
  function gives.
- `HamQthProps`: the retry and merge behaviour, proved about the
  specification functions.
- `Adif`: the ADI data-specifier encoder, a reference decoder, and the
  proof that decoding undoes encoding.
- `ApiTest`: the contact fields read from a lookup result, the record
  `cladif` exactly as the script concatenates it, and the `toCL` wrapper.

At its edges the code behaves as follows, and the model follows it:

- A transport failure from `urlopen` is not retried; it propagates at once.
- A query reply that does not parse makes `__makeAuthenticatedGet` return
  None. A login reply that does not parse raises the parser's error.
- `__writeStoredCredentials` rejects a credential that is None, not one
  that is empty.
- A `session` section without an `error` field in a query reply raises
  `KeyError`.
- A username without a password makes `__getSessionId` raise `TypeError`
  when it builds the login URL, before any request is sent.
- With `max_logins <= 0` and a session already set, the query loop is
  skipped and the client reports exhausted attempts, even for an unknown
  query type. Without a session, `__getSessionId` raises first: NoLogin
  without a username, TypeError without a password, and otherwise
  LookupFailed, since its own loop is skipped too.
- `max_logins` is documented as the number of retries for failing logins,
  but a failing login is never retried. Each call of `__getSessionId`
  sends at most one login, because every branch of its loop body returns
  or raises. `max_logins` bounds the queries of `__makeAuthenticatedGet`,
  which logs in again only after an expired session.

## Model

| member | source | states |
|---|---|---|
| HamQth.QTH.constructor | hamqthlib.py:77-92 | the path is `configPath + '-' + clean id` and `appID` is `applicationID + ':' + AGENT`; the fields start empty, then credentials are loaded when `storeCredentials` is set and the file is removed otherwise |
| HamQthSpec.InitState | hamqthlib.py:80-92 | without storing, the state has no credentials and no credential file; with storing, it is what `ReadStored` loads into a client with no credentials |
| HamQthSpec.InitRetrievesLogin | hamqthlib.py:88-92 | after construction with storing on, `loginInfoExists` is true exactly when the credential file parses and holds both `u` and `p`; the credentials and session are then the file's |
| HamQthSpec.KeepAlnumSpace | hamqthlib.py:78 | `''.join(c for c in applicationID if c.isalnum() or c == ' ')`; its property is `KeepAlnumSpaceKept` |
| HamQthSpec.CleanAppId | hamqthlib.py:78 | the join, then `rstrip()`; its properties are `ConfigPathShape` and `CleanAppIdIdempotent` |
| HamQthSpec.ConfigPath | hamqthlib.py:78-79 | `configPath + '-' + clean id`; its shape is `ConfigPathShape` |
| HamQthSpec.AppId | hamqthlib.py:84 | `applicationID + ':' + AGENT` |
| HamQthSpec.ConfigPathShape | hamqthlib.py:78-79 | the path is the given path, `-`, then the cleaned identifier; that holds only alphanumerics and spaces and does not end in a space |
| HamQthSpec.CleanAppIdIdempotent | hamqthlib.py:78 | cleaning keeps a prefix of the kept characters, drops only spaces after it, and cleaning twice is cleaning once |
| HamQthSpec.KeepAlnumSpaceKept | hamqthlib.py:78 | the join keeps only alphanumerics and spaces, and leaves a string made of those unchanged |
| HamQthSpec.KeepOneChar | hamqthlib.py:78 | one character is kept exactly when it is alphanumeric or a space |
| HamQthSpec.KeepAlnumSpaceAppend | hamqthlib.py:78 | the join of two strings one after the other is the two joins one after the other; with `KeepOneChar`, the join is the filter of its input, in order |
| HamQthSpec.RStrip | hamqthlib.py:78 | `rstrip()` gives a prefix that does not end in whitespace, and only whitespace was removed |
| HamQth.QTH.ReadStoredCredentials | hamqthlib.py:94-106 | the new fields are `ReadStored` of the old state; disk and network are unchanged |
| HamQthSpec.ReadStored | hamqthlib.py:94-106 | a missing or unreadable file, or one without `u`, changes nothing; otherwise `username := u`; without `p` the assignments stop there (the exception is swallowed); with `p`, `password := p` and the session is `sid`, or None without it |
| HamQthSpec.CredRecord | hamqthlib.py:115-119 | the `cdata` dictionary: `u` and `p`, and `sid` when there is a session; its keys and values are stated by `WriteStored` |
| HamQthSpec.HasLogin | hamqthlib.py:247-249 | `loginInfoExists`: neither the username nor the password is None |
| HamQth.QTH.WriteStoredCredentials | hamqthlib.py:108-122 | the result and new disk are those of `WriteStored` |
| HamQthSpec.WriteStored | hamqthlib.py:108-122 | nothing when credentials are not stored; ValueError and no change when a credential is None; otherwise only the config file changes, to a JSON object with exactly `u`, `p`, and `sid` when there is a session |
| HamQth.QTH.RemoveStoredCredentials | hamqthlib.py:124-126 | the new disk is `RemoveStored` of the old one |
| HamQthSpec.RemoveStored | hamqthlib.py:124-126 | the config file is gone, every other file is kept, and nothing else changes |
| HamQthSpec.StoreRoundTrip | hamqthlib.py:94-121 | reading back what was just written gives back the same username, password and session |
| HamQth.QTH.GetSessionId | hamqthlib.py:128-155 | the `for` loop with its `else` has exactly the effect of `SessionSpec` |
| HamQthSpec.SessionSpec | hamqthlib.py:128-155 | the credentials and storing flag never change; at most one login request is sent, and only when both credentials exist |
| HamQthSpec.SessionOutcome | hamqthlib.py:128-135 | NoLogin without a username and TypeError without a password, both before any request; with no attempts allowed, LookupFailed and nothing sent |
| HamQthSpec.SessionFailureKeepsState | hamqthlib.py:142-155 | a failed login leaves the session and the files as they were |
| HamQthSpec.SessionSuccess | hamqthlib.py:136-149 | a successful login sent exactly one login request with these credentials; its reply parsed and had a `session` section with `session_id`; the session is that value and is saved |
| HamQthSpec.SessionCounts | hamqthlib.py:135-155 | a login attempt sends no data query and at most one login |
| HamQthProps.SessionSendsOneLogin | hamqthlib.py:135-155 | with credentials and at least one attempt, exactly one login request is sent, because every branch of the loop body returns or raises |
| HamQthProps.SessionNotExhausted | hamqthlib.py:154-155 | with at least one attempt, the "attempts exceeded" error is never raised |
| HamQthProps.SessionSetOnlyOnSuccess | hamqthlib.py:142-153 | Ok exactly when the reply has a `session` section with `session_id`; the session is then that value, and otherwise unchanged |
| HamQthProps.SessionErrors | hamqthlib.py:136-153 | the error for each reply: transport failure, parse failure, no session section (ValueError), an `error` field (LoginFailed with its text), neither field (ValueError) |
| HamQth.QTH.GetInfo | hamqthlib.py:158-169 | the nested loops compute `Info`: None without a matching element, else the flattened first one |
| HamQth.QTH.PutChildTexts | hamqthlib.py:165-168 | the inner loop stores every text child of one element under that element's name, in order |
| HamQthInfo.PutTexts | hamqthlib.py:165-168 | the inner loop over one element's children as a function; characterised by `PutTextsIsLastText` |
| HamQthInfo.Collect | hamqthlib.py:163-168 | the outer loop over the descendants in document order; characterised by `CollectKeys` and `CollectValue` |
| HamQthInfo.Info | hamqthlib.py:158-169 | `__getInfo` as a function; characterised by `InfoCharacterised` |
| HamQthInfo.PutTextsIsLastText | hamqthlib.py:165-168 | one element's children change only its own entry, to its last text child, and only if it has one |
| HamQthInfo.CollectKeys | hamqthlib.py:163-168 | a key is in the dictionary exactly when some descendant element with that name has a text child |
| HamQthInfo.CollectValue | hamqthlib.py:163-168 | a key's value is the last text child of the last such element in document order: later ones overwrite earlier ones |
| HamQthInfo.InfoCharacterised | hamqthlib.py:158-169 | `__getInfo` is None exactly when no descendant has the tag; otherwise its keys and values are those of the first such element's descendants, as above |
| XmlDom.ElementsIn | hamqthlib.py:160-163 | `getElementsByTagName` returns only elements that the name selects |
| XmlDom.ElementsByTagName | hamqthlib.py:160-163 | the search looks at descendants only, and returns elements the name selects |
| XmlDom.ElementsInIsFilteredWildcard | hamqthlib.py:160-163 | searching for a name is the `*` search filtered by that tag, in the same order |
| XmlDom.ElementsInEmpty | hamqthlib.py:160-162 | a search comes back empty exactly when no descendant has the tag |
| HamQthProps.SearchExample | hamqthlib.py:158-169 | `<search><nick>W1AW</nick><grid>FN31</grid></search>` flattens to `{nick: W1AW, grid: FN31}` |
| HamQth.Network.Get | hamqthlib.py:184-188 | a request is appended to the log and answered as the service answers that request at that position |
| HamQthSpec.QueryFor | hamqthlib.py:175-182 | a request exists exactly for CALL, BIO and ACTIVITY, and it is never a login |
| HamQthSpec.Classify | hamqthlib.py:187-218 | the reading of a reply: a `search` section wins; otherwise a `session` section's `error` is told apart as not found, expired, other text, or missing; plus no section, unparsable, or unreachable |
| HamQthSpec.AfterReply | hamqthlib.py:187-218 | only an expired session followed by a successful login leads to another pass, with a session set; it keeps the credentials and sends no query and at most one login |
| HamQthSpec.QueryPass | hamqthlib.py:174-218 | one pass keeps the credentials, sends at most one query and one login, and a pass that retries sent exactly one query |
| HamQthSpec.QueryLoop | hamqthlib.py:174-220 | with `trials` passes left: credentials unchanged, the log only grows, at most `trials` queries and `trials` logins |
| HamQthSpec.QueryLoopStep | hamqthlib.py:174-220 | a pass that finishes gives the loop's outcome; after a retry, the remaining passes give it |
| HamQth.QTH.QueryOnce | hamqthlib.py:175-218 | the loop body has exactly the effect of `QueryPass`, and ends the loop unless it retries |
| HamQth.QTH.QueryStep | hamqthlib.py:174-218 | one pass keeps the loop's remaining passes heading to the same final outcome |
| HamQth.QTH.RunQueryLoop | hamqthlib.py:174-220 | the `for` loop with its `else` has exactly the effect of `QueryLoop` with `max_logins` passes |
| HamQth.QTH.MakeAuthenticatedGet | hamqthlib.py:171-220 | the method has exactly the effect of `AuthGetSpec` |
| HamQthSpec.AuthGetSpec | hamqthlib.py:171-220 | credentials unchanged; at most `max_logins` queries and `max_logins + 1` logins |
| HamQthProps.LoginBeforeFirstQuery | hamqthlib.py:172-173 | without a session, the first request is a login with the stored credentials |
| HamQthProps.QueryLoopSendsQueryFirst | hamqthlib.py:174-186 | with a pass left, the next request is the query for this type, callsign and current session |
| HamQthProps.FirstReplyDecides | hamqthlib.py:184-218 | with a session, the first reply decides the outcome unless the session expired, and exactly one query is sent: the search dictionary, CallsignNotFound with no retry, ValueError with the text, KeyError, the no-section ValueError, None for an unparsable body, or the transport error |
| HamQthProps.UnknownQueryType | hamqthlib.py:181-182 | with a session and at least one attempt, an unknown query type raises ValueError before any request |
| HamQthProps.UnknownQueryTypeSendsNoQuery | hamqthlib.py:171-182 | in every state, an unknown query type ends in an error and sends no query; without a session only the login comes first |
| HamQthProps.NoAttempts | hamqthlib.py:174-220 | with a session and `max_logins <= 0`, the result is LookupFailed and nothing is sent |
| HamQthProps.ExpiredPass | hamqthlib.py:213-214 | a query answered "Session does not exist or expired" goes on to `__getSessionId` |
| HamQthProps.ExpiredLoop | hamqthlib.py:213-220 | after an expired session, the outcome is the login's error, or that of the remaining passes |
| HamQthProps.ExpiredSessionLogsIn | hamqthlib.py:213-214 | the request right after the expired query is one login with the stored credentials |
| HamQthProps.RetryThenQuery | hamqthlib.py:174-214 | after a pass that retries, with a pass left, the next request is the query again |
| HamQthProps.ExpiredSessionRetries | hamqthlib.py:174-214 | when the new login succeeds and an attempt is left, the requests are query, login, and the same query with the new session |
| HamQthProps.ExhaustedUsesEveryAttempt | hamqthlib.py:174-220 | when the loop reports exhausted attempts, every pass sent a query: exactly `trials` queries |
| HamQthProps.AuthGetExhausted | hamqthlib.py:171-220 | LookupFailed from `__makeAuthenticatedGet` means exactly `max_logins` queries were sent |
| HamQthProps.AfterReplyKeepsSession | hamqthlib.py:187-218 | a verdict that ends the pass without a login keeps the session and files; one that goes on to another pass sent a login |
| HamQthProps.PassKeepsSession | hamqthlib.py:175-218 | one pass that ends the loop without a login keeps the session and files; a pass that retries sent a login |
| HamQthProps.QueryLoopKeepsSession | hamqthlib.py:174-220 | the session is reused until the service rejects it: a run of the loop that sends no login ends with the session and credential file it started with |
| HamQthProps.AuthGetKeepsSession | hamqthlib.py:171-220 | `__makeAuthenticatedGet` changes the session or the credential file only by logging in |
| HamQth.QTH.SetLoginInfo | hamqthlib.py:222-238 | the method has exactly the effect of `SetLoginSpec` |
| HamQthSpec.SetLoginSpec | hamqthlib.py:222-238 | ValueError, and nothing changed, when a credential is None; otherwise both are set, the session is None, the storing flag is overridden when given (False also removes the file), and the new credentials are saved when storing |
| HamQth.QTH.LoginInfoExists | hamqthlib.py:240-249 | true exactly when both username and password are set |
| HamQth.QTH.LookupCallsign | hamqthlib.py:251-266 | the method has exactly the effect of `LookupSpec` |
| HamQthSpec.LookupSpec | hamqthlib.py:251-266 | with no part requested, an empty map and nothing sent |
| HamQthSpec.LookupPart | hamqthlib.py:253-264 | one flagged part: skipped after an error or when not asked for; a failing query ends with its error, None merges nothing, a map is merged with `update`; characterised by `LookupCharacterised` |
| HamQthProps.PartReply | hamqthlib.py:253-264 | the reply of one flagged part: `__makeAuthenticatedGet` when asked for, otherwise None with nothing sent; a definition used by `LookupCharacterised` |
| HamQthProps.Contribution | hamqthlib.py:255-256 | what one reply adds to the results: nothing for None, the map otherwise; a definition used by `LookupCharacterised` |
| HamQthProps.LookupCharacterised | hamqthlib.py:251-266 | for every choice of flags: the first requested part that fails gives the lookup's error and state, and no later part is queried; otherwise the result is the CALL map updated with BIO and then ACTIVITY, a part not asked for or answered None adding nothing |
| HamQthSpec.Update | hamqthlib.py:256 | `dict.update`: the union of the keys, with the argument's value winning |
| HamQthProps.LookupMergeOrder | hamqthlib.py:251-266 | with all three parts returning maps, the keys are their union, and a key's value comes from ACTIVITY, else BIO, else CALL |
| HamQthProps.LookupStopsAtError | hamqthlib.py:253-256 | a failing CALL part ends the lookup with its error and its state; later parts send nothing |
| HamQthProps.LookupSkipsNone | hamqthlib.py:253-264 | with all three parts asked for, CALL giving `c`, BIO None and ACTIVITY `a`, the lookup gives `c` updated with `a` (or `c` when ACTIVITY also gives None) |
| Adif.Field | apitest.py:73 | one data-specifier `"<" + name + ":" + str(len(v)) + ">" + v`; its shape is `FieldLengthPrefix` and its decoding `DecodeField` |
| Adif.Specifiers | apitest.py:73 | the data-specifiers of a list of fields, in order; see `SpecifiersAppend` |
| Adif.Record | apitest.py:73 | the specifiers followed by `<eor>`; see `RecordEnd` and `RecordRoundTrip` |
| Adif.NatToDecimal | apitest.py:73 | `str(len(v))`: a non-empty string of decimal digits with no leading zero |
| Adif.DecimalRoundTrip | apitest.py:73 | reading the decimal digits back gives the length |
| Adif.FieldLengthPrefix | apitest.py:73 | each data-specifier is `<`, name, `:`, the digits of the value's length, `>`, value, and those digits denote the length of the value |
| Adif.SpecifiersAppend | apitest.py:73 | the specifiers of two lists of fields, one after the other, are the specifiers of their concatenation |
| Adif.RecordEnd | apitest.py:73 | a record is its data-specifiers followed by exactly `<eor>` |
| Adif.DecodeField | apitest.py:73 | a decoder that reads `<NAME:LEN>` then exactly LEN characters returns that field and decodes the rest, whatever characters the value holds |
| Adif.RecordRoundTrip | apitest.py:73 | decoding a record gives back every (name, value) pair in order, including values that hold `<` or `>`, when no name holds `:` or `>` |
| ApiTest.ContactFromResults | apitest.py:52-71 | Ok exactly when all seven lookup keys are present; otherwise KeyError for the first missing key, in the order the script reads them |
| ApiTest.ContactFields | apitest.py:73 | 17 fields with the ADIF names in the fixed order call, band, mode, freq, qso_date, time_on, time_off, rst_rcvd, qsl_rcvd, qsl_sent, country, gridsquare, name, cnty, state, cont, qth |
| ApiTest.Cladif | apitest.py:73 | the record as the script concatenates it, field by field; `CladifIsRecord` ties it to `Record` |
| ApiTest.CladifIsRecord | apitest.py:73 | the hand-written concatenation is exactly the ADI record of the contact's fields in that order |
| ApiTest.CladifRoundTrip | apitest.py:73 | decoding `cladif` recovers every field of the contact, in order |
| ApiTest.RstSentNotAName | apitest.py:59-73 | `rst_sent` is not one of the emitted names |
| ApiTest.RstSentNotEmitted | apitest.py:59-73 | `rst_sent` is bound but no field of the decoded record carries that name |
| ApiTest.ToCL | apitest.py:76-81 | the wrapper has exactly the keys `key`, `station_profile_id`, `type` and `string`, with `type` = `adif` and `string` = the record |
| ApiTest.Script | apitest.py:62-81 | the wrapper exists exactly when the contact can be built, and the error is the contact's KeyError |
| ApiTest.ScriptOutput | apitest.py:52-81 | with every lookup key present, the upload map has type `adif`, and its record decodes to the fixed details, then country, gridsquare, name, cnty, state and cont from `country`, `grid`, `nick`, `us_county`, `us_state` and `continent`, then qth as `adr_city + ", " + us_state` |

## Left out

- `urllib.request.urlopen`, the URL templates and their `%` formatting are not modelled. A request is the values its URL carries (`LoginRequest`, `CallRequest` and so on). The service is an oracle whose answer depends on the request and on how many requests came before it. A session of None is sent as the text `None`, as `'%s' % None` renders it.
- An exception from `urlopen` is modelled as `UrlError` (the reply `TransportFailure`). HTTP status codes and timeouts are not distinguished.
- `xml.dom.minidom` parsing is replaced by a node tree, or `Unparsable`, in the reply. The XML text itself is not modelled.
- `print("Failed to Parse XML")` is not modelled; only the `return None` that follows it is.
- File I/O: the disk is a map from path to content. Any content `json.load` rejects is `Corrupt`. `os.chmod(..., 0o600)` and file permissions are not modelled.
- A failure of `open` for writing, for example a directory that does not exist, is not modelled: the write always succeeds.
- JSON values that are not strings (a number under `u`, say) are not modelled. Every field of a credential file is a string.
- The default `FPATH` comes from the `HOME` environment variable. The model has no default, so the caller passes the configuration path.
- `str.isalnum()` is Unicode-aware in Python; the model keeps the ASCII letters and digits. `rstrip()` strips Unicode whitespace; the model strips space, tab, newline, carriage return, vertical tab and form feed.
- The text-node test `nodeName == '#text'` is modelled as "is a text node". An element cannot be named `#text` in XML.
- Comments, processing instructions and CDATA sections are all one node kind, `Comment`, and their contents are not modelled: the client skips every node that is neither an element nor a text node.
- The unused `DXCC_QUERY_URL` and the exception classes' message texts other than the ones the code raises are not modelled.
- The counted `for query_trial in range(...)` of `__makeAuthenticatedGet` becomes a countdown of the attempts left, via `Pred`. The counter is never read, so this changes nothing.
- The credential file is a real field of `Disk`, not a ghost value, because reading credentials assigns the client's fields from it.
- `apitest.py` lines 23-51 are not modelled: `queryLoginInfo` with `input` and `getpass`, the `argv` length check, the construction of `QTH`, and the call to `lookupCallsign`. The callsign is a parameter standing for `argv[1]`, and the lookup result is any map. `print(toCL)` on line 83 is not modelled either.
- `HamQthSpec.LookupSpec`: its own contract states only the empty case. Every other case is stated by `LookupCharacterised`, with `LookupMergeOrder`, `LookupStopsAtError` and `LookupSkipsNone` as its instances.
