/** The server routes of src/Controllers/Server.php: a health report over
    MySQL, Traccar and Simbase (`testServer` at the configured test URL,
    `serverInfo` at the URL in the request or else the test URL), and
    `generateToken`, which asks Traccar for a session token with the derived
    password and stores it against the caller. */
module ServerRoutes {
  import opened Php
  import opened Backends
  import opened Base64Url
  import AuthGate
  import UserRoutes

  // ---------------------------------------------------------------------
  // The status mapping (Server.php:26-40, 66-80)

  function MysqlStatus(alive: Fetched<()>): Json {
    if alive.DbError? then JArr(map["status" := JStr("error"), "message" := JStr(alive.message)])
    else JArr(map["status" := JStr("online")])
  }

  function TraccarStatus(res: Json): Json {
    if IsSet(res, "error") then JArr(map["status" := JStr("error"), "message" := Get(res, "message")])
    else JArr(map["status" := JStr("online"), "version" := Coalesce(res, "version", JStr("unknown"))])
  }

  function SimbaseStatus(res: Json): Json {
    if IsSet(res, "error") then JArr(map["status" := JStr("error"), "message" := Coalesce(res, "errors", JStr("Unknown"))])
    else JArr(map["status" := JStr("online"), "balance" := Coalesce(res, "balance", JInt(0))])
  }

  /** Every service status is "error" exactly when the service result
      carries an error, and "online" otherwise. */
  lemma StatusIsErrorIff(alive: Fetched<()>, traccar: Json, simbase: Json)
    ensures Get(MysqlStatus(alive), "status") == (if alive.DbError? then JStr("error") else JStr("online"))
    ensures Get(TraccarStatus(traccar), "status") == (if IsSet(traccar, "error") then JStr("error") else JStr("online"))
    ensures Get(SimbaseStatus(simbase), "status") == (if IsSet(simbase, "error") then JStr("error") else JStr("online"))
  {
  }

  /** An online service reports its version or balance, and the defaults
      'unknown' and 0 when the reply has none. */
  lemma OnlineDefaults(traccar: Json, simbase: Json)
    requires !IsSet(traccar, "error") && !IsSet(traccar, "version")
    requires !IsSet(simbase, "error") && !IsSet(simbase, "balance")
    ensures Get(TraccarStatus(traccar), "version") == JStr("unknown")
    ensures Get(SimbaseStatus(simbase), "balance") == JInt(0)
  {
  }

  /** The Traccar error message is passed on, but the Simbase one is read
      from `errors`: an error array that only has `message`, as the wrappers
      build them, is reported as 'Unknown'. */
  lemma SimbaseMessageReadFromErrors(m: string)
    ensures Get(TraccarStatus(TraccarResult("Failed to fetch server info", Threw(m))), "message") == JStr(m)
    ensures Get(SimbaseStatus(TraccarResult("Failed to fetch account balance", Threw(m))), "message") == JStr("Unknown")
  {
  }

  /** The report body; `date('c')` is the `timestamp` parameter. */
  function StatusReport(timestamp: string, alive: Fetched<()>, traccar: Json, simbase: Json): Json {
    JArr(map["timestamp" := JStr(timestamp),
             "services" := JArr(map["mysql" := MysqlStatus(alive), "traccar" := TraccarStatus(traccar),
                                    "simbase" := SimbaseStatus(simbase)])])
  }

  /** Outcomes of the three probes. */
  datatype ReportReplies = ReportReplies(db: Link, traccar: Wire, simbase: Wire)

  /** The body shared by `testServer` and `serverInfo`, for a given URL. */
  method Report(w: World, url: Option<string>, timestamp: string, o: ReportReplies) returns (resp: Response)
    modifies w
    ensures url.None? ==> resp == NullDomain && w.log == old(w.log)
    ensures url.Some? ==>
      var alive := if o.db.Down? then DbError(o.db.message) else Row(());
      && resp == Response(200, StatusReport(timestamp, alive, TraccarResult("Failed to fetch server info", o.traccar),
                                            TraccarResult("Failed to fetch account balance", o.simbase)))
      && w.log == old(w.log) + [SelectAlive, GetServer(url.value), GetBalance]
    ensures w.StoresUnchanged()
  {
    if url.None? {
      return NullDomain;
    }
    var alive := w.SelectAlive(o.db);
    var traccar := w.GetServerInfo(url.value, o.traccar);
    var simbase := w.GetAccountBalance(o.simbase);
    resp := Response(200, StatusReport(timestamp, alive, traccar, simbase));
  }

  /** `GET /server/test`: the report at `TRACCAR_TEST_URL`. */
  method TestServer(w: World, testUrl: Option<string>, timestamp: string, o: ReportReplies) returns (resp: Response)
    modifies w
    ensures testUrl.None? ==> resp == NullDomain && w.log == old(w.log)
    ensures testUrl.Some? ==>
      var alive := if o.db.Down? then DbError(o.db.message) else Row(());
      && resp == Response(200, StatusReport(timestamp, alive, TraccarResult("Failed to fetch server info", o.traccar),
                                            TraccarResult("Failed to fetch account balance", o.simbase)))
      && w.log == old(w.log) + [SelectAlive, GetServer(testUrl.value), GetBalance]
    ensures w.StoresUnchanged()
  {
    resp := Report(w, testUrl, timestamp, o);
  }

  /** `$data['server_url'] ?? $_ENV[...]`: the URL in the request, else the
      configured one (`TRACCAR_TEST_URL` for the report, `TRACCAR_DEFAULT_URL`
      for a token). */
  function ServerUrl(bodyUrl: Option<string>, configured: Option<string>): Option<string> {
    if bodyUrl.Some? then bodyUrl else configured
  }

  /** A URL in the request wins; the configured one is used only when the
      request has none, and with neither the URL is null. */
  lemma UrlFallback(bodyUrl: Option<string>, configured: Option<string>)
    ensures ServerUrl(bodyUrl, configured).Some? <==> bodyUrl.Some? || configured.Some?
    ensures bodyUrl.Some? ==> ServerUrl(bodyUrl, configured) == bodyUrl
    ensures bodyUrl.None? ==> ServerUrl(bodyUrl, configured) == configured
  {
  }

  /** `POST /server/status`: the same report, at the requested URL. */
  method ServerInfo(w: World, bodyUrl: Option<string>, testUrl: Option<string>, timestamp: string, o: ReportReplies)
    returns (resp: Response)
    modifies w
    ensures ServerUrl(bodyUrl, testUrl).None? ==> resp == NullDomain && w.log == old(w.log)
    ensures ServerUrl(bodyUrl, testUrl).Some? ==>
      var alive := if o.db.Down? then DbError(o.db.message) else Row(());
      && resp == Response(200, StatusReport(timestamp, alive, TraccarResult("Failed to fetch server info", o.traccar),
                                            TraccarResult("Failed to fetch account balance", o.simbase)))
      && w.log == old(w.log) + [SelectAlive, GetServer(ServerUrl(bodyUrl, testUrl).value), GetBalance]
    ensures w.StoresUnchanged()
  {
    resp := Report(w, ServerUrl(bodyUrl, testUrl), timestamp, o);
  }

  // ---------------------------------------------------------------------
  // generateToken (Server.php:95-125)

  /** `$firebaseUser['email']` as a byte string, or null. */
  function ClaimEmail(c: AuthGate.Claims): (r: Option<ByteString>)
    ensures r.Some? ==> "email" in c && c["email"] == JStr(r.value)
    ensures "email" in c && c["email"].JStr? && IsBytes(c["email"].s) ==> r.Some?
  {
    if "email" in c && c["email"].JStr? && IsBytes(c["email"].s) then Some(c["email"].s) else None
  }

  /** Outcomes of the token request and the token write. */
  datatype TokenReplies = TokenReplies(token: Wire, store: Link)

  function StoreToken(rows: seq<UserRow>, sub: Option<string>, token: Json): seq<UserRow> {
    UpdateWhere(rows, (row: UserRow) => UidMatches(row, sub), (row: UserRow) => row.(serverToken := token))
  }

  method GenerateToken(w: World, caller: AuthGate.Claims, bodyUrl: Option<string>, defaultUrl: Option<string>,
                       o: TokenReplies) returns (resp: Response)
    modifies w
    ensures ServerUrl(bodyUrl, defaultUrl).None? ==> resp == NullDomain && w.log == old(w.log) && w.users == old(w.users)
    ensures ServerUrl(bodyUrl, defaultUrl).Some? ==>
      var url := ServerUrl(bodyUrl, defaultUrl).value;
      var email := ClaimEmail(caller);
      var token := TraccarResult("Failed to create token", o.token);
      var request := CreateToken(url, email, UserRoutes.TraccarPassword(email));
      && (IsSet(token, "error") ==>
            resp == Response(500, token) && w.log == old(w.log) + [request] && w.users == old(w.users))
      && (!IsSet(token, "error") ==>
            var sub := AuthGate.Subject(caller);
            && resp == Response(200, JArr(map["status" := JStr("success"), "server_token" := token]))
            && w.log == old(w.log) + [request, UpdateServerToken(sub, token)]
            && w.users == if o.store.Up? then StoreToken(old(w.users), sub, token) else old(w.users))
    ensures w.sims == old(w.sims) && w.trackers == old(w.trackers) && w.inventory == old(w.inventory)
    ensures w.nextUserId == old(w.nextUserId) && w.nextDeviceId == old(w.nextDeviceId)
  {
    var url := ServerUrl(bodyUrl, defaultUrl);
    var email := ClaimEmail(caller);
    var password := UserRoutes.TraccarPassword(email);
    if url.None? {
      return NullDomain;
    }
    var token := w.CreateUserToken(url.value, email, password, o.token);
    if IsSet(token, "error") {
      return Response(500, token);
    }
    var _ := w.UpdateServerToken(AuthGate.Subject(caller), token, o.store);
    resp := Response(200, JArr(map["status" := JStr("success"), "server_token" := token]));
  }

  /** The token lands on the caller's rows (matched by `auth_uid`) and
      nowhere else; a caller without a subject matches no row. */
  lemma {:induction false} TokenStoredForCaller(rows: seq<UserRow>, sub: Option<string>, token: Json)
    ensures var after := StoreToken(rows, sub, token);
      && |after| == |rows|
      && (forall i | 0 <= i < |rows| && UidMatches(rows[i], sub) :: after[i] == rows[i].(serverToken := token))
      && (forall i | 0 <= i < |rows| && !UidMatches(rows[i], sub) :: after[i] == rows[i])
      && (sub.None? ==> after == rows)
  {
    var after := StoreToken(rows, sub, token);
    if sub.None? {
      assert forall i | 0 <= i < |rows| :: !UidMatches(rows[i], sub);
      assert after == rows;
    }
  }

  /** The password sent for a token is the one `sync` set for the same
      email, so it is the unpadded base64url of that email. */
  lemma TokenPasswordIsSyncPassword(c: AuthGate.Claims, e: ByteString)
    requires "email" in c && c["email"] == JStr(e)
    ensures UserRoutes.TraccarPassword(ClaimEmail(c)) == UserRoutes.TraccarPassword(Some(e))
    ensures UserRoutes.TraccarPassword(ClaimEmail(c)) == UrlNoPad(e)
  {
    PasswordIsUnpaddedBase64Url(e);
  }
}
