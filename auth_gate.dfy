/** The per-request authentication middleware
    (src/Middleware/FirebaseAuthMiddleware.php): an admin-key bypass, bearer
    token extraction with `str_replace`, and verification of the token by the
    identity provider, which is an oracle here. */
module AuthGate {
  import opened Php

  /** Verified token claims as attached to the request (`firebase_user`). */
  type Claims = map<string, Json>

  const Bearer: string := "Bearer "

  /** The identity attached when the admin key matches. */
  const AdminClaims: Claims := map["email" := JStr("admin@system.local"), "admin" := JBool(true)]

  /** `$firebaseUser['sub']`: the subject claim, or null when it is absent
      or not a string (the admin identity has none). */
  function Subject(c: Claims): (r: Option<string>)
    ensures r.Some? <==> "sub" in c && c["sub"].JStr?
    ensures r.Some? ==> c["sub"] == JStr(r.value)
  {
    if "sub" in c && c["sub"].JStr? then Some(c["sub"].s) else None
  }

  // ---------------------------------------------------------------------
  // str_replace('Bearer ', '', $header)

  predicate BearerAt(s: string, i: nat) {
    i + |Bearer| <= |s| && s[i..i + |Bearer|] == Bearer
  }

  ghost predicate ContainsBearer(s: string) {
    exists i: nat :: BearerAt(s, i)
  }

  /** One left-to-right pass that deletes every non-overlapping occurrence
      of "Bearer ". */
  function StripBearer(s: string): (r: string)
    ensures |r| <= |s|
    decreases |s|
  {
    if |s| == 0 then []
    else if BearerAt(s, 0) then StripBearer(s[|Bearer|..])
    else [s[0]] + StripBearer(s[1..])
  }

  lemma {:induction false} StripWithoutBearer(s: string)
    requires !ContainsBearer(s)
    ensures StripBearer(s) == s
    decreases |s|
  {
    if |s| > 0 {
      assert !BearerAt(s, 0);
      forall i: nat
        ensures !BearerAt(s[1..], i)
      {
        if i + |Bearer| <= |s| - 1 {
          assert s[1..][i..i + |Bearer|] == s[i + 1..i + 1 + |Bearer|];
          assert !BearerAt(s, i + 1);
        }
      }
      StripWithoutBearer(s[1..]);
      assert s == [s[0]] + s[1..];
    }
  }

  lemma {:induction false} StripShortens(s: string, i: nat)
    requires BearerAt(s, i)
    ensures |StripBearer(s)| < |s|
    decreases |s|
  {
    if !BearerAt(s, 0) {
      assert i > 0;
      assert s[1..][i - 1..i - 1 + |Bearer|] == s[i..i + |Bearer|];
      StripShortens(s[1..], i - 1);
    }
  }

  /** A header is passed through unchanged exactly when it holds no
      "Bearer " at all; otherwise something is removed. */
  lemma StripUnchangedIff(s: string)
    ensures StripBearer(s) == s <==> !ContainsBearer(s)
  {
    if ContainsBearer(s) {
      var i: nat :| BearerAt(s, i);
      StripShortens(s, i);
    } else {
      StripWithoutBearer(s);
    }
  }

  /** The well-formed header "Bearer <token>" yields the token, provided
      the token itself holds no "Bearer ". */
  lemma StripWellFormed(token: string)
    requires !ContainsBearer(token)
    ensures StripBearer(Bearer + token) == token
  {
    var s := Bearer + token;
    assert BearerAt(s, 0);
    assert s[|Bearer|..] == token;
    StripWithoutBearer(token);
  }

  /** A character that does not start a "Bearer " is kept, and the pass
      continues after it. */
  lemma StripKeepsHead(c: char, rest: string)
    requires c != Bearer[0] || (|rest| >= 2 && rest[1] != Bearer[2])
    ensures StripBearer([c] + rest) == [c] + StripBearer(rest)
  {
    var s := [c] + rest;
    assert !BearerAt(s, 0) by {
      if |s| >= |Bearer| {
        assert s[0..|Bearer|][0] == c;
        if |rest| >= 2 {
          assert s[0..|Bearer|][2] == rest[1];
        }
      }
    }
    assert s[1..] == rest;
  }

  lemma Assoc(a: string, b: string, c: string)
    ensures (a + b) + c == a + (b + c)
  {
  }

  /** A stretch without any 'B' is kept as it is. */
  lemma {:induction false} StripKeepsPlain(p: string, rest: string)
    requires forall i | 0 <= i < |p| :: p[i] != Bearer[0]
    ensures StripBearer(p + rest) == p + StripBearer(rest)
    decreases |p|
  {
    if |p| > 0 {
      var r := StripBearer(rest);
      assert p == [p[0]] + p[1..];
      Assoc([p[0]], p[1..], rest);
      StripKeepsHead(p[0], p[1..] + rest);
      StripKeepsPlain(p[1..], rest);
      Assoc([p[0]], p[1..], r);
    } else {
      assert p + rest == rest;
      assert p + StripBearer(rest) == StripBearer(rest);
    }
  }

  lemma StripAfterMarker(t: string)
    requires !ContainsBearer(t)
    ensures StripBearer(Bearer + ("arer " + t)) == "arer " + t
  {
    StripWithoutBearer(t);
    StripKeepsPlain("arer ", t);
    var x := Bearer + ("arer " + t);
    assert BearerAt(x, 0) && x[|Bearer|..] == "arer " + t;
  }

  lemma HeaderShape(t: string)
    ensures "Be" + Bearer + "arer " + t == ['B'] + (['e'] + (Bearer + ("arer " + t)))
  {
    Assoc("Be", Bearer, "arer ");
    Assoc("Be", Bearer + "arer ", t);
    Assoc(Bearer, "arer ", t);
    assert "Be" == ['B'] + ['e'];
    Assoc(['B'], ['e'], Bearer + ("arer " + t));
  }

  lemma ResultShape(t: string)
    ensures ['B'] + (['e'] + ("arer " + t)) == Bearer + t
  {
    assert Bearer == ['B'] + ['e'] + "arer ";
    Assoc(['B'], ['e'], "arer " + t);
    Assoc(['B'] + ['e'], "arer ", t);
  }

  /** One pass is not a fixpoint: deleting an inner occurrence can join a
      new "Bearer " in front of the token, which is then sent on as part of
      it. */
  lemma StripSinglePass(t: string)
    requires !ContainsBearer(t)
    ensures StripBearer("Be" + Bearer + "arer " + t) == Bearer + t
    ensures ContainsBearer(StripBearer("Be" + Bearer + "arer " + t))
  {
    var x := Bearer + ("arer " + t);
    StripAfterMarker(t);
    HeaderShape(t);
    StripKeepsHead('e', x);
    assert (['e'] + x)[1] == Bearer[0];
    StripKeepsHead('B', ['e'] + x);
    ResultShape(t);
    assert BearerAt(Bearer + t, 0);
  }

  // ---------------------------------------------------------------------
  // The decision

  /** The two request headers the gate reads; `getHeaderLine` gives "" for
      an absent header. */
  datatype Headers = Headers(adminKey: string, authorization: string)

  /** What the identity provider's `verifyIdToken` does with a token: return
      the claims or throw an exception with a message. */
  datatype Verification = Verified(claims: Claims) | Rejected(message: string)

  /** What the downstream handler does: return a response, or throw an
      `\Exception` with a message. An `\Error` is part of the response
      (`Uncaught`), since the gate does not catch it. */
  datatype HandlerOutcome = Handled(response: Response) | Raised(message: string)

  /** The gate's result with the calls it made to its collaborators. */
  datatype GateRun = GateRun(result: Response, verified: seq<string>, handled: seq<Claims>)

  /** `$expectedKey && $adminKey === $expectedKey`. */
  predicate Bypass(h: Headers, adminKeyEnv: Option<string>) {
    !EmptyStr(adminKeyEnv) && h.adminKey == adminKeyEnv.value
  }

  function Unauthorized(message: string): Response {
    Response(401, ErrorBody("Unauthorized: " + message))
  }

  function Gate(h: Headers, adminKeyEnv: Option<string>,
                verify: string -> Verification, handle: Claims -> HandlerOutcome): (run: GateRun)
    ensures Bypass(h, adminKeyEnv) ==> run.verified == [] && run.handled == [AdminClaims]
    ensures !Bypass(h, adminKeyEnv) ==> run.verified == [StripBearer(h.authorization)] || run.verified == []
    ensures !Bypass(h, adminKeyEnv) ==> (run.verified == [] <==> EmptyStr(Some(StripBearer(h.authorization))))
    ensures run.verified == [] && !Bypass(h, adminKeyEnv) ==>
              run == GateRun(Unauthorized("No token provided"), [], [])
    ensures |run.handled| <= 1 && |run.verified| <= 1
    ensures run.verified != [] && verify(run.verified[0]).Rejected? ==>
              run == GateRun(Unauthorized(verify(run.verified[0]).message), run.verified, [])
    ensures run.verified != [] && verify(run.verified[0]).Verified? ==>
              run.handled == [verify(run.verified[0]).claims]
    ensures run.handled != [] && handle(run.handled[0]).Handled? ==> run.result == handle(run.handled[0]).response
    ensures Bypass(h, adminKeyEnv) && handle(AdminClaims).Raised? ==>
              run.result == Uncaught(handle(AdminClaims).message)
    ensures !Bypass(h, adminKeyEnv) && run.handled != [] && handle(run.handled[0]).Raised? ==>
              run.result == Unauthorized(handle(run.handled[0]).message)
  {
    if Bypass(h, adminKeyEnv) then
      var result := match handle(AdminClaims)
        case Handled(resp) => resp
        case Raised(m) => Uncaught(m);
      GateRun(result, [], [AdminClaims])
    else
      var token := StripBearer(h.authorization);
      if EmptyStr(Some(token)) then
        GateRun(Unauthorized("No token provided"), [], [])
      else
        match verify(token)
        case Rejected(m) => GateRun(Unauthorized(m), [token], [])
        case Verified(claims) =>
          var result := match handle(claims)
            case Handled(resp) => resp
            case Raised(m) => Unauthorized(m);
          GateRun(result, [token], [claims])
  }

  /** The bypass is taken exactly when ADMIN_KEY is set to a truthy value and
      the X-Admin-Key header equals it; it attaches the admin identity and
      consults no verifier. */
  lemma BypassIff(h: Headers, adminKeyEnv: Option<string>,
                  verify: string -> Verification, handle: Claims -> HandlerOutcome)
    ensures var run := Gate(h, adminKeyEnv, verify, handle);
      (run.handled == [AdminClaims] && run.verified == [])
        <==> (adminKeyEnv.Some? && adminKeyEnv.value != "" && adminKeyEnv.value != "0"
              && h.adminKey == adminKeyEnv.value)
  {
    var run := Gate(h, adminKeyEnv, verify, handle);
    if !Bypass(h, adminKeyEnv) && run.verified == [] {
      assert run.handled == [];
    }
  }

  /** The handler runs outside the `try` on the bypass and inside it after a
      verification: the same handler exception escapes the gate in the
      first case and becomes a 401 in the second. */
  lemma HandlerExceptionAsymmetry(key: string, token: string, claims: Claims, message: string,
                                  verify: string -> Verification, handle: Claims -> HandlerOutcome)
    requires key != "" && key != "0"
    requires !ContainsBearer(token) && token != "" && token != "0"
    requires verify(token) == Verified(claims)
    requires handle(AdminClaims) == Raised(message) && handle(claims) == Raised(message)
    ensures Gate(Headers(key, ""), Some(key), verify, handle).result == Uncaught(message)
    ensures Gate(Headers("", Bearer + token), Some(key), verify, handle).result
         == Response(401, ErrorBody("Unauthorized: " + message))
  {
    StripWellFormed(token);
  }

  /** A configured key that does not match falls through to the bearer path
      instead of failing. */
  lemma WrongAdminKeyFallsThrough(h: Headers, key: string, token: string,
                                  verify: string -> Verification, handle: Claims -> HandlerOutcome)
    requires key != "" && key != "0" && h.adminKey != key
    requires h.authorization == Bearer + token && !ContainsBearer(token) && token != "" && token != "0"
    ensures Gate(h, Some(key), verify, handle).verified == [token]
  {
    StripWellFormed(token);
  }

  /** Whatever the verifier throws, the answer is 401 and the handler is not
      reached. */
  lemma VerifierFailureIs401(h: Headers, adminKeyEnv: Option<string>,
                             verify: string -> Verification, handle: Claims -> HandlerOutcome)
    requires !Bypass(h, adminKeyEnv)
    requires verify(StripBearer(h.authorization)).Rejected?
    ensures Gate(h, adminKeyEnv, verify, handle).result.Response?
    ensures Gate(h, adminKeyEnv, verify, handle).result.status == 401
    ensures Gate(h, adminKeyEnv, verify, handle).handled == []
  {
  }

  /** A header that is only "Bearer " (or only "0" after stripping) is
      refused before verification. */
  lemma BareBearerRefused(verify: string -> Verification, handle: Claims -> HandlerOutcome)
    ensures Gate(Headers("", "Bearer "), None, verify, handle) == GateRun(Unauthorized("No token provided"), [], [])
    ensures Gate(Headers("", "Bearer 0"), None, verify, handle) == GateRun(Unauthorized("No token provided"), [], [])
  {
    assert BearerAt("Bearer ", 0);
    assert "Bearer "[|Bearer|..] == [];
    assert BearerAt("Bearer 0", 0);
    assert "Bearer 0"[|Bearer|..] == "0";
    assert StripBearer("0") == "0";
  }

  /** A header without the "Bearer " prefix is not rejected as malformed: the
      whole header goes to the verifier. */
  lemma RawTokenPassedThrough(raw: string, verify: string -> Verification, handle: Claims -> HandlerOutcome)
    requires !ContainsBearer(raw) && raw != "" && raw != "0"
    ensures Gate(Headers("", raw), None, verify, handle).verified == [raw]
  {
    StripWithoutBearer(raw);
  }
}
