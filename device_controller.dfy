/** The device routes `POST /device/enable` and `POST /device/disable`
    (src/Controllers/Device.php): look up the caller and the device, check
    assignment, SIM and ownership (and, to enable, expiry), read the SIM
    status from Simbase, switch the SIM, and on enabling write a new
    expiration `preloaded_months` months ahead at the end of that day. */
module DeviceRoutes {
  import opened Php
  import opened Calendar
  import opened Backends
  import AuthGate

  /** What the collaborators do with this request's calls, in call order:
      the user lookup, the device lookup, the SIM details read, the SIM state
      change and the expiration update. */
  datatype Replies = Replies(userLink: Link, deviceLink: Link, details: Wire, stateChange: Wire, update: Link)

  // ---------------------------------------------------------------------
  // Columns of the fetched rows; a missing row or an error array reads as
  // null in every column.

  function AssignedUser(device: Fetched<DeviceRow>): Option<int> {
    if device.Row? then device.row.serverUserId else None
  }

  function SimOf(device: Fetched<DeviceRow>): Option<string> {
    if device.Row? then device.row.simIccid else None
  }

  function ExpirationOf(device: Fetched<DeviceRow>): Option<DateTime> {
    if device.Row? then device.row.expiration else None
  }

  /** `(int)($device['preloaded_months'] ?? 1)`. */
  function MonthsOf(device: Fetched<DeviceRow>): int {
    (if device.Row? then device.row.preloadedMonths else None).GetOr(1)
  }

  function ServerIdOf(user: Fetched<UserRow>): Option<int> {
    if user.Row? then user.row.serverId else None
  }

  // ---------------------------------------------------------------------
  // Responses

  const NotAssigned := Response(400, ErrorBody("Device not assigned to a user."))
  const NoSim := Response(400, ErrorBody("No SIM card associated with this device."))
  const NotOwner := Response(403, ErrorBody("Unauthorized device ownership."))
  const Expired := Response(403, ErrorBody("Device is expired. Please renew."))
  const StatusUnreadable := Response(502, ErrorBody("Failed to fetch SIM status."))

  /** The refusals are told apart by their messages. */
  lemma RefusalsDistinct()
    ensures NotAssigned != NoSim && NotAssigned != NotOwner && NotAssigned != Expired
    ensures NoSim != NotOwner && NoSim != Expired && NotOwner != Expired
  {
    assert ErrorBody("Device not assigned to a user.").fields["error"].s[0] == 'D';
    assert ErrorBody("No SIM card associated with this device.").fields["error"].s[0] == 'N';
    assert ErrorBody("Unauthorized device ownership.").fields["error"].s[0] == 'U';
    assert ErrorBody("Device is expired. Please renew.").fields["error"].s[7] == 'i';
    assert ErrorBody("Device not assigned to a user.").fields["error"].s[7] == 'n';
  }

  // ---------------------------------------------------------------------
  // The decisions

  /** How far a request gets. */
  datatype Outcome =
    | Refused(response: Response)   // a validation failed; Simbase was not called
    | Unreadable                     // the SIM details could not be read
    | AlreadyInState                 // the SIM already has the requested state
    | SwitchFailed                   // the state change returned a falsy value
    | Switched                       // the state change returned a truthy value

  /** The checks both routes make before calling Simbase, in order. The
      ownership test compares the device's `server_user_id` with the
      caller's `server_id`, which is null when the caller has no row. */
  function Screen(user: Fetched<UserRow>, device: Fetched<DeviceRow>): Option<Response> {
    if EmptyInt(AssignedUser(device)) then Some(NotAssigned)
    else if EmptyStr(SimOf(device)) then Some(NoSim)
    else if AssignedUser(device) != ServerIdOf(user) then Some(NotOwner)
    else None
  }

  /** `!$simDetails || isset($simDetails['error'])`. */
  predicate DetailsFailed(details: Json) {
    !Truthy(details) || IsSet(details, "error")
  }

  /** `$simDetails['status'] ?? 'unknown'`. */
  function SimStatus(details: Json): (r: Json)
    ensures !IsSet(details, "status") ==> r == JStr("unknown")
  {
    Coalesce(details, "status", JStr("unknown"))
  }

  /** The statuses that count as already being in `state`. */
  predicate InState(status: Json, state: string) {
    if state == "enabled" then status == JStr("enabled") || status == JStr("active")
    else status == JStr("disabled") || status == JStr("inactive")
  }

  /** The Simbase part of both routes: read the SIM, stop if unreadable or
      already in `state`, otherwise switch it and judge the reply by its
      truthiness alone. */
  function SimStep(details: Json, reply: Json, state: string): (r: Outcome)
    ensures !r.Refused?
  {
    if DetailsFailed(details) then Unreadable
    else if InState(SimStatus(details), state) then AlreadyInState
    else if !Truthy(reply) then SwitchFailed
    else Switched
  }

  function EnableOutcome(user: Fetched<UserRow>, device: Fetched<DeviceRow>, now: DateTime,
                         details: Json, activation: Json): Outcome
  {
    if Screen(user, device).Some? then Refused(Screen(user, device).value)
    else if ExpirationOf(device).Some? && Before(ExpirationOf(device).value, now) then Refused(Expired)
    else SimStep(details, activation, "enabled")
  }

  function DisableOutcome(user: Fetched<UserRow>, device: Fetched<DeviceRow>,
                          details: Json, deactivation: Json): Outcome
  {
    if Screen(user, device).Some? then Refused(Screen(user, device).value)
    else SimStep(details, deactivation, "disabled")
  }

  /** The expiration an enable at `now` writes. */
  function RenewedUntil(device: Fetched<DeviceRow>, now: DateTime): DateTime
    requires now.Valid()
  {
    NewExpiration(now, MonthsOf(device))
  }

  function EnableReply(outcome: Outcome, device: Fetched<DeviceRow>, now: DateTime): Response
    requires now.Valid()
  {
    match outcome
    case Refused(r) => r
    case Unreadable => StatusUnreadable
    case AlreadyInState =>
      var expiration := if ExpirationOf(device).Some? && ExpirationOf(device).value.Valid()
                        then JStr(Format(ExpirationOf(device).value)) else JNull;
      Response(200, JArr(map["message" := JStr("Device is already enabled."), "expiration" := expiration]))
    case SwitchFailed => Response(500, ErrorBody("Failed to activate SIM."))
    case Switched =>
      Response(200, JArr(map["message" := JStr("Device enabled successfully"),
                             "new_expiration" := JStr(Format(RenewedUntil(device, now)))]))
  }

  function DisableReply(outcome: Outcome): Response {
    match outcome
    case Refused(r) => r
    case Unreadable => StatusUnreadable
    case AlreadyInState => Response(200, JArr(map["message" := JStr("Device is already disabled.")]))
    case SwitchFailed => Response(500, ErrorBody("Failed to disable SIM."))
    case Switched => Response(200, JArr(map["message" := JStr("Device disabled successfully"),
                                            "sim_status" := JStr("disabled")]))
  }

  /** The Simbase calls of `SimStep`: the read, then the state change
      unless the read settled the request. */
  function SimCalls(iccid: string, state: string, outcome: Outcome): seq<Call> {
    if outcome.SwitchFailed? || outcome.Switched? then [GetSim(iccid), Call.SetSimState(iccid, state)]
    else [GetSim(iccid)]
  }

  /** The calls a request makes, in order: the two lookups, then the
      Simbase calls unless a validation refused the request, then `tail`
      once the SIM was switched. */
  function RouteCalls(sub: Option<string>, imei: Option<string>, device: Fetched<DeviceRow>,
                      state: string, outcome: Outcome, tail: seq<Call>): seq<Call>
  {
    [SelectUserByAuthUid(sub), SelectDevice(imei)] + SwitchCalls(device, state, outcome, tail)
  }

  /** The calls a route makes after its two lookups. */
  function SwitchCalls(device: Fetched<DeviceRow>, state: string, outcome: Outcome, tail: seq<Call>): seq<Call> {
    (if outcome.Refused? then [] else SimCalls(SimOf(device).GetOr(""), state, outcome))
      + (if outcome.Switched? then tail else [])
  }

  // ---------------------------------------------------------------------
  // The routes

  /** The Simbase part of both routes on the SIM `iccid`. */
  method SwitchSim(w: World, iccid: string, state: string, details: Wire, change: Wire)
    returns (outcome: Outcome)
    requires ValidSimState(state)
    modifies w
    ensures outcome == SimStep(SimDetailsResult(details), SimStateResult(state, change), state)
    ensures w.log == old(w.log) + SimCalls(iccid, state, outcome)
    ensures w.sims == if outcome.SwitchFailed? || outcome.Switched?
                      then AfterSimState(old(w.sims), iccid, state, change) else old(w.sims)
    ensures w.inventory == old(w.inventory) && w.trackers == old(w.trackers) && w.users == old(w.users)
    ensures w.nextUserId == old(w.nextUserId) && w.nextDeviceId == old(w.nextDeviceId)
  {
    var simDetails := w.GetSimDetails(iccid, details);
    if DetailsFailed(simDetails) {
      return Unreadable;
    }
    if InState(SimStatus(simDetails), state) {
      return AlreadyInState;
    }
    var reply := w.SetSimState(iccid, state, change);
    outcome := if Truthy(reply) then Switched else SwitchFailed;
  }

  /** Enabling past the checks: switch the SIM on and, once it reports
      success, write the new expiration. */
  method SwitchAndRenew(w: World, iccid: string, imei: Option<string>, until: DateTime, o: Replies)
    returns (outcome: Outcome)
    modifies w
    ensures outcome == SimStep(SimDetailsResult(o.details), SimStateResult("enabled", o.stateChange), "enabled")
    ensures w.log == old(w.log) + SimCalls(iccid, "enabled", outcome)
                     + (if outcome.Switched? then [UpdateExpiration(imei, until)] else [])
    ensures w.sims == if outcome.SwitchFailed? || outcome.Switched?
                      then AfterSimState(old(w.sims), iccid, "enabled", o.stateChange) else old(w.sims)
    ensures w.inventory == if outcome.Switched? then WithExpiration(old(w.inventory), imei, until, o.update)
                           else old(w.inventory)
    ensures w.trackers == old(w.trackers) && w.users == old(w.users)
    ensures w.nextUserId == old(w.nextUserId) && w.nextDeviceId == old(w.nextDeviceId)
  {
    outcome := SwitchSim(w, iccid, "enabled", o.details, o.stateChange);
    if outcome.Switched? {
      var _ := w.UpdateExpiration(imei, until, o.update);
    }
  }

  /** `enable` once the caller and the device have been fetched. */
  method EnableFetched(w: World, imei: Option<string>, user: Fetched<UserRow>, device: Fetched<DeviceRow>,
                       now: DateTime, o: Replies) returns (resp: Response)
    requires now.Valid()
    modifies w
    ensures var outcome := EnableOutcome(user, device, now, SimDetailsResult(o.details),
                                         SimStateResult("enabled", o.stateChange));
      && resp == EnableReply(outcome, device, now)
      && w.log == old(w.log) + SwitchCalls(device, "enabled", outcome,
                                           [UpdateExpiration(imei, RenewedUntil(device, now))])
      && w.sims == (if outcome.SwitchFailed? || outcome.Switched?
                    then AfterSimState(old(w.sims), SimOf(device).GetOr(""), "enabled", o.stateChange)
                    else old(w.sims))
      && w.inventory == (if outcome.Switched?
                         then WithExpiration(old(w.inventory), imei, RenewedUntil(device, now), o.update)
                         else old(w.inventory))
    ensures w.trackers == old(w.trackers) && w.users == old(w.users)
    ensures w.nextUserId == old(w.nextUserId) && w.nextDeviceId == old(w.nextDeviceId)
  {
    var screen := Screen(user, device);
    if screen.Some? {
      return screen.value;
    }
    var expiration := ExpirationOf(device);
    if expiration.Some? && Before(expiration.value, now) {
      return Expired;
    }
    var outcome := SwitchAndRenew(w, SimOf(device).value, imei, RenewedUntil(device, now), o);
    resp := EnableReply(outcome, device, now);
  }

  method Enable(w: World, caller: AuthGate.Claims, imei: Option<string>, now: DateTime, o: Replies)
    returns (resp: Response)
    requires now.Valid()
    modifies w
    ensures var sub := AuthGate.Subject(caller);
      var user := FetchUserByAuthUid(old(w.users), sub, o.userLink);
      var device := FetchDevice(old(w.inventory), imei, o.deviceLink);
      var outcome := EnableOutcome(user, device, now, SimDetailsResult(o.details),
                                   SimStateResult("enabled", o.stateChange));
      && resp == EnableReply(outcome, device, now)
      && w.log == old(w.log) + RouteCalls(sub, imei, device, "enabled", outcome,
                                          [UpdateExpiration(imei, RenewedUntil(device, now))])
      && w.sims == (if outcome.SwitchFailed? || outcome.Switched?
                    then AfterSimState(old(w.sims), SimOf(device).GetOr(""), "enabled", o.stateChange)
                    else old(w.sims))
      && w.inventory == (if outcome.Switched?
                         then WithExpiration(old(w.inventory), imei, RenewedUntil(device, now), o.update)
                         else old(w.inventory))
    ensures w.trackers == old(w.trackers) && w.users == old(w.users)
    ensures w.nextUserId == old(w.nextUserId) && w.nextDeviceId == old(w.nextDeviceId)
  {
    var user := w.SelectUserByAuthUid(AuthGate.Subject(caller), o.userLink);
    var device := w.SelectDevice(imei, o.deviceLink);
    resp := EnableFetched(w, imei, user, device, now, o);
  }

  method Disable(w: World, caller: AuthGate.Claims, imei: Option<string>, o: Replies)
    returns (resp: Response)
    modifies w
    ensures var sub := AuthGate.Subject(caller);
      var user := FetchUserByAuthUid(old(w.users), sub, o.userLink);
      var device := FetchDevice(old(w.inventory), imei, o.deviceLink);
      var outcome := DisableOutcome(user, device, SimDetailsResult(o.details),
                                    SimStateResult("disabled", o.stateChange));
      && resp == DisableReply(outcome)
      && w.log == old(w.log) + RouteCalls(sub, imei, device, "disabled", outcome, [])
      && w.sims == (if outcome.SwitchFailed? || outcome.Switched?
                    then AfterSimState(old(w.sims), SimOf(device).GetOr(""), "disabled", o.stateChange)
                    else old(w.sims))
    ensures w.inventory == old(w.inventory) && w.trackers == old(w.trackers) && w.users == old(w.users)
    ensures w.nextUserId == old(w.nextUserId) && w.nextDeviceId == old(w.nextDeviceId)
  {
    var user := w.SelectUserByAuthUid(AuthGate.Subject(caller), o.userLink);
    var device := w.SelectDevice(imei, o.deviceLink);
    var screen := Screen(user, device);
    if screen.Some? {
      return screen.value;
    }
    var outcome := SwitchSim(w, SimOf(device).value, "disabled", o.details, o.stateChange);
    resp := DisableReply(outcome);
  }

  // ---------------------------------------------------------------------
  // Properties

  /** The validations fire in a fixed order, each exactly when the earlier
      ones pass and its own condition holds. */
  lemma EnableRefusalOrder(user: Fetched<UserRow>, device: Fetched<DeviceRow>, now: DateTime,
                           details: Json, activation: Json)
    ensures var r := EnableOutcome(user, device, now, details, activation);
      && (r == Refused(NotAssigned) <==> EmptyInt(AssignedUser(device)))
      && (r == Refused(NoSim) <==> !EmptyInt(AssignedUser(device)) && EmptyStr(SimOf(device)))
      && (r == Refused(NotOwner) <==> !EmptyInt(AssignedUser(device)) && !EmptyStr(SimOf(device))
                                       && AssignedUser(device) != ServerIdOf(user))
      && (r == Refused(Expired) <==> Screen(user, device).None? && ExpirationOf(device).Some?
                                      && Before(ExpirationOf(device).value, now))
  {
    RefusalsDistinct();
  }

  /** A device that is not in the inventory, or a failed lookup, is reported
      as unassigned, whoever asks. */
  lemma MissingDeviceReadsUnassigned(user: Fetched<UserRow>, device: Fetched<DeviceRow>, now: DateTime,
                                     details: Json, activation: Json)
    requires !device.Row?
    ensures EnableOutcome(user, device, now, details, activation) == Refused(NotAssigned)
    ensures DisableOutcome(user, device, details, activation) == Refused(NotAssigned)
  {
  }

  /** A caller without a `users` row cannot pass the ownership check. */
  lemma UnknownCallerNotOwner(user: Fetched<UserRow>, device: Fetched<DeviceRow>)
    requires !user.Row? || user.row.serverId.None?
    ensures Screen(user, device).Some?
  {
  }

  /** The expiry check is strict: a device whose expiration is exactly now is
      still enabled. */
  lemma ExpiryBoundary(user: Fetched<UserRow>, device: Fetched<DeviceRow>, now: DateTime,
                       details: Json, activation: Json)
    requires ExpirationOf(device) == Some(now)
    ensures EnableOutcome(user, device, now, details, activation) != Refused(Expired)
  {
    RefusalsDistinct();
  }

  /** The comparison sees microseconds while a stored expiration has none:
      a request inside the expiration's last second is refused. */
  lemma ExpiredWithinLastSecond(user: Fetched<UserRow>, device: Fetched<DeviceRow>, now: DateTime,
                                details: Json, activation: Json)
    requires Screen(user, device).None? && ExpirationOf(device).Some?
    requires ExpirationOf(device).value.micro == 0 && now.micro > 0
    requires now == ExpirationOf(device).value.(micro := now.micro)
    ensures EnableOutcome(user, device, now, details, activation) == Refused(Expired)
  {
  }

  /** What the Simbase read decides once the checks pass: an unreadable SIM
      answers 502 and one already enabled answers 200 with the stored
      expiration; either way the read is the only Simbase call and neither
      the SIM nor the inventory is written (`Enable` writes only for
      `SwitchFailed` and `Switched`). */
  lemma SimReadSettles(user: Fetched<UserRow>, device: Fetched<DeviceRow>, now: DateTime,
                       details: Json, activation: Json, tail: seq<Call>)
    requires now.Valid() && Screen(user, device).None?
    requires ExpirationOf(device).None? || !Before(ExpirationOf(device).value, now)
    ensures var r := EnableOutcome(user, device, now, details, activation);
      && (DetailsFailed(details) ==>
            && r == Unreadable && EnableReply(r, device, now) == Response(502, ErrorBody("Failed to fetch SIM status."))
            && SwitchCalls(device, "enabled", r, tail) == [GetSim(SimOf(device).value)])
      && (!DetailsFailed(details) && (Get(details, "status") == JStr("enabled") || Get(details, "status") == JStr("active")) ==>
            && r == AlreadyInState
            && EnableReply(r, device, now).Response? && EnableReply(r, device, now).status == 200
            && Get(EnableReply(r, device, now).body, "expiration")
               == (if ExpirationOf(device).Some? && ExpirationOf(device).value.Valid()
                   then JStr(Format(ExpirationOf(device).value)) else JNull)
            && SwitchCalls(device, "enabled", r, tail) == [GetSim(SimOf(device).value)])
      && (!DetailsFailed(details) && !InState(SimStatus(details), "enabled") ==>
            (r == SwitchFailed <==> !Truthy(activation)) && (r == Switched <==> Truthy(activation))
            && SwitchCalls(device, "enabled", r, tail)
               == [GetSim(SimOf(device).value), Call.SetSimState(SimOf(device).value, "enabled")]
                  + (if r.Switched? then tail else []))
  {
  }

  /** Only a falsy reply to the activation counts as failure. `setSimState`
      reports a failed request as a non-empty error array, which is truthy,
      so a failed activation still extends the expiration and answers
      "Device enabled successfully". */
  lemma FailedActivationStillRenews(user: Fetched<UserRow>, device: Fetched<DeviceRow>, now: DateTime,
                                    details: Json, message: string)
    requires Screen(user, device).None?
    requires ExpirationOf(device).None? || !Before(ExpirationOf(device).value, now)
    requires !DetailsFailed(details) && !InState(SimStatus(details), "enabled")
    ensures EnableOutcome(user, device, now, details, SimStateResult("enabled", Threw(message))) == Switched
  {
  }

  /** The state change is reported as failed exactly when the earlier steps
      pass and its reply is falsy. */
  lemma SwitchFailedIff(user: Fetched<UserRow>, device: Fetched<DeviceRow>, details: Json, reply: Json)
    ensures DisableOutcome(user, device, details, reply) == SwitchFailed <==>
      Screen(user, device).None? && !DetailsFailed(details)
      && !InState(SimStatus(details), "disabled") && !Truthy(reply)
  {
  }

  /** After a successful enable with at least one month, or with none at a
      whole second, enabling again at the same instant is not refused as
      expired. */
  lemma {:induction false} RenewedDeviceNotExpired(user: Fetched<UserRow>, row: DeviceRow, now: DateTime,
                                                   details: Json, activation: Json, details2: Json, activation2: Json)
    requires now.Valid()
    requires MonthsOf(Row(row)) >= 1 || (MonthsOf(Row(row)) == 0 && now.micro == 0)
    requires EnableOutcome(user, Row(row), now, details, activation) == Switched
    ensures var renewed := Row(row.(expiration := Some(RenewedUntil(Row(row), now))));
      EnableOutcome(user, renewed, now, details2, activation2) != Refused(Expired)
  {
    NewExpirationNotBeforeNow(now, MonthsOf(Row(row)));
  }

  /** Disabling never looks at the expiration. */
  lemma DisableIgnoresExpiration(user: Fetched<UserRow>, row: DeviceRow, e: Option<DateTime>,
                                 details: Json, deactivation: Json)
    ensures DisableOutcome(user, Row(row.(expiration := e)), details, deactivation)
         == DisableOutcome(user, Row(row), details, deactivation)
  {
  }

  /** Both routes share the validation: whatever disabling refuses, enabling
      refuses with the same response. */
  lemma SharedScreen(user: Fetched<UserRow>, device: Fetched<DeviceRow>, now: DateTime,
                     details: Json, reply: Json)
    requires DisableOutcome(user, device, details, reply).Refused?
    ensures EnableOutcome(user, device, now, details, reply) == DisableOutcome(user, device, details, reply)
  {
  }
}
