/** The user routes of src/Controllers/User.php: `sync` creates a Traccar
    user whose password is derived from the email and records it locally,
    `update` pushes name and phone to Traccar and then to the local row,
    `delete` removes the Traccar user and then the local row. Each writes
    locally only after the remote call reported no error. */
module UserRoutes {
  import opened Php
  import opened Backends
  import opened Base64Url

  /** `rtrim(strtr(base64_encode($email), '+/', '-_'), '=')`, where
      `base64_encode(null)` is the empty string. */
  function TraccarPassword(email: Option<ByteString>): (r: string)
    ensures email.None? ==> r == ""
    ensures email.Some? ==> Decode(Repad(r)) == Some(email.value)
  {
    var e: ByteString := email.GetOr("");
    PasswordRoundTrip(e);
    assert Password([]) == [];
    Password(e)
  }

  /** The message of a thrown wrapper error, `new Exception($r['message'])`. */
  function FailureOf(result: Json): Response {
    Response(500, ErrorBody(MessageText(Get(result, "message"))))
  }

  const Ok := Response(200, JArr(map["status" := JStr("success")]))

  // ---------------------------------------------------------------------
  // sync (User.php:19-55)

  datatype SyncBody = SyncBody(serverUrl: Option<string>, email: Option<ByteString>, uid: Option<string>)

  /** Outcomes of the Traccar create and the local insert. */
  datatype SyncReplies = SyncReplies(create: Wire, insert: Link)

  /** The Traccar user a sync asks for: named after the email. */
  function NewTraccarUser(email: Option<ByteString>): TcUser {
    TcUser(email, email, TraccarPassword(email), None)
  }

  method Sync(w: World, body: SyncBody, o: SyncReplies) returns (resp: Response)
    modifies w
    ensures EmptyStr(body.serverUrl) ==>
      resp == Response(400, ErrorBody("server_url is required"))
      && w.log == old(w.log) && w.trackers == old(w.trackers) && w.users == old(w.users)
    ensures !EmptyStr(body.serverUrl) ==>
      var url := body.serverUrl.value;
      var created := TraccarResult("Failed to create user", o.create);
      var create := Call.CreateUser(url, body.email, body.email, TraccarPassword(body.email));
      && w.trackers == AfterCreateUser(old(w.trackers), url, NewTraccarUser(body.email), o.create)
      && (IsSet(created, "error") ==>
            resp == FailureOf(created) && w.log == old(w.log) + [create] && w.users == old(w.users))
      && (!IsSet(created, "error") ==>
            var serverId := IdColumn(Get(created, "id"));
            && resp == Response(201, JArr(map["status" := JStr("success"), "traccar_id" := Get(created, "id")]))
            && w.log == old(w.log) + [create, InsertUser(body.email, body.uid, serverId, url)]
            && w.users == if o.insert.Up?
                 then old(w.users) + [UserRow(old(w.nextUserId), body.email, None, body.uid, serverId, Some(url), None, None, JNull)]
                 else old(w.users))
    ensures w.sims == old(w.sims) && w.inventory == old(w.inventory) && w.nextDeviceId == old(w.nextDeviceId)
    ensures w.nextUserId == old(w.nextUserId)
              + (if !EmptyStr(body.serverUrl) && !IsSet(TraccarResult("Failed to create user", o.create), "error")
                    && o.insert.Up? then 1 else 0)
  {
    if EmptyStr(body.serverUrl) {
      return Response(400, ErrorBody("server_url is required"));
    }
    var url := body.serverUrl.value;
    var password := TraccarPassword(body.email);
    var traccarUser := w.CreateUser(url, body.email, body.email, password, o.create);
    if IsSet(traccarUser, "error") {
      return FailureOf(traccarUser);
    }
    var id := Get(traccarUser, "id");
    var _ := w.InsertUser(body.email, body.uid, IdColumn(id), url, o.insert);
    resp := Response(201, JArr(map["status" := JStr("success"), "traccar_id" := id]));
  }

  // ---------------------------------------------------------------------
  // update (User.php:60-92)

  datatype UpdateBody = UpdateBody(id: Option<int>, serverUrl: Option<string>, serverId: Option<int>,
                                   name: Option<string>, mobile: Option<string>)

  /** Outcomes of the local lookup, the Traccar update and the two column
      writes. */
  datatype UpdateReplies = UpdateReplies(lookup: Link, remote: Wire, nameWrite: Link, mobileWrite: Link)

  /** `$localUser['email']`; an error array has no email. */
  function LocalEmail(local: Fetched<UserRow>): Option<string> {
    if local.Row? then local.row.email else None
  }

  /** The Traccar payload: the name defaults to the stored email, the email
      is always the stored one, the phone is the mobile or null. */
  function UpdatePayload(body: UpdateBody, localEmail: Option<string>): (Option<string>, Option<string>, Option<string>) {
    (if body.name.Some? then body.name else localEmail, localEmail, body.mobile)
  }

  /** The local writes after a successful remote update: `name` if given,
      then `mobile` if given. */
  function LocalWrites(body: UpdateBody): seq<Call> {
    (if body.name.Some? then [UpdateUserName(body.id, body.name.value)] else [])
    + (if body.mobile.Some? then [UpdateUserMobile(body.id, body.mobile.value)] else [])
  }

  function WithName(rows: seq<UserRow>, id: Option<int>, name: string): seq<UserRow> {
    UpdateWhere(rows, (row: UserRow) => IdMatches(row, id), (row: UserRow) => row.(name := Some(name)))
  }

  function WithMobile(rows: seq<UserRow>, id: Option<int>, mobile: string): seq<UserRow> {
    UpdateWhere(rows, (row: UserRow) => IdMatches(row, id), (row: UserRow) => row.(mobile := Some(mobile)))
  }

  function UsersAfterUpdate(rows: seq<UserRow>, body: UpdateBody, o: UpdateReplies): seq<UserRow> {
    var named := if body.name.Some? && o.nameWrite.Up? then WithName(rows, body.id, body.name.value) else rows;
    if body.mobile.Some? && o.mobileWrite.Up? then WithMobile(named, body.id, body.mobile.value) else named
  }

  /** An update changes only the `name` and `mobile` of the row with the
      given id; every other row and column is kept. */
  lemma {:induction false} UpdateTouchesOnlyNameAndMobile(rows: seq<UserRow>, body: UpdateBody, o: UpdateReplies)
    ensures var after := UsersAfterUpdate(rows, body, o);
      && |after| == |rows|
      && forall i | 0 <= i < |rows| ::
           && after[i].(name := rows[i].name, mobile := rows[i].mobile) == rows[i]
           && (!IdMatches(rows[i], body.id) ==> after[i] == rows[i])
           && (body.name.Some? && o.nameWrite.Up? && IdMatches(rows[i], body.id) ==> after[i].name == body.name)
           && (body.name.None? ==> after[i].name == rows[i].name)
           && (body.mobile.Some? && o.mobileWrite.Up? && IdMatches(rows[i], body.id) ==> after[i].mobile == body.mobile)
           && (body.mobile.None? ==> after[i].mobile == rows[i].mobile)
  {
    var named := if body.name.Some? && o.nameWrite.Up? then WithName(rows, body.id, body.name.value) else rows;
    assert |named| == |rows|;
    assert forall i | 0 <= i < |rows| :: named[i].(name := rows[i].name) == rows[i] && named[i].id == rows[i].id;
  }

  method Update(w: World, body: UpdateBody, o: UpdateReplies) returns (resp: Response)
    modifies w
    ensures var local := FetchUserById(old(w.users), body.id, o.lookup);
      && (local.NoRow? ==>
            resp == Response(500, ErrorBody("User not found"))
            && w.log == old(w.log) + [SelectUserById(body.id)] && w.trackers == old(w.trackers) && w.users == old(w.users))
      && (!local.NoRow? && body.serverUrl.None? ==>
            resp == NullDomain
            && w.log == old(w.log) + [SelectUserById(body.id)] && w.trackers == old(w.trackers) && w.users == old(w.users))
      && (!local.NoRow? && body.serverUrl.Some? ==>
            var url, serverId := body.serverUrl.value, body.serverId.GetOr(0);
            var p := UpdatePayload(body, LocalEmail(local));
            var result := TraccarResult("Failed to update user", o.remote);
            var remote := [SelectUserById(body.id), Call.UpdateUser(url, serverId, p.0, p.1, p.2)];
            && w.trackers == AfterUpdateUser(old(w.trackers), url, serverId, p.0, p.1, p.2, o.remote)
            && (IsSet(result, "error") ==>
                  resp == FailureOf(result) && w.log == old(w.log) + remote && w.users == old(w.users))
            && (!IsSet(result, "error") ==>
                  resp == Ok && w.log == old(w.log) + remote + LocalWrites(body)
                  && w.users == UsersAfterUpdate(old(w.users), body, o)))
    ensures w.sims == old(w.sims) && w.inventory == old(w.inventory)
    ensures w.nextUserId == old(w.nextUserId) && w.nextDeviceId == old(w.nextDeviceId)
  {
    var local := w.SelectUserById(body.id, o.lookup);
    if local.NoRow? {
      return Response(500, ErrorBody("User not found"));
    }
    if body.serverUrl.None? {
      return NullDomain;
    }
    var url := body.serverUrl.value;
    var p := UpdatePayload(body, LocalEmail(local));
    var result := w.UpdateUser(url, body.serverId.GetOr(0), p.0, p.1, p.2, o.remote);
    if IsSet(result, "error") {
      return FailureOf(result);
    }
    ghost var remote := w.log;
    if body.name.Some? {
      var _ := w.UpdateUserName(body.id, body.name.value, o.nameWrite);
    }
    if body.mobile.Some? {
      var _ := w.UpdateUserMobile(body.id, body.mobile.value, o.mobileWrite);
    }
    assert w.log == remote + LocalWrites(body);
    resp := Ok;
  }

  // ---------------------------------------------------------------------
  // delete (User.php:97-115)

  datatype DeleteBody = DeleteBody(id: Option<int>, serverUrl: Option<string>, serverId: Option<int>)

  /** Outcomes of the Traccar delete and the local delete. */
  datatype DeleteReplies = DeleteReplies(remote: Wire, local: Link)

  method Delete(w: World, body: DeleteBody, o: DeleteReplies) returns (resp: Response)
    modifies w
    ensures body.serverUrl.None? ==>
      resp == NullDomain && w.log == old(w.log) && w.trackers == old(w.trackers) && w.users == old(w.users)
    ensures body.serverUrl.Some? ==>
      var url, serverId := body.serverUrl.value, body.serverId.GetOr(0);
      var result := TraccarResult("Failed to delete user", o.remote);
      && w.trackers == AfterDeleteUser(old(w.trackers), url, serverId, o.remote)
      && (IsSet(result, "error") ==>
            resp == FailureOf(result) && w.log == old(w.log) + [Call.DeleteUser(url, serverId)]
            && w.users == old(w.users))
      && (!IsSet(result, "error") ==>
            resp == Ok && w.log == old(w.log) + [Call.DeleteUser(url, serverId), DeleteUserRow(body.id)]
            && w.users == if o.local.Up? then DeleteWhere(old(w.users), (row: UserRow) => IdMatches(row, body.id))
                          else old(w.users))
    ensures w.sims == old(w.sims) && w.inventory == old(w.inventory)
    ensures w.nextUserId == old(w.nextUserId) && w.nextDeviceId == old(w.nextDeviceId)
  {
    if body.serverUrl.None? {
      return NullDomain;
    }
    var url := body.serverUrl.value;
    var result := w.DeleteUser(url, body.serverId.GetOr(0), o.remote);
    if IsSet(result, "error") {
      return FailureOf(result);
    }
    var _ := w.DeleteUserRow(body.id, o.local);
    resp := Ok;
  }

  /** After a local delete no row carries the deleted id, and every other
      row is kept. */
  lemma DeleteRemovesExactlyTheId(rows: seq<UserRow>, id: int)
    ensures var after := DeleteWhere(rows, (row: UserRow) => IdMatches(row, Some(id)));
      && (forall i | 0 <= i < |after| :: after[i].id != id)
      && (forall i | 0 <= i < |rows| && rows[i].id != id :: rows[i] in after)
  {
  }

  /** A remote delete that throws is answered 500 with the exception
      message; `Delete` then leaves the local row in place. */
  lemma ThrownDeleteIs500(message: string)
    ensures IsSet(TraccarResult("Failed to delete user", Threw(message)), "error")
    ensures FailureOf(TraccarResult("Failed to delete user", Threw(message))) == Response(500, ErrorBody(message))
  {
  }
}
