/** The systems the routes talk to, as one abstract world: the Simbase SIMs,
    the Traccar servers (one per server URL), and the MySQL tables `users`
    and `device_inventory`. Every call is recorded in a log, and whether a
    remote or database call succeeds is decided by an oracle argument.

    The service wrappers (src/services/simbase.php, traccar.php and
    MysqlDatabase.php) never throw: they turn a transport failure into an
    error array. A remote write that returns (HTTP 2xx) has been applied by
    the remote side; one that throws is taken not to have been applied. */
module Backends {
  import opened Php
  import opened Calendar

  // ---------------------------------------------------------------------
  // Remote and local state

  datatype Sim = Sim(state: string, name: string)

  datatype TcUser = TcUser(name: Option<string>, email: Option<string>, password: string, phone: Option<string>)
  datatype TcDevice = TcDevice(name: Option<string>, uniqueId: Option<string>)
  /** One Traccar server: users and devices by id, and user-device
      permissions. */
  datatype Tracker = Tracker(users: map<int, TcUser>, devices: map<int, TcDevice>, links: set<(int, int)>)

  /** A row of `users`. Sync writes the subject into `firebase_uid` while the
      device and token routes look it up by `auth_uid`; both columns exist. */
  datatype UserRow = UserRow(
    id: int, email: Option<string>, authUid: Option<string>, firebaseUid: Option<string>,
    serverId: Option<int>, serverUrl: Option<string>, name: Option<string>,
    mobile: Option<string>, serverToken: Json)

  /** A row of `device_inventory`, whose key is the IMEI. */
  datatype DeviceRow = DeviceRow(
    id: int, imei: string, simIccid: Option<string>, serverRef: Option<int>,
    serverUrl: Option<string>, serverUserId: Option<int>, serverUserAssigned: Option<int>,
    preloadedMonths: Option<int>, expiration: Option<DateTime>, ref1: Option<string>,
    brand: Option<string>, model: Option<string>)

  // ---------------------------------------------------------------------
  // Oracles and results

  /** The transport outcome of one HTTP call: the client threw (network
      error, timeout, 4xx or 5xx), or the call returned a decoded body. */
  datatype Wire = Threw(message: string) | Returned(body: Json)

  /** Whether the database connection and statement succeed. */
  datatype Link = Up | Down(message: string)

  /** `fetchOne`: a row, `[]` when no row matches, or an error array. */
  datatype Fetched<T> = Row(row: T) | NoRow | DbError(message: string)

  /** `execute`: `status => success` with the insert id, or an error array. */
  datatype Executed = Done(lastInsertId: int) | ExecError(message: string)

  /** The Traccar client factory is a closure with a `string $domain`
      parameter: a null server URL raises a TypeError, which no route's
      `catch (Exception $e)` catches, before any call is made. */
  const NullDomain := Uncaught("{closure}(): Argument #1 ($domain) must be of type string, null given")

  // ---------------------------------------------------------------------
  // The call log

  datatype Call =
    // MySQL
    | SelectUserByAuthUid(uid: Option<string>)
    | SelectUserById(rowId: Option<int>)
    | SelectDevice(imei: Option<string>)
    | SelectAlive
    | UpdateExpiration(imei: Option<string>, expiration: DateTime)
    | UpdateAssignment(imei: Option<string>, assignee: Option<int>)
    | InsertDevice(newImei: string, iccid: string, serverRef: Option<int>, ref1: string, url: string)
    | InsertUser(email: Option<string>, firebaseUid: Option<string>, serverId: Option<int>, url: string)
    | UpdateUserName(rowId: Option<int>, newName: string)
    | UpdateUserMobile(rowId: Option<int>, newMobile: string)
    | DeleteUserRow(rowId: Option<int>)
    | UpdateServerToken(uid: Option<string>, token: Json)
    // Simbase
    | GetSim(iccid: string)
    | SetSimState(iccid: string, state: string)
    | SetSimName(iccid: string, simName: string)
    | GetBalance
    // Traccar, at a server URL
    | CreateDevice(url: string, deviceName: string, deviceUid: string)
    | DeleteDevice(url: string, deviceRef: Json)
    | UpdateDevice(url: string, deviceId: int, name: Option<string>, uniqueId: Option<string>)
    | LinkUserDevice(url: string, userId: int, deviceId: int)
    | CreateUser(url: string, name: Option<string>, email: Option<string>, password: string)
    | UpdateUser(url: string, userId: int, name: Option<string>, email: Option<string>, phone: Option<string>)
    | DeleteUser(url: string, userId: int)
    | CreateToken(url: string, email: Option<string>, password: string)
    | GetServer(url: string)
  {
    predicate IsSimbase() {
      GetSim? || SetSimState? || SetSimName? || GetBalance?
    }
    predicate IsTraccar() {
      CreateDevice? || DeleteDevice? || UpdateDevice? || LinkUserDevice? || CreateUser? ||
      UpdateUser? || DeleteUser? || CreateToken? || GetServer?
    }
    predicate IsRemote() {
      IsSimbase() || IsTraccar()
    }
  }

  // ---------------------------------------------------------------------
  // Tables as sequences of rows

  /** The first row satisfying `p`, which is what `fetch()` returns. */
  function First<T>(rows: seq<T>, p: T -> bool): (r: Option<T>)
    ensures r.None? <==> forall i | 0 <= i < |rows| :: !p(rows[i])
    ensures r.Some? ==> exists k | 0 <= k < |rows| :: rows[k] == r.value && p(rows[k])
                          && forall j | 0 <= j < k :: !p(rows[j])
  {
    if |rows| == 0 then None
    else if p(rows[0]) then Some(rows[0])
    else
      var r := First(rows[1..], p);
      assert forall i | 1 <= i < |rows| :: rows[i] == rows[1..][i - 1];
      r
  }

  /** `UPDATE ... WHERE p`: every matching row rewritten by `f`. */
  function UpdateWhere<T>(rows: seq<T>, p: T -> bool, f: T -> T): seq<T> {
    seq(|rows|, i requires 0 <= i < |rows| => if p(rows[i]) then f(rows[i]) else rows[i])
  }

  /** `DELETE ... WHERE p`: the rows that do not match, in order. */
  function DeleteWhere<T>(rows: seq<T>, p: T -> bool): (r: seq<T>)
    ensures forall i | 0 <= i < |r| :: r[i] in rows && !p(r[i])
    ensures forall i | 0 <= i < |rows| && !p(rows[i]) :: rows[i] in r
    ensures |r| <= |rows|
  {
    if |rows| == 0 then []
    else if p(rows[0]) then DeleteWhere(rows[1..], p)
    else [rows[0]] + DeleteWhere(rows[1..], p)
  }

  /** Deletion works row by row: a single row stays exactly when it does
      not match, and on a concatenation it is the deletion on each part.
      Together these fix the order and the number of copies of the rows
      that remain. */
  lemma {:induction false} DeleteWhereRowByRow<T>(a: seq<T>, b: seq<T>, x: T, p: T -> bool)
    ensures DeleteWhere([x], p) == if p(x) then [] else [x]
    ensures DeleteWhere(a + b, p) == DeleteWhere(a, p) + DeleteWhere(b, p)
    decreases |a|
  {
    assert [x][1..] == [];
    if |a| == 0 {
      assert a + b == b;
    } else {
      assert (a + b)[0] == a[0];
      assert (a + b)[1..] == a[1..] + b;
      DeleteWhereRowByRow(a[1..], b, x, p);
    }
  }

  /** `WHERE col = ?` with a bound parameter: NULL matches nothing. */
  predicate UidMatches(row: UserRow, uid: Option<string>) {
    uid.Some? && row.authUid == uid
  }

  predicate IdMatches(row: UserRow, id: Option<int>) {
    id.Some? && row.id == id.value
  }

  function FetchUserByAuthUid(rows: seq<UserRow>, uid: Option<string>, link: Link): (r: Fetched<UserRow>)
    ensures link.Down? <==> r.DbError?
    ensures r.Row? ==> r.row in rows && UidMatches(r.row, uid)
    ensures r.NoRow? <==> link.Up? && forall i | 0 <= i < |rows| :: !UidMatches(rows[i], uid)
  {
    if link.Down? then DbError(link.message)
    else match First(rows, (row: UserRow) => UidMatches(row, uid))
      case Some(row) => Row(row)
      case None => NoRow
  }

  function FetchUserById(rows: seq<UserRow>, id: Option<int>, link: Link): (r: Fetched<UserRow>)
    ensures link.Down? <==> r.DbError?
    ensures r.Row? ==> r.row in rows && IdMatches(r.row, id)
    ensures r.NoRow? <==> link.Up? && forall i | 0 <= i < |rows| :: !IdMatches(rows[i], id)
  {
    if link.Down? then DbError(link.message)
    else match First(rows, (row: UserRow) => IdMatches(row, id))
      case Some(row) => Row(row)
      case None => NoRow
  }

  function FetchDevice(inventory: map<string, DeviceRow>, imei: Option<string>, link: Link): (r: Fetched<DeviceRow>)
    ensures link.Down? <==> r.DbError?
    ensures r.Row? <==> link.Up? && imei.Some? && imei.value in inventory
    ensures r.Row? ==> r.row == inventory[imei.value]
  {
    if link.Down? then DbError(link.message)
    else if imei.Some? && imei.value in inventory then Row(inventory[imei.value])
    else NoRow
  }

  /** The Traccar id as stored in an integer column: a JSON integer is
      stored as itself, and any other JSON value as NULL. */
  function IdColumn(j: Json): (r: Option<int>)
    ensures r.Some? <==> j.JInt?
    ensures r.Some? ==> r.value == j.i
  {
    if j.JInt? then Some(j.i) else None
  }

  // ---------------------------------------------------------------------
  // What each wrapper returns

  /** Simbase `getSimDetails`. */
  function SimDetailsResult(w: Wire): Json {
    match w
    case Threw(m) => JArr(map["error" := JStr("Simbase API unreachable"), "message" := JStr(m)])
    case Returned(b) => b
  }

  predicate ValidSimState(state: string) {
    state == "enabled" || state == "disabled"
  }

  /** Simbase `setSimState`, including its guard on the state name. */
  function SimStateResult(state: string, w: Wire): (r: Json)
    ensures !ValidSimState(state) || w.Threw? ==> IsSet(r, "error") && Truthy(r)
  {
    if !ValidSimState(state) then JArr(map["error" := JStr("Invalid state. Use enabled or disabled.")])
    else match w
      case Threw(_) => JArr(map["error" := JStr("Failed to set SIM to " + state)])
      case Returned(b) => b
  }

  /** Simbase `setSimName`; its error array carries no `message`. */
  function SimNameResult(w: Wire): (r: Json)
    ensures w.Threw? ==> IsSet(r, "error") && !IsSet(r, "message")
  {
    match w
    case Threw(_) => JArr(map["error" := JStr("Failed to update SIM name")])
    case Returned(b) => b
  }

  /** A Traccar wrapper: `['error' => $what, 'message' => ...]` on a thrown
      call. */
  function TraccarResult(what: string, w: Wire): (r: Json)
    ensures w.Threw? ==> IsSet(r, "error") && Get(r, "message") == JStr(w.message)
  {
    match w
    case Threw(m) => JArr(map["error" := JStr(what), "message" := JStr(m)])
    case Returned(b) => b
  }

  /** Traccar `linkUserToDevice`: a 200 or 204 becomes a success array. The
      status code is not modelled: every returned request counts as one of
      those two, so the decoded body of another status is never returned. */
  function LinkResult(w: Wire): Json {
    match w
    case Threw(m) => JArr(map["error" := JStr("Failed to link device"), "message" := JStr(m)])
    case Returned(_) => JArr(map["status" := JStr("success"), "message" := JStr("Device linked to user")])
  }

  // ---------------------------------------------------------------------
  // What each write does to the world

  function AfterSimState(sims: map<string, Sim>, iccid: string, state: string, w: Wire): (r: map<string, Sim>)
    ensures r.Keys == sims.Keys
    ensures forall k | k in sims && k != iccid :: r[k] == sims[k]
    ensures iccid in sims ==> r[iccid] == if w.Returned? && ValidSimState(state) then sims[iccid].(state := state) else sims[iccid]
  {
    if w.Returned? && ValidSimState(state) && iccid in sims then sims[iccid := sims[iccid].(state := state)] else sims
  }

  function AfterSimName(sims: map<string, Sim>, iccid: string, name: string, w: Wire): (r: map<string, Sim>)
    ensures r.Keys == sims.Keys
    ensures forall k | k in sims && k != iccid :: r[k] == sims[k]
    ensures iccid in sims ==> r[iccid] == if w.Returned? then sims[iccid].(name := name) else sims[iccid]
  {
    if w.Returned? && iccid in sims then sims[iccid := sims[iccid].(name := name)] else sims
  }

  function TrackerAt(ts: map<string, Tracker>, url: string): Tracker {
    if url in ts then ts[url] else Tracker(map[], map[], {})
  }

  /** Traccar `createDevice`: a returned body with an integer id means the
      device now exists under that id. */
  function AfterCreateDevice(ts: map<string, Tracker>, url: string, name: string, uniqueId: string, w: Wire): (r: map<string, Tracker>)
    ensures forall u | u != url :: TrackerAt(r, u) == TrackerAt(ts, u)
    ensures TrackerAt(r, url).users == TrackerAt(ts, url).users && TrackerAt(r, url).links == TrackerAt(ts, url).links
    ensures TrackerAt(r, url).devices == if w.Returned? && IsSet(w.body, "id") && Get(w.body, "id").JInt?
              then TrackerAt(ts, url).devices[Get(w.body, "id").i := TcDevice(Some(name), Some(uniqueId))]
              else TrackerAt(ts, url).devices
  {
    if w.Returned? && IsSet(w.body, "id") && Get(w.body, "id").JInt? then
      var t := TrackerAt(ts, url);
      ts[url := t.(devices := t.devices[Get(w.body, "id").i := TcDevice(Some(name), Some(uniqueId))])]
    else ts
  }

  function AfterDeleteDevice(ts: map<string, Tracker>, url: string, id: Json, w: Wire): (r: map<string, Tracker>)
    ensures forall u | u != url :: TrackerAt(r, u) == TrackerAt(ts, u)
    ensures TrackerAt(r, url).users == TrackerAt(ts, url).users && TrackerAt(r, url).links == TrackerAt(ts, url).links
    ensures TrackerAt(r, url).devices == if w.Returned? && id.JInt?
              then TrackerAt(ts, url).devices - {id.i} else TrackerAt(ts, url).devices
  {
    if w.Returned? && id.JInt? then
      var t := TrackerAt(ts, url);
      ts[url := t.(devices := t.devices - {id.i})]
    else ts
  }

  function AfterUpdateDevice(ts: map<string, Tracker>, url: string, id: int, name: Option<string>, uniqueId: Option<string>, w: Wire): (r: map<string, Tracker>)
    ensures forall u | u != url :: TrackerAt(r, u) == TrackerAt(ts, u)
    ensures TrackerAt(r, url).users == TrackerAt(ts, url).users && TrackerAt(r, url).links == TrackerAt(ts, url).links
    ensures TrackerAt(r, url).devices == if w.Returned? && id in TrackerAt(ts, url).devices
              then TrackerAt(ts, url).devices[id := TcDevice(name, uniqueId)] else TrackerAt(ts, url).devices
  {
    var t := TrackerAt(ts, url);
    if w.Returned? && id in t.devices then ts[url := t.(devices := t.devices[id := TcDevice(name, uniqueId)])] else ts
  }

  function AfterLink(ts: map<string, Tracker>, url: string, userId: int, deviceId: int, w: Wire): (r: map<string, Tracker>)
    ensures forall u | u != url :: TrackerAt(r, u) == TrackerAt(ts, u)
    ensures TrackerAt(r, url).users == TrackerAt(ts, url).users && TrackerAt(r, url).devices == TrackerAt(ts, url).devices
    ensures TrackerAt(r, url).links == if w.Returned? then TrackerAt(ts, url).links + {(userId, deviceId)} else TrackerAt(ts, url).links
  {
    var t := TrackerAt(ts, url);
    if w.Returned? then ts[url := t.(links := t.links + {(userId, deviceId)})] else ts
  }

  function AfterCreateUser(ts: map<string, Tracker>, url: string, user: TcUser, w: Wire): (r: map<string, Tracker>)
    ensures forall u | u != url :: TrackerAt(r, u) == TrackerAt(ts, u)
    ensures TrackerAt(r, url).devices == TrackerAt(ts, url).devices && TrackerAt(r, url).links == TrackerAt(ts, url).links
    ensures TrackerAt(r, url).users == if w.Returned? && IsSet(w.body, "id") && Get(w.body, "id").JInt?
              then TrackerAt(ts, url).users[Get(w.body, "id").i := user] else TrackerAt(ts, url).users
  {
    if w.Returned? && IsSet(w.body, "id") && Get(w.body, "id").JInt? then
      var t := TrackerAt(ts, url);
      ts[url := t.(users := t.users[Get(w.body, "id").i := user])]
    else ts
  }

  function AfterUpdateUser(ts: map<string, Tracker>, url: string, id: int, name: Option<string>, email: Option<string>, phone: Option<string>, w: Wire): (r: map<string, Tracker>)
    ensures forall u | u != url :: TrackerAt(r, u) == TrackerAt(ts, u)
    ensures TrackerAt(r, url).devices == TrackerAt(ts, url).devices && TrackerAt(r, url).links == TrackerAt(ts, url).links
    ensures TrackerAt(r, url).users == if w.Returned? && id in TrackerAt(ts, url).users
              then TrackerAt(ts, url).users[id := TrackerAt(ts, url).users[id].(name := name, email := email, phone := phone)]
              else TrackerAt(ts, url).users
  {
    var t := TrackerAt(ts, url);
    if w.Returned? && id in t.users then
      ts[url := t.(users := t.users[id := t.users[id].(name := name, email := email, phone := phone)])]
    else ts
  }

  function AfterDeleteUser(ts: map<string, Tracker>, url: string, id: int, w: Wire): (r: map<string, Tracker>)
    ensures forall u | u != url :: TrackerAt(r, u) == TrackerAt(ts, u)
    ensures TrackerAt(r, url).devices == TrackerAt(ts, url).devices && TrackerAt(r, url).links == TrackerAt(ts, url).links
    ensures TrackerAt(r, url).users == if w.Returned? then TrackerAt(ts, url).users - {id} else TrackerAt(ts, url).users
  {
    var t := TrackerAt(ts, url);
    if w.Returned? then ts[url := t.(users := t.users - {id})] else ts
  }

  /** `UPDATE device_inventory SET expiration = ? WHERE imei = ?`. */
  function WithExpiration(inventory: map<string, DeviceRow>, imei: Option<string>, expiration: DateTime, link: Link)
    : (r: map<string, DeviceRow>)
    ensures r.Keys == inventory.Keys
    ensures forall k | k in inventory :: r[k] == if link.Up? && imei == Some(k)
              then inventory[k].(expiration := Some(expiration)) else inventory[k]
  {
    if link.Up? && imei.Some? && imei.value in inventory
    then inventory[imei.value := inventory[imei.value].(expiration := Some(expiration))]
    else inventory
  }

  /** `UPDATE device_inventory SET server_user_assigned = ? WHERE imei = ?`. */
  function WithAssignment(inventory: map<string, DeviceRow>, imei: Option<string>, assignee: Option<int>, link: Link)
    : (r: map<string, DeviceRow>)
    ensures r.Keys == inventory.Keys
    ensures forall k | k in inventory :: r[k] == if link.Up? && imei == Some(k)
              then inventory[k].(serverUserAssigned := assignee) else inventory[k]
  {
    if link.Up? && imei.Some? && imei.value in inventory
    then inventory[imei.value := inventory[imei.value].(serverUserAssigned := assignee)]
    else inventory
  }

  /** The message for a second row with the same IMEI. PDO's real text
      starts with the SQLSTATE code and names the schema's key, which is
      not part of this model. */
  function DuplicateImei(imei: string): string {
    "Duplicate entry '" + imei + "' for key 'imei'"
  }

  /** The outcome of inserting a device row: the IMEI is a unique key and
      the id is the next auto-increment value. */
  function InsertResult(inventory: map<string, DeviceRow>, nextId: int, imei: string, link: Link): (r: Executed)
    ensures r.Done? <==> link.Up? && imei !in inventory
    ensures r.Done? ==> r.lastInsertId == nextId
  {
    if link.Down? then ExecError(link.message)
    else if imei in inventory then ExecError(DuplicateImei(imei))
    else Done(nextId)
  }

  // ---------------------------------------------------------------------
  // The world

  class World {
    var sims: map<string, Sim>
    var trackers: map<string, Tracker>
    var users: seq<UserRow>
    var inventory: map<string, DeviceRow>
    var nextUserId: int
    var nextDeviceId: int
    var log: seq<Call>

    constructor (sims: map<string, Sim>, trackers: map<string, Tracker>, users: seq<UserRow>,
                 inventory: map<string, DeviceRow>, nextUserId: int, nextDeviceId: int)
      ensures this.sims == sims && this.trackers == trackers && this.users == users
      ensures this.inventory == inventory && this.nextUserId == nextUserId && this.nextDeviceId == nextDeviceId
      ensures log == []
    {
      this.sims, this.trackers, this.users := sims, trackers, users;
      this.inventory, this.nextUserId, this.nextDeviceId := inventory, nextUserId, nextDeviceId;
      log := [];
    }

    /** Nothing but the log changed since the start of the calling method. */
    twostate predicate StoresUnchanged()
      reads this
    {
      sims == old(sims) && trackers == old(trackers) && users == old(users) &&
      inventory == old(inventory) && nextUserId == old(nextUserId) && nextDeviceId == old(nextDeviceId)
    }

    // --- MySQL (MysqlDatabase::fetchOne / execute)

    method SelectUserByAuthUid(uid: Option<string>, link: Link) returns (r: Fetched<UserRow>)
      modifies this
      ensures r == FetchUserByAuthUid(users, uid, link)
      ensures StoresUnchanged() && log == old(log) + [Call.SelectUserByAuthUid(uid)]
    {
      r := FetchUserByAuthUid(users, uid, link);
      log := log + [Call.SelectUserByAuthUid(uid)];
    }

    method SelectUserById(id: Option<int>, link: Link) returns (r: Fetched<UserRow>)
      modifies this
      ensures r == FetchUserById(users, id, link)
      ensures StoresUnchanged() && log == old(log) + [Call.SelectUserById(id)]
    {
      r := FetchUserById(users, id, link);
      log := log + [Call.SelectUserById(id)];
    }

    method SelectDevice(imei: Option<string>, link: Link) returns (r: Fetched<DeviceRow>)
      modifies this
      ensures r == FetchDevice(inventory, imei, link)
      ensures StoresUnchanged() && log == old(log) + [Call.SelectDevice(imei)]
    {
      r := FetchDevice(inventory, imei, link);
      log := log + [Call.SelectDevice(imei)];
    }

    /** `SELECT 1 as alive`. */
    method SelectAlive(link: Link) returns (r: Fetched<()>)
      modifies this
      ensures r == if link.Down? then DbError(link.message) else Row(())
      ensures StoresUnchanged() && log == old(log) + [Call.SelectAlive]
    {
      r := if link.Down? then DbError(link.message) else Row(());
      log := log + [Call.SelectAlive];
    }

    method UpdateExpiration(imei: Option<string>, expiration: DateTime, link: Link) returns (r: Executed)
      modifies this
      ensures r == if link.Down? then ExecError(link.message) else Done(0)
      ensures inventory == WithExpiration(old(inventory), imei, expiration, link)
      ensures sims == old(sims) && trackers == old(trackers) && users == old(users)
      ensures nextUserId == old(nextUserId) && nextDeviceId == old(nextDeviceId)
      ensures log == old(log) + [Call.UpdateExpiration(imei, expiration)]
    {
      if link.Down? {
        r := ExecError(link.message);
      } else {
        r := Done(0);
        inventory := WithExpiration(inventory, imei, expiration, link);
      }
      log := log + [Call.UpdateExpiration(imei, expiration)];
    }

    method UpdateAssignment(imei: Option<string>, assignee: Option<int>, link: Link) returns (r: Executed)
      modifies this
      ensures r == if link.Down? then ExecError(link.message) else Done(0)
      ensures inventory == WithAssignment(old(inventory), imei, assignee, link)
      ensures sims == old(sims) && trackers == old(trackers) && users == old(users)
      ensures nextUserId == old(nextUserId) && nextDeviceId == old(nextDeviceId)
      ensures log == old(log) + [Call.UpdateAssignment(imei, assignee)]
    {
      if link.Down? {
        r := ExecError(link.message);
      } else {
        r := Done(0);
        inventory := WithAssignment(inventory, imei, assignee, link);
      }
      log := log + [Call.UpdateAssignment(imei, assignee)];
    }

    /** The inventory insert of `/inventory/addDevice`; the IMEI is the
        table's unique key. */
    method InsertDevice(imei: string, iccid: string, serverRef: Option<int>, ref1: string, url: string,
                        brand: string, model: string, link: Link) returns (r: Executed)
      modifies this
      ensures r == InsertResult(old(inventory), old(nextDeviceId), imei, link)
      ensures inventory == if r.Done? then old(inventory)[imei := DeviceRow(old(nextDeviceId), imei, Some(iccid), serverRef,
                                                Some(url), None, None, None, None, Some(ref1), Some(brand), Some(model))]
                           else old(inventory)
      ensures nextDeviceId == if r.Done? then old(nextDeviceId) + 1 else old(nextDeviceId)
      ensures sims == old(sims) && trackers == old(trackers) && users == old(users) && nextUserId == old(nextUserId)
      ensures log == old(log) + [Call.InsertDevice(imei, iccid, serverRef, ref1, url)]
    {
      if link.Down? {
        r := ExecError(link.message);
      } else if imei in inventory {
        r := ExecError(DuplicateImei(imei));
      } else {
        r := Done(nextDeviceId);
        inventory := inventory[imei := DeviceRow(nextDeviceId, imei, Some(iccid), serverRef, Some(url),
                                                 None, None, None, None, Some(ref1), Some(brand), Some(model))];
        nextDeviceId := nextDeviceId + 1;
      }
      log := log + [Call.InsertDevice(imei, iccid, serverRef, ref1, url)];
    }

    method InsertUser(email: Option<string>, firebaseUid: Option<string>, serverId: Option<int>, url: string, link: Link)
      returns (r: Executed)
      modifies this
      ensures r == if link.Down? then ExecError(link.message) else Done(old(nextUserId))
      ensures users == if link.Up? then old(users) + [UserRow(old(nextUserId), email, None, firebaseUid, serverId, Some(url), None, None, JNull)]
                       else old(users)
      ensures nextUserId == if link.Up? then old(nextUserId) + 1 else old(nextUserId)
      ensures sims == old(sims) && trackers == old(trackers) && inventory == old(inventory) && nextDeviceId == old(nextDeviceId)
      ensures log == old(log) + [Call.InsertUser(email, firebaseUid, serverId, url)]
    {
      if link.Down? {
        r := ExecError(link.message);
      } else {
        r := Done(nextUserId);
        users := users + [UserRow(nextUserId, email, None, firebaseUid, serverId, Some(url), None, None, JNull)];
        nextUserId := nextUserId + 1;
      }
      log := log + [Call.InsertUser(email, firebaseUid, serverId, url)];
    }

    method UpdateUserName(id: Option<int>, name: string, link: Link) returns (r: Executed)
      modifies this
      ensures r == if link.Down? then ExecError(link.message) else Done(0)
      ensures users == if link.Up? then UpdateWhere(old(users), row => IdMatches(row, id), (row: UserRow) => row.(name := Some(name)))
                       else old(users)
      ensures sims == old(sims) && trackers == old(trackers) && inventory == old(inventory)
      ensures nextUserId == old(nextUserId) && nextDeviceId == old(nextDeviceId)
      ensures log == old(log) + [Call.UpdateUserName(id, name)]
    {
      if link.Down? {
        r := ExecError(link.message);
      } else {
        r := Done(0);
        users := UpdateWhere(users, row => IdMatches(row, id), (row: UserRow) => row.(name := Some(name)));
      }
      log := log + [Call.UpdateUserName(id, name)];
    }

    method UpdateUserMobile(id: Option<int>, mobile: string, link: Link) returns (r: Executed)
      modifies this
      ensures r == if link.Down? then ExecError(link.message) else Done(0)
      ensures users == if link.Up? then UpdateWhere(old(users), row => IdMatches(row, id), (row: UserRow) => row.(mobile := Some(mobile)))
                       else old(users)
      ensures sims == old(sims) && trackers == old(trackers) && inventory == old(inventory)
      ensures nextUserId == old(nextUserId) && nextDeviceId == old(nextDeviceId)
      ensures log == old(log) + [Call.UpdateUserMobile(id, mobile)]
    {
      if link.Down? {
        r := ExecError(link.message);
      } else {
        r := Done(0);
        users := UpdateWhere(users, row => IdMatches(row, id), (row: UserRow) => row.(mobile := Some(mobile)));
      }
      log := log + [Call.UpdateUserMobile(id, mobile)];
    }

    method DeleteUserRow(id: Option<int>, link: Link) returns (r: Executed)
      modifies this
      ensures r == if link.Down? then ExecError(link.message) else Done(0)
      ensures users == if link.Up? then DeleteWhere(old(users), row => IdMatches(row, id)) else old(users)
      ensures sims == old(sims) && trackers == old(trackers) && inventory == old(inventory)
      ensures nextUserId == old(nextUserId) && nextDeviceId == old(nextDeviceId)
      ensures log == old(log) + [Call.DeleteUserRow(id)]
    {
      if link.Down? {
        r := ExecError(link.message);
      } else {
        r := Done(0);
        users := DeleteWhere(users, row => IdMatches(row, id));
      }
      log := log + [Call.DeleteUserRow(id)];
    }

    method UpdateServerToken(uid: Option<string>, token: Json, link: Link) returns (r: Executed)
      modifies this
      ensures r == if link.Down? then ExecError(link.message) else Done(0)
      ensures users == if link.Up? then UpdateWhere(old(users), row => UidMatches(row, uid), (row: UserRow) => row.(serverToken := token))
                       else old(users)
      ensures sims == old(sims) && trackers == old(trackers) && inventory == old(inventory)
      ensures nextUserId == old(nextUserId) && nextDeviceId == old(nextDeviceId)
      ensures log == old(log) + [Call.UpdateServerToken(uid, token)]
    {
      if link.Down? {
        r := ExecError(link.message);
      } else {
        r := Done(0);
        users := UpdateWhere(users, row => UidMatches(row, uid), (row: UserRow) => row.(serverToken := token));
      }
      log := log + [Call.UpdateServerToken(uid, token)];
    }

    // --- Simbase

    method GetSimDetails(iccid: string, w: Wire) returns (r: Json)
      modifies this
      ensures r == SimDetailsResult(w)
      ensures StoresUnchanged() && log == old(log) + [GetSim(iccid)]
    {
      r := SimDetailsResult(w);
      log := log + [GetSim(iccid)];
    }

    /** `setSimState`: a state other than enabled/disabled is refused before
        any request is made. */
    method SetSimState(iccid: string, state: string, w: Wire) returns (r: Json)
      modifies this
      ensures r == SimStateResult(state, w)
      ensures sims == AfterSimState(old(sims), iccid, state, w)
      ensures trackers == old(trackers) && users == old(users) && inventory == old(inventory)
      ensures nextUserId == old(nextUserId) && nextDeviceId == old(nextDeviceId)
      ensures log == if ValidSimState(state) then old(log) + [Call.SetSimState(iccid, state)] else old(log)
    {
      r := SimStateResult(state, w);
      if ValidSimState(state) {
        sims := AfterSimState(sims, iccid, state, w);
        log := log + [Call.SetSimState(iccid, state)];
      }
    }

    method SetSimName(iccid: string, name: string, w: Wire) returns (r: Json)
      modifies this
      ensures r == SimNameResult(w)
      ensures sims == AfterSimName(old(sims), iccid, name, w)
      ensures trackers == old(trackers) && users == old(users) && inventory == old(inventory)
      ensures nextUserId == old(nextUserId) && nextDeviceId == old(nextDeviceId)
      ensures log == old(log) + [Call.SetSimName(iccid, name)]
    {
      r := SimNameResult(w);
      sims := AfterSimName(sims, iccid, name, w);
      log := log + [Call.SetSimName(iccid, name)];
    }

    method GetAccountBalance(w: Wire) returns (r: Json)
      modifies this
      ensures r == TraccarResult("Failed to fetch account balance", w)
      ensures StoresUnchanged() && log == old(log) + [GetBalance]
    {
      r := TraccarResult("Failed to fetch account balance", w);
      log := log + [GetBalance];
    }

    // --- Traccar

    method CreateDevice(url: string, name: string, uniqueId: string, w: Wire) returns (r: Json)
      modifies this
      ensures r == TraccarResult("Failed to create device", w)
      ensures trackers == AfterCreateDevice(old(trackers), url, name, uniqueId, w)
      ensures sims == old(sims) && users == old(users) && inventory == old(inventory)
      ensures nextUserId == old(nextUserId) && nextDeviceId == old(nextDeviceId)
      ensures log == old(log) + [Call.CreateDevice(url, name, uniqueId)]
    {
      r := TraccarResult("Failed to create device", w);
      trackers := AfterCreateDevice(trackers, url, name, uniqueId, w);
      log := log + [Call.CreateDevice(url, name, uniqueId)];
    }

    method DeleteDevice(url: string, id: Json, w: Wire) returns (r: Json)
      modifies this
      ensures r == TraccarResult("Failed to delete device", w)
      ensures trackers == AfterDeleteDevice(old(trackers), url, id, w)
      ensures sims == old(sims) && users == old(users) && inventory == old(inventory)
      ensures nextUserId == old(nextUserId) && nextDeviceId == old(nextDeviceId)
      ensures log == old(log) + [Call.DeleteDevice(url, id)]
    {
      r := TraccarResult("Failed to delete device", w);
      trackers := AfterDeleteDevice(trackers, url, id, w);
      log := log + [Call.DeleteDevice(url, id)];
    }

    method UpdateDevice(url: string, id: int, name: Option<string>, uniqueId: Option<string>, w: Wire) returns (r: Json)
      modifies this
      ensures r == TraccarResult("Failed to update device", w)
      ensures trackers == AfterUpdateDevice(old(trackers), url, id, name, uniqueId, w)
      ensures sims == old(sims) && users == old(users) && inventory == old(inventory)
      ensures nextUserId == old(nextUserId) && nextDeviceId == old(nextDeviceId)
      ensures log == old(log) + [Call.UpdateDevice(url, id, name, uniqueId)]
    {
      r := TraccarResult("Failed to update device", w);
      trackers := AfterUpdateDevice(trackers, url, id, name, uniqueId, w);
      log := log + [Call.UpdateDevice(url, id, name, uniqueId)];
    }

    method LinkUserToDevice(url: string, userId: int, deviceId: int, w: Wire) returns (r: Json)
      modifies this
      ensures r == LinkResult(w)
      ensures trackers == AfterLink(old(trackers), url, userId, deviceId, w)
      ensures sims == old(sims) && users == old(users) && inventory == old(inventory)
      ensures nextUserId == old(nextUserId) && nextDeviceId == old(nextDeviceId)
      ensures log == old(log) + [LinkUserDevice(url, userId, deviceId)]
    {
      r := LinkResult(w);
      trackers := AfterLink(trackers, url, userId, deviceId, w);
      log := log + [LinkUserDevice(url, userId, deviceId)];
    }

    method CreateUser(url: string, name: Option<string>, email: Option<string>, password: string, w: Wire) returns (r: Json)
      modifies this
      ensures r == TraccarResult("Failed to create user", w)
      ensures trackers == AfterCreateUser(old(trackers), url, TcUser(name, email, password, None), w)
      ensures sims == old(sims) && users == old(users) && inventory == old(inventory)
      ensures nextUserId == old(nextUserId) && nextDeviceId == old(nextDeviceId)
      ensures log == old(log) + [Call.CreateUser(url, name, email, password)]
    {
      r := TraccarResult("Failed to create user", w);
      trackers := AfterCreateUser(trackers, url, TcUser(name, email, password, None), w);
      log := log + [Call.CreateUser(url, name, email, password)];
    }

    method UpdateUser(url: string, id: int, name: Option<string>, email: Option<string>, phone: Option<string>, w: Wire)
      returns (r: Json)
      modifies this
      ensures r == TraccarResult("Failed to update user", w)
      ensures trackers == AfterUpdateUser(old(trackers), url, id, name, email, phone, w)
      ensures sims == old(sims) && users == old(users) && inventory == old(inventory)
      ensures nextUserId == old(nextUserId) && nextDeviceId == old(nextDeviceId)
      ensures log == old(log) + [Call.UpdateUser(url, id, name, email, phone)]
    {
      r := TraccarResult("Failed to update user", w);
      trackers := AfterUpdateUser(trackers, url, id, name, email, phone, w);
      log := log + [Call.UpdateUser(url, id, name, email, phone)];
    }

    method DeleteUser(url: string, id: int, w: Wire) returns (r: Json)
      modifies this
      ensures r == TraccarResult("Failed to delete user", w)
      ensures trackers == AfterDeleteUser(old(trackers), url, id, w)
      ensures sims == old(sims) && users == old(users) && inventory == old(inventory)
      ensures nextUserId == old(nextUserId) && nextDeviceId == old(nextDeviceId)
      ensures log == old(log) + [Call.DeleteUser(url, id)]
    {
      r := TraccarResult("Failed to delete user", w);
      trackers := AfterDeleteUser(trackers, url, id, w);
      log := log + [Call.DeleteUser(url, id)];
    }

    /** `createUserToken`: issues a session token, changing no stored state. */
    method CreateUserToken(url: string, email: Option<string>, password: string, w: Wire) returns (r: Json)
      modifies this
      ensures r == TraccarResult("Failed to create token", w)
      ensures StoresUnchanged() && log == old(log) + [CreateToken(url, email, password)]
    {
      r := TraccarResult("Failed to create token", w);
      log := log + [CreateToken(url, email, password)];
    }

    method GetServerInfo(url: string, w: Wire) returns (r: Json)
      modifies this
      ensures r == TraccarResult("Failed to fetch server info", w)
      ensures StoresUnchanged() && log == old(log) + [GetServer(url)]
    {
      r := TraccarResult("Failed to fetch server info", w);
      log := log + [GetServer(url)];
    }
  }
}
