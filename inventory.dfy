/** The inventory routes of index.php.

    `/inventory/addDevice` checks that the SIM is unused, then commits three
    steps in order (create the Traccar device, rename the SIM, insert the
    inventory row); two flags record what has committed, and on failure the
    catch block undoes the committed remote steps in reverse order.

    `/inventory/linkDevice` checks that the device is free, then renames the
    Traccar device, grants the user access to it, enables its SIM and records
    the assignment, without looking at any of their results. */
module InventoryRoutes {
  import opened Php
  import opened Backends

  // ---------------------------------------------------------------------
  // SIM eligibility (index.php:132-133)

  /** PHP 8 loose `$v == '@@'`: a string compares as a string, `true`
      equals any non-empty string, every other value differs. */
  predicate LooseEqualsMarker(v: Json) {
    v == JStr("@@") || v == JBool(true)
  }

  /** `($d && $d['state'] === 'disabled') && (empty($d['name']) || $d['name'] == '@@')`. */
  predicate Eligible(details: Json) {
    && Truthy(details) && Get(details, "state") == JStr("disabled")
    && (!Truthy(Get(details, "name")) || LooseEqualsMarker(Get(details, "name")))
  }

  /** A SIM is eligible exactly when Simbase reports it disabled and its name
      is absent, empty, "0", "@@" (or the loose equal `true`). */
  lemma EligibleIff(details: Json)
    ensures Eligible(details) <==>
      && details.JArr? && "state" in details.fields && details.fields["state"] == JStr("disabled")
      && ("name" !in details.fields
          || details.fields["name"] in {JNull, JStr(""), JStr("0"), JStr("@@"), JBool(false), JBool(true), JInt(0)}
          || details.fields["name"] == JArr(map[]))
  {
    if details.JArr? && "name" in details.fields {
      var n := details.fields["name"];
      if n.JStr? && n.s != "" && n.s != "0" && n.s != "@@" {
        assert !LooseEqualsMarker(n);
      }
    }
  }

  /** An unreachable Simbase gives an error array, which has no `state`:
      the request is refused as ineligible rather than as a failure. */
  lemma UnreachableSimbaseIneligible(message: string)
    ensures !Eligible(SimDetailsResult(Threw(message)))
  {
  }

  /** A SIM that already carries a name of its own is never taken. */
  lemma NamedSimIneligible(details: Json, name: string)
    requires IsSet(details, "name") && Get(details, "name") == JStr(name)
    requires name != "" && name != "0" && name != "@@"
    ensures !Eligible(details)
  {
  }

  // ---------------------------------------------------------------------
  // Name generation (index.php:141)

  /** `"@@ " . substr($imei, -4) . "/" . substr($iccid, -4)`. */
  function GeneratedName(imei: string, iccid: string): (r: string)
    ensures |r| == 4 + (if |imei| < 4 then |imei| else 4) + (if |iccid| < 4 then |iccid| else 4)
    ensures r[..3] == "@@ "
  {
    "@@ " + LastChars(imei, 4) + "/" + LastChars(iccid, 4)
  }

  /** The name ends with the last four characters of each identifier, or the
      whole identifier when it is shorter, separated by a slash. */
  lemma GeneratedNameParts(imei: string, iccid: string)
    ensures var r := GeneratedName(imei, iccid);
      var a := if |imei| < 4 then |imei| else 4;
      && r[3..3 + a] == imei[|imei| - a..]
      && r[3 + a] == '/'
      && r[4 + a..] == iccid[|iccid| - (if |iccid| < 4 then |iccid| else 4)..]
  {
    var a := LastChars(imei, 4);
    var b := LastChars(iccid, 4);
    var r := GeneratedName(imei, iccid);
    assert r == "@@ " + a + "/" + b;
    assert r[3..3 + |a|] == a;
    assert r[4 + |a|..] == b;
  }

  lemma GeneratedNameExample()
    ensures GeneratedName("356938035643809", "8931080019011234567") == "@@ 3809/4567"
    ensures GeneratedName("123", "89") == "@@ 123/89"
  {
    assert LastChars("356938035643809", 4) == "3809";
    assert LastChars("8931080019011234567", 4) == "4567";
  }

  // ---------------------------------------------------------------------
  // addDevice: stages, flags and rollback

  /** The request fields `server_url`, `imei` and `iccid`. */
  datatype AddBody = AddBody(serverUrl: Option<string>, imei: Option<string>, iccid: Option<string>)

  /** Outcomes of the calls in order: SIM read, Traccar create, SIM rename,
      inventory insert, and the two compensations. */
  datatype AddReplies = AddReplies(details: Wire, create: Wire, rename: Wire, insert: Link,
                                   undoRename: Wire, undoCreate: Wire)

  /** How far an add gets once its fields are present. */
  datatype AddStage =
    | Ineligible                               // 400; only the SIM was read
    | NoTraccarId                              // the create reply has no id
    | RenameRefused(id: Json, message: string) // device created, rename reported an error
    | InsertRefused(id: Json, message: string) // device created, SIM renamed, insert failed
    | Added(id: Json, rowId: int)              // all three steps committed

  function AddStageOf(details: Json, created: Json, renamed: Json, inserted: Executed): AddStage {
    if !Eligible(details) then Ineligible
    else if !IsSet(created, "id") then NoTraccarId
    else if IsSet(renamed, "error") then RenameRefused(Get(created, "id"), MessageText(Get(renamed, "message")))
    else if inserted.ExecError? then InsertRefused(Get(created, "id"), inserted.message)
    else Added(Get(created, "id"), inserted.lastInsertId)
  }

  /** A step that changed a remote system. */
  datatype Step = DeviceCreated(id: Json) | SimRenamed
  /** The compensation of a step. */
  datatype Undo = ResetSimName | RemoveDevice(id: Json)

  /** The remote steps committed by the time the stage was reached, in
      commit order. The insert is last, so no stage has committed it and
      then failed. */
  function Committed(stage: AddStage): seq<Step> {
    match stage
    case Ineligible => []
    case NoTraccarId => []
    case RenameRefused(id, _) => [DeviceCreated(id)]
    case InsertRefused(id, _) => [DeviceCreated(id), SimRenamed]
    case Added(id, _) => [DeviceCreated(id), SimRenamed]
  }

  /** `$simNameUpdated` and `$createdTraccarId` when the catch block runs. */
  function Flags(stage: AddStage): (bool, Json) {
    match stage
    case Ineligible => (false, JBool(false))
    case NoTraccarId => (false, JBool(false))
    case RenameRefused(id, _) => (false, id)
    case InsertRefused(id, _) => (true, id)
    case Added(id, _) => (true, id)
  }

  /** The catch block: reset the SIM name if it was changed, then delete the
      Traccar device if its id is truthy. */
  function Compensations(simNameUpdated: bool, createdTraccarId: Json): seq<Undo> {
    (if simNameUpdated then [ResetSimName] else [])
    + (if Truthy(createdTraccarId) then [RemoveDevice(createdTraccarId)] else [])
  }

  predicate Failed(stage: AddStage) {
    stage.NoTraccarId? || stage.RenameRefused? || stage.InsertRefused?
  }

  /** What the route undoes: the compensations of its flags, on failure. */
  function Rollback(stage: AddStage): seq<Undo> {
    if Failed(stage) then Compensations(Flags(stage).0, Flags(stage).1) else []
  }

  function UndoOf(s: Step): Undo {
    match s
    case DeviceCreated(id) => RemoveDevice(id)
    case SimRenamed => ResetSimName
  }

  /** An explicit undo log: the compensations of the committed steps, last
      step first. */
  function ReverseUndo(steps: seq<Step>): (r: seq<Undo>)
    ensures |r| == |steps|
    ensures forall i | 0 <= i < |steps| :: r[i] == UndoOf(steps[|steps| - 1 - i])
  {
    if |steps| == 0 then [] else [UndoOf(steps[|steps| - 1])] + ReverseUndo(steps[..|steps| - 1])
  }

  /** The flags are a complete undo log: on every failure whose Traccar id is
      truthy, they undo exactly the committed steps, last first. */
  lemma RollbackIsReverseUndo(stage: AddStage)
    requires Failed(stage)
    requires !stage.NoTraccarId? ==> Truthy(stage.id)
    ensures Rollback(stage) == ReverseUndo(Committed(stage))
  {
    match stage
    case NoTraccarId =>
    case RenameRefused(id, _) =>
      assert ReverseUndo([DeviceCreated(id)]) == [RemoveDevice(id)];
    case InsertRefused(id, _) =>
      assert [DeviceCreated(id), SimRenamed][..1] == [DeviceCreated(id)];
      assert ReverseUndo([DeviceCreated(id), SimRenamed]) == [ResetSimName, RemoveDevice(id)];
  }

  /** The rollback never undoes a step that did not commit. */
  lemma RollbackOnlyCommitted(stage: AddStage)
    ensures forall u | u in Rollback(stage) :: exists s | s in Committed(stage) :: UndoOf(s) == u
  {
    match stage
    case Ineligible =>
    case NoTraccarId =>
    case RenameRefused(id, _) =>
      assert UndoOf(DeviceCreated(id)) == RemoveDevice(id);
    case InsertRefused(id, _) =>
      assert UndoOf(DeviceCreated(id)) == RemoveDevice(id);
      assert UndoOf(SimRenamed) == ResetSimName;
    case Added(_, _) =>
  }

  /** A device that Traccar created under a falsy id (0 or "0") is not
      deleted by the rollback: the flag holds the id itself. */
  lemma FalsyIdSkipsDelete(message: string)
    ensures Committed(RenameRefused(JInt(0), message)) == [DeviceCreated(JInt(0))]
    ensures Rollback(RenameRefused(JInt(0), message)) == []
  {
  }

  /** The rollback puts back the marker name "@@", not the name the SIM
      had: an eligible SIM with an empty name ends up named "@@". */
  lemma RollbackRenamesToMarker(sims: map<string, Sim>, iccid: string, imei: string, body: Json, body2: Json)
    requires iccid in sims
    ensures var renamed := AfterSimName(sims, iccid, "@@ " + imei, Returned(body));
      AfterSimName(renamed, iccid, "@@", Returned(body2))[iccid] == sims[iccid].(name := "@@")
  {
  }

  /** Deleting the device that was just created under a fresh id gives the
      Traccar server back exactly as it was. */
  lemma RollbackRestoresTraccar(ts: map<string, Tracker>, url: string, name: string, imei: string,
                                body: Json, id: int, undone: Json)
    requires IsSet(body, "id") && Get(body, "id") == JInt(id)
    requires id !in TrackerAt(ts, url).devices
    ensures var created := AfterCreateDevice(ts, url, name, imei, Returned(body));
      forall u :: TrackerAt(AfterDeleteDevice(created, url, JInt(id), Returned(undone)), u) == TrackerAt(ts, u)
  {
    var created := AfterCreateDevice(ts, url, name, imei, Returned(body));
    var back := AfterDeleteDevice(created, url, JInt(id), Returned(undone));
    assert TrackerAt(back, url).devices == TrackerAt(ts, url).devices;
  }

  /** A successful add runs no compensation. */
  lemma AddedRollsNothingBack(id: Json, rowId: int)
    ensures Rollback(Added(id, rowId)) == []
  {
  }

  // ---------------------------------------------------------------------
  // addDevice: responses, calls and the resulting world

  const Brand := "istartek"
  const Model := "VT100"

  function AddReply(stage: AddStage, name: string): Response {
    match stage
    case Ineligible => Response(400, ErrorBody("SIM is either not found, already named, or enabled."))
    case NoTraccarId => Response(500, ErrorBody("Failed to create device on Traccar"))
    case RenameRefused(_, m) => Response(500, ErrorBody("Failed to set SIM name: " + m))
    case InsertRefused(_, m) => Response(500, ErrorBody("Failed to insert device into database: " + m))
    case Added(id, rowId) =>
      Response(201, JArr(map["status" := JStr("success"), "traccar_id" := id,
                             "generated_name" := JStr(name), "mysql_id" := JInt(rowId)]))
  }

  /** The forward calls, in order, as far as the stage got. */
  function AddCalls(url: string, imei: string, iccid: string, stage: AddStage): seq<Call> {
    var read := GetSim(iccid);
    var create := Call.CreateDevice(url, GeneratedName(imei, iccid), imei);
    var rename := Call.SetSimName(iccid, "@@ " + imei);
    match stage
    case Ineligible => [read]
    case NoTraccarId => [read, create]
    case RenameRefused(_, _) => [read, create, rename]
    case InsertRefused(id, _) => [read, create, rename, Call.InsertDevice(imei, iccid, IdColumn(id), GeneratedName(imei, iccid), url)]
    case Added(id, _) => [read, create, rename, Call.InsertDevice(imei, iccid, IdColumn(id), GeneratedName(imei, iccid), url)]
  }

  function UndoCall(url: string, iccid: string, u: Undo): Call {
    match u
    case ResetSimName => Call.SetSimName(iccid, "@@")
    case RemoveDevice(id) => Call.DeleteDevice(url, id)
  }

  function UndoCalls(url: string, iccid: string, undos: seq<Undo>): seq<Call> {
    seq(|undos|, i requires 0 <= i < |undos| => UndoCall(url, iccid, undos[i]))
  }

  function SimsAfterAdd(sims: map<string, Sim>, iccid: string, imei: string, stage: AddStage, o: AddReplies)
    : map<string, Sim>
  {
    if stage.Ineligible? || stage.NoTraccarId? then sims
    else
      var renamed := AfterSimName(sims, iccid, "@@ " + imei, o.rename);
      if Failed(stage) && Flags(stage).0 then AfterSimName(renamed, iccid, "@@", o.undoRename) else renamed
  }

  function TrackersAfterAdd(ts: map<string, Tracker>, url: string, imei: string, iccid: string,
                            stage: AddStage, o: AddReplies): map<string, Tracker>
  {
    if stage.Ineligible? then ts
    else
      var created := AfterCreateDevice(ts, url, GeneratedName(imei, iccid), imei, o.create);
      if Failed(stage) && Truthy(Flags(stage).1)
      then AfterDeleteDevice(created, url, Flags(stage).1, o.undoCreate) else created
  }

  predicate MissingFields(body: AddBody) {
    EmptyStr(body.serverUrl) || EmptyStr(body.imei) || EmptyStr(body.iccid)
  }

  /** The inventory insert of the route, with its fixed brand and model. */
  method InsertRow(w: World, imei: string, iccid: string, traccarId: Json, name: string, url: string, link: Link)
    returns (r: Executed)
    modifies w
    ensures r == InsertResult(old(w.inventory), old(w.nextDeviceId), imei, link)
    ensures w.inventory == if r.Done?
      then old(w.inventory)[imei := DeviceRow(old(w.nextDeviceId), imei, Some(iccid), IdColumn(traccarId), Some(url),
                                              None, None, None, None, Some(name), Some(Brand), Some(Model))]
      else old(w.inventory)
    ensures w.nextDeviceId == if r.Done? then old(w.nextDeviceId) + 1 else old(w.nextDeviceId)
    ensures w.log == old(w.log) + [Call.InsertDevice(imei, iccid, IdColumn(traccarId), name, url)]
    ensures w.sims == old(w.sims) && w.trackers == old(w.trackers)
    ensures w.users == old(w.users) && w.nextUserId == old(w.nextUserId)
  {
    r := w.InsertDevice(imei, iccid, IdColumn(traccarId), name, url, Brand, Model, link);
  }

  /** The `try` part of the route up to the point where it either answers
      201 or throws; returns the stage and the generated name. */
  method AddSteps(w: World, url: string, imei: string, iccid: string, o: AddReplies)
    returns (stage: AddStage)
    modifies w
    ensures stage == AddStageOf(SimDetailsResult(o.details), TraccarResult("Failed to create device", o.create),
                                SimNameResult(o.rename), InsertResult(old(w.inventory), old(w.nextDeviceId), imei, o.insert))
    ensures w.log == old(w.log) + AddCalls(url, imei, iccid, stage)
    ensures w.sims == if stage.Ineligible? || stage.NoTraccarId? then old(w.sims)
                      else AfterSimName(old(w.sims), iccid, "@@ " + imei, o.rename)
    ensures w.trackers == if stage.Ineligible? then old(w.trackers)
                          else AfterCreateDevice(old(w.trackers), url, GeneratedName(imei, iccid), imei, o.create)
    ensures w.inventory == if stage.Added?
      then old(w.inventory)[imei := DeviceRow(old(w.nextDeviceId), imei, Some(iccid), IdColumn(stage.id), Some(url),
                                              None, None, None, None, Some(GeneratedName(imei, iccid)), Some(Brand), Some(Model))]
      else old(w.inventory)
    ensures w.nextDeviceId == if stage.Added? then old(w.nextDeviceId) + 1 else old(w.nextDeviceId)
    ensures w.users == old(w.users) && w.nextUserId == old(w.nextUserId)
  {
    var details := w.GetSimDetails(iccid, o.details);
    if !Eligible(details) {
      return Ineligible;
    }
    ghost var read := w.log;
    stage := CreateAndRecord(w, url, imei, iccid, o);
    AddCallsAfterRead(url, imei, iccid, stage);
    assert w.log == read + (w.log[|read|..]);
  }

  /** The calls of an eligible request: the read, then the steps after it. */
  lemma AddCallsAfterRead(url: string, imei: string, iccid: string, stage: AddStage)
    requires !stage.Ineligible?
    ensures AddCalls(url, imei, iccid, stage)
         == [GetSim(iccid)] + ([Call.CreateDevice(url, GeneratedName(imei, iccid), imei)]
                               + (if stage.NoTraccarId? then [] else [Call.SetSimName(iccid, "@@ " + imei)])
                               + (if stage.NoTraccarId? || stage.RenameRefused? then []
                                  else [Call.InsertDevice(imei, iccid, IdColumn(stage.id), GeneratedName(imei, iccid), url)]))
  {
  }

  /** The steps of an eligible SIM: create the Traccar device, then, when
      it has an id, rename the SIM and insert the row. */
  method CreateAndRecord(w: World, url: string, imei: string, iccid: string, o: AddReplies)
    returns (stage: AddStage)
    modifies w
    ensures var created := TraccarResult("Failed to create device", o.create);
      var renamed := SimNameResult(o.rename);
      var inserted := InsertResult(old(w.inventory), old(w.nextDeviceId), imei, o.insert);
      stage == if !IsSet(created, "id") then NoTraccarId
               else if IsSet(renamed, "error") then RenameRefused(Get(created, "id"), MessageText(Get(renamed, "message")))
               else if inserted.ExecError? then InsertRefused(Get(created, "id"), inserted.message)
               else Added(Get(created, "id"), inserted.lastInsertId)
    ensures w.log == old(w.log) + [Call.CreateDevice(url, GeneratedName(imei, iccid), imei)]
                     + (if stage.NoTraccarId? then [] else [Call.SetSimName(iccid, "@@ " + imei)])
                     + (if stage.NoTraccarId? || stage.RenameRefused? then []
                        else [Call.InsertDevice(imei, iccid, IdColumn(stage.id), GeneratedName(imei, iccid), url)])
    ensures w.sims == if stage.NoTraccarId? then old(w.sims) else AfterSimName(old(w.sims), iccid, "@@ " + imei, o.rename)
    ensures w.trackers == AfterCreateDevice(old(w.trackers), url, GeneratedName(imei, iccid), imei, o.create)
    ensures w.inventory == if stage.Added?
      then old(w.inventory)[imei := DeviceRow(old(w.nextDeviceId), imei, Some(iccid), IdColumn(stage.id), Some(url),
                                              None, None, None, None, Some(GeneratedName(imei, iccid)), Some(Brand), Some(Model))]
      else old(w.inventory)
    ensures w.nextDeviceId == if stage.Added? then old(w.nextDeviceId) + 1 else old(w.nextDeviceId)
    ensures w.users == old(w.users) && w.nextUserId == old(w.nextUserId)
  {
    var device := w.CreateDevice(url, GeneratedName(imei, iccid), imei, o.create);
    if !IsSet(device, "id") {
      return NoTraccarId;
    }
    stage := RenameAndInsert(w, url, imei, iccid, Get(device, "id"), o);
  }

  /** The steps after the Traccar device `id` exists: rename the SIM, then
      insert the inventory row. */
  method RenameAndInsert(w: World, url: string, imei: string, iccid: string, id: Json, o: AddReplies)
    returns (stage: AddStage)
    modifies w
    ensures var renamed := SimNameResult(o.rename);
      var inserted := InsertResult(old(w.inventory), old(w.nextDeviceId), imei, o.insert);
      stage == if IsSet(renamed, "error") then RenameRefused(id, MessageText(Get(renamed, "message")))
               else if inserted.ExecError? then InsertRefused(id, inserted.message)
               else Added(id, inserted.lastInsertId)
    ensures w.log == old(w.log) + [Call.SetSimName(iccid, "@@ " + imei)]
                     + (if stage.RenameRefused? then []
                        else [Call.InsertDevice(imei, iccid, IdColumn(id), GeneratedName(imei, iccid), url)])
    ensures w.sims == AfterSimName(old(w.sims), iccid, "@@ " + imei, o.rename)
    ensures w.inventory == if stage.Added?
      then old(w.inventory)[imei := DeviceRow(old(w.nextDeviceId), imei, Some(iccid), IdColumn(id), Some(url),
                                              None, None, None, None, Some(GeneratedName(imei, iccid)), Some(Brand), Some(Model))]
      else old(w.inventory)
    ensures w.nextDeviceId == if stage.Added? then old(w.nextDeviceId) + 1 else old(w.nextDeviceId)
    ensures w.trackers == old(w.trackers)
    ensures w.users == old(w.users) && w.nextUserId == old(w.nextUserId)
  {
    var renamed := w.SetSimName(iccid, "@@ " + imei, o.rename);
    if IsSet(renamed, "error") {
      return RenameRefused(id, MessageText(Get(renamed, "message")));
    }
    var inserted := InsertRow(w, imei, iccid, id, GeneratedName(imei, iccid), url, o.insert);
    if inserted.ExecError? {
      return InsertRefused(id, inserted.message);
    }
    stage := Added(id, inserted.lastInsertId);
  }

  /** The catch block: run the compensations the flags call for, in order. */
  method Compensate(w: World, url: string, iccid: string, simNameUpdated: bool, createdTraccarId: Json,
                    undoRename: Wire, undoCreate: Wire)
    modifies w
    ensures w.log == old(w.log) + UndoCalls(url, iccid, Compensations(simNameUpdated, createdTraccarId))
    ensures w.sims == if simNameUpdated then AfterSimName(old(w.sims), iccid, "@@", undoRename) else old(w.sims)
    ensures w.trackers == if Truthy(createdTraccarId)
                          then AfterDeleteDevice(old(w.trackers), url, createdTraccarId, undoCreate)
                          else old(w.trackers)
    ensures w.inventory == old(w.inventory) && w.users == old(w.users)
    ensures w.nextUserId == old(w.nextUserId) && w.nextDeviceId == old(w.nextDeviceId)
  {
    if simNameUpdated {
      var _ := w.SetSimName(iccid, "@@", undoRename);
    }
    if Truthy(createdTraccarId) {
      var _ := w.DeleteDevice(url, createdTraccarId, undoCreate);
    }
  }

  method AddDevice(w: World, body: AddBody, o: AddReplies) returns (resp: Response)
    modifies w
    ensures MissingFields(body) ==>
      resp == Response(400, ErrorBody("Missing required fields"))
      && w.log == old(w.log) && w.sims == old(w.sims) && w.trackers == old(w.trackers)
      && w.inventory == old(w.inventory) && w.nextDeviceId == old(w.nextDeviceId)
    ensures !MissingFields(body) ==>
      var url, imei, iccid := body.serverUrl.value, body.imei.value, body.iccid.value;
      var stage := AddStageOf(SimDetailsResult(o.details), TraccarResult("Failed to create device", o.create),
                              SimNameResult(o.rename), InsertResult(old(w.inventory), old(w.nextDeviceId), imei, o.insert));
      && resp == AddReply(stage, GeneratedName(imei, iccid))
      && w.log == old(w.log) + AddCalls(url, imei, iccid, stage) + UndoCalls(url, iccid, Rollback(stage))
      && w.sims == SimsAfterAdd(old(w.sims), iccid, imei, stage, o)
      && w.trackers == TrackersAfterAdd(old(w.trackers), url, imei, iccid, stage, o)
      && w.inventory == (if stage.Added?
           then old(w.inventory)[imei := DeviceRow(old(w.nextDeviceId), imei, Some(iccid), IdColumn(stage.id), Some(url),
                                                   None, None, None, None, Some(GeneratedName(imei, iccid)), Some(Brand), Some(Model))]
           else old(w.inventory))
    ensures w.users == old(w.users) && w.nextUserId == old(w.nextUserId)
  {
    if MissingFields(body) {
      return Response(400, ErrorBody("Missing required fields"));
    }
    var url, imei, iccid := body.serverUrl.value, body.imei.value, body.iccid.value;
    var stage := AddSteps(w, url, imei, iccid, o);
    ghost var forward := w.log;
    if Failed(stage) {
      var (simNameUpdated, createdTraccarId) := Flags(stage);
      Compensate(w, url, iccid, simNameUpdated, createdTraccarId, o.undoRename, o.undoCreate);
      assert w.log == forward + UndoCalls(url, iccid, Rollback(stage));
    } else {
      assert Rollback(stage) == [];
      assert w.log == forward + UndoCalls(url, iccid, Rollback(stage));
    }
    resp := AddReply(stage, GeneratedName(imei, iccid));
  }

  // ---------------------------------------------------------------------
  // linkDevice (index.php:74-104)

  /** The request fields of a link. */
  datatype LinkBody = LinkBody(serverUrl: Option<string>, imei: Option<string>, name: Option<string>,
                               serverId: Option<int>, id: Option<int>)

  /** Outcomes of the device lookup, the Traccar rename, the permission
      link, the SIM enable and the assignment update. */
  datatype LinkReplies = LinkReplies(lookup: Link, rename: Wire, permit: Wire, enable: Wire, assign: Link)

  /** `!$device || !empty($device['server_user_assigned'])`: no row, or a
      row already assigned. An error array is truthy and passes. */
  predicate Unavailable(device: Fetched<DeviceRow>) {
    device.NoRow? || (device.Row? && !EmptyInt(device.row.serverUserAssigned))
  }

  /** `(int)$device['server_ref']`. */
  function RefOf(device: Fetched<DeviceRow>): int {
    (if device.Row? then device.row.serverRef else None).GetOr(0)
  }

  function IccidOf(device: Fetched<DeviceRow>): Option<string> {
    if device.Row? then device.row.simIccid else None
  }

  /** A null ICCID passed to the `string` parameter of `setSimState` raises a
      TypeError, which the route's `catch (Exception $e)` does not catch. */
  const NullIccid := Uncaught("App\\Services\\Simbase::setSimState(): Argument #1 ($iccid) must be of type string, null given")

  method LinkDevice(w: World, body: LinkBody, o: LinkReplies) returns (resp: Response)
    modifies w
    ensures body.serverUrl.None? ==>
      resp == NullDomain && w.log == old(w.log) && w.sims == old(w.sims) && w.trackers == old(w.trackers)
      && w.inventory == old(w.inventory)
    ensures body.serverUrl.Some? && Unavailable(FetchDevice(old(w.inventory), body.imei, o.lookup)) ==>
      resp == Response(400, ErrorBody("Device unavailable or already assigned"))
      && w.log == old(w.log) + [SelectDevice(body.imei)]
      && w.sims == old(w.sims) && w.trackers == old(w.trackers) && w.inventory == old(w.inventory)
    ensures body.serverUrl.Some? && !Unavailable(FetchDevice(old(w.inventory), body.imei, o.lookup)) ==>
      var url := body.serverUrl.value;
      var device := FetchDevice(old(w.inventory), body.imei, o.lookup);
      var ref, userId := RefOf(device), body.serverId.GetOr(0);
      var remote := [SelectDevice(body.imei), Call.UpdateDevice(url, ref, body.name, body.imei),
                     LinkUserDevice(url, userId, ref)];
      && w.trackers == AfterLink(AfterUpdateDevice(old(w.trackers), url, ref, body.name, body.imei, o.rename),
                                 url, userId, ref, o.permit)
      && (IccidOf(device).None? ==>
            resp == NullIccid && w.log == old(w.log) + remote
            && w.sims == old(w.sims) && w.inventory == old(w.inventory))
      && (IccidOf(device).Some? ==>
            var iccid := IccidOf(device).value;
            && resp == Response(200, JArr(map["status" := JStr("success")]))
            && w.log == old(w.log) + remote + [Call.SetSimState(iccid, "enabled"), UpdateAssignment(body.imei, body.id)]
            && w.sims == AfterSimState(old(w.sims), iccid, "enabled", o.enable)
            && w.inventory == WithAssignment(old(w.inventory), body.imei, body.id, o.assign))
    ensures w.users == old(w.users) && w.nextUserId == old(w.nextUserId) && w.nextDeviceId == old(w.nextDeviceId)
  {
    if body.serverUrl.None? {
      return NullDomain;
    }
    var url := body.serverUrl.value;
    var device := w.SelectDevice(body.imei, o.lookup);
    if Unavailable(device) {
      return Response(400, ErrorBody("Device unavailable or already assigned"));
    }
    var ref := RefOf(device);
    var _ := w.UpdateDevice(url, ref, body.name, body.imei, o.rename);
    var _ := w.LinkUserToDevice(url, body.serverId.GetOr(0), ref, o.permit);
    if IccidOf(device).None? {
      return NullIccid;
    }
    var _ := w.SetSimState(IccidOf(device).value, "enabled", o.enable);
    var _ := w.UpdateAssignment(body.imei, body.id, o.assign);
    resp := Response(200, JArr(map["status" := JStr("success")]));
  }

  /** A failed lookup is not refused: the error array is truthy and has no
      `server_user_assigned`, so the route goes on with device 0 and stops
      at the SIM step. */
  lemma LookupErrorNotRefused(inventory: map<string, DeviceRow>, imei: Option<string>, message: string)
    ensures var device := FetchDevice(inventory, imei, Down(message));
      !Unavailable(device) && RefOf(device) == 0 && IccidOf(device).None?
  {
  }
}
