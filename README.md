# Navitag consolidated backend: a Dafny model of its coordinating routes

The backend is a PHP (Slim) service. It sits between a mobile app and three
systems:

- Traccar servers, which hold users, GPS devices and user-device permissions;
- Simbase, which holds the fleet's SIM cards (state and name per ICCID);
- a MySQL database with a `users` table and a `device_inventory` table.

Most of the code is HTTP glue. This project models the routines that make
decisions and order side effects:

- `DeviceRoutes` (`src/Controllers/Device.php`): `enable` and `disable`. Each is a chain of
  guarded early exits (assignment, SIM, ownership, expiry, live SIM status)
  ending in one Simbase state change. For `enable`, an expiration renewal of
  "now + N calendar months at 23:59:59" follows (`Calendar`).
- `InventoryRoutes` (`index.php`):
  - `/inventory/addDevice` checks SIM eligibility and generates a name. It then
    commits a Traccar device, a SIM rename and an inventory row. When a later
    step fails it compensates the earlier ones, newest first: it sets the SIM
    name to `@@` and deletes the device when its id is truthy.
  - `/inventory/linkDevice` runs four unguarded steps after a precondition.
- `UserRoutes` (`src/Controllers/User.php`): `sync`, `update` and `delete`, which write
  the remote Traccar user first and the local row only on remote success.
  The Traccar password is the unpadded base64url encoding of the e-mail
  address (`Base64Url`, RFC 4648 section 5 with padding omitted as section
  3.2 allows), proved to decode back to the address.
- `AuthGate` (`src/Middleware/FirebaseAuthMiddleware.php`): the admin-key bypass, the
  `str_replace('Bearer ', '', ...)` token extraction, the empty-token refusal
  and the verify-or-401 decision.
- `ServerRoutes` (`src/Controllers/Server.php`): the health-report mapping
  (`testServer`, `serverInfo`) and `generateToken`.

Shared pieces:

- `Php` models the PHP value semantics the routes depend on: `isset`, `??`,
  `empty`, truthiness and `substr($s, -n)`.
- `Backends` holds the world the routes act on, a class `World` with these fields:
  - the SIM map;
  - one Traccar store per server URL;
  - the `users` rows, where a fetch returns the first match;
  - the inventory keyed by its unique IMEI;
  - the auto-increment counters;
  - a log of every call made.

  Every wrapper call (`simbase.php`, `traccar.php`, `MysqlDatabase.php`) is a
  method of `World`. The call's outcome comes in as an oracle parameter:
  - `Wire`: the HTTP request threw, or it returned a decoded body and the
    remote applied the write;
  - `Link`: the database is up or down.

  Each method returns exactly what the PHP wrapper returns for that outcome,
  including the wrappers' error arrays, and states the world's whole new state.

Each route is a method over `World`. Its `ensures` gives the response, the
exact sequence of calls made and the new content of every store. Each one is
stated through pure decision functions (`EnableOutcome`, `AddStageOf`,
`Rollback`, `UpdatePayload`, ...), and the properties of the routes are proved
as lemmas about those functions.

Where the code behaves differently from what its comments suggest, the model follows the code:
- The rollback of `addDevice` (`index.php:191-200`) is not a full undo:
  - the Traccar device is deleted only when its id is truthy, so a device
    created under id 0 stays (`InventoryRoutes.FalsyIdSkipsDelete`);
  - the SIM rename is compensated by setting the name to `@@`, not by
    restoring the name the SIM had (`InventoryRoutes.RollbackRenamesToMarker`).
- `Device.php:80` treats only a falsy activation result as a failure. The
  error array a failed Simbase call returns is truthy, so a failed activation
  still renews the expiration and answers 200. This is lemma
  `DeviceRoutes.FailedActivationStillRenews`.
- The bearer extraction does not reject a header without the `Bearer `
  prefix, or with the prefix repeated. It removes every occurrence in one
  pass and sends the rest to the verifier. This is covered by the lemmas
  `AuthGate.RawTokenPassedThrough` and `AuthGate.StripSinglePass`.
- The Simbase health status reads the message from the key `errors`, while
  error arrays carry `message`. A failed balance request is therefore
  reported as `Unknown` (`ServerRoutes.SimbaseMessageReadFromErrors`).
- A PHP `null` passed to a `string` parameter raises a `TypeError`.
  `catch (Exception $e)` does not catch it, so the model returns `Uncaught`
  instead of a response. This happens in two places:
  - a missing `server_url` reaches the Traccar client factory (`NullDomain`);
  - a missing ICCID reaches `setSimState` in `linkDevice` (`NullIccid`).
- `new DateTimeImmutable('now')` has microseconds, `setTime(23, 59, 59)` clears
  them, and the expiry check compares them. A request in the expiration's last
  second is refused (`DeviceRoutes.ExpiredWithinLastSecond`). Enabling with 0
  months during 23:59:59 writes an expiration that is already past
  (`Calendar.ZeroMonthsInLastSecond`).

## Model

| member | source | states |
|---|---|---|
| Php.Get | src/Controllers/Server.php:34 | `$j[$k] ?? null` is non-null exactly when `isset($j[$k])`, and is then the entry `$j[$k]` |
| Php.LastChars | index.php:141 | `substr($s, -4)` has length min(4, length of s) and is a suffix of s |
| Calendar.DaysIn | src/Controllers/Device.php:87 | month lengths: 31 for the seven long months, 30 exactly for April, June, September and November, 29 for February exactly in leap years and 28 otherwise |
| Calendar.ShiftMonth | src/Controllers/Device.php:87 | `+N months` moves the year-month index by exactly N, wrapping the month into 1..12 |
| Calendar.AddMonths | src/Controllers/Device.php:87 | `modify("+N months")`: a valid date with the same time of day; the same day when it fits the target month, otherwise the overflow days spill into the next month (at most 3) |
| Calendar.NewExpiration | src/Controllers/Device.php:84-88 | the renewed expiration is a valid date-time at 23:59:59.000000 on `now`'s day N months later, or on the overflow day in the following month when the target month is too short |
| Calendar.BeforeIsKeyOrder | src/Controllers/Device.php:54 | the `<` comparison on date-times is the order of their microsecond counts, which are equal only for equal date-times |
| Calendar.NewExpirationNotBeforeNow | src/Controllers/Device.php:48-88 | for a month count of at least 1, or of 0 when `now` has no microseconds, the renewed expiration is never before now |
| Calendar.ZeroMonthsInLastSecond | src/Controllers/Device.php:48-88 | with 0 months, a `now` inside 23:59:59 but past its first microsecond is already after the expiration written |
| Calendar.NegativeMonthsExpireImmediately | src/Controllers/Device.php:84-88 | for every valid `now` and every negative `preloaded_months`, the renewed expiration is already before now |
| Calendar.TwoMonthsFromMidJanuary | src/Controllers/Device.php:84-88 | 2024-01-15 10:00 plus 2 months renews to 2024-03-15 23:59:59 |
| Calendar.EndOfJanuaryOverflows | src/Controllers/Device.php:84-88 | 2024-01-31 plus 1 month overflows to 2024-03-02 23:59:59, as PHP's normalisation does |
| Calendar.Format | src/Controllers/Device.php:88 | `format('Y-m-d H:i:s')` is 19 characters with the separators in place for four-digit years |
| Calendar.DigitsValue | src/Controllers/Device.php:88 | the zero-padded decimal digits read back as the number they were made from |
| Calendar.FormatReadBack | src/Controllers/Device.php:88 | for a four-digit year, the six digit fields of the text read back as the year, month, day, hour, minute and second |
| Base64Url.PasswordIsUnpaddedBase64Url | src/Controllers/User.php:32 | `rtrim(strtr(base64_encode(e), '+/', '-_'), '=')` equals the unpadded base64url encoding of e |
| Base64Url.Repad | src/Controllers/User.php:32 | restoring the padding makes the length a multiple of four whenever it is not 1 modulo 4, which no unpadded encoding is |
| Base64Url.PasswordRoundTrip | src/Controllers/User.php:32 | re-padding and decoding the password yields the e-mail back |
| Base64Url.PasswordInjective | src/Controllers/User.php:32 | different e-mail addresses get different passwords |
| Base64Url.UrlNoPad | src/Controllers/User.php:32 | the unpadded encoding of n bytes has (4n+2) div 3 characters, that is ceil(4n/3) |
| Base64Url.UrlNoPadAlphabet | src/Controllers/User.php:32 | the unpadded encoding uses only `A-Z a-z 0-9 - _`, so never `=` |
| AuthGate.Subject | src/Controllers/Server.php:117 | the caller's `sub` is present exactly when the claims hold a string `sub`, and is then that claim's value |
| AuthGate.StripBearer | src/Middleware/FirebaseAuthMiddleware.php:28 | `str_replace('Bearer ', '', h)` never lengthens the header |
| AuthGate.StripUnchangedIff | src/Middleware/FirebaseAuthMiddleware.php:28 | the header is passed through unchanged exactly when it contains no `Bearer ` |
| AuthGate.StripWellFormed | src/Middleware/FirebaseAuthMiddleware.php:27-28 | `Bearer ` followed by a token without the marker yields the token |
| AuthGate.StripKeepsPlain | src/Middleware/FirebaseAuthMiddleware.php:28 | a prefix with no `B` passes through removal untouched |
| AuthGate.StripSinglePass | src/Middleware/FirebaseAuthMiddleware.php:28 | removal is one left-to-right pass: for any `t` without the marker, `BeBearer arer t` becomes `Bearer t`, which still contains the marker |
| AuthGate.Gate | src/Middleware/FirebaseAuthMiddleware.php:13-46 | the bypass attaches the admin claims without verifying; otherwise the stripped token is sent to the verifier exactly when it is truthy, and a falsy one is refused with 401 `No token provided`; a verifier failure gives 401 with its message; the handler runs at most once, with the verified claims; a handled request answers the handler's response; a handler exception escapes on the bypass and becomes a 401 with its message after verification |
| AuthGate.HandlerExceptionAsymmetry | src/Middleware/FirebaseAuthMiddleware.php:18-45 | the same handler exception escapes the gate on the admin bypass and is answered 401 on the verified path |
| AuthGate.BypassIff | src/Middleware/FirebaseAuthMiddleware.php:15-25 | the bypass happens exactly when `ADMIN_KEY` is set and truthy and `X-Admin-Key` equals it |
| AuthGate.WrongAdminKeyFallsThrough | src/Middleware/FirebaseAuthMiddleware.php:18-36 | a wrong admin key falls through to verifying the bearer token |
| AuthGate.VerifierFailureIs401 | src/Middleware/FirebaseAuthMiddleware.php:34-45 | any verifier exception gives status 401 and the handler is not run |
| AuthGate.BareBearerRefused | src/Middleware/FirebaseAuthMiddleware.php:30-32 | `Bearer ` alone and `Bearer 0` are refused with "No token provided" and nothing is verified |
| AuthGate.RawTokenPassedThrough | src/Middleware/FirebaseAuthMiddleware.php:27-36 | a header without the `Bearer ` prefix is verified as it is |
| Backends.First | src/services/MysqlDatabase.php:39-54 | `fetch()` returns the first matching row, and no row exactly when none matches |
| Backends.DeleteWhere | src/services/MysqlDatabase.php:78-94 | a `DELETE ... WHERE` keeps exactly the rows that do not match |
| Backends.DeleteWhereRowByRow | src/services/MysqlDatabase.php:78-94 | deletion works row by row: a single row stays exactly when it does not match, and deleting from a concatenation deletes from each part, so the remaining rows keep their order and multiplicity |
| Backends.FetchUserByAuthUid | src/services/MysqlDatabase.php:39-54 | a user lookup fails exactly when the database is down, returns a matching row, and returns `[]` exactly when no row matches |
| Backends.FetchUserById | src/services/MysqlDatabase.php:39-54 | the same for the lookup by id |
| Backends.FetchDevice | src/services/MysqlDatabase.php:39-54 | an inventory lookup finds the row exactly when the IMEI is present and the database is up |
| Backends.IdColumn | index.php:168-176 | a JSON integer id is stored as that integer, and anything else is stored as NULL |
| Backends.SimStateResult | src/services/simbase.php:64-76 | an invalid state or a failed request returns a truthy error array |
| Backends.SimNameResult | src/services/simbase.php:49-57 | a failed rename returns an error array without `message` |
| Backends.TraccarResult | src/services/traccar.php:119-125 | a failed Traccar request returns an error array carrying the exception message |
| Backends.AfterSimState | src/services/simbase.php:64-76 | a state change alters only that SIM's state, and only for a valid state and a request that returned |
| Backends.AfterSimName | src/services/simbase.php:49-57 | a rename alters only that SIM's name, and only when the request returned |
| Backends.AfterCreateDevice | index.php:145 | a created device is added under the id Traccar returned; other servers, users and permissions are untouched |
| Backends.AfterDeleteDevice | index.php:199 | a delete removes the device with an integer id; nothing else changes |
| Backends.AfterUpdateDevice | index.php:89 | an update replaces name and unique id of an existing device only |
| Backends.AfterLink | src/services/traccar.php:93-112 | a link adds the user-device permission only |
| Backends.AfterCreateUser | src/services/traccar.php:47-66 | a created user is added under the returned id only |
| Backends.AfterUpdateUser | src/services/traccar.php:74-85 | an update rewrites name, e-mail and phone of an existing user only |
| Backends.AfterDeleteUser | src/Controllers/User.php:103 | a delete removes that user only |
| Backends.WithExpiration | src/Controllers/Device.php:91-94 | the expiration `UPDATE` changes only the row of that IMEI, and only when the database is up |
| Backends.WithAssignment | index.php:96 | the assignment `UPDATE` changes only `server_user_assigned` of that IMEI's row |
| Backends.InsertResult | index.php:164-180 | an inventory insert succeeds exactly when the database is up and the IMEI is new, with the next auto-increment id |
| Backends.World.constructor | src/services/MysqlDatabase.php:12 | a world starts from the given stores with an empty call log |
| Backends.World.SelectUserByAuthUid | src/Controllers/Device.php:32 | returns the lookup result, logs the query and changes no store |
| Backends.World.SelectUserById | src/Controllers/User.php:65 | the same for the lookup by id |
| Backends.World.SelectDevice | index.php:80 | the same for the inventory lookup |
| Backends.World.SelectAlive | src/Controllers/Server.php:25 | the probe query fails exactly when the database is down |
| Backends.World.UpdateExpiration | src/Controllers/Device.php:91-94 | writes the expiration as stated by `WithExpiration` and nothing else |
| Backends.World.UpdateAssignment | index.php:96 | writes the assignment as stated by `WithAssignment` and nothing else |
| Backends.World.InsertDevice | index.php:164-180 | inserts the row with the next id exactly when the insert succeeds |
| Backends.World.InsertUser | src/Controllers/User.php:44-46 | appends a user row with the next id when the database is up |
| Backends.World.UpdateUserName | src/Controllers/User.php:82 | sets `name` on the rows with that id when the database is up |
| Backends.World.UpdateUserMobile | src/Controllers/User.php:85 | sets `mobile` on the rows with that id when the database is up |
| Backends.World.DeleteUserRow | src/Controllers/User.php:109 | deletes the rows with that id when the database is up |
| Backends.World.UpdateServerToken | src/Controllers/Server.php:117 | sets `server_token` on the rows of that `auth_uid` when the database is up |
| Backends.World.GetSimDetails | src/services/simbase.php:29-35 | returns the decoded details, or the "unreachable" error array; changes no store |
| Backends.World.SetSimState | src/services/simbase.php:64-76 | an invalid state returns the error array without calling Simbase; otherwise one call and the state change |
| Backends.World.SetSimName | src/services/simbase.php:49-57 | one call and the rename |
| Backends.World.GetAccountBalance | src/Controllers/Server.php:37 | one call; returns the balance body or an error array; changes no store |
| Backends.World.CreateDevice | index.php:145 | one call, the device creation, and the body or an error array |
| Backends.World.DeleteDevice | index.php:199 | one call and the deletion |
| Backends.World.UpdateDevice | index.php:89 | one call and the device update |
| Backends.World.LinkUserToDevice | src/services/traccar.php:93-112 | one call and the permission |
| Backends.World.CreateUser | src/services/traccar.php:47-66 | one call and the user creation with no phone |
| Backends.World.UpdateUser | src/services/traccar.php:74-85 | one call and the user update |
| Backends.World.DeleteUser | src/Controllers/User.php:103 | one call and the user deletion |
| Backends.World.CreateUserToken | src/Controllers/Server.php:109 | one call; returns the token or an error array; changes no store |
| Backends.World.GetServerInfo | src/services/traccar.php:119-125 | one call; returns the server body or an error array; changes no store |
| DeviceRoutes.SimStatus | src/Controllers/Device.php:67 | a missing SIM status reads as `unknown` |
| DeviceRoutes.SimStep | src/Controllers/Device.php:61-82 | the SIM stage never produces a validation refusal |
| DeviceRoutes.SimReadSettles | src/Controllers/Device.php:59-82 | after the checks, an unreadable SIM answers 502 and an `enabled` or `active` SIM answers 200 with the stored expiration, each with the read as the only Simbase call and no write; otherwise the switch fails exactly when the reply is falsy |
| DeviceRoutes.SwitchSim | src/Controllers/Device.php:61-149 | fetches the SIM; an unreadable SIM or one already in the target state makes no change; otherwise one state change, judged failed only when its result is falsy |
| DeviceRoutes.SwitchAndRenew | src/Controllers/Device.php:61-94 | the SIM switch to `enabled`, followed by the expiration write only when the switch happened |
| DeviceRoutes.EnableFetched | src/Controllers/Device.php:36-100 | once the caller and the device are fetched, the response, calls, SIM change and expiration write are those `EnableOutcome` decides |
| DeviceRoutes.Enable | src/Controllers/Device.php:25-100 | the response, the exact call sequence, the SIM change and the expiration write of `enable`, as decided by `EnableOutcome`; Traccar and users are untouched |
| DeviceRoutes.Disable | src/Controllers/Device.php:106-155 | the same for `disable`; the inventory is never written |
| DeviceRoutes.EnableRefusalOrder | src/Controllers/Device.php:36-56 | each refusal happens exactly when its check fails and all earlier checks pass: unassigned, then no SIM, then not the owner, then expired |
| DeviceRoutes.MissingDeviceReadsUnassigned | src/Controllers/Device.php:36-38 | an unknown IMEI, or a failed lookup, is refused as unassigned by both routes |
| DeviceRoutes.UnknownCallerNotOwner | src/Controllers/Device.php:43-45 | a caller without a local row or `server_id` is always refused |
| DeviceRoutes.ExpiryBoundary | src/Controllers/Device.php:50-57 | a device expiring exactly now is not refused as expired |
| DeviceRoutes.ExpiredWithinLastSecond | src/Controllers/Device.php:48-57 | a request inside the expiration's last second, past its first microsecond, is refused as expired |
| DeviceRoutes.FailedActivationStillRenews | src/Controllers/Device.php:77-94 | a failed activation (a truthy error array) still counts as switched and renews the expiration |
| DeviceRoutes.SwitchFailedIff | src/Controllers/Device.php:145-149 | `disable` answers the switch failure exactly when the checks pass, the SIM is readable and not disabled, and the result is falsy |
| DeviceRoutes.RenewedDeviceNotExpired | src/Controllers/Device.php:50-94 | after a renewal with at least one month, or with none at a whole second, the same request at the same instant is not refused as expired |
| DeviceRoutes.DisableIgnoresExpiration | src/Controllers/Device.php:106-155 | the stored expiration has no influence on `disable` |
| DeviceRoutes.SharedScreen | src/Controllers/Device.php:36-126 | whenever `disable` refuses, `enable` refuses the same way |
| InventoryRoutes.EligibleIff | index.php:132-133 | a SIM is eligible exactly when its details are an array with state `disabled` and a name that is empty or loosely equal to `@@` |
| InventoryRoutes.UnreachableSimbaseIneligible | index.php:128-138 | an unreachable Simbase makes the SIM ineligible |
| InventoryRoutes.NamedSimIneligible | index.php:132-138 | a SIM with a non-empty name other than `@@` is ineligible |
| InventoryRoutes.GeneratedName | index.php:141 | the name starts with `@@ ` and is 4 characters longer than the two kept suffixes of at most four characters each |
| InventoryRoutes.GeneratedNameParts | index.php:141 | the IMEI and ICCID suffixes sit at the expected positions around the `/` |
| InventoryRoutes.GeneratedNameExample | index.php:141 | example names for long and short identifiers |
| InventoryRoutes.ReverseUndo | index.php:191-204 | the undo list is the committed steps' undos in reverse order |
| InventoryRoutes.RollbackIsReverseUndo | index.php:124-204 | with a truthy Traccar id, the flag-driven rollback undoes exactly the committed steps, newest first |
| InventoryRoutes.RollbackOnlyCommitted | index.php:191-204 | the rollback never undoes a step that did not commit |
| InventoryRoutes.FalsyIdSkipsDelete | index.php:150-200 | a device created with the falsy id 0 is committed but not deleted on rollback |
| InventoryRoutes.RollbackRenamesToMarker | index.php:154-194 | the rename and its undo leave the SIM named `@@` |
| InventoryRoutes.RollbackRestoresTraccar | index.php:145-199 | creating and then deleting the device restores every Traccar server |
| InventoryRoutes.AddedRollsNothingBack | index.php:182-189 | after success no rollback runs |
| InventoryRoutes.InsertRow | index.php:164-180 | the inventory insert with brand, model and generated name |
| InventoryRoutes.AddSteps | index.php:128-180 | the `try` part: eligibility, create, rename, insert, stopping at the first failure, with its calls and effects |
| InventoryRoutes.Compensate | index.php:191-204 | the `catch` part: rename back if the rename flag is set, then delete the device if the id is truthy |
| InventoryRoutes.AddDevice | index.php:107-205 | 400 without calls for missing fields; otherwise the forward calls followed by the rollback calls, the reply, and the SIM, Traccar and inventory state |
| InventoryRoutes.LinkDevice | index.php:74-104 | a missing URL is an uncaught error; an absent or assigned device gives 400 after the lookup; otherwise rename, link, enable and assign in that order with no result inspected, or an uncaught error when the ICCID is null |
| InventoryRoutes.LookupErrorNotRefused | index.php:80-85 | a failed inventory lookup is not refused: it runs the steps with server reference 0 and a null ICCID |
| UserRoutes.TraccarPassword | src/Controllers/User.php:32 | the derived password decodes back to the e-mail; a missing e-mail gives the empty password |
| UserRoutes.Sync | src/Controllers/User.php:19-55 | 400 without calls for a missing URL; a remote error gives 500 and no insert; otherwise 201 with the Traccar id whatever the insert outcome; the user id counter moves by one exactly when a row is inserted |
| UserRoutes.UpdateTouchesOnlyNameAndMobile | src/Controllers/User.php:81-86 | the local writes change only `name` and `mobile`, only of the matched rows, and only what was supplied; a supplied name or mobile lands on the matched rows when its write goes through |
| UserRoutes.Update | src/Controllers/User.php:60-92 | an unknown id fails before any remote call; a remote error means no local write; otherwise the conditional writes and 200 |
| UserRoutes.Delete | src/Controllers/User.php:97-115 | the remote delete first; on error the row is kept; otherwise the row is deleted by id |
| UserRoutes.DeleteRemovesExactlyTheId | src/Controllers/User.php:109 | the delete removes every row with that id and keeps every other row |
| UserRoutes.ThrownDeleteIs500 | src/Controllers/User.php:102-107 | a remote delete that throws is answered 500 with the exception message |
| ServerRoutes.StatusIsErrorIff | src/Controllers/Server.php:26-40 | each service's status is `error` exactly when its result carries an error, else `online` |
| ServerRoutes.OnlineDefaults | src/Controllers/Server.php:34-40 | an online Traccar without `version` reports `unknown`, an online Simbase without `balance` reports 0 |
| ServerRoutes.SimbaseMessageReadFromErrors | src/Controllers/Server.php:33-39 | the Traccar error message is passed on; the Simbase one is reported as `Unknown` |
| ServerRoutes.Report | src/Controllers/Server.php:22-53 | three probes in order, no store changed, 200 with the timestamped report |
| ServerRoutes.TestServer | src/Controllers/Server.php:17-54 | the report at the configured test URL |
| ServerRoutes.ServerInfo | src/Controllers/Server.php:56-93 | the same report, at the requested URL or else the test URL |
| ServerRoutes.UrlFallback | src/Controllers/Server.php:58-100 | a URL in the request wins, the configured one is used only when the request has none |
| ServerRoutes.ClaimEmail | src/Controllers/Server.php:103-109 | the e-mail used is the caller's `email` claim, and a byte-string claim is always used |
| ServerRoutes.GenerateToken | src/Controllers/Server.php:95-125 | a token error gives 500 with that payload and no database write; otherwise the token is stored for the caller's `sub` and returned with `success` |
| ServerRoutes.TokenStoredForCaller | src/Controllers/Server.php:117 | the token lands on exactly the caller's rows, and a caller without `sub` changes no row |
| ServerRoutes.TokenPasswordIsSyncPassword | src/Controllers/Server.php:103 | the token request uses the same password `sync` set for that e-mail |

## Left out

- HTTP, PSR-7 and JSON encoding: responses are a status and a decoded body, and headers are not modelled.
- The clock: `now` (with its microseconds) and the report's `date('c')` are parameters.
- Parsing the stored `expiration` string: rows hold a valid date-time, which has no microseconds when it was read from a DATETIME column.
- Remote reads do not consult the world's stores. `getSimDetails`, `getServerInfo`, `getAccountBalance` and `createUserToken` return the oracle's body whatever `sims` or `trackers` hold. So the SIM map never feeds an `enable`, `disable` or `addDevice` decision, and a SIM recorded as `enabled` can be read back as `disabled`.
- LinkResult: the HTTP status code is not modelled. Every returned request counts as a 200 or 204, so the decoded body that another status would give is never returned; `linkDevice` ignores the result either way.
- Request bodies are typed: each field is a string or an integer, or null. PHP's juggling of other JSON types is not modelled, for example `(int)` of a string `server_id`, or `base64_encode` of a non-string e-mail (a boolean is encoded as its text, and an array raises an uncaught TypeError).
- MessageText: a non-string exception message is read as the empty string. PHP would write an integer or a boolean out as text (`5`, `1`) and raise an uncaught TypeError for an array.
- DuplicateImei: the duplicate-key message omits PDO's SQLSTATE prefix and assumes the key is named `imei`. The schema is not part of this model, so the exact text in the 500 body of `addDevice` is not promised.
- IdColumn: only a JSON integer is stored as an id. A numeric string, which MySQL would coerce to an integer, is stored as NULL here.
- Container, routing and `$app->run()` wiring in `index.php`.
- Network I/O: Guzzle requests are oracles. A request that returned is taken to have applied its write, and one that threw is taken not to have. A timeout after the remote side committed is therefore not modelled: `TrackersAfterAdd` and `SimsAfterAdd` never contain a device or rename whose request threw, although Traccar may have created the device and left it orphaned.
- The Simbase and Traccar client classes are not part of this model beyond what the routes call.
  - The routes call `createDevice`, `updateDevice`, `deleteDevice`, `deleteUser`, `createUserToken` and `getAccountBalance`, which `traccar.php` and `simbase.php` do not define.
  - They are modelled with the error-array shape of their siblings (`error` plus the exception `message`).
- The Traccar URL normalisation in the client constructor (`rtrim($baseUrl, '/')`): stores are keyed by the URL as given.
- `last_insert_id` and the Traccar ids are integers here; PDO returns the insert id as a string.
- Concurrency: two requests interleaving between a lookup and a write.
- `dump.php` is not part of this model: it is a superseded copy of the user routines.
- The older middleware `src/middleware/FireaseAuthMiddleware.php` is not part of this model.
- `src/Controllers/Notification.php` and `src/services/FirebaseProvider.php` (Firebase SDK calls), `public/index.php` and `checkfiles.php` (I/O only) are not part of this model.
- `getSimName`, `getUsageHistory`, `getLatestPosition` and `fetchAll`: no modelled route calls them.
