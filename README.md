# User controller: access decisions, partial updates, handler sequencing

This project models the user-management controller of the 3x-ui web panel
(`web/controller/user.go`). The controller serves four requests: list users,
add a user, update a user by id, and delete a user by id. The model covers
three parts of it:

- **Access decisions** (`access.dfy`, module `Access`). `CheckAdmin` is the
  admin gate used by list, add and delete. It lets through a logged-in caller
  whose role is the admin role or the empty string. The empty string is a
  legacy value that counts as admin. `UpdateAccess` is the gate inside update.
  It answers "login required" when there is no caller. Otherwise it lets
  through admins, legacy accounts, and a caller whose id is the target id.
- **Update materialiser** (`materializer.dfy`, module `Materializer`). A
  Content-Type that contains `application/json` selects the JSON path. That
  path forwards the decoded document with every key unchanged. Any other
  Content-Type selects the form path. That path loops over the allow-list
  `username, password, role, remark` and keeps the first value of each listed
  field that has at least one value. `MaterializeForm` is that loop. It is
  proved equal to the reference map `FormUpdates`. `UpdateSet` combines both
  paths with their parse errors.
- **Handlers** (`controller.dfy`, module `UserController`). `HandleGetUsers`,
  `HandleAddUser`, `HandleUpdateUser` and `HandleDelUser` are step sequences
  with early returns. Each one returns its trace: the service calls it makes,
  in order, then the single response it writes. Each contract pins the whole
  trace for every combination of inputs. Each handler also states that it
  writes exactly one response, last; that it calls the service at most once;
  and that it calls the service exactly when every earlier check passed.
  `scenarios.dfy` (module `Scenarios`) passes concrete requests to the
  handlers and concludes from their contracts alone.

Inputs the controller gets from elsewhere become parameters. These are the
session's caller (`Option<User>`); the results of `strconv.Atoi`,
`ShouldBind`, `ShouldBindJSON` and `ParseForm` (`Result<_, string>`); and the
error or data each service call returns.

The code fixes an order of checks that a plain "authenticate, authorise,
parse" reading does not show, and the model follows the code:

- `updateUser` parses the id before it looks up the caller.
- `delUser` checks admin before it parses the id.
- The admin gate answers a missing caller with "Permission Denied". The
  update gate answers with a "login required" failure under the `update`
  message.

## Model

| member | source | states |
|---|---|---|
| `Access.CheckAdmin` | web/controller/user.go:31-38 | allowed exactly when a caller is present and its role is classified Admin or Legacy (empty); never for a tenant |
| `Access.UpdateAccess` | web/controller/user.go:82-92 | login failure exactly when no caller; allowed exactly when the admin gate allows or the caller's id is the target; permission failure exactly for a present non-admin, non-legacy caller acting on another id |
| `Access.AdminMayUpdateAnyone` | web/controller/user.go:88-92 | every caller the admin gate lets through may update every target |
| `Access.TenantMayUpdateOnlyItself` | web/controller/user.go:88-92 | a tenant fails the admin gate, may update exactly its own id, and is otherwise refused with a permission failure |
| `Access.AbsentCallerRefused` | web/controller/user.go:82-86 | with no caller the admin gate refuses and the update gate answers "login required" for every target |
| `Materializer.Contains` | web/controller/user.go:97 | the substring test holds exactly when the needle occurs at some index of the Content-Type |
| `Materializer.OccurrenceHasLetterJ` | web/controller/user.go:97 | proof helper for `FormMediaTypeIsNotJson`: any occurrence of `application/json` has the letter `j` at offset 12 |
| `Materializer.NoJsonWithoutLetterJ` | web/controller/user.go:97 | proof helper for `FormMediaTypeIsNotJson`: a Content-Type without the letter `j` never selects the JSON path |
| `Materializer.FormMediaTypeIsNotJson` | web/controller/user.go:97 | `application/x-www-form-urlencoded` selects the form path |
| `Materializer.UpdateSet` | web/controller/user.go:94-112 | the decoded JSON document or its decode error, unfiltered, when the Content-Type contains `application/json`; otherwise the form's parse error, or the filtered form with allow-listed keys only |
| `Materializer.MaterializeForm` | web/controller/user.go:94-111 | the loop starting from an empty map yields exactly the reference form update set, whose keys are all allow-listed |
| `Materializer.FormUpdatesFiltered` | web/controller/user.go:107-111 | a field is in the form update set exactly when it is allow-listed and supplied with a non-empty value list, and it maps to the first supplied value |
| `Materializer.FormWithoutAllowedFieldsIsEmpty` | web/controller/user.go:107-111 | a form naming no allow-listed field with a value gives the empty update set |
| `Materializer.JsonPathVerbatim` | web/controller/user.go:97-101 | when the Content-Type contains `application/json`, the update set is the decoded document or its decode error, unfiltered |
| `Materializer.FormPathFiltered` | web/controller/user.go:102-111 | otherwise the update set fails exactly when the form does not parse, and on success it is the filtered form with allow-listed keys only |
| `Materializer.FormDropsUnlistedField` | web/controller/user.go:107-111 | `{username: [alice], extra: [x]}` gives `{username: alice}` |
| `Materializer.JsonKeepsUnlistedField` | web/controller/user.go:97-101 | a JSON document `{remark, unlisted_field}` reaches the update set with both keys |
| `Materializer.FormDropsUnlistedFieldOfJsonExample` | web/controller/user.go:102-111 | the same two fields sent as a form keep only `remark`, which shows the asymmetry between the encodings |
| `UserController.Stored` | web/controller/user.go:114-119 | the final response is a persistence failure carrying the service's error exactly when the service returned one, and exactly `Succeeded("success")` otherwise |
| `UserController.HandleGetUsers` | web/controller/user.go:40-50 | a refused caller gets "Permission Denied" and no call; otherwise one listing call, then the users or the service error under `get` |
| `UserController.HandleAddUser` | web/controller/user.go:52-73 | admin gate, then a bind error under `create` with no call; otherwise one add call whose record has an empty role replaced by the tenant role and every other field unchanged, then the service outcome |
| `UserController.HandleUpdateUser` | web/controller/user.go:75-120 | id parse error first, then "login required", then "Permission Denied", then the body's parse error, each with no call; otherwise one update call with the parsed id and the update set, then the service outcome |
| `UserController.HandleDelUser` | web/controller/user.go:122-137 | admin gate before the id parse; a parse error under `delete` with no call; otherwise one delete call, then the service outcome |
| `Scenarios.TenantUpdatesOwnRemark` | web/controller/user.go:88-114 | tenant 5 posting `remark=hi` as a form for id 5 reaches the service with `{remark: hi}` |
| `Scenarios.TenantUpdatesOtherAccount` | web/controller/user.go:88-92 | tenant 5 updating id 7 is refused with "Permission Denied" and makes no call, whatever the body |
| `Scenarios.AdminDeletesAnyAccount` | web/controller/user.go:122-136 | an admin or legacy caller deleting any id makes exactly that delete call |
| `Scenarios.AbsentCallerCheckOrder` | web/controller/user.go:75-86 | with no caller, delete answers "Permission Denied" even for a malformed id; update answers with the id's parse error first, and "login required" for a well-formed id |
| `Scenarios.EmptyFormStillUpdates` | web/controller/user.go:94-114 | a form with no allow-listed value still calls the service, with the empty update set |

## Left out

- Routing (`initRouter`, `NewUserController`): framework wiring with no logic.
- Session lookup (`session.GetLoginUser`): replaced by the caller passed in.
- Library parsing (`strconv.Atoi`, `ShouldBind`, `ShouldBindJSON`, `ParseForm`): replaced by a parsed value or an error message passed in. Which bodies these libraries accept is not modelled. For example, an empty JSON body is a decode error in the framework, and a JSON `null` leaves the map nil.
- The user service (`GetAllUsers`, `AddUser`, `UpdateUserById`, `DeleteUserById`): each call is recorded in the trace, and its error or data is an input. What it stores is not modelled.
- Response envelopes and localisation (`jsonMsg`, `jsonObj`, `I18nWeb`): a response keeps its kind, its untranslated message key and the error text.
- The persistence model `database/model` is not part of this model. The role names `admin` and `tenant` are assumed. The proofs need only that they are distinct and non-empty. `User` keeps only an id and the four allow-listed fields.
- Go's `int` width for ids and Go's float64 JSON numbers: ids are unbounded integers, and JSON numbers keep their literal text.
- Scenarios.TenantUpdatesOwnRemark: states the form path for any Content-Type that does not mention JSON, not for the literal form media type. `FormMediaTypeIsNotJson` covers that literal separately.
- Scenarios.EmptyFormStillUpdates: states the form path for any Content-Type that does not mention JSON, not for the literal form media type, for the same reason.
