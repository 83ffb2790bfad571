/**
 * The four request handlers of the user controller as step sequences with
 * early returns. A handler's observable effect is its trace: the calls it
 * makes on the user service, then the one response it writes. What the
 * session, the parsers and the service answer is passed in.
 */
module UserController {
  import opened Wrappers
  import opened Model
  import opened Access
  import opened Materializer

  /** Why a request failed. */
  datatype FailureKind = PermissionDenied | LoginRequired | Validation | PersistenceFailure

  /** The response written for a request; `message` is the (untranslated) message key shown to the client. */
  datatype Response =
    | Failed(message: string, kind: FailureKind, detail: string)
    | Succeeded(message: string)
    | Listed(users: seq<User>)

  /** A call on the user service. */
  datatype ServiceCall =
    | GetAllUsers
    | AddUser(user: User)
    | UpdateUserById(id: int, updates: Updates)
    | DeleteUserById(id: int)

  /** One observable step of a handler. */
  datatype Event = Invoke(call: ServiceCall) | Reply(response: Response)

  /** The refusal every admin-only handler writes. */
  const DENIED: Response := Failed("Permission Denied", PermissionDenied, "admin role required")

  /** The refusal `updateUser` writes when nobody is logged in. */
  const NOT_LOGGED_IN: Response := Failed("update", LoginRequired, "login required")

  /** A finished request: exactly one response, written last, after any service calls. */
  predicate Completed(trace: seq<Event>)
  {
    |trace| > 0 && trace[|trace| - 1].Reply? && forall i :: 0 <= i < |trace| - 1 ==> trace[i].Invoke?
  }

  /** The service calls of a trace, in order. */
  function Calls(trace: seq<Event>): (calls: seq<ServiceCall>)
    ensures |calls| <= |trace|
    ensures Completed(trace) ==> |calls| == |trace| - 1
    ensures forall c :: c in calls ==> Invoke(c) in trace
  {
    if trace == [] then []
    else
      assert Completed(trace) && |trace| > 1 ==> Completed(trace[1..]);
      (if trace[0].Invoke? then [trace[0].call] else []) + Calls(trace[1..])
  }

  /** The response a persistence step ends with: the service's error under `message`, or success. */
  function Stored(message: string, err: Option<string>): (r: Response)
    ensures r.Failed? <==> err.Some?
    ensures r.Failed? ==> r == Failed(message, PersistenceFailure, err.value)
    ensures err.None? ==> r == Succeeded("success")
  {
    match err
    case Some(e) => Failed(message, PersistenceFailure, e)
    case None => Succeeded("success")
  }

  /** `getUsers`: admin gate, then one listing call. */
  method HandleGetUsers(caller: Option<User>, fetched: Result<seq<User>, string>) returns (trace: seq<Event>)
    ensures Completed(trace) && |Calls(trace)| <= 1
    ensures Calls(trace) != [] <==> CheckAdmin(caller)
    ensures !CheckAdmin(caller) ==> trace == [Reply(DENIED)]
    ensures CheckAdmin(caller) && fetched.Failure? ==>
              trace == [Invoke(GetAllUsers), Reply(Failed("get", PersistenceFailure, fetched.error))]
    ensures CheckAdmin(caller) && fetched.Success? ==>
              trace == [Invoke(GetAllUsers), Reply(Listed(fetched.value))]
  {
    trace := [];
    if !CheckAdmin(caller) {
      trace := trace + [Reply(DENIED)];
      return;
    }
    trace := trace + [Invoke(GetAllUsers)];
    if fetched.Failure? {
      trace := trace + [Reply(Failed("get", PersistenceFailure, fetched.error))];
      return;
    }
    trace := trace + [Reply(Listed(fetched.value))];
  }

  /**
   * `addUser`: admin gate, then the bound record; an empty role becomes the
   * tenant role and nothing else about the record changes before it is stored.
   */
  method HandleAddUser(caller: Option<User>, bound: Result<User, string>, stored: Option<string>) returns (trace: seq<Event>)
    ensures Completed(trace) && |Calls(trace)| <= 1
    ensures Calls(trace) != [] <==> CheckAdmin(caller) && bound.Success?
    ensures !CheckAdmin(caller) ==> trace == [Reply(DENIED)]
    ensures CheckAdmin(caller) && bound.Failure? ==> trace == [Reply(Failed("create", Validation, bound.error))]
    ensures CheckAdmin(caller) && bound.Success? ==>
              && |trace| == 2
              && trace[0].Invoke? && trace[0].call.AddUser?
              && trace[0].call.user.role == (if bound.value.role == "" then TENANT_ROLE else bound.value.role)
              && trace[0].call.user.(role := bound.value.role) == bound.value
              && trace[1] == Reply(Stored("create", stored))
  {
    trace := [];
    if !CheckAdmin(caller) {
      trace := trace + [Reply(DENIED)];
      return;
    }
    if bound.Failure? {
      trace := trace + [Reply(Failed("create", Validation, bound.error))];
      return;
    }
    var user := bound.value;
    if user.role == "" {
      user := user.(role := TENANT_ROLE);
    }
    trace := trace + [Invoke(AddUser(user))];
    trace := trace + [Reply(Stored("create", stored))];
  }

  /**
   * `updateUser`: the id is parsed before the caller is looked at; an absent
   * caller is a login failure; then the self-or-admin gate; then the body.
   */
  method HandleUpdateUser(idParam: Result<int, string>, caller: Option<User>, contentType: string,
                    document: Result<Updates, string>, form: Result<Form, string>, stored: Option<string>)
    returns (trace: seq<Event>)
    ensures Completed(trace) && |Calls(trace)| <= 1
    ensures Calls(trace) != [] <==>
              idParam.Success? && UpdateAccess(caller, idParam.value) == Allow && UpdateSet(contentType, document, form).Success?
    ensures idParam.Failure? ==> trace == [Reply(Failed("update", Validation, idParam.error))]
    ensures idParam.Success? && caller.None? ==> trace == [Reply(NOT_LOGGED_IN)]
    ensures idParam.Success? && UpdateAccess(caller, idParam.value) == DenyNotPermitted ==>
              trace == [Reply(DENIED)]
    ensures idParam.Success? && UpdateAccess(caller, idParam.value) == Allow ==>
              match UpdateSet(contentType, document, form)
              case Failure(e) => trace == [Reply(Failed("update", Validation, e))]
              case Success(u) => trace == [Invoke(UpdateUserById(idParam.value, u)), Reply(Stored("update", stored))]
  {
    trace := [];
    if idParam.Failure? {
      trace := trace + [Reply(Failed("update", Validation, idParam.error))];
      return;
    }
    var id := idParam.value;
    if caller.None? {
      trace := trace + [Reply(NOT_LOGGED_IN)];
      return;
    }
    var login := caller.value;
    if login.role != ADMIN_ROLE && login.role != "" && login.id != id {
      trace := trace + [Reply(DENIED)];
      return;
    }
    var updates: Updates := map[];
    if Contains(contentType, JSON_MEDIA_TYPE) {
      if document.Failure? {
        trace := trace + [Reply(Failed("update", Validation, document.error))];
        return;
      }
      updates := document.value;
    } else {
      if form.Failure? {
        trace := trace + [Reply(Failed("update", Validation, form.error))];
        return;
      }
      updates := MaterializeForm(form.value);
    }
    trace := trace + [Invoke(UpdateUserById(id, updates))];
    trace := trace + [Reply(Stored("update", stored))];
  }

  /** `delUser`: the admin gate comes before the id is parsed. */
  method HandleDelUser(caller: Option<User>, idParam: Result<int, string>, stored: Option<string>) returns (trace: seq<Event>)
    ensures Completed(trace) && |Calls(trace)| <= 1
    ensures Calls(trace) != [] <==> CheckAdmin(caller) && idParam.Success?
    ensures !CheckAdmin(caller) ==> trace == [Reply(DENIED)]
    ensures CheckAdmin(caller) && idParam.Failure? ==> trace == [Reply(Failed("delete", Validation, idParam.error))]
    ensures CheckAdmin(caller) && idParam.Success? ==>
              trace == [Invoke(DeleteUserById(idParam.value)), Reply(Stored("delete", stored))]
  {
    trace := [];
    if !CheckAdmin(caller) {
      trace := trace + [Reply(DENIED)];
      return;
    }
    if idParam.Failure? {
      trace := trace + [Reply(Failed("delete", Validation, idParam.error))];
      return;
    }
    trace := trace + [Invoke(DeleteUserById(idParam.value))];
    trace := trace + [Reply(Stored("delete", stored))];
  }
}
