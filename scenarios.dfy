/**
 * Concrete requests passed to the handlers, with what their contracts
 * alone let a caller conclude.
 */
module Scenarios {
  import opened Wrappers
  import opened Model
  import opened Access
  import opened Materializer
  import opened UserController

  /**
   * A tenant with id 5 posting a remark as a form (any Content-Type that does not
   * mention JSON, FORM_MEDIA_TYPE among them) for account 5 reaches the service with
   * just that remark.
   */
  method TenantUpdatesOwnRemark(contentType: string, stored: Option<string>) returns (trace: seq<Event>)
    requires !IsJsonRequest(contentType)
    ensures Calls(trace) == [UpdateUserById(5, map["remark" := JString("hi")])]
    ensures trace[|trace| - 1] == Reply(Stored("update", stored))
  {
    var tenant := User(5, "tenant5", "secret", TENANT_ROLE, "");
    var form: Form := map["remark" := ["hi"]];
    assert "remark" in ALLOWED_FIELDS;
    assert FormUpdates(form) == map["remark" := JString("hi")];
    trace := HandleUpdateUser(Success(5), Some(tenant), contentType, Failure("not JSON"), Success(form), stored);
  }

  /** The same tenant aiming at account 7 is refused and the service is never called. */
  method TenantUpdatesOtherAccount(contentType: string, document: Result<Updates, string>, form: Result<Form, string>,
                                   stored: Option<string>) returns (trace: seq<Event>)
    ensures trace == [Reply(DENIED)]
    ensures Calls(trace) == []
  {
    var tenant := User(5, "tenant5", "secret", TENANT_ROLE, "");
    trace := HandleUpdateUser(Success(7), Some(tenant), contentType, document, form, stored);
  }

  /** An administrator, or a legacy account with an empty role, may delete any id. */
  method AdminDeletesAnyAccount(admin: User, id: int, stored: Option<string>) returns (trace: seq<Event>)
    requires admin.role == ADMIN_ROLE || admin.role == ""
    ensures Calls(trace) == [DeleteUserById(id)]
    ensures trace[|trace| - 1] == Reply(Stored("delete", stored))
  {
    trace := HandleDelUser(Some(admin), Success(id), stored);
  }

  /**
   * Check order differs between handlers. Without a caller and with a malformed
   * id, deletion answers with the permission failure while update answers with
   * the id's parse error; with a well-formed id, update answers with the login failure.
   */
  method AbsentCallerCheckOrder(parseError: string, id: int, stored: Option<string>)
    returns (deleted: seq<Event>, updatedBadId: seq<Event>, updatedGoodId: seq<Event>)
    ensures deleted == [Reply(DENIED)]
    ensures updatedBadId == [Reply(Failed("update", Validation, parseError))]
    ensures updatedGoodId == [Reply(NOT_LOGGED_IN)]
    ensures DENIED.kind != NOT_LOGGED_IN.kind
  {
    deleted := HandleDelUser(None, Failure(parseError), stored);
    updatedBadId := HandleUpdateUser(Failure(parseError), None, "", Success(map[]), Success(map[]), stored);
    updatedGoodId := HandleUpdateUser(Success(id), None, "", Success(map[]), Success(map[]), stored);
  }

  /** A form update with no allow-listed field still reaches the service, with an empty update set. */
  method EmptyFormStillUpdates(caller: User, contentType: string, stored: Option<string>) returns (trace: seq<Event>)
    requires caller.role == ADMIN_ROLE
    requires !IsJsonRequest(contentType)
    ensures Calls(trace) == [UpdateUserById(caller.id, map[])]
  {
    var form: Form := map["nickname" := ["x"], "role" := []];
    FormWithoutAllowedFieldsIsEmpty(form);
    trace := HandleUpdateUser(Success(caller.id), Some(caller), contentType, Failure("not JSON"), Success(form), stored);
  }
}
