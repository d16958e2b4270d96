/** The `assign-role` edge function: the first user to sign up (while
    `user_roles` is empty) becomes `superuser`, everyone after becomes `user`.
    A successful call adds one `user_roles` row, then tries to add one
    `audit_logs` row whose failure is ignored. Only `userId` is read from the
    body. */
module AssignRole {
  import opened Common
  import opened Tables

  /** The inbound call. `requestedRole` stands for any other field the caller
      sends (the admin dialog sends `role: 'admin'`); the handler never reads it.
      `Unparsable` is a body on which `req.json()` throws a `SyntaxError`, an
      `Error` whose message the `catch` block reports. */
  datatype Request =
    | Preflight
    | Unparsable(message: string)
    | Body(userId: Option<string>, requestedRole: Option<string>)

  datatype Response =
    | CorsOk
    | Assigned(role: Role)
    | Rejected(status: int, error: string)

  /** Store failures: the role query's and the role insert's errors, which the
      handler throws into its `catch` block, and whether the unchecked audit insert fails. */
  datatype Faults = Faults(rolesQueryError: Option<Thrown>, roleInsertError: Option<Thrown>, auditInsertFails: bool)

  /** One call's response and the rows it appended to `user_roles` and `audit_logs`. */
  datatype Outcome = Outcome(response: Response, roleRows: seq<UserRoleRow>, auditRows: seq<AuditLog>)

  const MissingUserId := "Missing userId"

  /** The audit row written for a role assignment. */
  function AuditFor(userId: string, role: Role): AuditLog {
    AuditLog(userId, "role_assigned", "user_role", userId, role)
  }

  /** The specification of one call against the current `user_roles` rows. */
  function Assign(req: Request, userRoles: seq<UserRoleRow>, faults: Faults): (r: Outcome)
    ensures req.Preflight? ==> r == Outcome(CorsOk, [], [])
    ensures req.Unparsable? ==> r == Outcome(Rejected(500, req.message), [], [])
    // A missing userId: 400, no role row and no audit row.
    ensures r.response == Rejected(400, MissingUserId) <==> req.Body? && Falsy(req.userId)
    ensures req.Body? && Falsy(req.userId) ==> r.roleRows == [] && r.auditRows == []
    // A failed role query: 500 with the catch block's message, nothing inserted.
    ensures req.Body? && !Falsy(req.userId) && faults.rolesQueryError.Some? ==>
              r == Outcome(Rejected(500, CatchMessage(faults.rolesQueryError.value)), [], [])
    // A failed role insert after a good query: 500 with the catch block's message, nothing inserted.
    ensures req.Body? && !Falsy(req.userId) && faults.rolesQueryError.None? && faults.roleInsertError.Some? ==>
              r == Outcome(Rejected(500, CatchMessage(faults.roleInsertError.value)), [], [])
    // Success: exactly one role row, superuser iff the table was empty; the audit row unless its insert failed.
    ensures r.response.Assigned? <==> r.roleRows != []
    ensures r.response.Assigned? ==>
              && req.Body? && !Falsy(req.userId)
              && faults.rolesQueryError.None? && faults.roleInsertError.None?
              && (r.response.role == Superuser <==> userRoles == [])
              && (r.response.role == User <==> userRoles != [])
              && r.roleRows == [UserRoleRow(req.userId.value, r.response.role)]
              && r.auditRows == (if faults.auditInsertFails then [] else [AuditFor(req.userId.value, r.response.role)])
    ensures r.auditRows != [] ==> r.response.Assigned?
  {
    match req
    case Preflight => Outcome(CorsOk, [], [])
    case Unparsable(msg) => Outcome(Rejected(500, msg), [], [])
    case Body(userId, _) =>
      if Falsy(userId) then Outcome(Rejected(400, MissingUserId), [], [])
      else if faults.rolesQueryError.Some? then Outcome(Rejected(500, CatchMessage(faults.rolesQueryError.value)), [], [])
      else
        var role := if |userRoles| == 0 then Superuser else User;
        if faults.roleInsertError.Some? then Outcome(Rejected(500, CatchMessage(faults.roleInsertError.value)), [], [])
        else
          var audit := if faults.auditInsertFails then [] else [AuditFor(userId.value, role)];
          Outcome(Assigned(role), [UserRoleRow(userId.value, role)], audit)
  }

  /** Whatever role the body requests, the outcome is the same. */
  lemma RequestedRoleIgnored(userId: Option<string>, asked: Option<string>, userRoles: seq<UserRoleRow>, faults: Faults)
    ensures Assign(Body(userId, asked), userRoles, faults) == Assign(Body(userId, None), userRoles, faults)
  {
  }

  /** A failed audit insert changes neither the response nor the role row. */
  lemma AuditFailureInvisible(req: Request, userRoles: seq<UserRoleRow>, faults: Faults)
    ensures Assign(req, userRoles, faults.(auditInsertFails := true)).response == Assign(req, userRoles, faults).response
    ensures Assign(req, userRoles, faults.(auditInsertFails := true)).roleRows == Assign(req, userRoles, faults).roleRows
  {
  }

  datatype Call = Call(req: Request, faults: Faults)

  /** The responses of a sequence of calls handled one after another. */
  function Run(userRoles: seq<UserRoleRow>, calls: seq<Call>): (responses: seq<Response>)
    ensures |responses| == |calls|
    decreases |calls|
  {
    if calls == [] then []
    else
      var first := Assign(calls[0].req, userRoles, calls[0].faults);
      [first.response] + Run(userRoles + first.roleRows, calls[1..])
  }

  /** Once `user_roles` has a row, every call that succeeds assigns `user`. */
  lemma {:induction false} NonEmptyAssignsUser(userRoles: seq<UserRoleRow>, calls: seq<Call>)
    requires userRoles != []
    ensures forall k :: 0 <= k < |calls| && Run(userRoles, calls)[k].Assigned? ==> Run(userRoles, calls)[k].role == User
    decreases |calls|
  {
    if calls != [] {
      var first := Assign(calls[0].req, userRoles, calls[0].faults);
      NonEmptyAssignsUser(userRoles + first.roleRows, calls[1..]);
      assert Run(userRoles, calls) == [first.response] + Run(userRoles + first.roleRows, calls[1..]);
    }
  }

  /** In a sequential run, after one successful call every later successful call assigns `user`. */
  lemma {:induction false} LaterCallsAssignUser(userRoles: seq<UserRoleRow>, calls: seq<Call>, i: nat, j: nat)
    requires i < j < |calls|
    requires Run(userRoles, calls)[i].Assigned?
    requires Run(userRoles, calls)[j].Assigned?
    ensures Run(userRoles, calls)[j].role == User
    decreases |calls|
  {
    var first := Assign(calls[0].req, userRoles, calls[0].faults);
    var next := userRoles + first.roleRows;
    assert Run(userRoles, calls) == [first.response] + Run(next, calls[1..]);
    if i == 0 {
      assert next != [];
      NonEmptyAssignsUser(next, calls[1..]);
      assert Run(next, calls[1..])[j - 1] == Run(userRoles, calls)[j];
    } else {
      LaterCallsAssignUser(next, calls[1..], i - 1, j - 1);
    }
  }

  /** The `user_roles` and `audit_logs` tables as the handler sees them. */
  class RoleStore {
    var userRoles: seq<UserRoleRow>
    var auditLogs: seq<AuditLog>

    /** Only the first `user_roles` row can be a superuser, and every audit row
        records a role some `user_roles` row holds. */
    ghost predicate Valid()
      reads this
    {
      && (forall i :: 0 < i < |userRoles| ==> userRoles[i].role != Superuser)
      && (forall a :: a in auditLogs ==>
            a.action == "role_assigned" && a.resourceType == "user_role" &&
            UserRoleRow(a.resourceId, a.detailsRole) in userRoles)
    }

    constructor ()
      ensures userRoles == [] && auditLogs == [] && Valid()
    {
      userRoles := [];
      auditLogs := [];
    }

    /** The request handler. */
    method HandleAssignRole(req: Request, faults: Faults) returns (resp: Response)
      requires Valid()
      modifies this
      ensures Valid()
      ensures resp == Assign(req, old(userRoles), faults).response
      ensures userRoles == old(userRoles) + Assign(req, old(userRoles), faults).roleRows
      ensures auditLogs == old(auditLogs) + Assign(req, old(userRoles), faults).auditRows
    {
      match req {
        case Preflight =>
          return CorsOk;
        case Unparsable(msg) =>
          return Rejected(500, msg);
        case Body(userId, _) =>
          if Falsy(userId) {
            return Rejected(400, MissingUserId);
          }
          if faults.rolesQueryError.Some? {
            return Rejected(500, CatchMessage(faults.rolesQueryError.value));
          }
          var role := if |userRoles| == 0 then Superuser else User;
          if faults.roleInsertError.Some? {
            return Rejected(500, CatchMessage(faults.roleInsertError.value));
          }
          userRoles := userRoles + [UserRoleRow(userId.value, role)];
          if !faults.auditInsertFails {
            auditLogs := auditLogs + [AuditFor(userId.value, role)];
          }
          return Assigned(role);
      }
    }
  }
}
