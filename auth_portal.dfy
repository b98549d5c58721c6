/** The portal access handlers: the role gate, the staged generic login, the three specialised
    logins, logout and session re-verification. */
module AuthPortal {
  import opened AuthTypes
  import opened Identifiers
  import opened Store

  /** The request fields every portal handler may carry besides its credentials. */
  datatype Client = Client(deviceInfo: DeviceInfo, ipAddress: Option<string>, userAgent: Option<string>)

  datatype Credentials = Credentials(email: string, firebaseUid: string, client: Client)

  /** The 422 answer of every handler in this controller when the validator rejects the input. */
  const ValidationError := Response(422, false, "Validation failed", FieldErrors)

  // ---------------------------------------------------------------------------
  // checkRoleAccess

  /** `['allowed' => ..., 'message' => ...]` */
  datatype RoleCheck = RoleCheck(allowed: bool, message: string)

  /** The denial message of the role gate for each portal type. */
  function PrivilegeMessage(p: PortalType): string {
    match p
    case Admin => "Access denied. Administrator privileges required."
    case Staff => "Access denied. Staff privileges required."
    case Operator => "Access denied. Operator privileges required."
  }

  lemma PortalNamesKnown(portalType: string)
    ensures portalType == "admin" <==> portalType == PortalName(Admin)
    ensures portalType == "staff" <==> portalType == PortalName(Staff)
    ensures portalType == "operator" <==> portalType == PortalName(Operator)
    ensures forall p, q :: portalType == PortalName(p) && portalType == PortalName(q) ==> p == q
  {
  }

  /** `checkRoleAccess`: a known portal type is allowed exactly when its role flag is set, and each
      has its own denial message; any other portal type is always denied. */
  function CheckRoleAccess(u: User, portalType: string): (r: RoleCheck)
    ensures forall p :: portalType == PortalName(p) ==>
              && (r.allowed <==> HasRole(u, p))
              && r.message == if r.allowed then "" else PrivilegeMessage(p)
    ensures (forall p :: portalType != PortalName(p)) ==> r == RoleCheck(false, "Invalid portal type specified.")
  {
    PortalNamesKnown(portalType);
    if portalType == "admin" then
      if u.isAdmin then RoleCheck(true, "") else RoleCheck(false, "Access denied. Administrator privileges required.")
    else if portalType == "staff" then
      if u.isStaff then RoleCheck(true, "") else RoleCheck(false, "Access denied. Staff privileges required.")
    else if portalType == "operator" then
      if u.isOperator then RoleCheck(true, "") else RoleCheck(false, "Access denied. Operator privileges required.")
    else
      RoleCheck(false, "Invalid portal type specified.")
  }

  // ---------------------------------------------------------------------------
  // logAuthentication

  /** The device columns this controller records: all but the model. */
  function PortalDevice(d: DeviceInfo): DeviceInfo {
    d.(deviceModel := None)
  }

  /** The row `logAuthentication` inserts. No handler here writes `users.auth_method`, and `??`
      also covers a missing column, so the method recorded is always `firebase`. */
  function AuthenticationRow(u: User, client: Client, eventType: string, portalType: string, env: Env): (e: AuthEvent)
    requires EnvOk(env)
    ensures e.PortalEvent? && e.userRefId == u.userRefId && e.eventType == eventType && e.portalType == portalType
    ensures IsRefId("AUT-", e.authRefId) && e.success && e.at == env.now
    ensures e.authMethod == "firebase" && e.firebaseUid == Some(u.firebaseUid)
    ensures e.ipAddress == (if client.ipAddress.Some? then client.ipAddress else env.ip)
    ensures e.userAgent == (if client.userAgent.Some? then client.userAgent else env.userAgent)
    ensures e.device.deviceModel.None? && e.device.deviceType == client.deviceInfo.deviceType
  {
    PortalEvent(AuthRefId(env.now, env.authShuffle), u.userRefId, Some(u.firebaseUid), eventType,
                "firebase", portalType, client.ipAddress.Or(env.ip), client.userAgent.Or(env.userAgent),
                PortalDevice(client.deviceInfo), true, env.now)
  }

  /** `logAuthentication`: a best-effort insert into `auth_history`; a failing insert is logged
      and swallowed. */
  method LogAuthentication(db: Database, u: User, client: Client, eventType: string, portalType: string, env: Env)
    requires EnvOk(env)
    modifies db
    ensures db.users == old(db.users)
    ensures db.authHistory == old(db.authHistory) + Journaled(env, AuthenticationRow(u, client, eventType, portalType, env))
  {
    var row := AuthenticationRow(u, client, eventType, portalType, env);
    if env.journalOk {
      db.authHistory := db.authHistory + [row];
    }
  }

  /** The last-login bookkeeping every portal login writes. */
  function Touched(u: User, now: DateTime): User {
    u.(lastLoginAt := Some(now), updatedAt := now)
  }

  /** The two writes of every successful portal login: the last-login stamp on the account's row
      and one `login` journal entry. */
  method Admit(db: Database, u: User, client: Client, portalType: string, env: Env)
    requires db.Valid() && EnvOk(env)
    requires u.userRefId in db.users && db.users[u.userRefId] == u
    modifies db
    ensures db.Valid()
    ensures ConfirmedComplete(old(db.users)) ==> ConfirmedComplete(db.users)
    ensures Evolves(old(db.users), db.users)
    ensures db.users == old(db.users)[u.userRefId := Touched(u, env.now)]
    ensures db.authHistory == old(db.authHistory) + Journaled(env, AuthenticationRow(u, client, "login", portalType, env))
  {
    UpdateKeepsWellFormed(db.users, u.userRefId, Touched(u, env.now));
    UpdateKeepsComplete(db.users, u.userRefId, Touched(u, env.now));
    db.users := db.users[u.userRefId := Touched(u, env.now)];
    LogAuthentication(db, u, client, "login", portalType, env);
  }

  // ---------------------------------------------------------------------------
  // login (generic, staged)

  /** The outcome of the generic login's read-only checks, in the order they are made. */
  datatype Gate = NoAccount | Unconfirmed(userRefId: string) | RoleDenied(message: string) | Admitted(userRefId: string)

  /** The staged checks of `login`: the account, then `confirmed`, then the role gate. */
  function StagedGate(users: map<string, User>, email: string, uid: string, portalType: string): (g: Gate)
    requires WellFormed(users)
    ensures g.NoAccount? <==> !Exists(users, ByCredentials(email, uid))
    ensures g.Unconfirmed? ==>
              g.userRefId in users && Matches(users[g.userRefId], ByCredentials(email, uid))
              && !users[g.userRefId].confirmed
    ensures g.RoleDenied? ==>
              exists k :: k in users && Matches(users[k], ByCredentials(email, uid)) && users[k].confirmed
                          && CheckRoleAccess(users[k], portalType) == RoleCheck(false, g.message)
    ensures g.Admitted? ==>
              g.userRefId in users && Matches(users[g.userRefId], ByCredentials(email, uid))
              && users[g.userRefId].confirmed && CheckRoleAccess(users[g.userRefId], portalType).allowed
  {
    var found := First(users, ByCredentials(email, uid));
    if found.None? then NoAccount
    else
      var u := users[found.value];
      if !u.confirmed then Unconfirmed(u.userRefId)
      else
        var check := CheckRoleAccess(u, portalType);
        if !check.allowed then RoleDenied(check.message)
        else Admitted(u.userRefId)
  }

  /** The role flags the generic login reports. */
  function AllRoles(u: User): map<PortalType, bool> {
    map[Admin := u.isAdmin, Staff := u.isStaff, Operator := u.isOperator]
  }

  /** `login`: 404 without an account matching both credentials, 403 asking for profile completion
      when unconfirmed, 403 with the role message when the gate denies, and otherwise 200 after
      touching `last_login_at` and journaling one login entry. `account_status` is not consulted. */
  method Login(db: Database, inputValid: bool, cred: Credentials, portal: PortalType, env: Env) returns (resp: Response)
    requires db.Valid() && EnvOk(env)
    modifies db
    ensures db.Valid()
    ensures ConfirmedComplete(old(db.users)) ==> ConfirmedComplete(db.users)
    ensures Evolves(old(db.users), db.users) && old(db.authHistory) <= db.authHistory
    ensures !inputValid ==> resp == ValidationError && unchanged(db)
    ensures inputValid ==>
              match StagedGate(old(db.users), cred.email, cred.firebaseUid, PortalName(portal))
              case NoAccount =>
                resp == Failure(404, "User not found or Firebase UID mismatch") && unchanged(db)
              case Unconfirmed(r) =>
                && resp == Response(403, false, "Account not confirmed. Please complete your profile first.",
                                    ProfileIncomplete(r))
                && unchanged(db)
              case RoleDenied(m) =>
                resp == Failure(403, m) && unchanged(db)
              case Admitted(r) =>
                var u := old(db.users)[r];
                && db.users == old(db.users)[r := Touched(u, env.now)]
                && db.authHistory == old(db.authHistory)
                   + Journaled(env, AuthenticationRow(u, cred.client, "login", PortalName(portal), env))
                && resp == Response(200, true, "Login successful", PortalAccount(u, portal, AllRoles(u)))
  {
    if !inputValid {
      return ValidationError;
    }
    match StagedGate(db.users, cred.email, cred.firebaseUid, PortalName(portal))
    case NoAccount =>
      resp := Failure(404, "User not found or Firebase UID mismatch");
    case Unconfirmed(r) =>
      resp := Response(403, false, "Account not confirmed. Please complete your profile first.",
                       ProfileIncomplete(r));
    case RoleDenied(m) =>
      resp := Failure(403, m);
    case Admitted(r) =>
      var u := db.users[r];
      Admit(db, u, cred.client, PortalName(portal), env);
      resp := Response(200, true, "Login successful", PortalAccount(u, portal, AllRoles(u)));
  }

  // ---------------------------------------------------------------------------
  // adminLogin, staffLogin, operatorLogin

  function DeniedMessage(p: PortalType): string {
    match p
    case Admin => "Access denied. Administrator account not found or not authorized."
    case Staff => "Access denied. Staff account not found or not authorized."
    case Operator => "Access denied. Operator account not found or not authorized."
  }

  function SuccessMessage(p: PortalType): string {
    match p
    case Admin => "Administrator login successful"
    case Staff => "Staff login successful"
    case Operator => "Operator login successful"
  }

  /** The shared body of the three specialised logins: confirmation and the role flag are part of
      the lookup, so a missing account, an unconfirmed one and one without the role all get the
      same 403 and write nothing. */
  method RoleLogin(db: Database, inputValid: bool, cred: Credentials, portal: PortalType, env: Env) returns (resp: Response)
    requires db.Valid() && EnvOk(env)
    modifies db
    ensures db.Valid()
    ensures ConfirmedComplete(old(db.users)) ==> ConfirmedComplete(db.users)
    ensures Evolves(old(db.users), db.users) && old(db.authHistory) <= db.authHistory
    ensures !inputValid ==> resp == ValidationError && unchanged(db)
    ensures inputValid && !Exists(old(db.users), ByRole(cred.email, cred.firebaseUid, portal)) ==>
              resp == Failure(403, DeniedMessage(portal)) && unchanged(db)
    ensures inputValid && Exists(old(db.users), ByRole(cred.email, cred.firebaseUid, portal)) ==>
              var r := First(old(db.users), ByRole(cred.email, cred.firebaseUid, portal)).value;
              var u := old(db.users)[r];
              && db.users == old(db.users)[r := Touched(u, env.now)]
              && db.authHistory == old(db.authHistory)
                 + Journaled(env, AuthenticationRow(u, cred.client, "login", PortalName(portal), env))
              && resp == Response(200, true, SuccessMessage(portal), PortalAccount(u, portal, map[portal := true]))
  {
    if !inputValid {
      return ValidationError;
    }
    var found := First(db.users, ByRole(cred.email, cred.firebaseUid, portal));
    if found.None? {
      return Failure(403, DeniedMessage(portal));
    }
    var u := db.users[found.value];
    Admit(db, u, cred.client, PortalName(portal), env);
    resp := Response(200, true, SuccessMessage(portal), PortalAccount(u, portal, map[portal := true]));
  }

  /** `adminLogin`: succeeds exactly when a confirmed administrator matches both credentials. */
  method AdminLogin(db: Database, inputValid: bool, cred: Credentials, env: Env) returns (resp: Response)
    requires db.Valid() && EnvOk(env)
    modifies db
    ensures db.Valid()
    ensures ConfirmedComplete(old(db.users)) ==> ConfirmedComplete(db.users)
    ensures Evolves(old(db.users), db.users) && old(db.authHistory) <= db.authHistory
    ensures !inputValid ==> resp == ValidationError && unchanged(db)
    ensures resp.status == 200 <==> inputValid && Exists(old(db.users), ByRole(cred.email, cred.firebaseUid, Admin))
    ensures inputValid && resp.status != 200 ==>
              resp == Failure(403, "Access denied. Administrator account not found or not authorized.") && unchanged(db)
    ensures resp.status == 200 ==>
              var r := First(old(db.users), ByRole(cred.email, cred.firebaseUid, Admin)).value;
              var u := old(db.users)[r];
              && db.users == old(db.users)[r := Touched(u, env.now)]
              && db.authHistory == old(db.authHistory)
                 + Journaled(env, AuthenticationRow(u, cred.client, "login", "admin", env))
              && resp == Response(200, true, "Administrator login successful", PortalAccount(u, Admin, map[Admin := true]))
  {
    resp := RoleLogin(db, inputValid, cred, Admin, env);
  }

  /** `staffLogin`: succeeds exactly when a confirmed staff member matches both credentials. */
  method StaffLogin(db: Database, inputValid: bool, cred: Credentials, env: Env) returns (resp: Response)
    requires db.Valid() && EnvOk(env)
    modifies db
    ensures db.Valid()
    ensures ConfirmedComplete(old(db.users)) ==> ConfirmedComplete(db.users)
    ensures Evolves(old(db.users), db.users) && old(db.authHistory) <= db.authHistory
    ensures !inputValid ==> resp == ValidationError && unchanged(db)
    ensures resp.status == 200 <==> inputValid && Exists(old(db.users), ByRole(cred.email, cred.firebaseUid, Staff))
    ensures inputValid && resp.status != 200 ==>
              resp == Failure(403, "Access denied. Staff account not found or not authorized.") && unchanged(db)
    ensures resp.status == 200 ==>
              var r := First(old(db.users), ByRole(cred.email, cred.firebaseUid, Staff)).value;
              var u := old(db.users)[r];
              && db.users == old(db.users)[r := Touched(u, env.now)]
              && db.authHistory == old(db.authHistory)
                 + Journaled(env, AuthenticationRow(u, cred.client, "login", "staff", env))
              && resp == Response(200, true, "Staff login successful", PortalAccount(u, Staff, map[Staff := true]))
  {
    resp := RoleLogin(db, inputValid, cred, Staff, env);
  }

  /** `operatorLogin`: succeeds exactly when a confirmed operator matches both credentials. */
  method OperatorLogin(db: Database, inputValid: bool, cred: Credentials, env: Env) returns (resp: Response)
    requires db.Valid() && EnvOk(env)
    modifies db
    ensures db.Valid()
    ensures ConfirmedComplete(old(db.users)) ==> ConfirmedComplete(db.users)
    ensures Evolves(old(db.users), db.users) && old(db.authHistory) <= db.authHistory
    ensures !inputValid ==> resp == ValidationError && unchanged(db)
    ensures resp.status == 200 <==> inputValid && Exists(old(db.users), ByRole(cred.email, cred.firebaseUid, Operator))
    ensures inputValid && resp.status != 200 ==>
              resp == Failure(403, "Access denied. Operator account not found or not authorized.") && unchanged(db)
    ensures resp.status == 200 ==>
              var r := First(old(db.users), ByRole(cred.email, cred.firebaseUid, Operator)).value;
              var u := old(db.users)[r];
              && db.users == old(db.users)[r := Touched(u, env.now)]
              && db.authHistory == old(db.authHistory)
                 + Journaled(env, AuthenticationRow(u, cred.client, "login", "operator", env))
              && resp == Response(200, true, "Operator login successful", PortalAccount(u, Operator, map[Operator := true]))
  {
    resp := RoleLogin(db, inputValid, cred, Operator, env);
  }

  /** On a well-formed table the specialised login for a portal admits exactly the accounts the
      generic staged login admits for that portal type, and the same one. */
  lemma SpecialisedMatchesStaged(users: map<string, User>, email: string, uid: string, p: PortalType)
    requires WellFormed(users)
    ensures Exists(users, ByRole(email, uid, p)) <==> StagedGate(users, email, uid, PortalName(p)).Admitted?
    ensures StagedGate(users, email, uid, PortalName(p)).Admitted? ==>
              First(users, ByRole(email, uid, p)) == Some(StagedGate(users, email, uid, PortalName(p)).userRefId)
  {
  }

  // ---------------------------------------------------------------------------
  // logout and verifySession

  /** `logout`: 404 for an unknown account; otherwise one logout entry whose portal type defaults to
      `unknown`, and no user row changes. */
  method Logout(db: Database, inputValid: bool, userRefId: string, portalType: Option<string>,
                client: Client, env: Env) returns (resp: Response)
    requires db.Valid() && EnvOk(env)
    modifies db
    ensures db.users == old(db.users)
    ensures !inputValid ==> resp == ValidationError && unchanged(db)
    ensures inputValid && userRefId !in old(db.users) ==> resp == Failure(404, "User not found") && unchanged(db)
    ensures inputValid && userRefId in old(db.users) ==>
              && resp == Response(200, true, "Logout successful", NoData)
              && db.authHistory == old(db.authHistory)
                 + Journaled(env, AuthenticationRow(old(db.users)[userRefId], client, "logout",
                                                    portalType.GetOr("unknown"), env))
  {
    if !inputValid {
      return ValidationError;
    }
    if userRefId !in db.users {
      return Failure(404, "User not found");
    }
    LogAuthentication(db, db.users[userRefId], client, "logout", portalType.GetOr("unknown"), env);
    resp := Response(200, true, "Logout successful", NoData);
  }

  /** Every refusal of `verifySession` is a 401 whose message starts with "Session invalid: ". */
  function SessionInvalid(reason: string): Response {
    Failure(401, "Session invalid: " + reason)
  }

  /** `verifySession`: the confirmation and role checks again, by reference id; writes nothing. */
  method VerifySession(db: Database, inputValid: bool, userRefId: string, portal: PortalType) returns (resp: Response)
    ensures !inputValid ==> resp == ValidationError
    ensures inputValid ==>
              (resp.status == 200 <==>
                 userRefId in db.users && db.users[userRefId].confirmed && HasRole(db.users[userRefId], portal))
    ensures inputValid && userRefId !in db.users ==> resp == SessionInvalid("User not found")
    ensures inputValid && userRefId in db.users && !db.users[userRefId].confirmed ==>
              resp == SessionInvalid("Account not confirmed")
    ensures inputValid && userRefId in db.users && db.users[userRefId].confirmed
                       && !HasRole(db.users[userRefId], portal) ==>
              resp == SessionInvalid(PrivilegeMessage(portal))
    ensures resp.status == 200 ==>
              var u := db.users[userRefId];
              resp == Response(200, true, "Session valid", Session(u.userRefId, u.email, u.displayName, portal))
  {
    if !inputValid {
      return ValidationError;
    }
    if userRefId !in db.users {
      return SessionInvalid("User not found");
    }
    var u := db.users[userRefId];
    if !u.confirmed {
      return SessionInvalid("Account not confirmed");
    }
    var check := CheckRoleAccess(u, PortalName(portal));
    if !check.allowed {
      return SessionInvalid(check.message);
    }
    resp := Response(200, true, "Session valid", Session(u.userRefId, u.email, u.displayName, portal));
  }
}
