/** The end-user identity handlers: e-mail check, registration of a Firebase identity,
    single-shot profile completion, login, logout and profile read. */
module AuthFirebase {
  import opened AuthTypes
  import opened Identifiers
  import opened Store

  datatype RegisterRequest = RegisterRequest(
    firebaseUid: string,
    email: string,
    emailVerified: Option<bool>,
    displayName: Option<string>,
    profilePhotoUrl: Option<string>,
    authMethod: Option<AuthMethod>,
    deviceInfo: DeviceInfo)

  datatype ProfileRequest = ProfileRequest(
    userRefId: string,
    firstname: string,
    lastname: string,
    birthday: string,
    gender: Gender,
    mobileNumber: Option<string>,
    mobileCountryCode: Option<string>,
    nationality: Option<string>,
    homeCountry: Option<string>,
    homeCity: Option<string>,
    preferredLanguage: Option<string>,
    preferredCurrency: Option<string>)

  datatype LoginRequest = LoginRequest(
    firebaseUid: string,
    email: string,
    authMethod: Option<AuthMethod>,
    deviceInfo: DeviceInfo)

  /** The 422 answer of every handler in this controller when the validator rejects the input. */
  const ValidationError := Response(422, false, "Validation error", FieldErrors)

  // ---------------------------------------------------------------------------
  // The auth_history journal

  /** The `$data` array given to `logAuthHistory`; absent entries take its defaults. */
  datatype HistoryData = HistoryData(
    userRefId: string,
    firebaseUid: Option<string>,
    authMethod: Option<string>,
    authStatus: Option<string>,
    authType: Option<string>,
    device: DeviceInfo,
    userAgent: Option<string>,
    ipAddress: Option<string>,
    isNewDevice: Option<bool>)

  /** The device columns this controller records: type, model, OS version and app version. */
  function AppDevice(d: DeviceInfo): DeviceInfo {
    DeviceInfo(d.deviceType, d.deviceModel, None, None, d.osVersion, None, None, d.appVersion)
  }

  /** The row `logAuthHistory` inserts for `data`. */
  function HistoryRow(data: HistoryData, authRefId: string, at: DateTime): (e: AuthEvent)
    ensures e.AppEvent? && e.userRefId == data.userRefId && e.authRefId == authRefId
  {
    AppEvent(authRefId, data.userRefId, data.firebaseUid,
             data.authMethod.GetOr("email_password"), data.authStatus.GetOr("success"),
             data.authType.GetOr("login"), AppDevice(data.device), data.userAgent, data.ipAddress,
             data.isNewDevice.GetOr(false), at)
  }

  /** `logAuthHistory`: a best-effort insert into `auth_history`; a failing insert is logged and
      swallowed, so the caller goes on exactly as if it had succeeded. */
  method LogAuthHistory(db: Database, data: HistoryData, env: Env)
    requires EnvOk(env)
    modifies db
    ensures db.users == old(db.users)
    ensures db.authHistory
         == old(db.authHistory) + Journaled(env, HistoryRow(data, AuthRefId(env.now, env.authShuffle), env.now))
  {
    var row := HistoryRow(data, AuthRefId(env.now, env.authShuffle), env.now);
    if env.journalOk {
      db.authHistory := db.authHistory + [row];
    }
  }

  function MethodName(m: Option<AuthMethod>): string {
    if m.Some? then AuthMethodName(m.value) else "email_password"
  }

  // ---------------------------------------------------------------------------
  // checkEmail

  /** `checkEmail`: reports whether some account already uses the address; writes nothing. */
  method CheckEmail(db: Database, inputValid: bool, email: string) returns (resp: Response)
    requires db.Valid()
    ensures !inputValid ==> resp == ValidationError
    ensures inputValid ==> resp.status == 200
    ensures inputValid ==> (resp.data.EmailExists? <==> Exists(db.users, ByEmail(email)))
    ensures inputValid ==> (resp.success <==> !Exists(db.users, ByEmail(email)))
    ensures inputValid && !Exists(db.users, ByEmail(email)) ==>
              resp == Response(200, true, "Email is available", EmailAvailable)
    ensures resp.data.EmailExists? ==>
              && resp.message == "Email already exists in our system"
              && resp.data.userRefId in db.users
              && db.users[resp.data.userRefId].email == email
              && resp.data.confirmed == db.users[resp.data.userRefId].confirmed
  {
    if !inputValid {
      return ValidationError;
    }
    var found := First(db.users, ByEmail(email));
    if found.Some? {
      var u := db.users[found.value];
      return Response(200, false, "Email already exists in our system", EmailExists(u.userRefId, u.confirmed));
    }
    resp := Response(200, true, "Email is available", EmailAvailable);
  }

  // ---------------------------------------------------------------------------
  // register

  /** The row `register` inserts: unconfirmed, no role, active, with the request's identity. */
  function NewAccount(req: RegisterRequest, refId: string, code: string, env: Env): User {
    User(
      userRefId := refId,
      firebaseUid := req.firebaseUid,
      email := req.email,
      emailVerified := req.emailVerified.GetOr(false),
      displayName := req.displayName,
      profilePhotoUrl := req.profilePhotoUrl,
      firstname := None,
      lastname := None,
      birthday := None,
      gender := None,
      mobileNumber := None,
      mobileCountryCode := None,
      nationality := None,
      homeCountry := None,
      homeCity := None,
      preferredLanguage := None,
      preferredCurrency := None,
      confirmed := false,
      isOperator := false,
      isAdmin := false,
      isStaff := false,
      accountStatus := "active",
      referralCode := code,
      registrationSource := req.deviceInfo.deviceType.GetOr("web"),
      lastLoginIp := env.ip,
      lastLoginAt := Some(env.now),
      lastLoginDevice := None,
      createdAt := env.now,
      updatedAt := env.now)
  }

  function RegisterEvent(req: RegisterRequest, refId: string, env: Env): HistoryData {
    HistoryData(refId, Some(req.firebaseUid), Some(MethodName(req.authMethod)), Some("success"),
                Some("login"), req.deviceInfo, env.userAgent, env.ip, Some(true))
  }

  /** The two writes of a successful registration: the new, unconfirmed row and its journal entry. */
  method Enroll(db: Database, u: User, data: HistoryData, env: Env)
    requires db.Valid() && EnvOk(env)
    requires u.userRefId !in db.users && !u.confirmed
    requires !Exists(db.users, ByUid(u.firebaseUid)) && !Exists(db.users, ByEmail(u.email))
    modifies db
    ensures db.Valid()
    ensures ConfirmedComplete(old(db.users)) ==> ConfirmedComplete(db.users)
    ensures Evolves(old(db.users), db.users)
    ensures db.users == old(db.users)[u.userRefId := u]
    ensures db.authHistory
         == old(db.authHistory) + Journaled(env, HistoryRow(data, AuthRefId(env.now, env.authShuffle), env.now))
  {
    InsertKeepsWellFormed(db.users, u);
    db.users := db.users[u.userRefId := u];
    LogAuthHistory(db, data, env);
  }

  /** The journal entry of a registration records a successful login of the new account from a
      new device, under the Firebase uid, the given method (e-mail and password by default) and the
      request's address. */
  lemma RegisterEventIsNewDeviceLogin(req: RegisterRequest, refId: string, env: Env, authRefId: string)
    ensures var e := HistoryRow(RegisterEvent(req, refId, env), authRefId, env.now);
            && e.userRefId == refId && e.firebaseUid == Some(req.firebaseUid)
            && e.authType == "login" && e.authStatus == "success" && e.isNewDevice
            && e.authMethod == (if req.authMethod.Some? then AuthMethodName(req.authMethod.value) else "email_password")
            && e.ipAddress == env.ip && e.userAgent == env.userAgent && e.at == env.now
  {
  }

  /** `register`: links a new Firebase identity to a new, unconfirmed account. The uid conflict is
      checked before the e-mail conflict; a conflict writes nothing. */
  method Register(db: Database, inputValid: bool, req: RegisterRequest, env: Env) returns (resp: Response)
    requires db.Valid() && EnvOk(env)
    modifies db
    ensures db.Valid()
    ensures ConfirmedComplete(old(db.users)) ==> ConfirmedComplete(db.users)
    ensures Evolves(old(db.users), db.users) && old(db.authHistory) <= db.authHistory
    ensures resp.status in {201, 409, 422, 500}
    ensures !inputValid ==> resp == ValidationError && unchanged(db)
    ensures inputValid && Exists(old(db.users), ByUid(req.firebaseUid)) ==>
              && unchanged(db)
              && resp.status == 409
              && resp.message == "User already registered with this Firebase account"
              && !resp.success
              && resp.data.UidRegistered?
              && resp.data.userRefId in db.users
              && db.users[resp.data.userRefId].firebaseUid == req.firebaseUid
              && resp.data.confirmed == db.users[resp.data.userRefId].confirmed
    ensures inputValid && !Exists(old(db.users), ByUid(req.firebaseUid))
                       && Exists(old(db.users), ByEmail(req.email)) ==>
              && unchanged(db)
              && resp.status == 409
              && resp.message == "Email already registered"
              && !resp.success
              && resp.data.EmailRegistered?
              && resp.data.userRefId in db.users
              && db.users[resp.data.userRefId].email == req.email
    ensures resp.status == 201 <==>
              && inputValid
              && !Exists(old(db.users), ByUid(req.firebaseUid))
              && !Exists(old(db.users), ByEmail(req.email))
              && UserRefId(env.now, env.userShuffle) !in old(db.users)
    ensures resp.status == 500 ==>
              resp == Failure(500, "An error occurred during registration") && unchanged(db)
    ensures resp.status == 201 ==>
              var r := UserRefId(env.now, env.userShuffle);
              var code := ReferralCode(env.referralShuffle);
              var u := NewAccount(req, r, code, env);
              && db.users == old(db.users)[r := u]
              && !u.confirmed && !u.isAdmin && !u.isStaff && !u.isOperator
              && u.accountStatus == "active"
              && db.authHistory == old(db.authHistory)
                 + Journaled(env, HistoryRow(RegisterEvent(req, r, env), AuthRefId(env.now, env.authShuffle), env.now))
              && resp == Response(201, true, "User registered successfully. Please complete your profile.",
                                  Registered(r, req.email, req.displayName, false, code, true))
  {
    if !inputValid {
      return ValidationError;
    }
    var byUid := First(db.users, ByUid(req.firebaseUid));
    if byUid.Some? {
      var existing := db.users[byUid.value];
      return Response(409, false, "User already registered with this Firebase account",
                      UidRegistered(existing.userRefId, existing.confirmed));
    }
    var byEmail := First(db.users, ByEmail(req.email));
    if byEmail.Some? {
      var existing := db.users[byEmail.value];
      return Response(409, false, "Email already registered", EmailRegistered(existing.userRefId));
    }
    var refId := UserRefId(env.now, env.userShuffle);
    var code := ReferralCode(env.referralShuffle);
    if refId in db.users {
      // the insert violates the table's key on user_refid; the exception becomes a 500
      return Failure(500, "An error occurred during registration");
    }
    var row := NewAccount(req, refId, code, env);
    Enroll(db, row, RegisterEvent(req, refId, env), env);
    resp := Response(201, true, "User registered successfully. Please complete your profile.",
                     Registered(row.userRefId, row.email, row.displayName, row.confirmed, row.referralCode, true));
  }

  // ---------------------------------------------------------------------------
  // completeProfile

  /** The update `completeProfile` applies to an unconfirmed row. */
  function CompletedProfile(u: User, req: ProfileRequest, now: DateTime): User {
    u.(firstname := Some(req.firstname),
       lastname := Some(req.lastname),
       displayName := Some(req.firstname + " " + req.lastname),
       birthday := Some(req.birthday),
       gender := Some(req.gender),
       mobileNumber := req.mobileNumber,
       mobileCountryCode := req.mobileCountryCode,
       nationality := req.nationality,
       homeCountry := req.homeCountry,
       homeCity := req.homeCity,
       preferredLanguage := Some(req.preferredLanguage.GetOr("en")),
       preferredCurrency := Some(req.preferredCurrency.GetOr("USD")),
       confirmed := true,
       updatedAt := now)
  }

  /** `completeProfile`: the single false-to-true confirmation, writing the profile at the same
      time. The validator's `exists:users,user_refid` rule answers 422 for an unknown account. */
  method CompleteProfile(db: Database, inputValid: bool, req: ProfileRequest, env: Env) returns (resp: Response)
    requires db.Valid()
    modifies db
    ensures db.Valid()
    ensures ConfirmedComplete(old(db.users)) ==> ConfirmedComplete(db.users)
    ensures Evolves(old(db.users), db.users) && db.authHistory == old(db.authHistory)
    ensures !inputValid || req.userRefId !in old(db.users) ==> resp == ValidationError && unchanged(db)
    ensures inputValid && req.userRefId in old(db.users) && old(db.users)[req.userRefId].confirmed ==>
              resp == Failure(400, "User profile is already confirmed") && unchanged(db)
    ensures resp.status == 200 <==>
              inputValid && req.userRefId in old(db.users) && !old(db.users)[req.userRefId].confirmed
    ensures resp.status == 200 ==>
              var before := old(db.users)[req.userRefId];
              var v := CompletedProfile(before, req, env.now);
              && db.users == old(db.users)[req.userRefId := v]
              && v.confirmed
              && v.displayName == Some(req.firstname + " " + req.lastname)
              && v.preferredLanguage == Some(req.preferredLanguage.GetOr("en"))
              && v.preferredCurrency == Some(req.preferredCurrency.GetOr("USD"))
              && Stable(before, v)
              && resp == Response(200, true, "Profile completed successfully", ProfileView(v))
  {
    if !inputValid || req.userRefId !in db.users {
      return ValidationError;
    }
    var u := db.users[req.userRefId];
    if u.confirmed {
      return Failure(400, "User profile is already confirmed");
    }
    var v := CompletedProfile(u, req, env.now);
    UpdateKeepsWellFormed(db.users, req.userRefId, v);
    UpdateKeepsComplete(db.users, req.userRefId, v);
    db.users := db.users[req.userRefId := v];
    resp := Response(200, true, "Profile completed successfully", ProfileView(v));
  }

  // ---------------------------------------------------------------------------
  // login

  /** The last-login bookkeeping `login` writes. */
  function LoginBookkeeping(u: User, req: LoginRequest, env: Env): User {
    u.(lastLoginAt := Some(env.now),
       lastLoginIp := env.ip,
       lastLoginDevice := Some(req.deviceInfo.deviceType.GetOr("web")),
       updatedAt := env.now)
  }

  /** `after` differs from `before` at most in the four bookkeeping columns. */
  predicate OnlyBookkeeping(before: User, after: User) {
    after == before.(lastLoginAt := after.lastLoginAt, lastLoginIp := after.lastLoginIp,
                     lastLoginDevice := after.lastLoginDevice, updatedAt := after.updatedAt)
  }

  function LoginEvent(req: LoginRequest, refId: string, env: Env): HistoryData {
    HistoryData(refId, Some(req.firebaseUid), Some(MethodName(req.authMethod)), Some("success"),
                Some("login"), req.deviceInfo, env.userAgent, env.ip, None)
  }

  /** `login`: finds the account by uid and e-mail together and gates it on `account_status`
      (not on `confirmed`); a success touches only the bookkeeping and journals one entry. */
  method Login(db: Database, inputValid: bool, req: LoginRequest, env: Env) returns (resp: Response)
    requires db.Valid() && EnvOk(env)
    modifies db
    ensures db.Valid()
    ensures ConfirmedComplete(old(db.users)) ==> ConfirmedComplete(db.users)
    ensures Evolves(old(db.users), db.users) && old(db.authHistory) <= db.authHistory
    ensures !inputValid ==> resp == ValidationError && unchanged(db)
    ensures inputValid && !Exists(old(db.users), ByCredentials(req.email, req.firebaseUid)) ==>
              resp == Failure(404, "User not found. Please register first.") && unchanged(db)
    ensures inputValid && Exists(old(db.users), ByCredentials(req.email, req.firebaseUid)) ==>
              var k := First(old(db.users), ByCredentials(req.email, req.firebaseUid)).value;
              var u := old(db.users)[k];
              if u.accountStatus != "active" then
                && resp == Failure(403, "Account is " + u.accountStatus + ". Please contact support.")
                && unchanged(db)
              else
                && db.users == old(db.users)[k := LoginBookkeeping(u, req, env)]
                && OnlyBookkeeping(u, db.users[k])
                && db.authHistory == old(db.authHistory)
                   + Journaled(env, HistoryRow(LoginEvent(req, k, env), AuthRefId(env.now, env.authShuffle), env.now))
                && resp == Response(200, true, "Login successful", ProfileView(u))
  {
    if !inputValid {
      return ValidationError;
    }
    var found := First(db.users, ByCredentials(req.email, req.firebaseUid));
    if found.None? {
      return Failure(404, "User not found. Please register first.");
    }
    var k := found.value;
    var u := db.users[k];
    if u.accountStatus != "active" {
      return Failure(403, "Account is " + u.accountStatus + ". Please contact support.");
    }
    var v := LoginBookkeeping(u, req, env);
    UpdateKeepsWellFormed(db.users, k, v);
    UpdateKeepsComplete(db.users, k, v);
    db.users := db.users[k := v];
    LogAuthHistory(db, LoginEvent(req, k, env), env);
    resp := Response(200, true, "Login successful", ProfileView(u));
  }

  // ---------------------------------------------------------------------------
  // logout and getProfile

  function LogoutEvent(u: User, env: Env): HistoryData {
    HistoryData(u.userRefId, Some(u.firebaseUid), Some("email_password"), Some("success"),
                Some("logout"), NoDevice, env.userAgent, env.ip, None)
  }

  /** `logout`: journals one logout entry for an existing account and changes no user row. */
  method Logout(db: Database, inputValid: bool, userRefId: string, env: Env) returns (resp: Response)
    requires db.Valid() && EnvOk(env)
    modifies db
    ensures db.users == old(db.users)
    ensures !inputValid || userRefId !in old(db.users) ==> resp == ValidationError && unchanged(db)
    ensures inputValid && userRefId in old(db.users) ==>
              && resp == Response(200, true, "Logout successful", NoData)
              && db.authHistory == old(db.authHistory)
                 + Journaled(env, HistoryRow(LogoutEvent(old(db.users)[userRefId], env),
                                             AuthRefId(env.now, env.authShuffle), env.now))
              && (env.journalOk ==>
                    var e := db.authHistory[|db.authHistory| - 1];
                    e.userRefId == userRefId && e.authType == "logout")
  {
    if !inputValid || userRefId !in db.users {
      return ValidationError;
    }
    var u := db.users[userRefId];
    LogAuthHistory(db, LogoutEvent(u, env), env);
    resp := Response(200, true, "Logout successful", NoData);
  }

  /** `getProfile`: the row for a reference id, or 404; writes nothing. */
  method GetProfile(db: Database, userRefId: string) returns (resp: Response)
    ensures userRefId !in db.users ==> resp == Failure(404, "User not found")
    ensures userRefId in db.users ==>
              resp == Response(200, true, "Profile retrieved successfully", ProfileView(db.users[userRefId]))
  {
    if userRefId !in db.users {
      return Failure(404, "User not found");
    }
    resp := Response(200, true, "Profile retrieved successfully", ProfileView(db.users[userRefId]));
  }
}
