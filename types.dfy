/** Records, enumerations and environment facts shared by both authentication controllers. */
module AuthTypes {

  datatype Option<T> = None | Some(value: T) {
    /** PHP's `$x ?? $default` for a nullable value */
    function GetOr(default: T): T {
      if Some? then value else default
    }

    /** `$x ?? $y` where the fallback is itself nullable */
    function Or(other: Option<T>): Option<T> {
      if Some? then this else other
    }
  }

  /** A wall-clock reading, as `now()` yields it. */
  datatype DateTime = DateTime(year: nat, month: nat, day: nat, hour: nat, minute: nat, second: nat)

  /** The readings for which the `dmYHis` format yields exactly fourteen digits. */
  predicate ValidDateTime(t: DateTime) {
    && t.year <= 9999
    && 1 <= t.month <= 12
    && 1 <= t.day <= 31
    && t.hour <= 23
    && t.minute <= 59
    && t.second <= 59
  }

  /** `gender` values accepted by the profile-completion validator */
  datatype Gender = Male | Female | Other | PreferNotToSay

  /** `auth_method` values accepted by the register and login validators */
  datatype AuthMethod = EmailPassword | Google | Facebook | Apple | Phone

  function AuthMethodName(m: AuthMethod): string {
    match m
    case EmailPassword => "email_password"
    case Google => "google"
    case Facebook => "facebook"
    case Apple => "apple"
    case Phone => "phone"
  }

  /** `portal_type` values accepted by the portal validators */
  datatype PortalType = Admin | Staff | Operator

  function PortalName(p: PortalType): (s: string)
    ensures |s| > 0
  {
    match p
    case Admin => "admin"
    case Staff => "staff"
    case Operator => "operator"
  }

  /** One row of the `users` table, restricted to the columns the two controllers read or write. */
  datatype User = User(
    userRefId: string,
    firebaseUid: string,
    email: string,
    emailVerified: bool,
    displayName: Option<string>,
    profilePhotoUrl: Option<string>,
    firstname: Option<string>,
    lastname: Option<string>,
    birthday: Option<string>,
    gender: Option<Gender>,
    mobileNumber: Option<string>,
    mobileCountryCode: Option<string>,
    nationality: Option<string>,
    homeCountry: Option<string>,
    homeCity: Option<string>,
    preferredLanguage: Option<string>,
    preferredCurrency: Option<string>,
    confirmed: bool,
    isOperator: bool,
    isAdmin: bool,
    isStaff: bool,
    accountStatus: string,
    referralCode: string,
    registrationSource: string,
    lastLoginIp: Option<string>,
    lastLoginAt: Option<DateTime>,
    lastLoginDevice: Option<string>,
    createdAt: DateTime,
    updatedAt: DateTime)

  /** The role flag that gates a portal: `is_admin`, `is_staff` or `is_operator`. */
  predicate HasRole(u: User, p: PortalType) {
    match p
    case Admin => u.isAdmin
    case Staff => u.isStaff
    case Operator => u.isOperator
  }

  /** The optional `device_info` object of a request; an absent object has every field absent. */
  datatype DeviceInfo = DeviceInfo(
    deviceType: Option<string>,
    deviceModel: Option<string>,
    deviceName: Option<string>,
    osName: Option<string>,
    osVersion: Option<string>,
    browserName: Option<string>,
    browserVersion: Option<string>,
    appVersion: Option<string>)

  const NoDevice := DeviceInfo(None, None, None, None, None, None, None, None)

  /** One row of the `auth_history` journal. The two controllers fill different columns of it. */
  datatype AuthEvent =
    | AppEvent(
        authRefId: string,
        userRefId: string,
        firebaseUid: Option<string>,
        authMethod: string,
        authStatus: string,
        authType: string,
        device: DeviceInfo,
        userAgent: Option<string>,
        ipAddress: Option<string>,
        isNewDevice: bool,
        at: DateTime)
    | PortalEvent(
        authRefId: string,
        userRefId: string,
        firebaseUid: Option<string>,
        eventType: string,
        authMethod: string,
        portalType: string,
        ipAddress: Option<string>,
        userAgent: Option<string>,
        device: DeviceInfo,
        success: bool,
        at: DateTime)

  /** The `data` part of a JSON response (plus the top-level extras of the profile-incomplete denial). */
  datatype Payload =
    | NoData
    | FieldErrors
    | EmailExists(userRefId: string, confirmed: bool)
    | EmailAvailable
    | UidRegistered(userRefId: string, confirmed: bool)
    | EmailRegistered(userRefId: string)
    | Registered(userRefId: string, email: string, displayName: Option<string>, confirmed: bool,
                 referralCode: string, requiresProfileCompletion: bool)
    | ProfileView(user: User)
    | ProfileIncomplete(userRefId: string)
    | PortalAccount(user: User, portalType: PortalType, roles: map<PortalType, bool>)
    | Session(userRefId: string, email: string, displayName: Option<string>, portalType: PortalType)

  /** An HTTP status with the `{success, message, data}` envelope. */
  datatype Response = Response(status: int, success: bool, message: string, data: Payload)

  function Failure(status: int, message: string): Response {
    Response(status, false, message, NoData)
  }

  // ---------------------------------------------------------------------------
  // What the environment supplies to a request

  /** The pool `str_shuffle` permutes. */
  const Alphabet := "ABCDEFGHIJKLMNOPQRSTUVWXYZ0123456789"

  predicate IsCodeChar(c: char) {
    'A' <= c <= 'Z' || '0' <= c <= '9'
  }

  predicate Distinct(s: string) {
    forall i, j :: 0 <= i < j < |s| ==> s[i] != s[j]
  }

  /** A result of `str_shuffle(Alphabet)`: 36 distinct characters of the alphabet, that is, a
      permutation of it. */
  predicate IsShuffle(s: string) {
    && |s| == |Alphabet|
    && Distinct(s)
    && forall i :: 0 <= i < |s| ==> IsCodeChar(s[i])
  }

  /** Everything a request reads from outside the database: the clock, the three `str_shuffle`
      results a request may draw, the client address and `User-Agent` header, and whether the
      `auth_history` insert succeeds. */
  datatype Env = Env(
    now: DateTime,
    userShuffle: string,
    referralShuffle: string,
    authShuffle: string,
    ip: Option<string>,
    userAgent: Option<string>,
    journalOk: bool)

  predicate EnvOk(env: Env) {
    && ValidDateTime(env.now)
    && IsShuffle(env.userShuffle)
    && IsShuffle(env.referralShuffle)
    && IsShuffle(env.authShuffle)
  }

  /** What a best-effort journal insert adds: the row when the insert succeeds, nothing when it
      throws (the exception is logged and swallowed). */
  function Journaled(env: Env, e: AuthEvent): (s: seq<AuthEvent>)
    ensures |s| <= 1
  {
    if env.journalOk then [e] else []
  }
}
