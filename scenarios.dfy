/** Clients of both controllers: what a caller can conclude from the handlers' contracts alone
    about one account's life, from registration to portal login. */
module Scenarios {
  import opened AuthTypes
  import opened Identifiers
  import opened Store
  import AuthFirebase
  import AuthPortal

  const Request := AuthFirebase.RegisterRequest("u1", "a@x.com", None, None, None, None, NoDevice)
  const Cred := AuthPortal.Credentials("a@x.com", "u1", AuthPortal.Client(NoDevice, None, None))

  function Profile(id: string): AuthFirebase.ProfileRequest {
    AuthFirebase.ProfileRequest(id, "A", "B", "1990-01-01", Other, None, None, None, None, None, None, None)
  }

  /** The account `register` creates for "u1" / "a@x.com". */
  function Account(env: Env): User
    requires EnvOk(env)
  {
    AuthFirebase.NewAccount(Request, UserRefId(env.now, env.userShuffle), ReferralCode(env.referralShuffle), env)
  }

  /** The same account after profile completion. */
  function Confirmed(env: Env): User
    requires EnvOk(env)
  {
    AuthFirebase.CompletedProfile(Account(env), Profile(Account(env).userRefId), env.now)
  }

  lemma AccountFacts(env: Env)
    requires EnvOk(env)
    ensures Account(env).userRefId == UserRefId(env.now, env.userShuffle)
    ensures Matches(Account(env), ByCredentials("a@x.com", "u1")) && !Account(env).confirmed
    ensures Matches(Confirmed(env), ByCredentials("a@x.com", "u1")) && Confirmed(env).confirmed
    ensures !Account(env).isAdmin && !Confirmed(env).isAdmin
    ensures Confirmed(env).displayName == Some("A B") && Confirmed(env).preferredLanguage == Some("en")
  {
    assert "A" + " " + "B" == "A B";
  }

  /** The staged portal gate on the freshly registered account asks for profile completion. */
  lemma GateBeforeCompletion(env: Env)
    requires EnvOk(env)
    ensures var id := UserRefId(env.now, env.userShuffle);
            var users := map[][id := Account(env)];
            WellFormed(users) && AuthPortal.StagedGate(users, "a@x.com", "u1", "admin") == AuthPortal.Unconfirmed(id)
  {
    AccountFacts(env);
    var id := UserRefId(env.now, env.userShuffle);
    var users := map[][id := Account(env)];
    assert forall k :: k in users ==> k == id;
    assert WellFormed(users);
    assert Matches(users[id], ByCredentials("a@x.com", "u1"));
    assert First(users, ByCredentials("a@x.com", "u1")) == Some(id);
  }

  /** Once the profile is complete, the gate refuses the account for lack of the administrator flag. */
  lemma GateAfterCompletion(env: Env)
    requires EnvOk(env)
    ensures var id := UserRefId(env.now, env.userShuffle);
            var users := map[][id := Account(env)][id := Confirmed(env)];
            && WellFormed(users)
            && AuthPortal.StagedGate(users, "a@x.com", "u1", "admin")
               == AuthPortal.RoleDenied("Access denied. Administrator privileges required.")
  {
    AccountFacts(env);
    var id := UserRefId(env.now, env.userShuffle);
    var users := map[][id := Account(env)][id := Confirmed(env)];
    assert forall k :: k in users ==> k == id;
    assert users[id] == Confirmed(env) && Confirmed(env).userRefId == id;
    assert WellFormed(users);
    assert Matches(users[id], ByCredentials("a@x.com", "u1"));
    assert First(users, ByCredentials("a@x.com", "u1")) == Some(id);
    assert "admin" == PortalName(Admin);
    assert AuthPortal.CheckRoleAccess(Confirmed(env), "admin")
        == AuthPortal.RoleCheck(false, "Access denied. Administrator privileges required.");
  }

  /** A fresh database holding the single account `register` creates for "u1" / "a@x.com". */
  method Registered(env: Env) returns (db: Database, id: string)
    requires EnvOk(env)
    ensures fresh(db) && db.Valid()
    ensures id == UserRefId(env.now, env.userShuffle)
    ensures db.users == map[][id := Account(env)]
  {
    db := new Database();
    id := UserRefId(env.now, env.userShuffle);
    assert !Exists(db.users, ByUid("u1")) && !Exists(db.users, ByEmail("a@x.com"));
    var created := AuthFirebase.Register(db, true, Request, env);
  }

  /** The same database after the account completed its profile. */
  method Completed(env: Env) returns (db: Database, id: string)
    requires EnvOk(env)
    ensures fresh(db) && db.Valid()
    ensures id == UserRefId(env.now, env.userShuffle)
    ensures db.users == map[][id := Account(env)][id := Confirmed(env)]
  {
    db, id := Registered(env);
    AccountFacts(env);
    var completed := AuthFirebase.CompleteProfile(db, true, Profile(id), env);
  }

  /** Registering the same identity again answers 409 with the original account and adds no row. */
  method RegisterTwice(env: Env)
    requires EnvOk(env)
  {
    var db, id := Registered(env);
    AccountFacts(env);
    assert Matches(db.users[id], ByUid("u1"));
    var again := AuthFirebase.Register(db, true, Request, env);
    assert again.status == 409 && again.data == UidRegistered(id, false);
    assert db.users == map[][id := Account(env)];
  }

  /** The same e-mail under a new uid answers 409 with the original account and adds no row. */
  method RegisterSameEmail(env: Env)
    requires EnvOk(env)
  {
    var db, id := Registered(env);
    AccountFacts(env);
    var sameEmail := AuthFirebase.RegisterRequest("u2", "a@x.com", None, None, None, None, NoDevice);
    assert !Matches(db.users[id], ByUid("u2")) && Matches(db.users[id], ByEmail("a@x.com"));
    var clash := AuthFirebase.Register(db, true, sameEmail, env);
    assert clash.status == 409 && clash.data == EmailRegistered(id);
    assert db.users == map[][id := Account(env)];
  }

  /** Profile completion confirms once; the second call answers 400 and changes nothing. */
  method ProfileCompletionIsSingleShot(env: Env)
    requires EnvOk(env)
  {
    var db, id := Completed(env);
    AccountFacts(env);
    assert db.users[id].displayName == Some("A B") && db.users[id].preferredLanguage == Some("en");
    var twice := AuthFirebase.CompleteProfile(db, true, Profile(id), env);
    assert twice.status == 400 && db.users[id].displayName == Some("A B");
  }

  /** The generic portal login refuses an unconfirmed account and names it for profile completion. */
  method PortalRefusesUnconfirmed(env: Env)
    requires EnvOk(env)
  {
    var db, id := Registered(env);
    GateBeforeCompletion(env);
    var early := AuthPortal.Login(db, true, Cred, Admin, env);
    assert early.status == 403 && early.data == ProfileIncomplete(id);
  }

  /** A confirmed account without the administrator flag gets the role message from the generic
      login. */
  method PortalRefusesWithoutRole(env: Env)
    requires EnvOk(env)
  {
    var db, id := Completed(env);
    GateAfterCompletion(env);
    var denied := AuthPortal.Login(db, true, Cred, Admin, env);
    assert denied == Failure(403, "Access denied. Administrator privileges required.");
  }

  /** The specialised administrator login gives the same account its collapsed message. */
  method AdminLoginRefusesWithoutRole(env: Env)
    requires EnvOk(env)
  {
    var db, id := Completed(env);
    AccountFacts(env);
    assert !Matches(db.users[id], ByRole("a@x.com", "u1", Admin));
    var special := AuthPortal.AdminLogin(db, true, Cred, env);
    assert special == Failure(403, "Access denied. Administrator account not found or not authorized.");
  }

  /** The session check refuses the same account with a 401. */
  method SessionRefusedWithoutRole(env: Env)
    requires EnvOk(env)
  {
    var db, id := Completed(env);
    AccountFacts(env);
    var session := AuthPortal.VerifySession(db, true, id, Admin);
    assert session.status == 401;
  }
}
