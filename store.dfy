/** The `users` table, its uniqueness invariant, the query filters the controllers use, and the
    database object both controllers update in place. */
module Store {
  import opened AuthTypes

  /** The table keeps one row per `user_refid`, and no two rows share a `firebase_uid` or an
      `email`. */
  ghost predicate WellFormed(users: map<string, User>) {
    && (forall k :: k in users ==> users[k].userRefId == k)
    && (forall a, b :: a in users && b in users && users[a].firebaseUid == users[b].firebaseUid ==> a == b)
    && (forall a, b :: a in users && b in users && users[a].email == users[b].email ==> a == b)
  }

  /** The `where(...)` conditions of a query builder chain: each present field is one condition. */
  datatype Filter = Filter(firebaseUid: Option<string>, email: Option<string>,
                           confirmed: Option<bool>, role: Option<PortalType>)

  predicate Matches(u: User, f: Filter) {
    && (f.firebaseUid.Some? ==> u.firebaseUid == f.firebaseUid.value)
    && (f.email.Some? ==> u.email == f.email.value)
    && (f.confirmed.Some? ==> u.confirmed == f.confirmed.value)
    && (f.role.Some? ==> HasRole(u, f.role.value))
  }

  /** A filter that constrains a unique column, so that at most one row can match it. */
  predicate Keyed(f: Filter) {
    f.firebaseUid.Some? || f.email.Some?
  }

  function ByUid(uid: string): Filter { Filter(Some(uid), None, None, None) }
  function ByEmail(email: string): Filter { Filter(None, Some(email), None, None) }
  function ByCredentials(email: string, uid: string): Filter { Filter(Some(uid), Some(email), None, None) }
  /** The specialised portal logins' lookup: credentials, `confirmed = 1` and the role flag `= 1`. */
  function ByRole(email: string, uid: string, p: PortalType): Filter {
    Filter(Some(uid), Some(email), Some(true), Some(p))
  }

  ghost predicate Exists(users: map<string, User>, f: Filter) {
    exists k :: k in users && Matches(users[k], f)
  }

  /** `->where(...)->first()`: the key of the row matching the filter, if there is one. On a
      well-formed table a keyed filter matches at most one row, so "first" is "the". */
  function First(users: map<string, User>, f: Filter): (r: Option<string>)
    requires WellFormed(users) && Keyed(f)
    ensures r.Some? <==> Exists(users, f)
    ensures r.Some? ==> r.value in users && Matches(users[r.value], f)
    ensures r.Some? ==> forall k :: k in users && Matches(users[k], f) ==> k == r.value
  {
    if exists k :: k in users && Matches(users[k], f) then
      var k :| k in users && Matches(users[k], f);
      Some(k)
    else
      None
  }

  /** What no flow may change about an existing row: its identity (`user_refid`, `firebase_uid`,
      `email`), its role flags, its status, its referral code and its creation time; and
      `confirmed` may only go from false to true. */
  predicate Stable(before: User, after: User) {
    && after.userRefId == before.userRefId
    && after.firebaseUid == before.firebaseUid
    && after.email == before.email
    && (before.confirmed ==> after.confirmed)
    && after.isAdmin == before.isAdmin
    && after.isStaff == before.isStaff
    && after.isOperator == before.isOperator
    && after.accountStatus == before.accountStatus
    && after.referralCode == before.referralCode
    && after.createdAt == before.createdAt
  }

  /** A confirmed account carries the profile the completion form requires: first and last name,
      birthday, gender and the display name derived from them. */
  predicate ProfileComplete(u: User) {
    u.confirmed ==>
      && u.firstname.Some? && u.lastname.Some? && u.birthday.Some? && u.gender.Some?
      && u.displayName.Some?
  }

  ghost predicate ConfirmedComplete(users: map<string, User>) {
    forall k :: k in users ==> ProfileComplete(users[k])
  }

  /** A legal evolution of the table: rows are never deleted and every row stays stable. */
  ghost predicate Evolves(before: map<string, User>, after: map<string, User>) {
    && before.Keys <= after.Keys
    && forall k :: k in before ==> Stable(before[k], after[k])
  }

  /** Legal evolutions compose, so any run of the handlers evolves the table legally. */
  lemma EvolvesTransitive(a: map<string, User>, b: map<string, User>, c: map<string, User>)
    requires Evolves(a, b) && Evolves(b, c)
    ensures Evolves(a, c)
  {
  }

  /** Inserting a row whose key, uid and email are all new keeps the table well formed. */
  lemma InsertKeepsWellFormed(users: map<string, User>, u: User)
    requires WellFormed(users)
    requires u.userRefId !in users
    requires !Exists(users, ByUid(u.firebaseUid)) && !Exists(users, ByEmail(u.email))
    ensures WellFormed(users[u.userRefId := u])
    ensures Evolves(users, users[u.userRefId := u])
  {
  }

  /** Replacing a row by a stable version of itself keeps the table well formed. */
  lemma UpdateKeepsWellFormed(users: map<string, User>, k: string, v: User)
    requires WellFormed(users) && k in users && Stable(users[k], v)
    ensures WellFormed(users[k := v])
    ensures Evolves(users, users[k := v])
  {
  }

  /** Replacing a row by one that is complete whenever the old one was keeps every confirmed
      account complete. */
  lemma UpdateKeepsComplete(users: map<string, User>, k: string, v: User)
    requires k in users && (ProfileComplete(users[k]) ==> ProfileComplete(v))
    ensures ConfirmedComplete(users) ==> ConfirmedComplete(users[k := v])
  {
  }

  /** The two tables both controllers work on. */
  class Database {
    var users: map<string, User>
    var authHistory: seq<AuthEvent>

    ghost predicate Valid()
      reads this
    {
      WellFormed(users)
    }

    constructor ()
      ensures Valid()
      ensures users == map[] && authHistory == []
    {
      users := map[];
      authHistory := [];
    }
  }
}
