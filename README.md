# Account linking and role gating — a Dafny model

This project models the two authentication controllers of the platform's Laravel backend.

- `AuthFirebaseController` serves the end-user applications. It links a Firebase identity (uid + e-mail) to a row of the `users` table, in these steps:
  - `checkEmail` looks an address up.
  - `register` creates an unconfirmed account with fresh `USR-` and referral identifiers.
  - `completeProfile` confirms the account exactly once.
  - `login` refuses non-active accounts and updates the login bookkeeping.
  - `logout` journals the event.
  - `getProfile` reads a row.

  `register`, `login` and `logout` each write one best-effort row to the `auth_history` journal. `checkEmail`, `completeProfile` and `getProfile` never write to it.
- `AuthPortalController` serves the three back-office portals (admin, staff and operator).
  - The generic `login` gates in stages: account found, account confirmed, role flag for the requested portal.
  - `adminLogin`, `staffLogin` and `operatorLogin` do the same check with a single query.
  - `logout` and `verifySession` complete the controller.

  Both logins stamp the last-login time and journal a `PortalEvent` row.

The mutable state is the database, `Store.Database`. It is a class with two fields:

- the `users` table, a map keyed by `user_refid`;
- the `auth_history` journal, a sequence that only grows.

Its invariant `Valid()` says that the key is the row's `user_refid`, and that `firebase_uid` and `email` are each unique. Given that invariant, a `where(...)->first()` on uid or e-mail names at most one row (`Store.First`).

Every handler is a method over the database. Its contract states:

- the HTTP status, message and payload of each branch, in the order the source checks them;
- the exact new contents of both tables, including that every refusal (invalid input, not found, conflict, denied) leaves both tables unchanged;
- that the invariant is kept, and so is `Store.ConfirmedComplete`: every confirmed account has a first and last name, birthday, gender and display name;
- that the table only evolves legally (`Store.Evolves`): no row is deleted; identity, role flags, status, referral code and creation time never change; `confirmed` only goes from false to true;
- that the journal only grows.

Everything a request reads from outside the database comes in an `Env` value:

- the clock;
- the `str_shuffle` draws;
- the client address and `User-Agent`;
- whether the journal insert succeeds.

Responses are stated without reference to the journal flag: a failing journal never changes an answer.

The `Scenarios` module strings handlers together, using only their contracts. It shows that:

- a second registration of the same uid or e-mail answers 409 with the original account;
- profile completion is single-shot;
- the portals refuse an unconfirmed account, and a confirmed one without the role flag, with the messages the source uses;
- the session check answers 401 for that account.

## Model

| member | source | states |
|---|---|---|
| Identifiers.FormatStamp | backend/laravel/app/Http/Controllers/Users/AuthFirebaseController.php:20 | the `dmYHis` stamp of a valid clock reading is exactly fourteen decimal digits |
| Identifiers.StampRoundTrip | backend/laravel/app/Http/Controllers/Users/AuthFirebaseController.php:14-22 | reading the fourteen digits back as DDMMYYYYHHMMSS gives the original reading, so the stamp loses no information |
| Identifiers.StampInjective | backend/laravel/app/Http/Controllers/Users/AuthFirebaseController.php:20 | two different clock readings never give the same stamp |
| Identifiers.RandomChars | backend/laravel/app/Http/Controllers/Users/AuthFirebaseController.php:21 | taking n characters of a shuffle of the 36-character pool and upper-casing them gives n distinct characters of `[A-Z0-9]` |
| Identifiers.UserRefId | backend/laravel/app/Http/Controllers/Users/AuthFirebaseController.php:18-23 | the result has the form `USR-` + 14 digits + `-` + 3 distinct code characters, and its digits parse back to the request time |
| Identifiers.AuthRefId | backend/laravel/app/Http/Controllers/Users/AuthFirebaseController.php:29-34 | the same shape with prefix `AUT-`, and its digits parse back to the request time |
| Identifiers.ReferralCode | backend/laravel/app/Http/Controllers/Users/AuthFirebaseController.php:39-42 | the code is 8 distinct characters of `[A-Z0-9]` |
| Identifiers.RefIdsSeparate | backend/laravel/app/Http/Controllers/Users/AuthFirebaseController.php:18-34 | user ids drawn at different times differ; so do auth ids drawn at different times; a user id is never an auth id |
| Store.First | backend/laravel/app/Http/Controllers/Users/AuthFirebaseController.php:379-382 | on a well-formed table, a lookup by uid and/or e-mail returns a row iff one matches; the row it returns matches; no other row matches |
| Store.InsertKeepsWellFormed | backend/laravel/app/Http/Controllers/Users/AuthFirebaseController.php:172-219 | inserting a row whose key, uid and e-mail are all new keeps keys, uids and e-mails unique, and is a legal evolution |
| Store.UpdateKeepsWellFormed | backend/laravel/app/Http/Controllers/Users/AuthFirebaseController.php:309-327 | replacing a row by a version with the same identity keeps the table well formed, and is a legal evolution |
| Store.EvolvesTransitive | backend/laravel/app/Http/Controllers/Users/AuthFirebaseController.php:197-219 | legal evolutions compose, so any run of handlers never deletes a row, never un-confirms one, and never changes its identity or roles |
| Store.UpdateKeepsComplete | backend/laravel/app/Http/Controllers/Users/AuthFirebaseController.php:309-327 | replacing a row by one that is complete whenever the old one was keeps every confirmed account complete |
| AuthFirebase.LogAuthHistory | backend/laravel/app/Http/Controllers/Users/AuthFirebaseController.php:63-95 | users untouched; the journal gains the row with the defaults email_password / success / login / not-new-device, or nothing when the insert fails |
| AuthFirebase.CheckEmail | backend/laravel/app/Http/Controllers/Users/AuthFirebaseController.php:101-146 | writes nothing; 422 on invalid input; otherwise 200, and it reports an existing account iff one has that e-mail (naming that account and its confirmed flag), else "Email is available" |
| AuthFirebase.Register | backend/laravel/app/Http/Controllers/Users/AuthFirebaseController.php:152-260 | 422, then a uid conflict (409, success false), then an e-mail conflict (409, success false), each with nothing written; 201 iff none of these holds and the drawn id is free; the new row is unconfirmed, role-less and active; one login journal row marked as a new device; the payload asks for profile completion |
| AuthFirebase.Enroll | backend/laravel/app/Http/Controllers/Users/AuthFirebaseController.php:197-236 | the two writes of a successful registration: the table gains exactly the new, unconfirmed row, stays well formed and complete, and the journal gains its entry |
| AuthFirebase.RegisterEventIsNewDeviceLogin | backend/laravel/app/Http/Controllers/Users/AuthFirebaseController.php:222-236 | the registration's journal entry is a successful login of the new account and its uid, from a new device, with the given method (e-mail and password by default), the request's address and user agent, at the request time |
| AuthFirebase.CompleteProfile | backend/laravel/app/Http/Controllers/Users/AuthFirebaseController.php:266-355 | an unknown id answers 422; a confirmed account answers 400 and is unchanged; otherwise 200; the row is confirmed, with display name "first last" and language/currency defaulting to en/USD; the identity is kept and the journal is untouched |
| AuthFirebase.Login | backend/laravel/app/Http/Controllers/Users/AuthFirebaseController.php:361-453 | 404 when no row has both uid and e-mail; 403 "Account is <status>. Please contact support." for a non-active account, with nothing written; otherwise only the last-login fields change, and one login journal row is added |
| AuthFirebase.Logout | backend/laravel/app/Http/Controllers/Users/AuthFirebaseController.php:506-553 | an unknown id answers 422; otherwise users are untouched and one logout journal row is added |
| AuthFirebase.GetProfile | backend/laravel/app/Http/Controllers/Users/AuthFirebaseController.php:559-611 | writes nothing; 404 iff no row has that id, else 200 with that row |
| AuthPortal.CheckRoleAccess | backend/laravel/app/Http/Controllers/Users/AuthPortalController.php:353-391 | for a known portal name, access is allowed iff the matching role flag is set, and a refusal carries that role's message; an unknown name is refused with "Invalid portal type specified." |
| AuthPortal.AuthenticationRow | backend/laravel/app/Http/Controllers/Users/AuthPortalController.php:402-448 | the journal row has an `AUT-` id, the request time, method `firebase`, success, the user's id and `firebase_uid`, the given event and portal type, the request's `ip_address` and `user_agent` each falling back to the server-seen value, and the device columns without the model |
| AuthPortal.LogAuthentication | backend/laravel/app/Http/Controllers/Users/AuthPortalController.php:402-435 | users untouched; the journal gains that row, or nothing when the insert fails |
| AuthPortal.Admit | backend/laravel/app/Http/Controllers/Users/AuthPortalController.php:85-93 | the two writes of a successful portal login: only `last_login_at` and `updated_at` of the account change, the table stays well formed and complete, and one login entry is journalled |
| AuthPortal.StagedGate | backend/laravel/app/Http/Controllers/Users/AuthPortalController.php:54-83 | the staged decision: no row with both credentials; else unconfirmed; else the role check fails; else admitted, each case naming the account |
| AuthPortal.Login | backend/laravel/app/Http/Controllers/Users/AuthPortalController.php:28-119 | 422 / 404 / 403 with the user id for profile completion / 403 with the role message, each writing nothing; 200 stamps last_login_at and updated_at only, journals one login row, and returns the account, the portal and all three role flags |
| AuthPortal.RoleLogin | backend/laravel/app/Http/Controllers/Users/AuthPortalController.php:128-194 | the shared single-query login: 200 iff a confirmed row with both credentials and the role flag exists; otherwise 403 with the portal's collapsed "not found or not authorized" message, writing nothing |
| AuthPortal.AdminLogin | backend/laravel/app/Http/Controllers/Users/AuthPortalController.php:128-194 | 422 with nothing written on invalid input; 200 iff a confirmed administrator matches both credentials, stamping last_login_at and updated_at, journalling one login row and returning "Administrator login successful" with `is_admin` true; otherwise 403 "Access denied. Administrator account not found or not authorized." with nothing written |
| AuthPortal.StaffLogin | backend/laravel/app/Http/Controllers/Users/AuthPortalController.php:203-269 | the same for a confirmed staff member: 422, or 200 "Staff login successful" with `is_staff` true and the same two writes, or 403 "Access denied. Staff account not found or not authorized." with nothing written |
| AuthPortal.OperatorLogin | backend/laravel/app/Http/Controllers/Users/AuthPortalController.php:278-344 | the same for a confirmed operator: 422, or 200 "Operator login successful" with `is_operator` true and the same two writes, or 403 "Access denied. Operator account not found or not authorized." with nothing written |
| AuthPortal.SpecialisedMatchesStaged | backend/laravel/app/Http/Controllers/Users/AuthPortalController.php:147-153 | the single query admits exactly the accounts the staged gate admits, and names the same account. The answers still differ: the refusal messages, the success message, and the payload (one role flag against all three) |
| AuthPortal.Logout | backend/laravel/app/Http/Controllers/Users/AuthPortalController.php:456-496 | 422 on invalid input; 404 for an unknown id; otherwise users untouched and one logout journal row whose portal is the given one or "unknown" |
| AuthPortal.VerifySession | backend/laravel/app/Http/Controllers/Users/AuthPortalController.php:504-565 | writes nothing; 200 iff the id exists, is confirmed and has the portal's role; each failure answers 401 "Session invalid: <reason>", with the reason checked in that order |

## Left out

- `updateLocation` (AuthFirebaseController.php:459-500) is not part of this model. It writes floating-point coordinates through a raw SQL `POINT` expression.
- The Laravel validator's rules are one boolean per request (`inputValid`). The exception is the `exists:users,user_refid` rule of `completeProfile` and the Firebase `logout`, which is modelled explicitly. Their later "user not found" 404 branches can therefore never be reached, and are omitted.
- Database and framework exceptions (the `catch` branches answering 500) are not modelled. The exception is a `user_refid` collision on `register`, which answers 500 with nothing written.
- Concurrent requests are not modelled. Each request runs alone, and reads the clock once.
- The client address and `User-Agent` (`getIpAddress`, `getUserAgent`) are opaque values of the environment.
- AuthPortal.Login, AuthPortal.RoleLogin, AuthPortal.AdminLogin, AuthPortal.StaffLogin, AuthPortal.OperatorLogin: the model assumes that the `users` table has `first_name` and `last_name` columns, and carries the whole row in the payload. On success the source reads `$user->first_name` and `$user->last_name` (AuthPortalController.php:103-104, 180-181, 255-256, 330-331), but the only profile write uses `firstname`/`lastname` (AuthFirebaseController.php:313-314). If those columns are missing, the read raises an exception after `last_login_at` and the journal row were already written, and the answer is 500 "Login failed: ..." rather than 200. The schema is not part of this model, so that outcome is not modelled.
- The database's string comparison is not modelled. `where(...)` on `email` and `firebase_uid`, and the uniqueness invariant, use exact string equality. Under a case-insensitive collation (MySQL's default) `A@x.com` and `a@x.com` are the same e-mail: `register` would answer 409 where the model inserts a second row.
- AuthPortal.Login: no `account_status` check, and only `last_login_at`/`updated_at` are updated. This follows the code: a suspended account with the role flag can enter a portal.
- Only successful portal logins and logouts are journalled, as in the code. Refused attempts write nothing.
- Journal columns this code always leaves null or zero are not modelled: browser, GPS, country, city, timezone, new-location and two-factor.
- The columns `member_tier`, `loyalty_points` and `gps_live` are not modelled.
- Role flags and `confirmed` are booleans. A stored value other than 0 or 1 is not modelled.
- A `device_info` key that is present but null is treated like an absent one.
- Identifiers.ReferralCode: uniqueness of referral codes is not stated. The source does not check it, and neither does the model.
- The TypeScript client services, the Firebase initialisation and the route files are not part of this model.
