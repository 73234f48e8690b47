# Account lifecycle of the `users` app, modelled in Dafny

This project models the account lifecycle of a small Django backend: registering a user, updating a profile, changing a password and issuing a token (the services), the `Profile` record and its computed activity status (the model), and the active / not-active split of profiles (the manager).

- `wrappers.dfy` (module `Wrappers`): `Option` and `Result`.
- `validators.dfy` (module `Validators`): the ASCII username rule as a concrete predicate. The email validator, the email normalization `create_user` applies (it lowercases the domain part), the password-strength validator and the password hasher are library code. They form a `Policy` of function values, constrained only as follows:
  - `Sound`: a hash made from a password verifies that password.
  - `Witnessed`: what the registration tests show about them. `"test"` is not a valid email and `"test@foo.ru"` is, and normalization leaves `"test@foo.ru"` as it is. `"1234"` is a weak password and `"Passw0rd33"` is not.
- `models.dfy` (module `Models`):
  - the `User` row, the `Profile` record and its activities;
  - `last_activity` and `is_active` as functions of an explicit day number `today`;
  - the `username`, `email` and `__str__` views.
- `managers.dfy` (module `Managers`): the manager's window `[START_DATE, END_DATE]`, fixed on the day the class is defined. `active()` and `not_active()` are set filters over it. Lemmas prove they partition their input and state where they agree with `is_active` and where they do not.
- `services.dfy` (module `Services`):
  - Each service's checks, in the order the code runs them, form a pure function giving the first failing check (`RegisterCheck`, `UpdateCheck`, `PasswordCheck`).
  - `AccountStore` is a class holding the user table and the profile table as maps, plus the next key to allocate. Its methods `CreateProfile`, `UpdateProfile` and `UpdatePassword` are proved against those check functions. On a failing check the store is unchanged. On success the contract gives the whole new state. Every method keeps the store consistent: keys match, each profile holds its user's current row, and usernames are unique.
  - `GenJwtToken` and a registration scenario that replays the registration test case.

Day numbers stand for dates: `today` (the wall clock) and the password salt (randomness) are parameters. The model follows the code where it departs from the usual account-service design:
- A service raises its first failing check; errors are not collected into a list.
- Registration checks only that the username is free, not the email.

Two places where the activity queries disagree are proved as lemmas rather than reported as defects, because the intent is unclear:
- The manager's window includes its start day, while `is_active` treats exactly `INACTIVE_USER_DAYS` elapsed days as inactive (`Managers.DisagreesOnStartDay`). The `is_active` docstring ("more than 182 days ago") sides with the window.
- An activity dated after the window's end day is outside the window, but `is_active` counts it as active (`Managers.DisagreesOnFutureActivity`).

## Model

| member | source | states |
|---|---|---|
| `Validators.AsciiUsername` | users/services/profile.py:24 | an accepted username is non-empty and every character is ASCII (letters, digits, `. @ + - _`) |
| `Validators.TestUsernames` | users/tests/profile.py:45-52 | the Cyrillic name `Алексей` is rejected; `test` and `test_user` are accepted |
| `Models.LastActivity` | users/models/profile.py:63-70 | absent exactly when the profile has no activity; otherwise the day of the last activity in the sequence |
| `Models.IsActive` | users/models/profile.py:44-60 | false when there is no activity; otherwise true exactly when fewer than `inactiveDays` days have elapsed since the last activity |
| `Models.Username` | users/models/profile.py:73-76 | the profile's username is its linked user's username |
| `Models.Email` | users/models/profile.py:78-81 | the profile's email is its linked user's email |
| `Models.Str` | users/models/profile.py:83-84 | a profile's string form is its username |
| `Models.InactiveStaysInactive` | users/models/profile.py:55-60 | an inactive profile stays inactive on every later day while its activities do not change |
| `Models.ThresholdBoundary` | users/models/profile.py:56-60 | exactly `inactiveDays` elapsed days give inactive; one day fewer gives active |
| `Models.FutureActivityIsActive` | users/models/profile.py:56-60 | an activity dated after today (negative delta) counts as active for any non-negative threshold |
| `Managers.Define` | users/managers/profile.py:14-15 | the window ends on the day the manager is defined and starts `INACTIVE_USER_DAYS` earlier |
| `Managers.Active` | users/managers/profile.py:17-21 | a subset of the input holding exactly the profiles whose last activity lies in `[start, end]`, both ends included |
| `Managers.NotActive` | users/managers/profile.py:24-28 | a subset of the input holding exactly the profiles outside the window, including every profile with no activity |
| `Managers.Partition` | users/managers/profile.py:17-28 | the two queries are disjoint; their union is the input; `not_active()` is the input minus `active()`; their sizes sum to the input's size |
| `Managers.AgreesWithIsActive` | users/managers/profile.py:14-21 | with now being the end day, membership in `active()` equals `is_active` for every profile except one whose last activity is the start day or after the end day |
| `Managers.DisagreesOnStartDay` | users/managers/profile.py:15-21 | a profile last active exactly on the start day is in `active()` but `is_active` is false |
| `Managers.DisagreesOnFutureActivity` | users/managers/profile.py:17-21 | a profile last active after the end day is in `not_active()` but `is_active` is true |
| `Managers.StaleWindow` | users/managers/profile.py:14-15 | because the window is fixed at definition, a profile active on a later day by that day's activity is reported not active |
| `Services.RegisterCheck` | users/services/profile.py:42-51 | a mismatched repeat fails first; no failure exactly when the passwords match, the password is strong, the username is free, the email is valid and the username is ASCII; a `Mismatch` exactly when the passwords differ; with matching passwords a weak one fails as `WeakPassword`, and a strong one with a taken username as `Conflict`; every other error kind names a check that failed |
| `Services.UpdateCheck` | users/services/profile.py:95-111 | `NotFound` exactly when the user id has no profile; no failure exactly when the profile exists and each truthy email or username is well formed and held by no other user; a malformed truthy email or username fails as `InvalidFormat`, and `InvalidFormat` only for such a field; `Conflict` only when a truthy username or email is held by another user |
| `Services.PasswordCheckAsWritten` | users/services/profile.py:150-161 | as written: no failure exactly when the profile exists, the old password does NOT verify, the passwords match and the new one is strong; `AuthFailure` exactly when the old password verifies; `Mismatch` exactly when it does not and the new passwords differ; `WeakPassword` exactly when it does not, the new password is repeated and it is weak; `NotFound` exactly when the user id has no profile |
| `Services.PasswordCheck` | users/services/profile.py:150-161 | corrected: `NotFound` exactly when the user id has no profile; `AuthFailure` exactly when the old password does not verify; `Mismatch` exactly when it verifies and the new passwords differ; `WeakPassword` exactly when it verifies, the new password is repeated and it is weak; no failure exactly when the old password verifies, the passwords match and the new one is strong |
| `Services.CorrectOldPasswordRejectedAsWritten` | users/services/profile.py:155-156 | as written, the correct old password always fails the change; the corrected check lets it through |
| `Services.WrongOldPasswordAcceptedAsWritten` | users/services/profile.py:155-156 | as written, a wrong old password with a strong, repeated new one passes; the corrected check refuses it |
| `Services.SecondRegistrationConflicts` | users/services/profile.py:47-48 | after a successful registration, registering the same username again with a strong, repeated password fails with a conflict, whatever the email |
| `Services.OwnUsernameIsNoConflict` | users/services/profile.py:104-106 | re-submitting a user's own username passes the update checks |
| `Services.OwnUsernameIsFree` | users/services/profile.py:104-105 | in a consistent store no user other than its holder has a user's username |
| `Services.ReplaceUserKeepsConsistent` | users/services/profile.py:113-127 | rewriting one user's row and its profile keeps the store consistent when the username is held by no other user |
| `Services.OtherUsersNameConflicts` | users/services/profile.py:100-106 | a username held by a different user fails the update as a conflict |
| `Services.SharedEmailConflicts` | users/services/profile.py:109-111 | when two users share an email, neither can re-submit it in an update |
| `Services.GenJwtToken` | users/services/profile.py:62-74 | the token's subject is the profile's username |
| `Services.TokenIdentifiesOneUser` | users/services/profile.py:72-73 | in a consistent store, two profiles whose tokens have the same subject are the same profile. This holds within one store state only: the subject is the username, and after a rename another user may take the old name, so an older token then names that user |
| `Services.AccountStore.CreateProfile` | users/services/profile.py:27-59 | on a failing check nothing changes. On success: exactly one new user and one new profile under a fresh key; old rows untouched; the profile's username is the input and its email is the input's normalized form; its hash verifies the password |
| `Services.AccountStore.UpdateProfile` | users/services/profile.py:77-129 | on a failing check nothing changes. On success: each truthy argument replaces its field and the rest keep theirs; hash, creation day and activities unchanged; no other row changes |
| `Services.AccountStore.UpdatePassword` | users/services/profile.py:132-166 | on a failing check nothing changes, so the old password still verifies. On success only the hash changes, and it verifies the new password |
| `Services.RegistrationScenario` | users/tests/profile.py:15-72 | mismatch, bad email, weak password and Cyrillic username are refused with their error kinds; the valid registration returns username `test` and email `test@foo.ru`; repeating it is a conflict |

## Left out

- Services.AccountStore.UpdatePassword: runs the corrected old-password check. The check as written is `Services.PasswordCheckAsWritten` (see Findings).
- The GraphQL mutations and schema wiring (users/schema/profile.py, users/schema/schema.py, config/schema.py) are API glue. Their quirks are not modelled:
  - the password mutation returns a `RegisterUserMutation`;
  - optional inputs are read with `[]`;
  - `except ValidationError` never catches the plain `Exception`/`ValueError` the services raise.
- Token encoding in `gen_jwt_token`: signing is an abstract `sign` function over the payload and the secret key. The payload is reduced to the username; expiry and issued-at claims are not modelled.
- Email syntax, password strength and password hashing are library code. They are abstract, with the constraints stated above. Hash formats and salting are not modelled beyond the salt parameter.
- Transactions, the ORM and concurrency. Each service runs its checks before its first write, and a failure leaves the store unchanged. The race in which a unique constraint wins at commit is not modelled.
- Wall clock and time zone (utils/date_helper.py): `today` is a parameter. Activity timestamps are reduced to their day, so the time of day and the time-zone replacement in `last_activity` are not modelled.
- Username normalization in `create_user` (NFKC) is not modelled. It leaves unchanged every name that passes the ASCII check, so the stored username is the input.
- Column lengths: names up to 256 characters, Django usernames up to 150. The database enforces these at save time; the model does not.
- The `hasattr(self, 'activities')` test: a profile here always has an activity sequence, possibly empty.
- The ORM lookup `last_activity__range` names a Python property, not a column. Only its intended set semantics are modelled.
- The admin display (users/admin/profile.py), the passwords app models, the choices, and the random password generator (utils/passwords.py) hold no core logic.

## Findings

| source | as written | input that shows it | evidently intended | confidence | as-written member | corrected member |
|---|---|---|---|---|---|---|
| users/services/profile.py:155-156 | the change is refused when `check_password(old_password)` is true | any user who supplies the correct current password gets the "old password is wrong" error (`Services.CorrectOldPasswordRejectedAsWritten`). A wrong old password with a strong, repeated new one replaces the hash (`Services.WrongOldPasswordAcceptedAsWritten`) | refuse when the old password does not verify | high, not executed | `Services.PasswordCheckAsWritten` | `Services.PasswordCheck` |
