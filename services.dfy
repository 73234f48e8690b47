/**
 * The account services: registration, profile update, password change and
 * token generation, over a store of user rows and profile rows.
 *
 * Each service runs all of its checks before its first write, inside one
 * transaction, so a failed call leaves the store as it was. A service's
 * checks are stated once, in the order the code runs them, as a pure
 * function giving the first failing check; the store's methods are proved
 * against those functions.
 */
module Services {
  import opened Wrappers
  import opened Models
  import opened Validators

  /** The kind of exception a service raises. */
  datatype Error = Mismatch | WeakPassword | Conflict | InvalidFormat | NotFound | AuthFailure

  /** An optional argument that is truthy: present and not the empty string. */
  predicate Supplied(v: Option<string>) {
    v.Some? && v.value != ""
  }

  /** The supplied value if it is truthy, else the current one. */
  function Patched(current: string, v: Option<string>): string {
    if Supplied(v) then v.value else current
  }

  /** The supplied value if it is truthy, else the current (nullable) one. */
  function PatchedName(current: Option<string>, v: Option<string>): Option<string> {
    if Supplied(v) then v else current
  }

  /** Some user other than `except` already has this username. */
  predicate UsernameTaken(users: map<UserId, User>, name: string, except: Option<UserId>) {
    exists id :: id in users && Some(id) != except && users[id].username == name
  }

  /** Some user other than `except` already has this email. */
  predicate EmailTaken(users: map<UserId, User>, email: string, except: Option<UserId>) {
    exists id :: id in users && Some(id) != except && users[id].email == email
  }

  /** The database's unique constraint on usernames. */
  predicate UniqueUsernames(users: map<UserId, User>) {
    forall a, b :: a in users && b in users && a != b ==> users[a].username != users[b].username
  }

  /**
   * The store's consistency: every user row carries its own key, below the
   * next key to allocate; every profile belongs to an existing user and
   * holds that user's current row; usernames are unique.
   */
  predicate Consistent(users: map<UserId, User>, profiles: map<UserId, Profile>, nextId: UserId) {
    && (forall id :: id in users ==> users[id].id == id && id < nextId)
    && (forall id :: id in profiles ==> id in users && profiles[id].user == users[id])
    && UniqueUsernames(users)
  }

  /**
   * The checks of `create_profile`, in order: the repeated password, the
   * password's strength, a free username, the email syntax, the username
   * charset. The result is the first failing check, if any.
   */
  function RegisterCheck(policy: Policy, users: map<UserId, User>,
                         username: string, email: string, password: string, repeatPassword: string): (e: Option<Error>)
    ensures e == Some(Mismatch) <==> repeatPassword != password
    ensures repeatPassword == password && !policy.passwordOk(password) ==> e == Some(WeakPassword)
    ensures repeatPassword == password && policy.passwordOk(password) && UsernameTaken(users, username, None) ==>
      e == Some(Conflict)
    ensures e == None <==>
      && repeatPassword == password
      && policy.passwordOk(password)
      && !UsernameTaken(users, username, None)
      && policy.emailOk(email)
      && AsciiUsername(username)
    ensures e == Some(WeakPassword) ==> !policy.passwordOk(password)
    ensures e == Some(Conflict) ==> UsernameTaken(users, username, None)
    ensures e == Some(InvalidFormat) ==> !policy.emailOk(email) || !AsciiUsername(username)
    ensures e != Some(NotFound) && e != Some(AuthFailure)
  {
    if repeatPassword != password then Some(Mismatch)
    else if !policy.passwordOk(password) then Some(WeakPassword)
    else if UsernameTaken(users, username, None) then Some(Conflict)
    else if !policy.emailOk(email) then Some(InvalidFormat)
    else if !AsciiUsername(username) then Some(InvalidFormat)
    else None
  }

  /**
   * The checks of `update_profile`, in order: the profile exists; a truthy
   * email is well formed; a truthy username is ASCII; neither is held by a
   * user other than the profile's own.
   */
  function UpdateCheck(policy: Policy, users: map<UserId, User>, profiles: map<UserId, Profile>,
                       userId: UserId, newUsername: Option<string>, newEmail: Option<string>): (e: Option<Error>)
    ensures e == None <==>
      && userId in profiles
      && (Supplied(newEmail) ==>
            policy.emailOk(newEmail.value) && !EmailTaken(users, newEmail.value, Some(profiles[userId].user.id)))
      && (Supplied(newUsername) ==>
            AsciiUsername(newUsername.value) && !UsernameTaken(users, newUsername.value, Some(profiles[userId].user.id)))
    ensures e == None || e == Some(NotFound) || e == Some(InvalidFormat) || e == Some(Conflict)
    ensures e == Some(NotFound) <==> userId !in profiles
    ensures userId in profiles && Supplied(newEmail) && !policy.emailOk(newEmail.value) ==> e == Some(InvalidFormat)
    ensures userId in profiles && Supplied(newUsername) && !AsciiUsername(newUsername.value) ==> e == Some(InvalidFormat)
    ensures e == Some(InvalidFormat) ==>
      || (Supplied(newEmail) && !policy.emailOk(newEmail.value))
      || (Supplied(newUsername) && !AsciiUsername(newUsername.value))
    ensures e == Some(Conflict) ==>
      && userId in profiles
      && (|| (Supplied(newUsername) && UsernameTaken(users, newUsername.value, Some(profiles[userId].user.id)))
          || (Supplied(newEmail) && EmailTaken(users, newEmail.value, Some(profiles[userId].user.id))))
  {
    if userId !in profiles then Some(NotFound)
    else
      var ownId := profiles[userId].user.id;
      if Supplied(newEmail) && !policy.emailOk(newEmail.value) then Some(InvalidFormat)
      else if Supplied(newUsername) && !AsciiUsername(newUsername.value) then Some(InvalidFormat)
      else if Supplied(newUsername) && UsernameTaken(users, newUsername.value, Some(ownId)) then Some(Conflict)
      else if Supplied(newEmail) && EmailTaken(users, newEmail.value, Some(ownId)) then Some(Conflict)
      else None
  }

  /**
   * The checks of `update_password` as the code writes them: the profile
   * exists; the call fails when the old password DOES verify; the repeated
   * password; the new password's strength.
   */
  function PasswordCheckAsWritten(policy: Policy, profiles: map<UserId, Profile>, userId: UserId,
                                  oldPassword: string, newPassword: string, repeatPassword: string): (e: Option<Error>)
    ensures e == Some(NotFound) <==> userId !in profiles
    ensures e == None <==>
      && userId in profiles
      && !policy.verify(profiles[userId].user.password, oldPassword)
      && newPassword == repeatPassword
      && policy.passwordOk(newPassword)
    ensures e == Some(AuthFailure) <==> userId in profiles && policy.verify(profiles[userId].user.password, oldPassword)
    ensures e == Some(Mismatch) <==>
      userId in profiles && !policy.verify(profiles[userId].user.password, oldPassword) && newPassword != repeatPassword
    ensures e == Some(WeakPassword) <==>
      && userId in profiles
      && !policy.verify(profiles[userId].user.password, oldPassword)
      && newPassword == repeatPassword
      && !policy.passwordOk(newPassword)
  {
    if userId !in profiles then Some(NotFound)
    else if policy.verify(profiles[userId].user.password, oldPassword) then Some(AuthFailure)
    else if newPassword != repeatPassword then Some(Mismatch)
    else if !policy.passwordOk(newPassword) then Some(WeakPassword)
    else None
  }

  /**
   * The checks of `update_password` with the old-password test the right
   * way round: the call fails when the old password does NOT verify.
   */
  function PasswordCheck(policy: Policy, profiles: map<UserId, Profile>, userId: UserId,
                         oldPassword: string, newPassword: string, repeatPassword: string): (e: Option<Error>)
    ensures e == Some(NotFound) <==> userId !in profiles
    ensures e == None <==>
      && userId in profiles
      && policy.verify(profiles[userId].user.password, oldPassword)
      && newPassword == repeatPassword
      && policy.passwordOk(newPassword)
    ensures e == Some(AuthFailure) <==> userId in profiles && !policy.verify(profiles[userId].user.password, oldPassword)
    ensures e == Some(Mismatch) <==>
      userId in profiles && policy.verify(profiles[userId].user.password, oldPassword) && newPassword != repeatPassword
    ensures e == Some(WeakPassword) <==>
      && userId in profiles
      && policy.verify(profiles[userId].user.password, oldPassword)
      && newPassword == repeatPassword
      && !policy.passwordOk(newPassword)
  {
    if userId !in profiles then Some(NotFound)
    else if !policy.verify(profiles[userId].user.password, oldPassword) then Some(AuthFailure)
    else if newPassword != repeatPassword then Some(Mismatch)
    else if !policy.passwordOk(newPassword) then Some(WeakPassword)
    else None
  }

  /** As written, the user who knows the current password can never change it. */
  lemma CorrectOldPasswordRejectedAsWritten(policy: Policy, profiles: map<UserId, Profile>, userId: UserId,
                                            salt: string, oldPassword: string, newPassword: string, repeatPassword: string)
    requires Sound(policy)
    requires userId in profiles && profiles[userId].user.password == policy.hash(salt, oldPassword)
    ensures PasswordCheckAsWritten(policy, profiles, userId, oldPassword, newPassword, repeatPassword) == Some(AuthFailure)
    ensures newPassword == repeatPassword && policy.passwordOk(newPassword) ==>
      PasswordCheck(policy, profiles, userId, oldPassword, newPassword, repeatPassword) == None
  {
  }

  /** As written, a password that does not verify lets the change through; the corrected check refuses it. */
  lemma WrongOldPasswordAcceptedAsWritten(policy: Policy, profiles: map<UserId, Profile>, userId: UserId,
                                          oldPassword: string, newPassword: string)
    requires userId in profiles && !policy.verify(profiles[userId].user.password, oldPassword)
    requires policy.passwordOk(newPassword)
    ensures PasswordCheckAsWritten(policy, profiles, userId, oldPassword, newPassword, newPassword) == None
    ensures PasswordCheck(policy, profiles, userId, oldPassword, newPassword, newPassword) == Some(AuthFailure)
  {
  }

  /**
   * After a successful registration, registering the same username again
   * with a strong, repeated password fails with a conflict, whatever the email.
   */
  lemma SecondRegistrationConflicts(policy: Policy, users: map<UserId, User>, id: UserId, salt: string,
                                    username: string, email: string, password: string,
                                    email2: string, password2: string)
    requires RegisterCheck(policy, users, username, email, password, password) == None
    requires id !in users
    requires policy.passwordOk(password2)
    ensures RegisterCheck(policy, users[id := User(id, username, policy.normalizeEmail(email), policy.hash(salt, password))],
                          username, email2, password2, password2) == Some(Conflict)
  {
    var users' := users[id := User(id, username, policy.normalizeEmail(email), policy.hash(salt, password))];
    assert users'[id].username == username;
  }

  /** Re-submitting the user's own username is not a conflict, since the check excludes the user's own row. */
  lemma OwnUsernameIsNoConflict(policy: Policy, users: map<UserId, User>, profiles: map<UserId, Profile>,
                                nextId: UserId, userId: UserId)
    requires Consistent(users, profiles, nextId)
    requires userId in profiles && AsciiUsername(users[userId].username)
    ensures UpdateCheck(policy, users, profiles, userId, Some(users[userId].username), None) == None
  {
  }

  /** In a consistent store no user other than its holder has a given user's name. */
  lemma OwnUsernameIsFree(users: map<UserId, User>, profiles: map<UserId, Profile>, nextId: UserId, userId: UserId)
    requires Consistent(users, profiles, nextId) && userId in users
    ensures !UsernameTaken(users, users[userId].username, Some(userId))
  {
  }

  /**
   * Replacing one user's row, and its profile's copy of it, keeps the store
   * consistent when no other user holds the row's username.
   */
  lemma ReplaceUserKeepsConsistent(users: map<UserId, User>, profiles: map<UserId, Profile>, nextId: UserId,
                                   user: User, profile: Profile)
    requires Consistent(users, profiles, nextId)
    requires user.id in profiles && profile.user == user
    requires !UsernameTaken(users, user.username, Some(user.id))
    ensures Consistent(users[user.id := user], profiles[user.id := profile], nextId)
  {
  }

  /**
   * A username held by a different user is refused with a conflict, whatever
   * well-formed email comes with it.
   */
  lemma OtherUsersNameConflicts(policy: Policy, users: map<UserId, User>, profiles: map<UserId, Profile>,
                                nextId: UserId, userId: UserId, other: UserId, newEmail: Option<string>)
    requires Consistent(users, profiles, nextId)
    requires userId in profiles && other in users && other != userId
    requires AsciiUsername(users[other].username)
    requires Supplied(newEmail) ==> policy.emailOk(newEmail.value)
    ensures UpdateCheck(policy, users, profiles, userId, Some(users[other].username), newEmail) == Some(Conflict)
  {
  }

  /**
   * Registration does not check email uniqueness, so two users may share an
   * address; then neither can re-submit it in an update.
   */
  lemma SharedEmailConflicts(policy: Policy, users: map<UserId, User>, profiles: map<UserId, Profile>,
                             nextId: UserId, userId: UserId, other: UserId)
    requires Consistent(users, profiles, nextId)
    requires userId in profiles && other in users && other != userId
    requires users[other].email == users[userId].email != "" && policy.emailOk(users[userId].email)
    ensures UpdateCheck(policy, users, profiles, userId, None, Some(users[userId].email)) == Some(Conflict)
  {
  }

  /** The claims of the bearer token `gen_jwt_token` issues, and the signature over them. */
  datatype JwtToken = JwtToken(username: string, signature: string)

  /** `gen_jwt_token`: a token whose subject is the profile's username, signed with the secret key. */
  function GenJwtToken(sign: (string, string) -> string, secretKey: string, p: Profile): (t: JwtToken)
    ensures t.username == Username(p)
  {
    var payload := Username(p);
    JwtToken(payload, sign(payload, secretKey))
  }

  /** In a consistent store a token's subject names exactly one profile. */
  lemma TokenIdentifiesOneUser(sign: (string, string) -> string, secretKey: string,
                               users: map<UserId, User>, profiles: map<UserId, Profile>, nextId: UserId,
                               a: UserId, b: UserId)
    requires Consistent(users, profiles, nextId)
    requires a in profiles && b in profiles
    requires GenJwtToken(sign, secretKey, profiles[a]).username == GenJwtToken(sign, secretKey, profiles[b]).username
    ensures a == b
  {
  }

  /** The `auth.User` and `Profile` tables, with the library policy the services use. */
  class AccountStore {
    const policy: Policy
    var users: map<UserId, User>
    var profiles: map<UserId, Profile>
    var nextId: UserId

    ghost predicate Valid()
      reads this
    {
      Sound(policy) && Consistent(users, profiles, nextId)
    }

    /** An empty store. */
    constructor (policy: Policy)
      requires Sound(policy)
      ensures Valid() && this.policy == policy
      ensures users == map[] && profiles == map[] && nextId == 0
    {
      this.policy := policy;
      users := map[];
      profiles := map[];
      nextId := 0;
    }

    /**
     * `create_profile`: on a failing check nothing changes; otherwise exactly
     * one user and one profile are added, and the old rows stay as they were.
     * The user row holds the email in its normalized form.
     */
    method CreateProfile(username: string, email: string, password: string, repeatPassword: string,
                         salt: string, today: Day)
      returns (r: Result<Profile, Error>)
      requires Valid()
      modifies this
      ensures Valid()
      ensures r.Failure? <==> RegisterCheck(policy, old(users), username, email, password, repeatPassword).Some?
      ensures r.Failure? ==>
        && Some(r.error) == RegisterCheck(policy, old(users), username, email, password, repeatPassword)
        && unchanged(this)
      ensures r.Success? ==>
        var id := old(nextId);
        var user := User(id, username, policy.normalizeEmail(email), policy.hash(salt, password));
        && id !in old(users) && id !in old(profiles)
        && users == old(users)[id := user]
        && profiles == old(profiles)[id := Profile(user, today, None, None, [])]
        && nextId == id + 1
        && r.value == profiles[id]
      ensures r.Success? ==>
        && Username(r.value) == username && Email(r.value) == policy.normalizeEmail(email)
        && policy.verify(r.value.user.password, password)
        && |users| == |old(users)| + 1 && |profiles| == |old(profiles)| + 1
    {
      if repeatPassword != password {
        return Failure(Mismatch);
      }
      if !policy.passwordOk(password) {
        return Failure(WeakPassword);
      }
      if UsernameTaken(users, username, None) {
        return Failure(Conflict);
      }
      if !policy.emailOk(email) || !AsciiUsername(username) {
        return Failure(InvalidFormat);
      }
      // `create_user` stores the normalized address; the checks above saw the raw one.
      var user := User(nextId, username, policy.normalizeEmail(email), policy.hash(salt, password));
      users := users[user.id := user];
      nextId := nextId + 1;
      var profile := Profile(user, today, None, None, []);
      profiles := profiles[user.id := profile];
      r := Success(profile);
    }

    /**
     * `update_profile`: on a failing check nothing changes; otherwise each
     * truthy argument replaces its field, every other field (the password
     * hash, the creation day, the activities) keeps its value, and no other
     * row changes.
     */
    method UpdateProfile(userId: UserId, newUsername: Option<string>, newEmail: Option<string>,
                         newFirstName: Option<string>, newLastName: Option<string>)
      returns (r: Result<Profile, Error>)
      requires Valid()
      modifies this
      ensures Valid()
      ensures r.Failure? <==> UpdateCheck(policy, old(users), old(profiles), userId, newUsername, newEmail).Some?
      ensures r.Failure? ==>
        && Some(r.error) == UpdateCheck(policy, old(users), old(profiles), userId, newUsername, newEmail)
        && unchanged(this)
      ensures r.Success? ==>
        var p := old(profiles)[userId];
        var user := p.user.(username := Patched(p.user.username, newUsername),
                            email := Patched(p.user.email, newEmail));
        && users == old(users)[userId := user]
        && profiles == old(profiles)[userId := p.(user := user,
                                                  firstName := PatchedName(p.firstName, newFirstName),
                                                  lastName := PatchedName(p.lastName, newLastName))]
        && nextId == old(nextId)
        && r.value == profiles[userId]
      ensures r.Success? ==>
        && r.value.user.id == userId
        && r.value.user.password == old(users)[userId].password
        && r.value.createdAt == old(profiles)[userId].createdAt
        && r.value.activities == old(profiles)[userId].activities
    {
      if userId !in profiles {
        return Failure(NotFound);
      }
      var profile := profiles[userId];
      if Supplied(newEmail) && !policy.emailOk(newEmail.value) {
        return Failure(InvalidFormat);
      }
      if Supplied(newUsername) && !AsciiUsername(newUsername.value) {
        return Failure(InvalidFormat);
      }
      if Supplied(newUsername) && UsernameTaken(users, newUsername.value, Some(profile.user.id)) {
        return Failure(Conflict);
      }
      if Supplied(newEmail) && EmailTaken(users, newEmail.value, Some(profile.user.id)) {
        return Failure(Conflict);
      }
      // Each field takes its argument only when the argument is truthy.
      var user := profile.user.(username := Patched(profile.user.username, newUsername),
                                email := Patched(profile.user.email, newEmail));
      profile := profile.(user := user,
                          firstName := PatchedName(profile.firstName, newFirstName),
                          lastName := PatchedName(profile.lastName, newLastName));
      OwnUsernameIsFree(users, profiles, nextId, userId);
      ReplaceUserKeepsConsistent(users, profiles, nextId, user, profile);
      users := users[user.id := user];
      profiles := profiles[userId := profile];
      r := Success(profile);
    }

    /**
     * `update_password`, with the old-password check corrected: on a failing
     * check nothing changes (so the old password still verifies); otherwise
     * only the password hash is replaced, by one that verifies the new password.
     */
    method UpdatePassword(userId: UserId, oldPassword: string, newPassword: string, repeatPassword: string,
                          salt: string)
      returns (r: Result<Profile, Error>)
      requires Valid()
      modifies this
      ensures Valid()
      ensures r.Failure? <==>
        PasswordCheck(policy, old(profiles), userId, oldPassword, newPassword, repeatPassword).Some?
      ensures r.Failure? ==>
        && Some(r.error) == PasswordCheck(policy, old(profiles), userId, oldPassword, newPassword, repeatPassword)
        && unchanged(this)
      ensures r.Success? ==>
        var user := old(users)[userId].(password := policy.hash(salt, newPassword));
        && users == old(users)[userId := user]
        && profiles == old(profiles)[userId := old(profiles)[userId].(user := user)]
        && nextId == old(nextId)
        && r.value == profiles[userId]
      ensures r.Success? ==>
        && policy.verify(r.value.user.password, newPassword)
        && Username(r.value) == old(users)[userId].username
        && Email(r.value) == old(users)[userId].email
        && r.value.firstName == old(profiles)[userId].firstName
        && r.value.lastName == old(profiles)[userId].lastName
    {
      if userId !in profiles {
        return Failure(NotFound);
      }
      var profile := profiles[userId];
      if !policy.verify(profile.user.password, oldPassword) {
        return Failure(AuthFailure);
      }
      if newPassword != repeatPassword {
        return Failure(Mismatch);
      }
      if !policy.passwordOk(newPassword) {
        return Failure(WeakPassword);
      }
      var user := profile.user.(password := policy.hash(salt, newPassword));
      OwnUsernameIsFree(users, profiles, nextId, userId);
      ReplaceUserKeepsConsistent(users, profiles, nextId, user, profile.(user := user));
      users := users[user.id := user];
      profile := profile.(user := user);
      profiles := profiles[userId := profile];
      r := Success(profile);
    }
  }

  /**
   * The registration test case: a mismatched repeat, a malformed email, a
   * weak password and a Cyrillic username are each refused; a valid
   * registration yields a profile with the given username and email; the
   * same registration a second time is refused as a conflict.
   */
  method RegistrationScenario(policy: Policy, salt: string, today: Day)
    returns (mismatch: Result<Profile, Error>, badEmail: Result<Profile, Error>,
             weakPassword: Result<Profile, Error>, badUsername: Result<Profile, Error>,
             registered: Result<Profile, Error>, duplicate: Result<Profile, Error>)
    requires Sound(policy) && Witnessed(policy)
    ensures mismatch == Failure(Mismatch)
    ensures badEmail == Failure(InvalidFormat)
    ensures weakPassword == Failure(WeakPassword)
    ensures badUsername == Failure(InvalidFormat)
    ensures registered.Success? && Username(registered.value) == "test" && Email(registered.value) == "test@foo.ru"
    ensures duplicate == Failure(Conflict)
  {
    var store := new AccountStore(policy);
    mismatch := store.CreateProfile("test", "test@foo.ru", "foo", "f", salt, today);
    badEmail := store.CreateProfile("test", "test", "Passw0rd33", "Passw0rd33", salt, today);
    weakPassword := store.CreateProfile("test", "test@foo.ru", "1234", "1234", salt, today);
    TestUsernames();
    badUsername := store.CreateProfile("Алексей", "test@test.com", "Passw0rd33", "Passw0rd33", salt, today);
    registered := store.CreateProfile("test", "test@foo.ru", "Passw0rd33", "Passw0rd33", salt, today);
    SecondRegistrationConflicts(policy, map[], 0, salt, "test", "test@foo.ru", "Passw0rd33", "test@foo.ru", "Passw0rd33");
    duplicate := store.CreateProfile("test", "test@foo.ru", "Passw0rd33", "Passw0rd33", salt, today);
  }
}
