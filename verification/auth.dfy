/**
 * Accounts: registration (one account per email; only a SUPER_ADMIN starts
 * active), approval and deactivation by flipping the active flag, and the
 * active checks that login and token refresh make. Password hashing, the
 * authentication manager and JWT handling are outside the model: whether the
 * password matches and whether a refresh token is valid arrive as booleans.
 */
module Auth {
  import opened Common
  import opened Store

  datatype AuthError =
      /** "Email already registered" */
    | EmailTaken
      /** "Invalid email or password" */
    | InvalidCredentials
      /** "Account pending approval. Please contact administrator." */
    | PendingApproval
      /** The password did not authenticate (the authentication manager's exception). */
    | BadCredentials
    | UserNotFound
      /** "User is already active" */
    | AlreadyActive
      /** "User is already inactive" */
    | AlreadyInactive
      /** "Invalid refresh token" */
    | InvalidRefreshToken
      /** "User account is deactivated" */
    | Deactivated

  /** `existsByEmail`. */
  predicate EmailRegistered(users: seq<User>, email: string)
  {
    FindUserByEmail(users, email).Some?
  }

  /** No two accounts share an email. */
  predicate UniqueEmails(users: seq<User>)
  {
    forall i, j :: 0 <= i < |users| && 0 <= j < |users| && i != j ==> users[i].email != users[j].email
  }

  /** The account a registration stores: active exactly when the role is SUPER_ADMIN. */
  function NewAccount(email: string, fullName: string, role: UserRole): (u: User)
    ensures u.email == email && u.fullName == fullName && u.role == role
    ensures u.isActive <==> role == SuperAdmin
  {
    User(email, fullName, role, role == SuperAdmin)
  }

  /**
   * `register`: an email already on file is refused and nothing is stored;
   * otherwise the new account is appended with the next id.
   */
  method Register(db: Database, email: string, fullName: string, role: UserRole) returns (r: Result<Id, AuthError>)
    modifies db`users
    ensures EmailRegistered(old(db.users), email) ==> r == Err(EmailTaken) && db.users == old(db.users)
    ensures !EmailRegistered(old(db.users), email) ==>
      r == Ok(|old(db.users)|) && db.users == old(db.users) + [NewAccount(email, fullName, role)]
  {
    if EmailRegistered(db.users, email) {
      return Err(EmailTaken);
    }
    r := Ok(|db.users|);
    db.users := db.users + [NewAccount(email, fullName, role)];
  }

  /** Registration keeps emails unique, whether it stores the account or refuses it. */
  lemma RegisterKeepsEmailsUnique(users: seq<User>, email: string, fullName: string, role: UserRole)
    requires UniqueEmails(users)
    ensures !EmailRegistered(users, email) ==> UniqueEmails(users + [NewAccount(email, fullName, role)])
  {
    if !EmailRegistered(users, email) {
      var users' := users + [NewAccount(email, fullName, role)];
      forall i, j | 0 <= i < |users'| && 0 <= j < |users'| && i != j
        ensures users'[i].email != users'[j].email
      {
        if i < |users| && j < |users| {
        } else if i < |users| {
          assert users'[j].email == email;
        } else {
          assert users'[i].email == email && j < |users|;
        }
      }
    }
  }

  /** The accounts with one account's active flag set to `active`. */
  function WithActive(users: seq<User>, userId: Id, active: bool): (users': seq<User>)
    requires userId < |users|
    ensures |users'| == |users|
    ensures users'[userId] == users[userId].(isActive := active)
    ensures forall k :: 0 <= k < |users| && k != userId ==> users'[k] == users[k]
  {
    users[userId := users[userId].(isActive := active)]
  }

  /** `approveUser`: an unknown or already active account is refused; otherwise it becomes active. */
  method ApproveUser(db: Database, userId: Id) returns (r: Result<(), AuthError>)
    modifies db`users
    ensures userId >= |old(db.users)| ==> r == Err(UserNotFound)
    ensures userId < |old(db.users)| && old(db.users)[userId].isActive ==> r == Err(AlreadyActive)
    ensures r.Err? ==> db.users == old(db.users)
    ensures r.Ok? <==> userId < |old(db.users)| && !old(db.users)[userId].isActive
    ensures r.Ok? ==> db.users == WithActive(old(db.users), userId, true)
  {
    if userId >= |db.users| {
      return Err(UserNotFound);
    }
    if db.users[userId].isActive {
      return Err(AlreadyActive);
    }
    db.users := WithActive(db.users, userId, true);
    r := Ok(());
  }

  /** `deactivateUser`: an unknown or already inactive account is refused; otherwise it becomes inactive. */
  method DeactivateUser(db: Database, userId: Id) returns (r: Result<(), AuthError>)
    modifies db`users
    ensures userId >= |old(db.users)| ==> r == Err(UserNotFound)
    ensures userId < |old(db.users)| && !old(db.users)[userId].isActive ==> r == Err(AlreadyInactive)
    ensures r.Err? ==> db.users == old(db.users)
    ensures r.Ok? <==> userId < |old(db.users)| && old(db.users)[userId].isActive
    ensures r.Ok? ==> db.users == WithActive(old(db.users), userId, false)
  {
    if userId >= |db.users| {
      return Err(UserNotFound);
    }
    if !db.users[userId].isActive {
      return Err(AlreadyInactive);
    }
    db.users := WithActive(db.users, userId, false);
    r := Ok(());
  }

  /** Approving and then deactivating an account, or the reverse, gives back the accounts it started from. */
  lemma ApproveDeactivateInverse(users: seq<User>, userId: Id)
    requires userId < |users|
    ensures !users[userId].isActive ==> WithActive(WithActive(users, userId, true), userId, false) == users
    ensures users[userId].isActive ==> WithActive(WithActive(users, userId, false), userId, true) == users
  {
    var twice := WithActive(WithActive(users, userId, !users[userId].isActive), userId, users[userId].isActive);
    assert twice == users by {
      assert |twice| == |users|;
      forall k | 0 <= k < |users|
        ensures twice[k] == users[k]
      {
      }
    }
  }

  /**
   * The checks of `login`, in order: the email must be registered, the account
   * active, and only then is the password looked at. The result is the
   * account's id.
   */
  function LoginCheck(users: seq<User>, email: string, passwordMatches: bool): (r: Result<Id, AuthError>)
    ensures r.Ok? <==> EmailRegistered(users, email) && users[FindUserByEmail(users, email).value].isActive
                       && passwordMatches
    ensures r.Ok? ==> r.value < |users| && users[r.value].email == email && users[r.value].isActive
  {
    match FindUserByEmail(users, email)
    case None => Err(InvalidCredentials)
    case Some(id) =>
      if !users[id].isActive then Err(PendingApproval)
      else if !passwordMatches then Err(BadCredentials)
      else Ok(id)
  }

  /** An unknown email or an inactive account is refused the same way whether or not the password is right. */
  lemma LoginRefusesBeforePassword(users: seq<User>, email: string)
    ensures !EmailRegistered(users, email) ==>
      LoginCheck(users, email, true) == LoginCheck(users, email, false) == Err(InvalidCredentials)
    ensures EmailRegistered(users, email) && !users[FindUserByEmail(users, email).value].isActive ==>
      LoginCheck(users, email, true) == LoginCheck(users, email, false) == Err(PendingApproval)
  {
  }

  /**
   * Once an inactive account is approved its holder can log in with the right
   * password, and once an active one is deactivated they cannot, whatever the
   * password.
   */
  lemma ApprovalGovernsLogin(users: seq<User>, userId: Id)
    requires UniqueEmails(users) && userId < |users|
    ensures LoginCheck(WithActive(users, userId, true), users[userId].email, true) == Ok(userId)
    ensures LoginCheck(WithActive(users, userId, false), users[userId].email, true) == Err(PendingApproval)
  {
    FindAfterActiveChange(users, userId, true);
    FindAfterActiveChange(users, userId, false);
  }

  /** With unique emails an account is found by its email, also after its active flag changes. */
  lemma FindAfterActiveChange(users: seq<User>, userId: Id, active: bool)
    requires UniqueEmails(users) && userId < |users|
    ensures FindUserByEmail(WithActive(users, userId, active), users[userId].email) == Some(userId)
  {
    var users' := WithActive(users, userId, active);
    var found := FindUserByEmail(users', users[userId].email);
    assert users'[userId].email == users[userId].email;
    assert found.Some?;
  }

  /**
   * The checks of `refreshToken`: the token must be valid, name an existing
   * account, and that account must be active. The result is the account's id.
   */
  function RefreshCheck(users: seq<User>, tokenValid: bool, userId: Id): (r: Result<Id, AuthError>)
    ensures r.Ok? <==> tokenValid && userId < |users| && users[userId].isActive
    ensures r.Ok? ==> r.value == userId
    ensures tokenValid && userId < |users| && !users[userId].isActive ==> r == Err(Deactivated)
  {
    if !tokenValid then Err(InvalidRefreshToken)
    else if userId >= |users| then Err(UserNotFound)
    else if !users[userId].isActive then Err(Deactivated)
    else Ok(userId)
  }

  /** A deactivated account can no longer refresh its token, and an approved one can. */
  lemma DeactivationStopsRefresh(users: seq<User>, userId: Id)
    requires userId < |users|
    ensures RefreshCheck(WithActive(users, userId, false), true, userId) == Err(Deactivated)
    ensures RefreshCheck(WithActive(users, userId, true), true, userId) == Ok(userId)
  {
  }
}
