/**
 * User accounts: lookup by id and by username, registration with unique usernames
 * and emails, and the preferred-currency setting.
 */
module UserService {
  import opened Wrappers
  import opened Text
  import opened Entities
  import opened Tables

  /** The registration request; a missing preferred currency is None. */
  datatype UserRequest = UserRequest(username: string, email: string, password: string, preferredCurrency: Option<string>)

  const DefaultCurrency: string := "USD"

  /** The exception `getUserById` throws for an unknown id. */
  function UserNotFound(id: nat): Error {
    ResourceNotFound("User not found with id: " + NatToString(id))
  }

  /** `getUserById`. */
  method GetUserById(db: Database, id: nat) returns (r: Result<User>)
    ensures r.Success? <==> id in db.users
    ensures r.Success? ==> r.value == db.users[id]
    ensures r.Failure? ==> r.error == UserNotFound(id)
  {
    if id in db.users {
      r := Success(db.users[id]);
    } else {
      r := Failure(UserNotFound(id));
    }
  }

  /** `getUserByUsername`. */
  method GetUserByUsername(db: Database, username: string) returns (r: Result<User>)
    requires db.Valid()
    ensures r.Success? <==> UsernameTaken(db.users, username)
    ensures r.Success? ==> r.value.username == username && r.value.id in db.users && db.users[r.value.id] == r.value
    ensures r.Failure? ==> r.error == ResourceNotFound("User not found with username: " + username)
  {
    var found := FindUserByUsername(db.users, db.nextUserId, username);
    if found.Some? {
      r := Success(found.value);
    } else {
      r := Failure(ResourceNotFound("User not found with username: " + username));
    }
  }

  /** The checks `createUser` makes before saving: the username first, then the email. */
  function CheckNewUser(users: map<nat, User>, req: UserRequest): (r: Option<Error>)
    ensures UsernameTaken(users, req.username) ==> r == Some(IllegalArgument("Username is already taken"))
    ensures !UsernameTaken(users, req.username) && EmailTaken(users, req.email)
            ==> r == Some(IllegalArgument("Email is already in use"))
    ensures r.None? <==> !UsernameTaken(users, req.username) && !EmailTaken(users, req.email)
  {
    if UsernameTaken(users, req.username) then Some(IllegalArgument("Username is already taken"))
    else if EmailTaken(users, req.email) then Some(IllegalArgument("Email is already in use"))
    else None
  }

  /** The row `createUser` saves under a fresh id. */
  function NewUser(id: nat, req: UserRequest, encoder: string -> string): (u: User)
    ensures u.id == id && u.username == req.username && u.email == req.email
    ensures u.password == encoder(req.password)
    ensures req.preferredCurrency.None? ==> u.preferredCurrency == DefaultCurrency
    ensures req.preferredCurrency.Some? ==> u.preferredCurrency == req.preferredCurrency.value
  {
    User(id, req.username, req.email, encoder(req.password), req.preferredCurrency.GetOr(DefaultCurrency))
  }

  /** A user that passes the checks can be added without breaking uniqueness of usernames and emails. */
  lemma {:induction false} AcceptedUserKeepsUnique(users: map<nat, User>, id: nat, req: UserRequest, encoder: string -> string)
    requires UniqueUsernames(users) && UniqueEmails(users) && id !in users
    requires CheckNewUser(users, req).None?
    ensures UniqueUsernames(users[id := NewUser(id, req, encoder)])
    ensures UniqueEmails(users[id := NewUser(id, req, encoder)])
  {
    var u := NewUser(id, req, encoder);
    assert forall k :: k in users ==> users[k].username != u.username && users[k].email != u.email;
  }

  /** `createUser`: on a failed check nothing is saved; otherwise one new user row with the encoded password. */
  method CreateUser(db: Database, req: UserRequest, encoder: string -> string) returns (r: Result<User>)
    requires db.Valid()
    modifies db
    ensures db.Valid()
    ensures r.Failure? <==> CheckNewUser(old(db.users), req).Some?
    ensures r.Failure? ==> r.error == CheckNewUser(old(db.users), req).value && unchanged(db)
    ensures r.Success? ==> (r.value == NewUser(old(db.nextUserId), req, encoder)
      && db.users == old(db.users)[r.value.id := r.value]
      && db.nextUserId == old(db.nextUserId) + 1)
    ensures db.nextPortfolioId == old(db.nextPortfolioId) && db.nextHoldingId == old(db.nextHoldingId) && db.nextNewsId == old(db.nextNewsId)
    ensures db.portfolios == old(db.portfolios) && db.holdings == old(db.holdings)
      && db.stocks == old(db.stocks) && db.news == old(db.news)
  {
    var check := CheckNewUser(db.users, req);
    if check.Some? {
      return Failure(check.value);
    }
    var user := NewUser(db.nextUserId, req, encoder);
    AcceptedUserKeepsUnique(db.users, db.nextUserId, req, encoder);
    db.users := db.users[user.id := user];
    db.nextUserId := db.nextUserId + 1;
    r := Success(user);
  }

  /** `updateUserPreferredCurrency`: only that one column of that one user changes. */
  method UpdatePreferredCurrency(db: Database, userId: nat, currency: string) returns (r: Result<User>)
    requires db.Valid()
    modifies db
    ensures db.Valid()
    ensures r.Success? <==> userId in old(db.users)
    ensures r.Success? ==> (r.value == old(db.users)[userId].(preferredCurrency := currency)
      && db.users == old(db.users)[userId := r.value])
    ensures r.Failure? ==> (r.error == UserNotFound(userId)
      && db.users == old(db.users))
    ensures db.nextUserId == old(db.nextUserId) && db.nextPortfolioId == old(db.nextPortfolioId)
      && db.nextHoldingId == old(db.nextHoldingId) && db.nextNewsId == old(db.nextNewsId)
    ensures db.portfolios == old(db.portfolios) && db.holdings == old(db.holdings)
      && db.stocks == old(db.stocks) && db.news == old(db.news)
  {
    r := GetUserById(db, userId);
    if r.Success? {
      var user := r.value.(preferredCurrency := currency);
      db.users := db.users[userId := user];
      r := Success(user);
    }
  }
}
