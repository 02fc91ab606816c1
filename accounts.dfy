/**
  User registration and login (controllers/controllers.js) against the users
  table of setupDatabase/setupDatabase.js, whose `email` column is UNIQUE.

  bcrypt and jsonwebtoken are given functions; `dbFails` says that the
  database rejects the handler's queries, which the handlers' catch turns
  into a 500 response.
 */
module Accounts {
  import opened Js

  /** A row of the users table; `password` holds the bcrypt hash. */
  datatype User = User(id: nat, name: string, email: string, password: string)

  /** The status code, the `message` and, for a login, the `token` of a response. */
  datatype Response = Response(status: nat, message: string, token: Option<string>)

  /** `bcrypt.hash(password, 10)`, `bcrypt.compare(password, hash)` and
      `jwt.sign({ id }, …)`, the last one None when it throws (for instance
      without a JWT_SECRET). */
  datatype Crypto = Crypto(hash: string -> string, compare: (string, string) -> bool, sign: nat -> Option<string>)

  const AllFieldsRequired := "All fields are required"
  const UserExists := "User already exists"
  const Registered := "User registered successfully"
  const NoSuchUser := "User does not exist"
  const WrongPassword := "Invalid password"
  const LoggedIn := "User logged in successfully"
  const ServerError := "Internal server error"

  /** `SELECT * FROM users WHERE email = ?`, first row. */
  function FirstWithEmail(users: seq<User>, email: string): (r: Option<User>)
    ensures r.None? <==> forall i | 0 <= i < |users| :: users[i].email != email
    ensures r.Some? ==> r.value in users && r.value.email == email
    decreases |users|
  {
    if |users| == 0 then None
    else if users[0].email == email then Some(users[0])
    else
      var r := FirstWithEmail(users[1..], email);
      assert forall i | 1 <= i < |users| :: users[i] == users[1..][i - 1];
      r
  }

  /** The UNIQUE constraint on `email`. */
  predicate DistinctEmails(users: seq<User>) {
    forall i, j | 0 <= i < j < |users| :: users[i].email != users[j].email
  }

  /** With distinct emails, the user found by email is the only one with it. */
  lemma FirstWithEmailUnique(users: seq<User>, email: string, u: User)
    requires DistinctEmails(users) && u in users && u.email == email
    ensures FirstWithEmail(users, email) == Some(u)
  {
    var k :| 0 <= k < |users| && users[k] == u;
    FirstWithEmailAt(users, email, k);
  }

  lemma {:induction false} FirstWithEmailAt(users: seq<User>, email: string, k: nat)
    requires DistinctEmails(users) && k < |users| && users[k].email == email
    ensures FirstWithEmail(users, email) == Some(users[k])
    decreases |users|
  {
    if k > 0 {
      assert users[0].email != email;
      assert DistinctEmails(users[1..]) by {
        forall i, j | 0 <= i < j < |users[1..]| ensures users[1..][i].email != users[1..][j].email {
          assert users[1..][i] == users[i + 1] && users[1..][j] == users[j + 1];
        }
      }
      FirstWithEmailAt(users[1..], email, k - 1);
    }
  }

  /** The response register gives for a request body on the given table. */
  function RegisterResponse(users: seq<User>, name: Option<string>, email: Option<string>,
                            password: Option<string>, dbFails: bool): Response
  {
    if !Truthy(name) || !Truthy(email) || !Truthy(password) then Response(400, AllFieldsRequired, None)
    else if dbFails then Response(500, ServerError, None)
    else if FirstWithEmail(users, email.value).Some? then Response(400, UserExists, None)
    else Response(201, Registered, None)
  }

  /** The response login gives for a request body on the given table. */
  function LoginResponse(users: seq<User>, email: Option<string>, password: Option<string>,
                         crypto: Crypto, dbFails: bool): Response
  {
    if !Truthy(email) || !Truthy(password) then Response(400, AllFieldsRequired, None)
    else if dbFails then Response(500, ServerError, None)
    else match FirstWithEmail(users, email.value)
      case None => Response(400, NoSuchUser, None)
      case Some(user) =>
        if !crypto.compare(password.value, user.password) then Response(400, WrongPassword, None)
        else match crypto.sign(user.id)
          case None => Response(500, ServerError, None)
          case Some(token) => Response(200, LoggedIn, Some(token))
  }

  class UserTable {
    var users: seq<User>
    var nextId: nat

    /** Emails are unique and ids are increasing and below the next one. */
    ghost predicate Valid()
      reads this
    {
      && 0 < nextId
      && DistinctEmails(users)
      && (forall i | 0 <= i < |users| :: 0 < users[i].id < nextId)
      && (forall i, j | 0 <= i < j < |users| :: users[i].id < users[j].id)
    }

    constructor ()
      ensures Valid() && users == [] && nextId == 1
    {
      users := [];
      nextId := 1;
    }

    /** register: check the fields, look the email up, hash the password, insert. */
    method Register(name: Option<string>, email: Option<string>, password: Option<string>,
                    crypto: Crypto, dbFails: bool) returns (r: Response)
      requires Valid()
      modifies this
      ensures Valid()
      ensures r == RegisterResponse(old(users), name, email, password, dbFails)
      ensures r.status == 201 ==>
                users == old(users) + [User(old(nextId), name.value, email.value, crypto.hash(password.value))]
                && nextId == old(nextId) + 1
      ensures r.status != 201 ==> users == old(users) && nextId == old(nextId)
    {
      if !Truthy(name) || !Truthy(email) || !Truthy(password) {
        return Response(400, AllFieldsRequired, None);
      }
      if dbFails {
        return Response(500, ServerError, None);
      }
      var existingUser := FirstWithEmail(users, email.value);
      if existingUser.Some? {
        return Response(400, UserExists, None);
      }
      var hashedPassword := crypto.hash(password.value);
      var user := User(nextId, name.value, email.value, hashedPassword);
      AppendKeepsDistinct(users, user);
      users := users + [user];
      nextId := nextId + 1;
      r := Response(201, Registered, None);
    }

    /** login: check the fields, look the email up, compare, sign. */
    method Login(email: Option<string>, password: Option<string>, crypto: Crypto, dbFails: bool)
      returns (r: Response)
      ensures r == LoginResponse(users, email, password, crypto, dbFails)
    {
      if !Truthy(email) || !Truthy(password) {
        return Response(400, AllFieldsRequired, None);
      }
      if dbFails {
        return Response(500, ServerError, None);
      }
      var existingUser := FirstWithEmail(users, email.value);
      if existingUser.None? {
        return Response(400, NoSuchUser, None);
      }
      var user := existingUser.value;
      var isPasswordValid := crypto.compare(password.value, user.password);
      if !isPasswordValid {
        return Response(400, WrongPassword, None);
      }
      var token := crypto.sign(user.id);
      if token.None? {
        return Response(500, ServerError, None);
      }
      r := Response(200, LoggedIn, token);
    }
  }

  /** Appending a user whose email is new keeps emails distinct. */
  lemma AppendKeepsDistinct(users: seq<User>, u: User)
    requires DistinctEmails(users) && FirstWithEmail(users, u.email).None?
    ensures DistinctEmails(users + [u])
  {
    var all := users + [u];
    forall i, j | 0 <= i < j < |all| ensures all[i].email != all[j].email {
      if j == |users| {
        assert all[i] == users[i];
      } else {
        assert all[i] == users[i] && all[j] == users[j];
      }
    }
  }

  /** register's responses, case by case: a body with a missing or empty field is
      refused first, then a known email, and only a new email is registered. */
  lemma RegisterCases(users: seq<User>, name: Option<string>, email: Option<string>,
                      password: Option<string>, dbFails: bool)
    ensures var r := RegisterResponse(users, name, email, password, dbFails);
            && (r.status == 201 <==> Truthy(name) && Truthy(email) && Truthy(password) && !dbFails
                                     && forall i | 0 <= i < |users| :: users[i].email != email.value)
            && (r == Response(400, UserExists, None) <==>
                  Truthy(name) && Truthy(email) && Truthy(password) && !dbFails
                  && exists i | 0 <= i < |users| :: users[i].email == email.value)
            && r.token.None?
  {
  }

  /** login succeeds exactly for a known email whose stored hash matches, and then
      carries the token signed for that user's id. */
  lemma LoginSucceedsIff(users: seq<User>, email: Option<string>, password: Option<string>,
                         crypto: Crypto, dbFails: bool)
    requires DistinctEmails(users)
    ensures var r := LoginResponse(users, email, password, crypto, dbFails);
            r.status == 200 <==>
              Truthy(email) && Truthy(password) && !dbFails
              && exists i | 0 <= i < |users| :: users[i].email == email.value
                                                && crypto.compare(password.value, users[i].password)
                                                && crypto.sign(users[i].id).Some?
                                                && r.token == crypto.sign(users[i].id)
  {
    var r := LoginResponse(users, email, password, crypto, dbFails);
    if Truthy(email) && Truthy(password) && !dbFails {
      match FirstWithEmail(users, email.value)
      case None =>
      case Some(user) =>
        var k :| 0 <= k < |users| && users[k] == user;
        forall i | 0 <= i < |users| && users[i].email == email.value ensures users[i] == user {
          FirstWithEmailUnique(users, email.value, users[i]);
        }
    }
  }

  /** After registering, logging in with the same email and password succeeds
      when bcrypt accepts a password against its own hash and signing works. */
  lemma RegisteredUserCanLogIn(users: seq<User>, nextId: nat, name: string, email: string, password: string,
                               crypto: Crypto)
    requires DistinctEmails(users) && FirstWithEmail(users, email).None?
    requires name != "" && email != "" && password != ""
    requires crypto.compare(password, crypto.hash(password)) && crypto.sign(nextId).Some?
    ensures RegisterResponse(users, Some(name), Some(email), Some(password), false).status == 201
    ensures LoginResponse(users + [User(nextId, name, email, crypto.hash(password))], Some(email), Some(password), crypto, false)
            == Response(200, LoggedIn, crypto.sign(nextId))
  {
    var u := User(nextId, name, email, crypto.hash(password));
    AppendKeepsDistinct(users, u);
    FirstWithEmailUnique(users + [u], email, u);
  }

  /** The row found by the new email holds the hash of the password, not the
      password itself. */
  lemma StoredPasswordIsHash(users: seq<User>, nextId: nat, name: string, email: string, password: string,
                             crypto: Crypto)
    requires FirstWithEmail(users, email).None?
    ensures var after := users + [User(nextId, name, email, crypto.hash(password))];
            FirstWithEmail(after, email).Some? && FirstWithEmail(after, email).value.password == crypto.hash(password)
  {
    var u := User(nextId, name, email, crypto.hash(password));
    FirstWithEmailAppend(users, email, u);
  }

  lemma {:induction false} FirstWithEmailAppend(users: seq<User>, email: string, u: User)
    requires FirstWithEmail(users, email).None? && u.email == email
    ensures FirstWithEmail(users + [u], email) == Some(u)
    decreases |users|
  {
    if |users| == 0 {
      assert users + [u] == [u];
    } else {
      assert (users + [u])[1..] == users[1..] + [u];
      FirstWithEmailAppend(users[1..], email, u);
    }
  }
}
