/** Sign-in decisions (metronix-app/src/lib/auth.ts): the credentials
    provider's `authorize`, and the `jwt` and `session` callbacks that carry
    the user's id and role into every later request. Password hashing is the
    foreign `compare` parameter; token issuance is outside the model. */
module Auth {
  import opened Common
  import opened Model

  /** The e-mail and password typed on the sign-in form. */
  datatype Credentials = Credentials(email: Option<string>, password: Option<string>)

  /** The user object handed back to the authentication library. */
  datatype AuthUser = AuthUser(id: string, email: string, name: Option<string>, role: string)

  function Public(u: User): AuthUser
  {
    AuthUser(u.id, u.email, u.name, u.role)
  }

  /** `authorize`: null unless both credentials are present, an account
      with that e-mail exists and has a password, and the password hash
      check succeeds; an exception thrown by the check also gives null. */
  function Authorize(creds: Option<Credentials>, users: seq<User>, compare: (string, string) -> Attempt<bool>): (r: Option<AuthUser>)
    ensures r.Some? ==> creds.Some? && Truthy(creds.value.email) && Truthy(creds.value.password)
    ensures r.Some? ==> exists u :: u in users
                                 && u.email == creds.value.email.value
                                 && Truthy(u.password)
                                 && compare(creds.value.password.value, u.password.value) == Done(true)
                                 && r.value == Public(u)
  {
    if creds.None? || !Truthy(creds.value.email) || !Truthy(creds.value.password) then None
    else
      match FindUserByEmail(users, creds.value.email.value)
      case None => None
      case Some(u) =>
        if !Truthy(u.password) then None
        else
          match compare(creds.value.password.value, u.password.value)
          case Threw => None
          case Done(ok) => if ok then Some(Public(u)) else None
  }

  /** Under the unique e-mail index, the account with a given e-mail is the one the lookup finds. */
  lemma LookupFindsTheAccount(users: seq<User>, u: User)
    requires EmailsUnique(users) && u in users
    ensures FindUserByEmail(users, u.email) == Some(u)
  {
    var found := FindUserByEmail(users, u.email);
    var i :| 0 <= i < |users| && users[i] == u;
    var j :| 0 <= j < |users| && users[j] == found.value;
    if i < j {
      assert users[i].email != users[j].email;
    } else if j < i {
      assert users[j].email != users[i].email;
    }
  }

  /** Sign-in succeeds for an existing account with a password exactly when
      the hash check accepts the typed password, and then yields that
      account's id, e-mail, name and role. */
  lemma AuthorizeDecides(creds: Credentials, users: seq<User>, compare: (string, string) -> Attempt<bool>, u: User)
    requires EmailsUnique(users) && u in users
    requires Truthy(creds.email) && Truthy(creds.password) && creds.email.value == u.email
    ensures !Truthy(u.password) ==> Authorize(Some(creds), users, compare).None?
    ensures Truthy(u.password) ==>
              (Authorize(Some(creds), users, compare) == Some(Public(u))
               <==> compare(creds.password.value, u.password.value) == Done(true))
    ensures Authorize(Some(creds), users, compare).Some? ==> Authorize(Some(creds), users, compare) == Some(Public(u))
  {
    LookupFindsTheAccount(users, u);
  }

  /** No account carries the e-mail: sign-in fails. */
  lemma AuthorizeUnknownEmail(creds: Credentials, users: seq<User>, compare: (string, string) -> Attempt<bool>)
    requires Truthy(creds.email)
    requires forall u :: u in users ==> u.email != creds.email.value
    ensures Authorize(Some(creds), users, compare).None?
  {
  }

  // ------------------------------------------------------------ callbacks

  /** The claims of the session token the callbacks read and write. */
  datatype Token = Token(sub: Option<string>, role: Option<string>)

  /** The user object present at sign-in, with its role if it has one. */
  datatype SignInUser = SignInUser(role: Option<string>)

  /** The `jwt` callback: the role is copied into the token only when a
      user is present, that is, at sign-in; otherwise the token passes
      through untouched. The subject claim is never changed. */
  function Jwt(token: Token, user: Option<SignInUser>): (t: Token)
    ensures t.sub == token.sub
    ensures user.None? ==> t == token
    ensures user.Some? ==> t.role == user.value.role
  {
    if user.Some? then token.(role := user.value.role) else token
  }

  /** The session object handed to pages and routes. */
  datatype ClientSession = ClientSession(user: Option<SessionUser>)

  /** The `session` callback: when both a token and a session user exist,
      the user's id becomes the token subject or '', and the role becomes
      the token role or 'CITIZEN'; name and e-mail are kept. */
  function SessionCallback(session: ClientSession, token: Option<Token>): (s: ClientSession)
    ensures token.None? || session.user.None? ==> s == session
    ensures token.Some? && session.user.Some? ==>
              && s.user.Some?
              && s.user.value.name == session.user.value.name
              && s.user.value.email == session.user.value.email
              && s.user.value.id.Some? && s.user.value.role.Some?
              && (Truthy(token.value.sub) ==> s.user.value.id == token.value.sub)
              && (!Truthy(token.value.sub) ==> s.user.value.id == Some(""))
              && (Truthy(token.value.role) ==> s.user.value.role == token.value.role)
              && (!Truthy(token.value.role) ==> s.user.value.role == Some(CITIZEN))
  {
    if token.Some? && session.user.Some? then
      ClientSession(Some(session.user.value.(
        id := Some(OrElse(token.value.sub, "")),
        role := Some(OrElse(token.value.role, CITIZEN)))))
    else session
  }

  /** A session built from a token passes the id gate of the routes exactly
      when the token has a subject, and a token without a role claim makes
      the caller a citizen. */
  lemma SessionGates(session: ClientSession, token: Token)
    requires session.user.Some?
    ensures HasId(SessionCallback(session, Some(token)).user) <==> Truthy(token.sub)
    ensures !Truthy(token.role) ==> RoleIs(SessionCallback(session, Some(token)).user, CITIZEN)
    ensures IsAdmin(SessionCallback(session, Some(token)).user) <==> token.role == Some(ADMIN)
  {
  }

  /** End to end: after a credentials sign-in of an account with a non-empty
      role, the session carries that account's role, and its id is the token's subject. */
  lemma SignInCarriesRole(creds: Credentials, users: seq<User>, compare: (string, string) -> Attempt<bool>,
                          token: Token, session: ClientSession)
    requires Authorize(Some(creds), users, compare).Some?
    requires Authorize(Some(creds), users, compare).value.role != ""
    requires session.user.Some?
    ensures var signedIn := Jwt(token, Some(SignInUser(Some(Authorize(Some(creds), users, compare).value.role))));
            var s := SessionCallback(session, Some(signedIn));
            RoleIs(s.user, Authorize(Some(creds), users, compare).value.role)
            && (HasId(s.user) <==> Truthy(token.sub))
  {
  }
}
