/** Account administration (metronix-app/src/app/api/admin/users/route.ts):
    listing the accounts, newest first, with how many complaints each has
    filed and holds, and creating an account. Password hashing is the
    foreign `hash` parameter; identifiers and clocks are parameters too. */
module Users {
  import opened Common
  import opened Model
  import opened Sorting
  import Auth

  const MissingFields := "Missing required fields"
  const UserExists := "User already exists"

  // ------------------------------------------------------------------- GET

  /** An account as listed: its selected columns and its `_count` figures;
      the password hash is never selected. */
  datatype UserRecord = UserRecord(
    id: string,
    name: Option<string>,
    email: string,
    role: string,
    createdAt: int,
    complaints: nat,
    assignedComplaints: nat)

  function FiledBy(id: string): Complaint -> bool
  {
    (c: Complaint) => c.citizenId == id
  }

  function HeldBy(id: string): Complaint -> bool
  {
    (c: Complaint) => c.solverId == Some(id)
  }

  /** The `role` query parameter: no filter when absent or empty. */
  function RoleMatches(role: Option<string>): User -> bool
  {
    if Truthy(role) then UserRoleIs(role.value) else (u: User) => true
  }

  /** A role filter the store accepts: none, or one of the three roles. */
  predicate RoleFilterValid(role: Option<string>)
  {
    !Truthy(role) || role.value in Roles
  }

  /** `orderBy: { createdAt: 'desc' }` on users. */
  function JoinedLatest(u: User): (int, int)
  {
    (-u.createdAt, 0)
  }

  /** The accounts the listing selects, newest first. */
  function Listed(users: seq<User>, role: Option<string>): (r: seq<User>)
    ensures forall i, j :: 0 <= i < j < |r| ==> r[i].createdAt >= r[j].createdAt
    ensures multiset(r) == multiset(Filter(users, RoleMatches(role)))
    ensures forall u :: u in r <==> u in users && (Truthy(role) ==> u.role == role.value)
  {
    var r := Sort(Filter(users, RoleMatches(role)), JoinedLatest);
    forall i, j | 0 <= i < j < |r|
      ensures r[i].createdAt >= r[j].createdAt
    {
      assert KeyLe(JoinedLatest(r[i]), JoinedLatest(r[j]));
    }
    assert forall u :: u in r <==> u in multiset(r);
    r
  }

  /** `record` lists account `u` with its complaint figures in `db`. */
  predicate Describes(db: Db, record: UserRecord, u: User)
  {
    && record.id == u.id && record.name == u.name && record.email == u.email
    && record.role == u.role && record.createdAt == u.createdAt
    && record.complaints == Count(db.complaints, FiledBy(u.id))
    && record.assignedComplaints == Count(db.complaints, HeldBy(u.id))
  }

  function RecordOf(db: Db, u: User): UserRecord
  {
    UserRecord(u.id, u.name, u.email, u.role, u.createdAt,
               Count(db.complaints, FiledBy(u.id)), Count(db.complaints, HeldBy(u.id)))
  }

  /** `GET /api/admin/users?role=…`. An unknown role reaches the store's
      enumerated column and fails there, which the handler reports as 500. */
  function Get(db: Db, caller: Option<SessionUser>, role: Option<string>): (r: Reply<seq<UserRecord>>)
    ensures r.Fail? && r.code == 401 <==> !IsAdmin(caller)
    ensures r.Fail? && r.code == 500 <==> IsAdmin(caller) && !RoleFilterValid(role)
    ensures r.Fail? ==> r.code in {401, 500}
    ensures r.Ok? ==>
              && r.code == 200
              && |r.body| == |Listed(db.users, role)|
              && forall i :: 0 <= i < |r.body| ==> Describes(db, r.body[i], Listed(db.users, role)[i])
  {
    if !IsAdmin(caller) then Deny(401, Unauthorized)
    else if !RoleFilterValid(role) then Deny(500, InternalError)
    else
      var us := Listed(db.users, role);
      Ok(200, seq(|us|, i requires 0 <= i < |us| => RecordOf(db, us[i])))
  }

  /** Listing by a role gives as many accounts as the dashboard counts for
      that role, and listing without a role gives every account. */
  lemma ListingAgreesWithCounts(db: Db, caller: Option<SessionUser>, role: string)
    requires IsAdmin(caller)
    ensures role in Roles ==> |Get(db, caller, Some(role)).body| == Count(db.users, UserRoleIs(role))
    ensures |Get(db, caller, None).body| == |db.users|
    ensures forall u :: u in Listed(db.users, None) <==> u in db.users
  {
    var everything := Filter(db.users, RoleMatches(None));
    assert multiset(everything) == multiset(db.users);
    assert |multiset(everything)| == |multiset(db.users)|;
  }

  // ------------------------------------------------------------------ POST

  /** The JSON body of `POST /api/admin/users`. */
  datatype NewUserBody = NewUserBody(name: Option<string>, email: Option<string>, role: Option<string>, password: Option<string>)

  /** The selected columns of the created account. */
  datatype Created = Created(id: string, name: Option<string>, email: string, role: string, createdAt: int)

  /** The store's identifier for the new row, the clock, and the password
      hash (bcrypt with cost 12). */
  datatype Effects = Effects(newId: string, now: int, hash: string -> string)

  predicate HasRequired(b: NewUserBody)
  {
    Truthy(b.name) && Truthy(b.email) && Truthy(b.role)
  }

  /** `u` is the account created from body `b`: the typed fields, a hashed
      password only when one was typed, and none otherwise. */
  predicate NewAccount(u: User, b: NewUserBody, fx: Effects)
  {
    && HasRequired(b)
    && u.id == fx.newId && u.createdAt == fx.now
    && u.name == b.name && u.email == b.email.value && u.role == b.role.value
    && (u.password.Some? <==> Truthy(b.password))
    && (Truthy(b.password) ==> u.password == Some(fx.hash(b.password.value)))
  }

  function Selected(u: User): Created
  {
    Created(u.id, u.name, u.email, u.role, u.createdAt)
  }

  /** `POST /api/admin/users`. A body that is not JSON throws in the handler
      (500); so does a role outside the enumeration, at the store. */
  function Post(db: Db, caller: Option<SessionUser>, body: Option<NewUserBody>, fx: Effects): (o: Outcome<Created>)
    ensures o.reply.Fail? && o.reply.code == 401 <==> !IsAdmin(caller)
    ensures o.reply.Fail? && o.reply.error == MissingFields <==>
              IsAdmin(caller) && body.Some? && !HasRequired(body.value)
    ensures o.reply.Fail? && o.reply.error == UserExists <==>
              IsAdmin(caller) && body.Some? && HasRequired(body.value)
              && FindUserByEmail(db.users, body.value.email.value).Some?
    ensures o.reply.Ok? <==>
              && IsAdmin(caller) && body.Some? && HasRequired(body.value)
              && FindUserByEmail(db.users, body.value.email.value).None?
              && body.value.role.value in Roles
    ensures o.reply.Fail? ==> o.db == db && o.reply.code in {400, 401, 500}
    ensures o.reply.Fail? && o.reply.code == 400 ==> o.reply.error in {MissingFields, UserExists}
    ensures o.reply.Ok? ==>
              && o.reply.code == 201
              && |o.db.users| == |db.users| + 1
              && o.db.users[..|db.users|] == db.users
              && NewAccount(o.db.users[|db.users|], body.value, fx)
              && o.reply.body == Selected(o.db.users[|db.users|])
              && o.db == db.(users := o.db.users)
  {
    if !IsAdmin(caller) then Outcome(Deny(401, Unauthorized), db)
    else if body.None? then Outcome(Deny(500, InternalError), db)
    else
      var b := body.value;
      if !HasRequired(b) then Outcome(Deny(400, MissingFields), db)
      else if FindUserByEmail(db.users, b.email.value).Some? then Outcome(Deny(400, UserExists), db)
      else if b.role.value !in Roles then Outcome(Deny(500, InternalError), db)
      else
        var password := if Truthy(b.password) then Some(fx.hash(b.password.value)) else None;
        var u := User(fx.newId, b.name, b.email.value, password, b.role.value, fx.now);
        var users := db.users + [u];
        assert users[..|db.users|] == db.users;
        Outcome(Ok(201, Selected(u)), db.(users := users))
  }

  /** Creating accounts keeps e-mails unique. */
  lemma PostKeepsEmailsUnique(db: Db, caller: Option<SessionUser>, body: Option<NewUserBody>, fx: Effects)
    requires EmailsUnique(db.users)
    ensures EmailsUnique(Post(db, caller, body, fx).db.users)
  {
    var o := Post(db, caller, body, fx);
    if o.reply.Ok? {
      var us := o.db.users;
      var n := |db.users|;
      forall i, j | 0 <= i < j < |us|
        ensures us[i].email != us[j].email
      {
        if j < n {
          assert us[i] == db.users[i] && us[j] == db.users[j];
        } else {
          assert us[i] == db.users[i];
          assert us[i] in db.users;
        }
      }
    }
  }

  /** Sending the same body twice creates one account: the second request
      is refused as a duplicate and leaves the store as the first left it. */
  lemma PostTwiceIsRefused(db: Db, caller: Option<SessionUser>, body: Option<NewUserBody>, fx: Effects, fx2: Effects)
    requires Post(db, caller, body, fx).reply.Ok?
    ensures var once := Post(db, caller, body, fx).db;
            Post(once, caller, body, fx2) == Outcome(Deny(400, UserExists), once)
  {
    var once := Post(db, caller, body, fx).db;
    var u := once.users[|db.users|];
    assert u in once.users;
  }

  /** A freshly created account can sign in with password `typed` exactly
      when a password was given at creation and the hash check accepts
      `typed` against its hash (hashes are never empty); an account created without a password can
      never sign in with credentials. */
  lemma CreatedAccountSignIn(db: Db, caller: Option<SessionUser>, body: Option<NewUserBody>, fx: Effects,
                             typed: string, compare: (string, string) -> Attempt<bool>)
    requires EmailsUnique(db.users)
    requires Post(db, caller, body, fx).reply.Ok?
    requires typed != ""
    requires forall p :: fx.hash(p) != ""
    ensures var o := Post(db, caller, body, fx);
            var u := o.db.users[|db.users|];
            var signIn := Auth.Authorize(Some(Auth.Credentials(body.value.email, Some(typed))), o.db.users, compare);
            && (signIn.Some? <==> Truthy(body.value.password) && compare(typed, fx.hash(body.value.password.value)) == Done(true))
            && (signIn.Some? ==> signIn.value == Auth.Public(u))
  {
    var o := Post(db, caller, body, fx);
    var u := o.db.users[|db.users|];
    PostKeepsEmailsUnique(db, caller, body, fx);
    assert u in o.db.users;
    Auth.AuthorizeDecides(Auth.Credentials(body.value.email, Some(typed)), o.db.users, compare, u);
  }
}
