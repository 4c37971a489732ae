/** The entities of Metronix as the route handlers see them: complaints,
    users, departments and solver profiles held by the store, the
    signed-in caller, and the records the handlers send back. */
module Model {
  import opened Common
  import opened Sorting

  // ---------------------------------------------------------------- tokens

  const CITIZEN := "CITIZEN"
  const SOLVER := "SOLVER"
  const ADMIN := "ADMIN"

  const SUBMITTED := "SUBMITTED"
  const ASSIGNED := "ASSIGNED"
  const RESOLVED := "RESOLVED"

  const LOW := "LOW"
  const NORMAL := "NORMAL"
  const HIGH := "HIGH"

  /** The role, status, category and priority values the store's enumerated
      columns accept. Tokens travel as strings through every handler; the
      store rejects a value outside its enumeration when it is written or
      used in a filter. */
  const Roles: seq<string> := [CITIZEN, SOLVER, ADMIN]
  const Statuses: seq<string> := [SUBMITTED, ASSIGNED, RESOLVED]
  const Priorities: seq<string> := [LOW, NORMAL, HIGH]
  const Categories: seq<string> := ["ROADS", "WATER", "ELECTRICITY", "SANITATION", "NOISE", "PARKING", "OTHER"]

  // -------------------------------------------------------------- entities

  /** A stored complaint. `lat`/`lng` hold the submitted coordinate text
      (its conversion to a float is not modelled); `images` holds the list
      of upload URLs that the store keeps JSON-encoded, or null. */
  datatype Complaint = Complaint(
    id: string,
    title: string,
    description: string,
    category: string,
    priority: string,
    status: string,
    location: Option<string>,
    lat: Option<string>,
    lng: Option<string>,
    images: Option<seq<string>>,
    citizenId: string,
    userId: string,
    departmentId: Option<string>,
    solverId: Option<string>,
    createdAt: int,
    updatedAt: int)

  /** A stored user; `password` is a hash, absent for accounts without one. */
  datatype User = User(
    id: string,
    name: Option<string>,
    email: string,
    password: Option<string>,
    role: string,
    createdAt: int)

  datatype Department = Department(id: string, name: string)

  /** A solver profile row and the user it belongs to. */
  datatype SolverRow = SolverRow(id: string, userId: string)

  /** The store: every table as a value. */
  datatype Db = Db(
    complaints: seq<Complaint>,
    users: seq<User>,
    departments: seq<Department>,
    solvers: seq<SolverRow>)

  /** What a handler did: its reply, and the store as it left it. */
  datatype Outcome<+T> = Outcome(reply: Reply<T>, db: Db)

  // ------------------------------------------------------------------ time

  /** Timestamps are milliseconds since the epoch. */
  const DayMs: int := 24 * 60 * 60 * 1000

  /** The UTC calendar day of a timestamp, as a day number (the
      `YYYY-MM-DD` prefix of its ISO rendering). */
  function UtcDay(t: int): int
  {
    t / DayMs
  }

  /** Later timestamps never fall on earlier days. */
  lemma UtcDayMonotone(s: int, t: int)
    requires s <= t
    ensures UtcDay(s) <= UtcDay(t)
  {
  }

  // ---------------------------------------------------------------- caller

  /** The `session.user` object the handlers read; `None` for no session. */
  datatype SessionUser = SessionUser(id: Option<string>, name: Option<string>, email: Option<string>, role: Option<string>)

  /** `session?.user?.id` is truthy. */
  predicate HasId(caller: Option<SessionUser>)
  {
    caller.Some? && Truthy(caller.value.id)
  }

  function CallerId(caller: Option<SessionUser>): string
    requires HasId(caller)
  {
    caller.value.id.value
  }

  /** `session.user.role === role`. */
  predicate RoleIs(caller: Option<SessionUser>, role: string)
  {
    caller.Some? && caller.value.role == Some(role)
  }

  /** The admin gate shared by the admin routes: a session user whose role is ADMIN. */
  predicate IsAdmin(caller: Option<SessionUser>)
  {
    RoleIs(caller, ADMIN)
  }

  // ---------------------------------------------------------------- lookup

  /** `findUnique({ where: { id } })` on users. */
  function FindUser(users: seq<User>, id: string): (r: Option<User>)
    ensures r.Some? ==> r.value in users && r.value.id == id
    ensures r.None? <==> forall u :: u in users ==> u.id != id
  {
    if |users| == 0 then None
    else if users[0].id == id then Some(users[0])
    else FindUser(users[1..], id)
  }

  /** `findUnique({ where: { email } })` on users. */
  function FindUserByEmail(users: seq<User>, email: string): (r: Option<User>)
    ensures r.Some? ==> r.value in users && r.value.email == email
    ensures r.None? <==> forall u :: u in users ==> u.email != email
  {
    if |users| == 0 then None
    else if users[0].email == email then Some(users[0])
    else FindUserByEmail(users[1..], email)
  }

  /** Emails identify users: the store's unique index on `email`. */
  predicate EmailsUnique(users: seq<User>)
  {
    forall i, j :: 0 <= i < j < |users| ==> users[i].email != users[j].email
  }

  // ------------------------------------------------------------ relations

  /** The `{ id, name, email }` selection of a related user. */
  datatype Party = Party(id: string, name: Option<string>, email: string)

  /** Whether a relation was asked for with `include`, and if so what it holds. */
  datatype Included<+T> = Omitted | Included(value: Option<T>)

  /** A complaint as a handler returns it, with its selected relations. */
  datatype ComplaintView = ComplaintView(complaint: Complaint, citizen: Option<Party>, solver: Included<Party>)

  function PartyOf(u: User): Party
  {
    Party(u.id, u.name, u.email)
  }

  function Related(users: seq<User>, id: Option<string>): Option<Party>
  {
    if id.None? then None
    else
      var u := FindUser(users, id.value);
      if u.Some? then Some(PartyOf(u.value)) else None
  }

  /** One complaint with its citizen, and its solver when `withSolver`. */
  function View(users: seq<User>, c: Complaint, withSolver: bool): ComplaintView
  {
    ComplaintView(c, Related(users, Some(c.citizenId)),
      if withSolver then Included(Related(users, c.solverId)) else Omitted)
  }

  /** Every complaint of `cs`, in order, with its relations. */
  function Views(users: seq<User>, cs: seq<Complaint>, withSolver: bool): (r: seq<ComplaintView>)
    ensures |r| == |cs|
    ensures forall i :: 0 <= i < |r| ==> r[i] == View(users, cs[i], withSolver)
  {
    seq(|cs|, i requires 0 <= i < |cs| => View(users, cs[i], withSolver))
  }

  /** The complaints underneath a list of views. */
  function ComplaintsOf(vs: seq<ComplaintView>): (r: seq<Complaint>)
    ensures |r| == |vs|
    ensures forall i :: 0 <= i < |r| ==> r[i] == vs[i].complaint
  {
    seq(|vs|, i requires 0 <= i < |vs| => vs[i].complaint)
  }

  // ------------------------------------------------------------------ json

  /** A JSON response body as a client reads it; complaint records stay rows. */
  datatype Json = JNum(n: int) | JStr(s: string) | JRows(rows: seq<ComplaintView>) | JArr(items: seq<Json>) | JObj(fields: seq<(string, Json)>)

  /** JavaScript truthiness of a JSON value: zero and the empty string are falsy. */
  predicate JTruthy(j: Json)
  {
    match j
    case JNum(n) => n != 0
    case JStr(s) => s != ""
    case _ => true
  }

  /** `value || fallback` on a value that may be `undefined`. */
  function JOr(v: Option<Json>, fallback: Json): (r: Json)
    ensures v.Some? && JTruthy(v.value) ==> r == v.value
    ensures v.None? || !JTruthy(v.value) ==> r == fallback
  {
    if v.Some? && JTruthy(v.value) then v.value else fallback
  }

  /** `obj[key]`: the value of the first field with that key, `undefined` otherwise. */
  function Field(j: Json, key: string): (r: Option<Json>)
    ensures r.Some? ==> j.JObj? && exists i :: 0 <= i < |j.fields| && j.fields[i] == (key, r.value)
    ensures r.None? <==> !j.JObj? || forall i :: 0 <= i < |j.fields| ==> j.fields[i].0 != key
  {
    if j.JObj? then FieldIn(j.fields, key) else None
  }

  function FieldIn(fields: seq<(string, Json)>, key: string): (r: Option<Json>)
    ensures r.Some? ==> exists i :: 0 <= i < |fields| && fields[i] == (key, r.value)
    ensures r.None? <==> forall i :: 0 <= i < |fields| ==> fields[i].0 != key
  {
    if |fields| == 0 then None
    else if fields[0].0 == key then Some(fields[0].1)
    else
      var r := FieldIn(fields[1..], key);
      assert r.Some? ==> exists i :: 0 <= i < |fields| && fields[i] == (key, r.value) by {
        if r.Some? {
          var i :| 0 <= i < |fields[1..]| && fields[1..][i] == (key, r.value);
          assert fields[i + 1] == (key, r.value);
        }
      }
      r
  }

  // ------------------------------------------------------------- ordering

  /** `orderBy: { createdAt: 'desc' }`. */
  function NewestFirst(c: Complaint): (int, int)
  {
    (-c.createdAt, 0)
  }

  /** A complaint list in which no complaint is older than a later one. */
  predicate NewestFirstOrder(cs: seq<Complaint>)
  {
    forall i, j :: 0 <= i < j < |cs| ==> cs[i].createdAt >= cs[j].createdAt
  }

  /** Sorting with the `NewestFirst` key yields a newest-first list. */
  lemma NewestFirstSorted(cs: seq<Complaint>)
    requires SortedBy(cs, NewestFirst)
    ensures NewestFirstOrder(cs)
  {
    forall i, j | 0 <= i < j < |cs|
      ensures cs[i].createdAt >= cs[j].createdAt
    {
      assert KeyLe(NewestFirst(cs[i]), NewestFirst(cs[j]));
    }
  }

  /** The store's newest-first listing of some complaints. */
  function ByNewest(cs: seq<Complaint>): (r: seq<Complaint>)
    ensures NewestFirstOrder(r)
    ensures multiset(r) == multiset(cs)
    ensures |r| == |cs|
  {
    var r := Sort(cs, NewestFirst);
    NewestFirstSorted(r);
    r
  }

  // ---------------------------------------------------------------- badges

  /** The colour family of a status or priority badge's classes (each page picks its own shades). */
  datatype Tone = Yellow | Blue | Green | Orange | Red | Gray

  /** Status, priority and category predicates, shared by every count. */
  function StatusIs(s: string): Complaint -> bool
  {
    (c: Complaint) => c.status == s
  }

  function PriorityIs(p: string): Complaint -> bool
  {
    (c: Complaint) => c.priority == p
  }

  function UserRoleIs(role: string): User -> bool
  {
    (u: User) => u.role == role
  }
}
