/** The administrator's complaint endpoint
    (metronix-app/src/app/api/admin/complaints/route.ts): a filtered listing
    and the update that changes a complaint's status, solver and priority.
    The store rejects a status or priority outside its enumerations, which
    the handler reports as an internal error. */
module AdminComplaints {
  import opened Common
  import opened Model

  const IdRequired := "Complaint ID is required"

  // ------------------------------------------------------------------ GET

  /** The `category`, `priority`, `status` and `solverId` query parameters. */
  datatype Query = Query(category: Option<string>, priority: Option<string>, status: Option<string>, solverId: Option<string>)

  /** The `where` clause: one equality per truthy parameter. */
  function Matches(q: Query): Complaint -> bool
  {
    (c: Complaint) =>
      && (Truthy(q.category) ==> c.category == q.category.value)
      && (Truthy(q.priority) ==> c.priority == q.priority.value)
      && (Truthy(q.status) ==> c.status == q.status.value)
      && (Truthy(q.solverId) ==> c.solverId == q.solverId)
  }

  /** The store accepts the filter: every enumerated value it names is known. */
  predicate QueryValid(q: Query)
  {
    && (Truthy(q.category) ==> q.category.value in Categories)
    && (Truthy(q.priority) ==> q.priority.value in Priorities)
    && (Truthy(q.status) ==> q.status.value in Statuses)
  }

  /** `GET /api/admin/complaints`: the matching complaints, newest first,
      with citizen and solver. */
  function List(db: Db, caller: Option<SessionUser>, q: Query): (r: Reply<seq<ComplaintView>>)
    ensures r.Fail? && r.code == 401 <==> !IsAdmin(caller)
    ensures r.Fail? && r.code == 500 <==> IsAdmin(caller) && !QueryValid(q)
    ensures r.Ok? <==> IsAdmin(caller) && QueryValid(q)
    ensures r.Ok? ==> r.code == 200 && NewestFirstOrder(ComplaintsOf(r.body))
    ensures r.Ok? ==> forall c :: c in ComplaintsOf(r.body) <==> c in db.complaints && Matches(q)(c)
    ensures r.Ok? ==> multiset(ComplaintsOf(r.body)) == multiset(Filter(db.complaints, Matches(q)))
    ensures r.Ok? ==> forall i :: 0 <= i < |r.body| ==> r.body[i] == View(db.users, r.body[i].complaint, true)
  {
    if !IsAdmin(caller) then Deny(401, Unauthorized)
    else if !QueryValid(q) then Deny(500, InternalError)
    else
      var rows := ByNewest(Filter(db.complaints, Matches(q)));
      var vs := Views(db.users, rows, true);
      assert ComplaintsOf(vs) == rows;
      assert forall c :: c in rows <==> c in multiset(rows);
      Ok(200, vs)
  }

  /** With no parameters the admin sees every complaint. */
  lemma ListWithoutFiltersIsEverything(db: Db, caller: Option<SessionUser>)
    requires IsAdmin(caller)
    ensures List(db, caller, Query(None, None, None, None)).Ok?
    ensures multiset(ComplaintsOf(List(db, caller, Query(None, None, None, None)).body)) == multiset(db.complaints)
  {
    var q := Query(None, None, None, None);
    var all := Filter(db.complaints, Matches(q));
    assert multiset(all) == multiset(db.complaints) by {
      forall x
        ensures multiset(all)[x] == multiset(db.complaints)[x]
      {
        assert Matches(q)(x);
      }
    }
  }

  // ------------------------------------------------------------------ PUT

  /** The JSON body: each field absent, or, for `solverId` and
      `departmentId`, also explicitly null. */
  datatype UpdateBody = UpdateBody(
    complaintId: Option<string>,
    status: Option<string>,
    solverId: Option<Option<string>>,
    priority: Option<string>,
    departmentId: Option<Option<string>>)

  /** The columns an update writes: `None` leaves a column alone. */
  datatype UpdateData = UpdateData(status: Option<string>, solverId: Option<Option<string>>, priority: Option<string>)

  /** `updateData`: status and priority when truthy, `solverId` whenever it
      is not undefined (null unassigns); `departmentId` is never read. */
  function UpdateDataOf(b: UpdateBody): (d: UpdateData)
    ensures d.status.Some? <==> Truthy(b.status)
    ensures d.priority.Some? <==> Truthy(b.priority)
    ensures d.solverId == b.solverId
    ensures d.status.Some? ==> d.status == b.status
    ensures d.priority.Some? ==> d.priority == b.priority
  {
    UpdateData(
      if Truthy(b.status) then b.status else None,
      b.solverId,
      if Truthy(b.priority) then b.priority else None)
  }

  /** The store accepts the written enumerated values. */
  predicate DataValid(d: UpdateData)
  {
    (d.status.Some? ==> d.status.value in Statuses) && (d.priority.Some? ==> d.priority.value in Priorities)
  }

  /** One stored complaint after the update, stamped with the store's
      automatic modification time. */
  function Apply(c: Complaint, d: UpdateData, now: int): (r: Complaint)
    ensures r.status == if d.status.Some? then d.status.value else c.status
    ensures r.solverId == if d.solverId.Some? then d.solverId.value else c.solverId
    ensures r.priority == if d.priority.Some? then d.priority.value else c.priority
    ensures r.updatedAt == now
    ensures r.(status := c.status, solverId := c.solverId, priority := c.priority, updatedAt := c.updatedAt) == c
  {
    c.(
      status := if d.status.Some? then d.status.value else c.status,
      solverId := if d.solverId.Some? then d.solverId.value else c.solverId,
      priority := if d.priority.Some? then d.priority.value else c.priority,
      updatedAt := now)
  }

  /** The position of the complaint with a given id. */
  function IndexOfId(cs: seq<Complaint>, id: string): (r: Option<nat>)
    ensures r.Some? ==> r.value < |cs| && cs[r.value].id == id
    ensures r.Some? ==> forall j :: 0 <= j < r.value ==> cs[j].id != id
    ensures r.None? <==> forall j :: 0 <= j < |cs| ==> cs[j].id != id
  {
    if |cs| == 0 then None
    else if cs[0].id == id then Some(0)
    else
      match IndexOfId(cs[1..], id)
      case None => None
      case Some(i) => Some(i + 1)
  }

  /** `PUT /api/admin/complaints`. `body` is `None` when the request body is not JSON. */
  function Update(db: Db, caller: Option<SessionUser>, body: Option<UpdateBody>, now: int): (o: Outcome<ComplaintView>)
    ensures o.reply.Fail? && o.reply.code == 401 <==> !IsAdmin(caller)
    ensures o.reply.Fail? && o.reply.code == 400 <==> IsAdmin(caller) && body.Some? && !Truthy(body.value.complaintId)
    ensures o.reply.Ok? <==> IsAdmin(caller) && body.Some? && Truthy(body.value.complaintId)
                             && DataValid(UpdateDataOf(body.value))
                             && exists c :: c in db.complaints && c.id == body.value.complaintId.value
    ensures o.reply.Fail? ==> o.db == db
    ensures o.reply.Ok? ==>
              && o.reply.code == 200
              && o.db.users == db.users && o.db.departments == db.departments && o.db.solvers == db.solvers
              && |o.db.complaints| == |db.complaints|
              && (exists i :: 0 <= i < |db.complaints| && db.complaints[i].id == body.value.complaintId.value
                          && o.reply.body == View(db.users, Apply(db.complaints[i], UpdateDataOf(body.value), now), true)
                          && o.db.complaints == db.complaints[i := o.reply.body.complaint])
  {
    if !IsAdmin(caller) then Outcome(Deny(401, Unauthorized), db)
    else if body.None? then Outcome(Deny(500, InternalError), db)
    else if !Truthy(body.value.complaintId) then Outcome(Deny(400, IdRequired), db)
    else
      var d := UpdateDataOf(body.value);
      var at := IndexOfId(db.complaints, body.value.complaintId.value);
      if !DataValid(d) || at.None? then Outcome(Deny(500, InternalError), db)
      else
        var c := Apply(db.complaints[at.value], d, now);
        Outcome(Ok(200, View(db.users, c, true)), db.(complaints := db.complaints[at.value := c]))
  }

  /** Writing the same columns twice gives the same complaint as writing them once. */
  lemma ApplyIdempotent(c: Complaint, d: UpdateData, now: int)
    ensures Apply(Apply(c, d, now), d, now) == Apply(c, d, now)
  {
  }

  /** Repeating a successful update at the same instant leaves the store as
      the first one did: the second lookup finds the complaint already written. */
  lemma UpdateIdempotent(db: Db, caller: Option<SessionUser>, b: UpdateBody, now: int)
    requires Update(db, caller, Some(b), now).reply.Ok?
    ensures Update(Update(db, caller, Some(b), now).db, caller, Some(b), now).db == Update(db, caller, Some(b), now).db
  {
    var id := b.complaintId.value;
    var d := UpdateDataOf(b);
    var i := IndexOfId(db.complaints, id).value;
    var once := Update(db, caller, Some(b), now).db;
    assert once.complaints == db.complaints[i := Apply(db.complaints[i], d, now)];
    assert once.complaints[i].id == id;
    assert forall j :: 0 <= j < i ==> once.complaints[j] == db.complaints[j];
    assert IndexOfId(once.complaints, id) == Some(i);
    ApplyIdempotent(db.complaints[i], d, now);
  }

  /** `departmentId` in the body is ignored: the department picker changes nothing. */
  lemma UpdateIgnoresDepartment(db: Db, caller: Option<SessionUser>, b: UpdateBody, dept: Option<Option<string>>, now: int)
    ensures Update(db, caller, Some(b), now) == Update(db, caller, Some(b.(departmentId := dept)), now)
  {
  }

  /** A status outside the store's enumeration, such as PENDING or
      IN_PROGRESS, makes the update fail with an internal error. */
  lemma UpdateRejectsUnknownStatus(db: Db, caller: Option<SessionUser>, b: UpdateBody, now: int)
    requires IsAdmin(caller) && Truthy(b.complaintId)
    requires b.status == Some("PENDING") || b.status == Some("IN_PROGRESS")
    ensures Update(db, caller, Some(b), now) == Outcome(Deny(500, InternalError), db)
  {
  }

  /** An update that names no column still succeeds and only moves the modification time. */
  lemma EmptyUpdateOnlyTouches(db: Db, caller: Option<SessionUser>, id: string, now: int, i: nat)
    requires IsAdmin(caller) && id != ""
    requires i < |db.complaints| && db.complaints[i].id == id
    requires forall j :: 0 <= j < i ==> db.complaints[j].id != id
    ensures Update(db, caller, Some(UpdateBody(Some(id), None, None, None, None)), now).db.complaints
            == db.complaints[i := db.complaints[i].(updatedAt := now)]
  {
    var b := UpdateBody(Some(id), None, None, None, None);
    var d := UpdateDataOf(b);
    assert d == UpdateData(None, None, None);
    assert IndexOfId(db.complaints, id) == Some(i);
    assert Apply(db.complaints[i], d, now) == db.complaints[i].(updatedAt := now);
  }

  /** The update keeps every stored complaint's status and priority within the enumerations. */
  lemma UpdateKeepsTokensValid(db: Db, caller: Option<SessionUser>, body: Option<UpdateBody>, now: int)
    requires forall i :: 0 <= i < |db.complaints| ==> db.complaints[i].status in Statuses && db.complaints[i].priority in Priorities
    ensures var cs := Update(db, caller, body, now).db.complaints;
            forall i :: 0 <= i < |cs| ==> cs[i].status in Statuses && cs[i].priority in Priorities
  {
  }
}
