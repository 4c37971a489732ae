/** The solver's work queue (metronix-app/src/app/api/solvers/complaints/route.ts):
    the unclaimed complaints, most urgent first, and the complaints assigned
    to the caller, most recently changed first. How the store orders the
    priority enumeration is the parameter `rank`. */
module SolverQueue {
  import opened Common
  import opened Model
  import opened Sorting

  /** The `{ available, assigned }` body; `assignedToMe` is the `assigned` key. */
  datatype Queue = Queue(available: seq<ComplaintView>, assignedToMe: seq<ComplaintView>)

  /** Submitted and not yet given to a solver. */
  function Unclaimed(): Complaint -> bool
  {
    (c: Complaint) => c.status == SUBMITTED && c.solverId.None?
  }

  /** Assigned to solver `me`, whatever the status. */
  function AssignedTo(me: string): Complaint -> bool
  {
    (c: Complaint) => c.solverId == Some(me)
  }

  /** Priority descending, then `createdAt` ascending: what the list form
      `orderBy: [{ priority: 'desc' }, { createdAt: 'asc' }]` asks for. */
  function Urgency(rank: string -> int): Complaint -> (int, int)
  {
    (c: Complaint) => (-rank(c.priority), c.createdAt)
  }

  /** Higher-ranked priorities first; among equal priorities, oldest first. */
  predicate UrgentFirst(rank: string -> int, cs: seq<Complaint>)
  {
    forall i, j :: 0 <= i < j < |cs| ==>
      rank(cs[i].priority) > rank(cs[j].priority)
      || (rank(cs[i].priority) == rank(cs[j].priority) && cs[i].createdAt <= cs[j].createdAt)
  }

  /** `orderBy: { updatedAt: 'desc' }`. */
  function LastTouched(c: Complaint): (int, int)
  {
    (-c.updatedAt, 0)
  }

  predicate RecentlyTouchedFirst(cs: seq<Complaint>)
  {
    forall i, j :: 0 <= i < j < |cs| ==> cs[i].updatedAt >= cs[j].updatedAt
  }

  // --------------------------------------------------------- orderBy shape

  datatype Direction = Asc | Desc

  /** A store `orderBy` argument: one object of field directions, or a list
      of such objects. */
  datatype OrderBy =
    | OrderObject(fields: seq<(string, Direction)>)
    | OrderList(objects: seq<seq<(string, Direction)>>)

  /** The store's input validation: an object names exactly one field, and
      ordering by several fields takes a list of one-field objects. */
  predicate OrderByAccepted(o: OrderBy)
  {
    match o
    case OrderObject(fields) => |fields| == 1
    case OrderList(objects) => forall i :: 0 <= i < |objects| ==> |objects[i]| == 1
  }

  /** The available list's argument as the handler writes it: one object with two fields. */
  const AvailableOrderAsWritten: OrderBy := OrderObject([("priority", Desc), ("createdAt", Asc)])

  /** The same order in the list form the store accepts. */
  const AvailableOrder: OrderBy := OrderList([[("priority", Desc)], [("createdAt", Asc)]])

  /** The assigned list's argument. */
  const AssignedOrder: OrderBy := OrderObject([("updatedAt", Desc)])

  // ---------------------------------------------------------------- lists

  /** The unclaimed complaints in queue order. */
  function Available(cs: seq<Complaint>, rank: string -> int): (r: seq<Complaint>)
    ensures UrgentFirst(rank, r)
    ensures multiset(r) == multiset(Filter(cs, Unclaimed()))
    ensures forall c :: c in r <==> c in cs && c.status == SUBMITTED && c.solverId.None?
  {
    var r := Sort(Filter(cs, Unclaimed()), Urgency(rank));
    forall i, j | 0 <= i < j < |r|
      ensures rank(r[i].priority) > rank(r[j].priority)
              || (rank(r[i].priority) == rank(r[j].priority) && r[i].createdAt <= r[j].createdAt)
    {
      assert KeyLe(Urgency(rank)(r[i]), Urgency(rank)(r[j]));
    }
    assert forall c :: c in r <==> c in multiset(r);
    r
  }

  /** The caller's complaints, most recently updated first. */
  function Mine(cs: seq<Complaint>, me: string): (r: seq<Complaint>)
    ensures RecentlyTouchedFirst(r)
    ensures multiset(r) == multiset(Filter(cs, AssignedTo(me)))
    ensures forall c :: c in r <==> c in cs && c.solverId == Some(me)
  {
    var r := Sort(Filter(cs, AssignedTo(me)), LastTouched);
    forall i, j | 0 <= i < j < |r|
      ensures r[i].updatedAt >= r[j].updatedAt
    {
      assert KeyLe(LastTouched(r[i]), LastTouched(r[j]));
    }
    assert forall c :: c in r <==> c in multiset(r);
    r
  }

  /** `GET /api/solvers/complaints` with the available list's order in the
      list form the store accepts: any signed-in caller, whatever the role,
      gets both lists, each complaint with its citizen only. */
  function Get(db: Db, caller: Option<SessionUser>, rank: string -> int): (r: Reply<Queue>)
    ensures r.Fail? <==> !HasId(caller)
    ensures r.Fail? ==> r.code == 401
    ensures r.Ok? ==>
              && r.code == 200
              && ComplaintsOf(r.body.available) == Available(db.complaints, rank)
              && ComplaintsOf(r.body.assignedToMe) == Mine(db.complaints, CallerId(caller))
              && (forall i :: 0 <= i < |r.body.available| ==> r.body.available[i] == View(db.users, r.body.available[i].complaint, false))
              && (forall i :: 0 <= i < |r.body.assignedToMe| ==> r.body.assignedToMe[i] == View(db.users, r.body.assignedToMe[i].complaint, false))
  {
    if !HasId(caller) then Deny(401, Unauthorized)
    else
      var a := Views(db.users, Available(db.complaints, rank), false);
      var m := Views(db.users, Mine(db.complaints, CallerId(caller)), false);
      assert ComplaintsOf(a) == Available(db.complaints, rank);
      assert ComplaintsOf(m) == Mine(db.complaints, CallerId(caller));
      Ok(200, Queue(a, m))
  }

  /** The handler as written: after the session check, the first query
      passes the two-field `orderBy` object, which the store's validation
      refuses; the throw reaches the `catch` and every signed-in caller
      gets 500. */
  function GetAsWritten(db: Db, caller: Option<SessionUser>, rank: string -> int): (r: Reply<Queue>)
    ensures r.Fail? && r.code == 401 <==> !HasId(caller)
    ensures r.Ok? <==> HasId(caller) && OrderByAccepted(AvailableOrderAsWritten) && OrderByAccepted(AssignedOrder)
    ensures r.Ok? ==> r == Get(db, caller, rank)
  {
    if !HasId(caller) then Deny(401, Unauthorized)
    else if !OrderByAccepted(AvailableOrderAsWritten) || !OrderByAccepted(AssignedOrder) then Deny(500, InternalError)
    else Get(db, caller, rank)
  }

  /** Every signed-in caller is refused by the handler as written, while
      the list form of the same order is accepted and `Get` answers. */
  lemma QueueRefusedAsWritten(db: Db, caller: Option<SessionUser>, rank: string -> int)
    requires HasId(caller)
    ensures GetAsWritten(db, caller, rank) == Deny(500, InternalError)
    ensures OrderByAccepted(AvailableOrder) && OrderByAccepted(AssignedOrder)
    ensures Get(db, caller, rank).Ok?
  {
    assert |AvailableOrderAsWritten.fields| == 2;
  }

  /** No complaint is in both lists: one needs no solver, the other the caller as solver. */
  lemma QueueListsDisjoint(db: Db, caller: Option<SessionUser>, rank: string -> int)
    requires HasId(caller)
    ensures var q := Get(db, caller, rank).body;
            forall c :: !(c in ComplaintsOf(q.available) && c in ComplaintsOf(q.assignedToMe))
  {
  }

  /** The records carry no solver relation, so a client cannot tell from them who holds a complaint. */
  lemma QueueOmitsSolver(db: Db, caller: Option<SessionUser>, rank: string -> int)
    requires HasId(caller)
    ensures var q := Get(db, caller, rank).body;
            && (forall i :: 0 <= i < |q.available| ==> q.available[i].solver.Omitted?)
            && (forall i :: 0 <= i < |q.assignedToMe| ==> q.assignedToMe[i].solver.Omitted?)
  {
    assert Get(db, caller, rank).Ok?;
  }
}
