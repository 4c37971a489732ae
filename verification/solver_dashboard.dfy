/** The solver's dashboard page (metronix-app/src/app/solver/dashboard/page.tsx):
    the two server lists joined into one, re-partitioned into the
    "available", "assigned to me" and "resolved by me" views, and the badge
    colours. */
module SolverDashboard {
  import opened Common
  import opened Model
  import opened SolverQueue

  /** `[...available, ...assigned]`. */
  function Combine(q: Queue): (r: seq<ComplaintView>)
    ensures |r| == |q.available| + |q.assignedToMe|
    ensures r[..|q.available|] == q.available && r[|q.available|..] == q.assignedToMe
  {
    q.available + q.assignedToMe
  }

  /** `c.solver` is a present object. */
  predicate HasSolverObject(v: ComplaintView)
  {
    v.solver.Included? && v.solver.value.Some?
  }

  /** `c.solver?.id`. */
  function SolverIdOf(v: ComplaintView): (id: Option<string>)
    ensures id.Some? <==> HasSolverObject(v)
  {
    if HasSolverObject(v) then Some(v.solver.value.value.id) else None
  }

  // ---------------------------------------------------------- as written

  /** `c.status === 'SUBMITTED' && !c.solver`. */
  function ShownAvailable(): ComplaintView -> bool
  {
    (v: ComplaintView) => v.complaint.status == SUBMITTED && !HasSolverObject(v)
  }

  /** `c.solver?.id === session?.user?.id && c.status === status`. */
  function ShownMine(me: Option<string>, status: string): ComplaintView -> bool
  {
    (v: ComplaintView) => SolverIdOf(v) == me && v.complaint.status == status
  }

  /** The three views as the page computes them. */
  function AvailableView(vs: seq<ComplaintView>): seq<ComplaintView>
  {
    Filter(vs, ShownAvailable())
  }

  function MyAssignedView(vs: seq<ComplaintView>, me: Option<string>): seq<ComplaintView>
  {
    Filter(vs, ShownMine(me, ASSIGNED))
  }

  function MyResolvedView(vs: seq<ComplaintView>, me: Option<string>): seq<ComplaintView>
  {
    Filter(vs, ShownMine(me, RESOLVED))
  }

  /** The three views never share a complaint, and a complaint without a
      solver object is never the signed-in solver's. */
  lemma ViewsDisjoint(vs: seq<ComplaintView>, me: Option<string>, v: ComplaintView)
    ensures !(v in AvailableView(vs) && v in MyAssignedView(vs, me))
    ensures !(v in AvailableView(vs) && v in MyResolvedView(vs, me))
    ensures !(v in MyAssignedView(vs, me) && v in MyResolvedView(vs, me))
    ensures me.Some? && !HasSolverObject(v) ==> v !in MyAssignedView(vs, me) && v !in MyResolvedView(vs, me)
  {
  }

  /** As written, the "mine" views are always empty on what the server
      sends: its records never carry a solver object, so `c.solver?.id` is
      undefined and never equals the signed-in id. A complaint the server
      lists under `assigned` with status ASSIGNED is not shown as assigned. */
  lemma MineEmptyOnServerLists(db: Db, caller: Option<SessionUser>, rank: string -> int, me: string)
    requires HasId(caller)
    ensures MyAssignedView(Combine(Get(db, caller, rank).body), Some(me)) == []
    ensures MyResolvedView(Combine(Get(db, caller, rank).body), Some(me)) == []
  {
    var vs := Combine(Get(db, caller, rank).body);
    QueueOmitsSolver(db, caller, rank);
    NoneShown(vs, ShownMine(Some(me), ASSIGNED));
    NoneShown(vs, ShownMine(Some(me), RESOLVED));
  }

  lemma NoneShown(vs: seq<ComplaintView>, p: ComplaintView -> bool)
    requires forall v :: v in vs ==> !p(v)
    ensures Filter(vs, p) == []
  {
    if Filter(vs, p) != [] {
      assert Filter(vs, p)[0] in Filter(vs, p);
    }
  }

  // ------------------------------------------------------------ corrected

  /** Corrected: decide by the complaint's own `solverId` column, which the
      server's records do carry. */
  function Unassigned(): Complaint -> bool
  {
    (c: Complaint) => c.status == SUBMITTED && c.solverId.None?
  }

  function HeldBy(me: string, status: string): Complaint -> bool
  {
    (c: Complaint) => c.solverId == Some(me) && c.status == status
  }

  /** With the corrected tests, the page shows exactly what the server
      selected: the unclaimed complaints as available, and the caller's
      ASSIGNED and RESOLVED complaints as theirs. */
  lemma CorrectedViewsMatchServer(db: Db, caller: Option<SessionUser>, rank: string -> int, c: Complaint)
    requires HasId(caller)
    ensures var cs := ComplaintsOf(Combine(Get(db, caller, rank).body));
            var me := CallerId(caller);
            && (c in Filter(cs, Unassigned()) <==> c in db.complaints && c.status == SUBMITTED && c.solverId.None?)
            && (c in Filter(cs, HeldBy(me, ASSIGNED)) <==> c in db.complaints && c.solverId == Some(me) && c.status == ASSIGNED)
            && (c in Filter(cs, HeldBy(me, RESOLVED)) <==> c in db.complaints && c.solverId == Some(me) && c.status == RESOLVED)
  {
    var q := Get(db, caller, rank).body;
    var me := CallerId(caller);
    var a, m := Available(db.complaints, rank), Mine(db.complaints, me);
    ComplaintsOfAppend(q.available, q.assignedToMe);
    var cs := a + m;
    assert ComplaintsOf(Combine(q)) == cs;
    assert c in cs <==> c in a || c in m;
    assert c in Filter(cs, Unassigned()) <==> c in cs && Unassigned()(c);
    assert c in Filter(cs, HeldBy(me, ASSIGNED)) <==> c in cs && HeldBy(me, ASSIGNED)(c);
    assert c in Filter(cs, HeldBy(me, RESOLVED)) <==> c in cs && HeldBy(me, RESOLVED)(c);
  }

  lemma ComplaintsOfAppend(a: seq<ComplaintView>, b: seq<ComplaintView>)
    ensures ComplaintsOf(a + b) == ComplaintsOf(a) + ComplaintsOf(b)
  {
    assert |ComplaintsOf(a + b)| == |ComplaintsOf(a) + ComplaintsOf(b)|;
    forall i | 0 <= i < |a + b|
      ensures ComplaintsOf(a + b)[i] == (ComplaintsOf(a) + ComplaintsOf(b))[i]
    {
    }
  }

  // -------------------------------------------------------------- badges

  /** `getStatusColor`. */
  function StatusTone(status: string): (t: Tone)
    ensures t == Gray <==> status !in Statuses
  {
    if status == SUBMITTED then Yellow
    else if status == ASSIGNED then Blue
    else if status == RESOLVED then Green
    else Gray
  }

  /** `getPriorityColor`: it knows HIGH, MEDIUM and LOW; NORMAL, the default
      priority, falls through to the same gray as LOW. */
  function PriorityTone(priority: string): (t: Tone)
    ensures t == Red <==> priority == HIGH
    ensures t == Orange <==> priority == "MEDIUM"
    ensures t == Gray <==> priority != HIGH && priority != "MEDIUM"
  {
    if priority == HIGH then Red
    else if priority == "MEDIUM" then Orange
    else if priority == LOW then Gray
    else Gray
  }

  /** The three stored statuses get three different colours. */
  lemma StatusTonesDistinct()
    ensures StatusTone(SUBMITTED) != StatusTone(ASSIGNED)
    ensures StatusTone(ASSIGNED) != StatusTone(RESOLVED)
    ensures StatusTone(SUBMITTED) != StatusTone(RESOLVED)
  {
  }

  /** NORMAL and LOW look the same. */
  lemma NormalLooksLikeLow()
    ensures PriorityTone(NORMAL) == PriorityTone(LOW) == Gray
  {
  }
}
