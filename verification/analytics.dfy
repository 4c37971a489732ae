/** The administrator's analytics (metronix-app/src/app/api/admin/analytics/route.ts):
    complaints per UTC day over the last thirty days, the department
    figures (always empty), and the number of complaints per priority. */
module Analytics {
  import opened Common
  import opened Model
  import opened Grouping

  const WindowDays := 30

  /** Created no earlier than thirty days before `now`. */
  function InWindow(now: int): Complaint -> bool
  {
    (c: Complaint) => c.createdAt >= now - WindowDays * DayMs
  }

  /** Created on UTC day `d`. */
  function OnDay(d: int): Complaint -> bool
  {
    (c: Complaint) => UtcDay(c.createdAt) == d
  }

  function CreatedDay(c: Complaint): int
  {
    UtcDay(c.createdAt)
  }

  function PriorityOf(c: Complaint): string
  {
    c.priority
  }

  /** The chart series: one point per day that has complaints in the
      window, days ascending, each with its number of complaints. */
  function ComplaintsByDay(cs: seq<Complaint>, now: int): (r: seq<Bucket<int>>)
    ensures Ascending(r) && NoEmptyBucket(r)
    ensures Total(r) == Count(cs, InWindow(now))
    ensures forall d :: CountAt(r, d) == Count(Filter(cs, InWindow(now)), OnDay(d))
  {
    var recent := Filter(cs, InWindow(now));
    var r := DayCounts(Project(recent, CreatedDay));
    assert forall d :: CountAt(r, d) == Count(recent, OnDay(d)) by {
      forall d
        ensures CountAt(r, d) == Count(recent, OnDay(d))
      {
        ProjectCount(recent, CreatedDay, d, OnDay(d));
      }
    }
    r
  }

  /** The `groupBy` on priority: one group per priority present, with its count. */
  function PriorityStats(cs: seq<Complaint>): (r: seq<Bucket<string>>)
    ensures KeysUnique(r) && NoEmptyBucket(r)
    ensures forall p :: CountAt(r, p) == Count(cs, PriorityIs(p))
    ensures Total(r) == |cs|
  {
    var r := GroupCount(Project(cs, PriorityOf));
    assert forall p :: CountAt(r, p) == Count(cs, PriorityIs(p)) by {
      forall p
        ensures CountAt(r, p) == Count(cs, PriorityIs(p))
      {
        ProjectCount(cs, PriorityOf, p, PriorityIs(p));
      }
    }
    r
  }

  /** The JSON the route returns; department figures are keyed by department name. */
  datatype Report = Report(complaintsByDay: seq<Bucket<int>>, departmentStats: seq<Bucket<string>>, priorityStats: seq<Bucket<string>>)

  /** `GET /api/admin/analytics`. */
  function Get(db: Db, caller: Option<SessionUser>, now: int): (r: Reply<Report>)
    ensures r.Fail? <==> !IsAdmin(caller)
    ensures r.Fail? ==> r.code == 401
    ensures r.Ok? ==> r.code == 200 && r.body.departmentStats == []
    ensures r.Ok? ==> r.body.complaintsByDay == ComplaintsByDay(db.complaints, now)
    ensures r.Ok? ==> r.body.priorityStats == PriorityStats(db.complaints)
  {
    if !IsAdmin(caller) then Deny(401, Unauthorized)
    else Ok(200, Report(ComplaintsByDay(db.complaints, now), [], PriorityStats(db.complaints)))
  }

  /** Strictly ascending keys in a range are no more than the range holds. */
  lemma {:induction false} AscendingWithin(b: seq<Bucket<int>>, lo: int, hi: int)
    requires Ascending(b)
    requires forall i :: 0 <= i < |b| ==> lo <= b[i].key <= hi
    ensures |b| <= if hi < lo then 0 else hi - lo + 1
  {
    if |b| > 0 {
      AscendingWithin(b[1..], b[0].key + 1, hi);
    }
  }

  /** Thirty days before is thirty day numbers before. */
  lemma DayShift(t: int)
    ensures UtcDay(t - WindowDays * DayMs) == UtcDay(t) - WindowDays
  {
    var q, m := t / DayMs, t % DayMs;
    assert t - WindowDays * DayMs == (q - WindowDays) * DayMs + m;
  }

  /** Every point of the series is a day inside the window; when no
      complaint is dated after `now`, the series has at most 31 points. */
  lemma ByDayWithinWindow(cs: seq<Complaint>, now: int)
    ensures forall i :: 0 <= i < |ComplaintsByDay(cs, now)| ==>
              UtcDay(now) - WindowDays <= ComplaintsByDay(cs, now)[i].key
    ensures (forall c :: c in cs ==> c.createdAt <= now) ==>
              forall i :: 0 <= i < |ComplaintsByDay(cs, now)| ==> ComplaintsByDay(cs, now)[i].key <= UtcDay(now)
    ensures (forall c :: c in cs ==> c.createdAt <= now) ==> |ComplaintsByDay(cs, now)| <= WindowDays + 1
  {
    var r := ComplaintsByDay(cs, now);
    var recent := Filter(cs, InWindow(now));
    DayShift(now);
    forall i | 0 <= i < |r|
      ensures exists c :: c in cs && InWindow(now)(c) && CreatedDay(c) == r[i].key
    {
      CountAtOfBucket(r, i);
      var day := Filter(recent, OnDay(r[i].key));
      assert |day| >= 1;
      assert day[0] in day;
    }
    forall i | 0 <= i < |r|
      ensures UtcDay(now) - WindowDays <= r[i].key
      ensures (forall c :: c in cs ==> c.createdAt <= now) ==> r[i].key <= UtcDay(now)
    {
      var c :| c in cs && InWindow(now)(c) && CreatedDay(c) == r[i].key;
      UtcDayMonotone(now - WindowDays * DayMs, c.createdAt);
      if c.createdAt <= now {
        UtcDayMonotone(c.createdAt, now);
      }
    }
    if forall c :: c in cs ==> c.createdAt <= now {
      AscendingWithin(r, UtcDay(now) - WindowDays, UtcDay(now));
    }
  }

  /** When every complaint has one of the three known priorities, the
      figures for those three account for every complaint. */
  lemma PriorityStatsCover(cs: seq<Complaint>)
    requires forall i :: 0 <= i < |cs| ==> cs[i].priority in Priorities
    ensures CountAt(PriorityStats(cs), LOW) + CountAt(PriorityStats(cs), NORMAL) + CountAt(PriorityStats(cs), HIGH) == |cs|
  {
    CountPartition3(cs, PriorityIs(LOW), PriorityIs(NORMAL), PriorityIs(HIGH));
  }
}
