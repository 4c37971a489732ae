/** The administrator's dashboard page
    (metronix-app/src/app/admin/dashboard/EnhancedDashboard.tsx): the filter
    state and the query it sends, the statistics it reads from the
    dashboard endpoint, the chart it draws from the analytics endpoint, the
    update bodies its pickers send, and its badge colours. The chart's date
    rendering is the parameter `dayLabel`. */
module AdminClient {
  import opened Common
  import opened Model
  import opened Grouping
  import AdminComplaints
  import Analytics
  import Dashboard
  import Reference
  import SolverQueue

  // --------------------------------------------------------------- filters

  /** A plain object's entries, in insertion order. */
  type Entries = seq<(string, string)>

  /** The filter keys the page keeps, in its order. */
  const ClientKeys: seq<string> := ["category", "priority", "status", "department", "solver"]

  const InitialFilters: Entries := [("category", ""), ("priority", ""), ("status", ""), ("department", ""), ("solver", "")]

  /** `obj[key]` on entries, and `URLSearchParams.get(key)`: the first value under the key. */
  function Lookup(es: Entries, key: string): (r: Option<string>)
    ensures r.Some? ==> exists i :: 0 <= i < |es| && es[i] == (key, r.value)
    ensures r.None? <==> forall i :: 0 <= i < |es| ==> es[i].0 != key
  {
    if |es| == 0 then None
    else if es[0].0 == key then Some(es[0].1)
    else
      var r := Lookup(es[1..], key);
      assert r.Some? ==> exists i :: 0 <= i < |es| && es[i] == (key, r.value) by {
        if r.Some? {
          var i :| 0 <= i < |es[1..]| && es[1..][i] == (key, r.value);
          assert es[i + 1] == (key, r.value);
        }
      }
      r
  }

  function KeysOf(es: Entries): (r: seq<string>)
    ensures |r| == |es|
    ensures forall i :: 0 <= i < |es| ==> r[i] == es[i].0
  {
    seq(|es|, i requires 0 <= i < |es| => es[i].0)
  }

  /** No key occurs twice, as in any object. */
  predicate DistinctKeys(es: Entries)
  {
    forall i, j :: 0 <= i < j < |es| ==> es[i].0 != es[j].0
  }

  /** `handleFilterChange(key, value)`: `{ ...prev, [key]: value }`. An
      existing key keeps its place; a new key goes last. */
  function SetFilter(es: Entries, key: string, value: string): (r: Entries)
    ensures Lookup(r, key) == Some(value)
    ensures forall k :: k != key ==> Lookup(r, k) == Lookup(es, k)
    ensures Lookup(es, key).Some? ==> KeysOf(r) == KeysOf(es)
    ensures Lookup(es, key).None? ==> r == es + [(key, value)]
  {
    if |es| == 0 then [(key, value)]
    else if es[0].0 == key then [(key, value)] + es[1..]
    else
      var rest := SetFilter(es[1..], key, value);
      assert Lookup(es[1..], key).Some? ==> KeysOf([es[0]] + rest) == KeysOf(es) by {
        if Lookup(es[1..], key).Some? {
          assert KeysOf(rest) == KeysOf(es[1..]);
          forall i | 0 <= i < |es|
            ensures KeysOf([es[0]] + rest)[i] == KeysOf(es)[i]
          {
            if i > 0 {
              assert KeysOf(rest)[i - 1] == KeysOf(es[1..])[i - 1];
            }
          }
        }
      }
      [es[0]] + rest
  }

  /** The filter object the page holds: the five client keys, once each. */
  predicate FilterShape(es: Entries)
  {
    KeysOf(es) == ClientKeys
  }

  lemma ShapeHasDistinctKeys(es: Entries)
    requires FilterShape(es)
    ensures DistinctKeys(es)
  {
    forall i, j | 0 <= i < j < |es|
      ensures es[i].0 != es[j].0
    {
      assert KeysOf(es)[i] == ClientKeys[i] && KeysOf(es)[j] == ClientKeys[j];
    }
  }

  /** Changing one of the page's own filters keeps the filter object's shape. */
  lemma SetFilterKeepsShape(es: Entries, key: string, value: string)
    requires FilterShape(es) && key in ClientKeys
    ensures FilterShape(SetFilter(es, key, value))
  {
    var i :| 0 <= i < |ClientKeys| && ClientKeys[i] == key;
    assert KeysOf(es)[i] == key;
    assert es[i].0 == key;
  }

  predicate NonEmptyValue(e: (string, string))
  {
    e.1 != ""
  }

  /** The query string: every filter with a non-empty value, under the client's key. */
  function QueryParams(es: Entries): (r: Entries)
    ensures forall e :: e in r <==> e in es && e.1 != ""
  {
    Filter(es, NonEmptyValue)
  }

  /** A present, non-empty value. */
  function Given(v: Option<string>): Option<string>
  {
    if v.Some? && v.value != "" then v else None
  }

  lemma QueryParamsCons(es: Entries)
    requires |es| > 0
    ensures QueryParams(es) == (if es[0].1 != "" then [es[0]] else []) + QueryParams(es[1..])
  {
    assert es == [es[0]] + es[1..];
  }

  lemma DistinctTail(es: Entries)
    requires |es| > 0 && DistinctKeys(es)
    ensures DistinctKeys(es[1..])
    ensures forall i :: 0 <= i < |es[1..]| ==> es[1..][i].0 != es[0].0
  {
    var tail := es[1..];
    forall i, j | 0 <= i < j < |tail|
      ensures tail[i].0 != tail[j].0
    {
      assert tail[i] == es[i + 1] && tail[j] == es[j + 1];
    }
    forall i | 0 <= i < |tail|
      ensures tail[i].0 != es[0].0
    {
      assert tail[i] == es[i + 1];
    }
  }

  /** What `URLSearchParams.get` returns for a key of the query string. */
  lemma {:induction false} QueryParamsLookup(es: Entries, k: string)
    requires DistinctKeys(es)
    ensures Lookup(QueryParams(es), k) == Given(Lookup(es, k))
  {
    if |es| > 0 {
      var tail := es[1..];
      DistinctTail(es);
      QueryParamsLookup(tail, k);
      QueryParamsCons(es);
      var head: Entries := if es[0].1 != "" then [es[0]] else [];
      var rest := QueryParams(tail);
      if es[0].0 == k {
        assert Lookup(tail, k).None?;
        assert Lookup(es, k) == Some(es[0].1);
        if es[0].1 != "" {
          assert Lookup(head + rest, k) == Some(es[0].1);
        } else {
          assert head + rest == rest;
        }
      } else {
        assert Lookup(es, k) == Lookup(tail, k);
        if es[0].1 != "" {
          assert (head + rest)[1..] == rest;
        } else {
          assert head + rest == rest;
        }
      }
    }
  }

  /** The query the handler builds from the page's query string: it reads
      `category`, `priority`, `status` and `solverId`. */
  function ServerQuery(params: Entries): (q: AdminComplaints.Query)
    ensures q.category == Lookup(params, "category") && q.priority == Lookup(params, "priority")
    ensures q.status == Lookup(params, "status") && q.solverId == Lookup(params, "solverId")
  {
    AdminComplaints.Query(Lookup(params, "category"), Lookup(params, "priority"), Lookup(params, "status"), Lookup(params, "solverId"))
  }

  /** The page's filters as the handler sees them: category, priority and
      status arrive when set; the solver filter never arrives, because it
      is sent as `solver` and read as `solverId`. */
  lemma QueryAtServer(es: Entries)
    requires FilterShape(es)
    ensures var q := ServerQuery(QueryParams(es));
            && q.category == Given(Lookup(es, "category"))
            && q.priority == Given(Lookup(es, "priority"))
            && q.status == Given(Lookup(es, "status"))
            && q.solverId.None?
  {
    ShapedLookup(es, "category");
    ShapedLookup(es, "priority");
    ShapedLookup(es, "status");
    ShapedLookup(es, "solverId");
    NoSolverIdKey(es);
  }

  lemma ShapedLookup(es: Entries, k: string)
    requires FilterShape(es)
    ensures Lookup(QueryParams(es), k) == Given(Lookup(es, k))
  {
    ShapeHasDistinctKeys(es);
    QueryParamsLookup(es, k);
  }

  lemma NoSolverIdKey(es: Entries)
    requires FilterShape(es)
    ensures Lookup(es, "solverId").None?
  {
    forall i | 0 <= i < |es|
      ensures es[i].0 != "solverId"
    {
      assert KeysOf(es)[i] == ClientKeys[i];
    }
  }

  /** Neither the department filter (the handler has none) nor the solver
      filter changes the query the handler runs. */
  lemma DepartmentAndSolverIgnored(es: Entries, department: string, solver: string)
    requires FilterShape(es)
    ensures ServerQuery(QueryParams(SetFilter(SetFilter(es, "department", department), "solver", solver)))
            == ServerQuery(QueryParams(es))
  {
    IgnoredKey(es, "department", department);
    IgnoredKey(SetFilter(es, "department", department), "solver", solver);
  }

  lemma IgnoredKey(es: Entries, key: string, value: string)
    requires FilterShape(es) && (key == "department" || key == "solver")
    ensures FilterShape(SetFilter(es, key, value))
    ensures ServerQuery(QueryParams(SetFilter(es, key, value))) == ServerQuery(QueryParams(es))
  {
    SetFilterKeepsShape(es, key, value);
    OtherKeyKept(es, key, value, "category");
    OtherKeyKept(es, key, value, "priority");
    OtherKeyKept(es, key, value, "status");
    SameQuery(es, SetFilter(es, key, value));
  }

  lemma OtherKeyKept(es: Entries, key: string, value: string, k: string)
    requires k != key
    ensures Lookup(SetFilter(es, key, value), k) == Lookup(es, k)
  {
  }

  /** Two filter objects that agree on the three keys the handler reads run the same query. */
  lemma SameQuery(a: Entries, b: Entries)
    requires FilterShape(a) && FilterShape(b)
    requires Lookup(a, "category") == Lookup(b, "category")
    requires Lookup(a, "priority") == Lookup(b, "priority")
    requires Lookup(a, "status") == Lookup(b, "status")
    ensures ServerQuery(QueryParams(a)) == ServerQuery(QueryParams(b))
  {
    QueryAtServer(a);
    QueryAtServer(b);
  }

  /** The status filter's options. */
  const StatusOptions: seq<string> := ["SUBMITTED", "PENDING", "IN_PROGRESS", "RESOLVED"]

  /** Choosing PENDING or IN_PROGRESS in the status filter makes the listing
      fail with an internal error; SUBMITTED and RESOLVED list normally. */
  lemma StatusFilterOutcomes(db: Db, caller: Option<SessionUser>, es: Entries, choice: string)
    requires IsAdmin(caller) && FilterShape(es) && choice in StatusOptions
    requires Lookup(es, "category") == Some("") && Lookup(es, "priority") == Some("")
    ensures AdminComplaints.List(db, caller, ServerQuery(QueryParams(SetFilter(es, "status", choice)))).Ok?
            <==> choice in Statuses
  {
    StatusChoiceQuery(es, choice);
  }

  lemma StatusChoiceQuery(es: Entries, choice: string)
    requires FilterShape(es) && choice != ""
    requires Lookup(es, "category") == Some("") && Lookup(es, "priority") == Some("")
    ensures ServerQuery(QueryParams(SetFilter(es, "status", choice))) == AdminComplaints.Query(None, None, Some(choice), None)
  {
    SetFilterKeepsShape(es, "status", choice);
    OtherKeyKept(es, "status", choice, "category");
    OtherKeyKept(es, "status", choice, "priority");
    QueryAtServer(SetFilter(es, "status", choice));
  }

  // ------------------------------------------------------------ statistics

  /** The page's `Statistics` state. */
  datatype Statistics = Statistics(
    totalComplaints: Json,
    pendingComplaints: Json,
    inProgressComplaints: Json,
    resolvedComplaints: Json,
    departmentStats: Json,
    priorityStats: Json)

  const NoStatistics := Statistics(JNum(0), JNum(0), JNum(0), JNum(0), JArr([]), JArr([]))

  /** `reply[key] || fallback`, spelled out: the field when it is present
      and truthy, the fallback when it is missing or falsy. */
  predicate ReadsAs(reply: Json, key: string, fallback: Json, v: Json)
  {
    && (Field(reply, key).Some? && JTruthy(Field(reply, key).value) ==> v == Field(reply, key).value)
    && (Field(reply, key).None? || !JTruthy(Field(reply, key).value) ==> v == fallback)
  }

  /** As written: each figure is read from the top level of the dashboard
      reply, `|| 0` (or `|| []`). */
  function StatisticsOf(reply: Json): (s: Statistics)
    ensures ReadsAs(reply, "totalComplaints", JNum(0), s.totalComplaints)
    ensures ReadsAs(reply, "pendingComplaints", JNum(0), s.pendingComplaints)
    ensures ReadsAs(reply, "inProgressComplaints", JNum(0), s.inProgressComplaints)
    ensures ReadsAs(reply, "resolvedComplaints", JNum(0), s.resolvedComplaints)
    ensures ReadsAs(reply, "departmentStats", JArr([]), s.departmentStats)
    ensures ReadsAs(reply, "priorityStats", JArr([]), s.priorityStats)
  {
    Statistics(
      JOr(Field(reply, "totalComplaints"), JNum(0)),
      JOr(Field(reply, "pendingComplaints"), JNum(0)),
      JOr(Field(reply, "inProgressComplaints"), JNum(0)),
      JOr(Field(reply, "resolvedComplaints"), JNum(0)),
      JOr(Field(reply, "departmentStats"), JArr([])),
      JOr(Field(reply, "priorityStats"), JArr([])))
  }

  /** The dashboard endpoint nests its figures under `stats`, so the page
      reads none of them: every card shows 0 whatever the store holds. */
  lemma StatisticsFromDashboardAreZero(o: Dashboard.Overview)
    ensures StatisticsOf(Dashboard.ToJson(o)) == NoStatistics
  {
    Dashboard.NoOtherTopLevelField(o, "totalComplaints");
    Dashboard.NoOtherTopLevelField(o, "pendingComplaints");
    Dashboard.NoOtherTopLevelField(o, "inProgressComplaints");
    Dashboard.NoOtherTopLevelField(o, "resolvedComplaints");
    Dashboard.NoOtherTopLevelField(o, "departmentStats");
    Dashboard.NoOtherTopLevelField(o, "priorityStats");
  }

  /** `stats.complaints.<key>`, `undefined` when any step is missing. */
  function NestedFigure(reply: Json, key: string): Option<Json>
  {
    var stats := Field(reply, "stats");
    if stats.None? then None
    else
      var complaints := Field(stats.value, "complaints");
      if complaints.None? then None else Field(complaints.value, key)
  }

  /** Corrected: read the figures where the endpoint puts them; pending is
      the SUBMITTED count and in progress the ASSIGNED count. */
  function CorrectedStatisticsOf(reply: Json): Statistics
  {
    Statistics(
      JOr(NestedFigure(reply, "total"), JNum(0)),
      JOr(NestedFigure(reply, "submitted"), JNum(0)),
      JOr(NestedFigure(reply, "assigned"), JNum(0)),
      JOr(NestedFigure(reply, "resolved"), JNum(0)),
      JOr(Field(reply, "departmentStats"), JArr([])),
      JOr(Field(reply, "priorityStats"), JArr([])))
  }

  /** With the corrected reader the cards show the store's figures. */
  lemma CorrectedStatisticsShowFigures(db: Db, caller: Option<SessionUser>)
    requires IsAdmin(caller)
    ensures var s := CorrectedStatisticsOf(Dashboard.ToJson(Dashboard.Get(db, caller).body));
            && s.totalComplaints == JNum(|db.complaints|)
            && s.pendingComplaints == JNum(Count(db.complaints, StatusIs(SUBMITTED)))
            && s.inProgressComplaints == JNum(Count(db.complaints, StatusIs(ASSIGNED)))
            && s.resolvedComplaints == JNum(Count(db.complaints, StatusIs(RESOLVED)))
  {
    Dashboard.ToJsonReadBack(Dashboard.Get(db, caller).body);
  }

  // ----------------------------------------------------------------- chart

  datatype Chart = Chart(labels: seq<string>, values: seq<nat>)

  /** The line chart: one label and one value per point of `complaintsByDay`, in order. */
  function ChartOf(byDay: seq<Bucket<int>>, dayLabel: int -> string): (c: Chart)
    ensures |c.labels| == |byDay| && |c.values| == |byDay|
    ensures forall i :: 0 <= i < |byDay| ==> c.labels[i] == dayLabel(byDay[i].key) && c.values[i] == byDay[i].count
  {
    Chart(seq(|byDay|, i requires 0 <= i < |byDay| => dayLabel(byDay[i].key)),
          seq(|byDay|, i requires 0 <= i < |byDay| => byDay[i].count))
  }

  function Sum(xs: seq<nat>): nat
  {
    if |xs| == 0 then 0 else xs[0] + Sum(xs[1..])
  }

  lemma {:induction false} ChartSum(byDay: seq<Bucket<int>>, dayLabel: int -> string)
    ensures Sum(ChartOf(byDay, dayLabel).values) == Total(byDay)
  {
    if |byDay| > 0 {
      ChartSum(byDay[1..], dayLabel);
      assert ChartOf(byDay, dayLabel).values[1..] == ChartOf(byDay[1..], dayLabel).values;
    }
  }

  /** The chart's points add up to the complaints of the last thirty days. */
  lemma ChartShowsTheWindow(cs: seq<Complaint>, now: int, dayLabel: int -> string)
    ensures Sum(ChartOf(Analytics.ComplaintsByDay(cs, now), dayLabel).values) == Count(cs, Analytics.InWindow(now))
  {
    ChartSum(Analytics.ComplaintsByDay(cs, now), dayLabel);
  }

  // --------------------------------------------------------------- updates

  /** The status picker's options. */
  const StatusPicks: seq<string> := ["SUBMITTED", "PENDING", "IN_PROGRESS", "RESOLVED"]

  /** `{ complaintId, ...updateData }` for each picker: the status picker
      sends its value; the department and solver pickers send nothing for
      their empty first option. */
  function StatusPick(id: string, status: string): (b: AdminComplaints.UpdateBody)
    ensures b.complaintId == Some(id) && b.status == Some(status)
    ensures b.solverId.None? && b.priority.None? && b.departmentId.None?
  {
    AdminComplaints.UpdateBody(Some(id), Some(status), None, None, None)
  }

  function DepartmentPick(id: string, deptId: string): (b: Option<AdminComplaints.UpdateBody>)
    ensures b.Some? <==> deptId != ""
    ensures b.Some? ==> b.value == AdminComplaints.UpdateBody(Some(id), None, None, None, Some(Some(deptId)))
  {
    if deptId != "" then Some(AdminComplaints.UpdateBody(Some(id), None, None, None, Some(Some(deptId)))) else None
  }

  function SolverPick(id: string, solverId: string): (b: Option<AdminComplaints.UpdateBody>)
    ensures b.Some? <==> solverId != ""
    ensures b.Some? ==> b.value == AdminComplaints.UpdateBody(Some(id), None, Some(Some(solverId)), None, None)
  {
    if solverId != "" then Some(AdminComplaints.UpdateBody(Some(id), None, Some(Some(solverId)), None, None)) else None
  }

  /** Of the four status choices only SUBMITTED and RESOLVED are stored;
      PENDING and IN_PROGRESS fail with an internal error and change nothing. */
  lemma StatusPickOutcomes(db: Db, caller: Option<SessionUser>, id: string, choice: string, now: int)
    requires IsAdmin(caller) && id != "" && choice in StatusPicks
    requires exists c :: c in db.complaints && c.id == id
    ensures AdminComplaints.Update(db, caller, Some(StatusPick(id, choice)), now).reply.Ok? <==> choice in Statuses
    ensures choice !in Statuses ==> AdminComplaints.Update(db, caller, Some(StatusPick(id, choice)), now) == Outcome(Deny(500, InternalError), db)
  {
    if choice !in Statuses {
      AdminComplaints.UpdateRejectsUnknownStatus(db, caller, StatusPick(id, choice), now);
    }
  }

  /** Choosing a department succeeds but only moves the complaint's modification time. */
  lemma DepartmentPickOnlyTouches(db: Db, caller: Option<SessionUser>, id: string, deptId: string, now: int, i: nat)
    requires IsAdmin(caller) && id != "" && deptId != ""
    requires i < |db.complaints| && db.complaints[i].id == id
    requires forall j :: 0 <= j < i ==> db.complaints[j].id != id
    ensures AdminComplaints.Update(db, caller, DepartmentPick(id, deptId), now).db.complaints
            == db.complaints[i := db.complaints[i].(updatedAt := now)]
  {
    var b := AdminComplaints.UpdateBody(Some(id), None, None, None, Some(Some(deptId)));
    AdminComplaints.UpdateIgnoresDepartment(db, caller, b, None, now);
    AdminComplaints.EmptyUpdateOnlyTouches(db, caller, id, now, i);
  }

  /** The session of a signed-in solver whose user id is `userId`. */
  function SolverSession(userId: string): Option<SessionUser>
  {
    Some(SessionUser(Some(userId), None, None, Some(SOLVER)))
  }

  /** As written: the solver picker's value is the solver profile's id, which
      the update stores as the complaint's `solverId`. The solver's queue
      looks for complaints whose `solverId` is the solver's user id, so when
      the two ids differ the assigned complaint never reaches the solver. */
  lemma SolverPickMissesQueue(db: Db, caller: Option<SessionUser>, id: string, s: SolverRow,
                              now: int, rank: string -> int, i: nat)
    requires IsAdmin(caller) && id != "" && s.id != "" && s.userId != "" && s.id != s.userId
    requires s in db.solvers
    requires i < |db.complaints| && db.complaints[i].id == id
    requires forall j :: 0 <= j < i ==> db.complaints[j].id != id
    ensures var picked := Reference.OptionOf(db.users, s).id;
            var after := AdminComplaints.Update(db, caller, SolverPick(id, picked), now).db;
            && after.complaints[i].solverId == Some(s.id)
            && after.complaints[i] !in ComplaintsOf(SolverQueue.Get(after, SolverSession(s.userId), rank).body.assignedToMe)
  {
    var b := SolverPick(id, s.id).value;
    assert AdminComplaints.IndexOfId(db.complaints, id) == Some(i);
  }

  /** Corrected: the picker's value is the solver's user id, and the
      assigned complaint appears in that solver's queue. */
  function CorrectedPickValue(s: SolverRow): string
  {
    s.userId
  }

  lemma CorrectedSolverPickReachesQueue(db: Db, caller: Option<SessionUser>, id: string, s: SolverRow,
                                        now: int, rank: string -> int, i: nat)
    requires IsAdmin(caller) && id != "" && s.userId != ""
    requires i < |db.complaints| && db.complaints[i].id == id
    requires forall j :: 0 <= j < i ==> db.complaints[j].id != id
    ensures var after := AdminComplaints.Update(db, caller, SolverPick(id, CorrectedPickValue(s)), now).db;
            && after.complaints[i].solverId == Some(s.userId)
            && after.complaints[i] in ComplaintsOf(SolverQueue.Get(after, SolverSession(s.userId), rank).body.assignedToMe)
  {
    assert AdminComplaints.IndexOfId(db.complaints, id) == Some(i);
    var after := AdminComplaints.Update(db, caller, SolverPick(id, CorrectedPickValue(s)), now).db;
    assert after.complaints[i] in after.complaints;
  }

  // ---------------------------------------------------------------- badges

  /** `getStatusColor`: it knows PENDING, IN_PROGRESS and RESOLVED; SUBMITTED
      and every other value are gray. */
  function StatusTone(status: string): (t: Tone)
    ensures t == Gray <==> status !in ["PENDING", "IN_PROGRESS", RESOLVED]
  {
    if status == "PENDING" then Yellow
    else if status == "IN_PROGRESS" then Blue
    else if status == RESOLVED then Green
    else Gray
  }

  /** `getPriorityColor`. */
  function PriorityTone(priority: string): (t: Tone)
    ensures t == Gray <==> priority !in Priorities
  {
    if priority == HIGH then Red
    else if priority == NORMAL then Blue
    else if priority == LOW then Green
    else Gray
  }

  /** Of the stored statuses only RESOLVED gets a colour: SUBMITTED and
      ASSIGNED look alike, and like an unknown status. */
  lemma StoredStatusesMostlyGray(unknown: string)
    requires unknown !in StatusOptions
    ensures StatusTone(SUBMITTED) == StatusTone(ASSIGNED) == StatusTone(unknown) == Gray
    ensures StatusTone(RESOLVED) != Gray
  {
  }
}
