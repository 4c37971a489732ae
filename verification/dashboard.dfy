/** The administrator's overview (metronix-app/src/app/api/admin/dashboard/route.ts):
    complaint totals by status, user totals by role, the ten newest
    complaints, and the nested JSON shape they are sent in. */
module Dashboard {
  import opened Common
  import opened Model
  import opened Sorting

  const RecentCount := 10

  /** `stats.complaints`; `assignedCount` is the `assigned` key. */
  datatype ComplaintFigures = ComplaintFigures(total: nat, submitted: nat, assignedCount: nat, resolved: nat)

  /** `stats.users`. */
  datatype UserFigures = UserFigures(total: nat, citizens: nat, solvers: nat, admins: nat)

  datatype Overview = Overview(complaints: ComplaintFigures, users: UserFigures, recent: seq<ComplaintView>)

  function ComplaintTotals(cs: seq<Complaint>): (f: ComplaintFigures)
    ensures f.total == |cs|
    ensures f.submitted == Count(cs, StatusIs(SUBMITTED))
    ensures f.assignedCount == Count(cs, StatusIs(ASSIGNED))
    ensures f.resolved == Count(cs, StatusIs(RESOLVED))
    ensures f.submitted + f.assignedCount + f.resolved <= f.total
  {
    CountDisjoint3(cs, StatusIs(SUBMITTED), StatusIs(ASSIGNED), StatusIs(RESOLVED));
    ComplaintFigures(|cs|, Count(cs, StatusIs(SUBMITTED)), Count(cs, StatusIs(ASSIGNED)), Count(cs, StatusIs(RESOLVED)))
  }

  function UserTotals(us: seq<User>): (f: UserFigures)
    ensures f.total == |us|
    ensures f.citizens == Count(us, UserRoleIs(CITIZEN))
    ensures f.solvers == Count(us, UserRoleIs(SOLVER))
    ensures f.admins == Count(us, UserRoleIs(ADMIN))
    ensures f.citizens + f.solvers + f.admins <= f.total
  {
    CountDisjoint3(us, UserRoleIs(CITIZEN), UserRoleIs(SOLVER), UserRoleIs(ADMIN));
    UserFigures(|us|, Count(us, UserRoleIs(CITIZEN)), Count(us, UserRoleIs(SOLVER)), Count(us, UserRoleIs(ADMIN)))
  }

  /** `findMany({ take: 10, orderBy: { createdAt: 'desc' } })`. */
  function Newest(cs: seq<Complaint>): (r: seq<Complaint>)
    ensures |r| == if |cs| < RecentCount then |cs| else RecentCount
    ensures NewestFirstOrder(r)
    ensures r == ByNewest(cs)[..|r|]
  {
    Take(ByNewest(cs), RecentCount)
  }

  /** `GET /api/admin/dashboard`. */
  function Get(db: Db, caller: Option<SessionUser>): (r: Reply<Overview>)
    ensures r.Fail? <==> !IsAdmin(caller)
    ensures r.Fail? ==> r.code == 401
    ensures r.Ok? ==>
              && r.code == 200
              && r.body.complaints == ComplaintTotals(db.complaints)
              && r.body.users == UserTotals(db.users)
              && ComplaintsOf(r.body.recent) == Newest(db.complaints)
              && (forall i :: 0 <= i < |r.body.recent| ==> r.body.recent[i] == View(db.users, r.body.recent[i].complaint, true))
  {
    if !IsAdmin(caller) then Deny(401, Unauthorized)
    else
      var vs := Views(db.users, Newest(db.complaints), true);
      assert ComplaintsOf(vs) == Newest(db.complaints);
      Ok(200, Overview(ComplaintTotals(db.complaints), UserTotals(db.users), vs))
  }

  /** The recent list holds the newest complaints: none left out is newer
      than any shown, and together they are exactly the store's complaints. */
  lemma RecentAreTheNewest(cs: seq<Complaint>)
    ensures var all := ByNewest(cs);
            var shown := Newest(cs);
            var rest := all[|shown|..];
            && multiset(shown) + multiset(rest) == multiset(cs)
            && forall x, y :: x in shown && y in rest ==> x.createdAt >= y.createdAt
  {
    var all := ByNewest(cs);
    var k := |Newest(cs)|;
    assert all == all[..k] + all[k..];
    forall x, y | x in all[..k] && y in all[k..]
      ensures x.createdAt >= y.createdAt
    {
      var i :| 0 <= i < k && all[..k][i] == x;
      var j :| 0 <= j < |all| - k && all[k..][j] == y;
      assert all[i] == x && all[k + j] == y;
    }
  }

  /** The JSON body: the figures nest under `stats.complaints` and `stats.users`. */
  function ToJson(o: Overview): Json
  {
    JObj([
      ("stats", JObj([
        ("complaints", JObj([
          ("total", JNum(o.complaints.total)),
          ("submitted", JNum(o.complaints.submitted)),
          ("assigned", JNum(o.complaints.assignedCount)),
          ("resolved", JNum(o.complaints.resolved))])),
        ("users", JObj([
          ("total", JNum(o.users.total)),
          ("citizens", JNum(o.users.citizens)),
          ("solvers", JNum(o.users.solvers)),
          ("admins", JNum(o.users.admins))]))])),
      ("recentComplaints", JRows(o.recent))])
  }

  /** Reading the figures back from the JSON body gives the figures. */
  lemma ToJsonReadBack(o: Overview)
    ensures var j := ToJson(o);
            && Field(j, "stats").Some?
            && Field(Field(j, "stats").value, "complaints").Some?
            && Field(Field(Field(j, "stats").value, "complaints").value, "total") == Some(JNum(o.complaints.total))
            && Field(Field(Field(j, "stats").value, "complaints").value, "submitted") == Some(JNum(o.complaints.submitted))
            && Field(Field(Field(j, "stats").value, "complaints").value, "assigned") == Some(JNum(o.complaints.assignedCount))
            && Field(Field(Field(j, "stats").value, "complaints").value, "resolved") == Some(JNum(o.complaints.resolved))
            && Field(Field(j, "stats").value, "users").Some?
            && Field(Field(Field(j, "stats").value, "users").value, "total") == Some(JNum(o.users.total))
            && Field(j, "recentComplaints") == Some(JRows(o.recent))
  {
    var j := ToJson(o);
    var stats := j.fields[0].1;
    var cf, uf := stats.fields[0].1, stats.fields[1].1;
    assert Field(j, "stats") == Some(stats);
    assert Field(stats, "complaints") == Some(cf);
    assert Field(cf, "total") == Some(JNum(o.complaints.total));
    assert Field(cf, "submitted") == FieldIn(cf.fields[1..], "submitted");
    assert Field(cf, "assigned") == FieldIn(cf.fields[1..], "assigned") == FieldIn(cf.fields[2..], "assigned");
    assert FieldIn(cf.fields[1..], "resolved") == FieldIn(cf.fields[2..], "resolved") == FieldIn(cf.fields[3..], "resolved");
    assert Field(stats, "users") == FieldIn(stats.fields[1..], "users") == Some(uf);
    assert Field(uf, "total") == Some(JNum(o.users.total));
    assert Field(j, "recentComplaints") == FieldIn(j.fields[1..], "recentComplaints");
  }

  /** The body has only `stats` and `recentComplaints` at its top level:
      there is no `totalComplaints` field, for instance. */
  lemma NoOtherTopLevelField(o: Overview, key: string)
    requires key != "stats" && key != "recentComplaints"
    ensures Field(ToJson(o), key).None?
  {
    var j := ToJson(o);
    assert FieldIn(j.fields, key) == FieldIn(j.fields[1..], key) == FieldIn(j.fields[2..], key);
  }
}
