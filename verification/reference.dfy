/** The pick lists of the administrator's assignment controls
    (metronix-app/src/app/api/admin/reference/route.ts): every department,
    and every solver profile labelled with its user's name and e-mail. */
module Reference {
  import opened Common
  import opened Model

  const UnknownName := "Unknown"
  const NoEmail := "No email"

  /** One entry of the solver pick list; `id` is the solver profile's id. */
  datatype SolverOption = SolverOption(id: string, name: string, email: string)

  datatype Lists = Lists(departments: seq<Department>, solvers: seq<SolverOption>)

  /** `solver.user?.name || 'Unknown'` and `solver.user?.email || 'No email'`. */
  function OptionOf(users: seq<User>, s: SolverRow): (o: SolverOption)
    ensures o.id == s.id
    ensures var u := FindUser(users, s.userId);
            && (u.Some? && Truthy(u.value.name) ==> o.name == u.value.name.value)
            && (u.None? || !Truthy(u.value.name) ==> o.name == UnknownName)
            && (u.Some? && u.value.email != "" ==> o.email == u.value.email)
            && (u.None? || u.value.email == "" ==> o.email == NoEmail)
  {
    var u := FindUser(users, s.userId);
    var name := if u.Some? then u.value.name else None;
    var email := if u.Some? then Some(u.value.email) else None;
    SolverOption(s.id, OrElse(name, UnknownName), OrElse(email, NoEmail))
  }

  /** `GET /api/admin/reference`. */
  function Get(db: Db, caller: Option<SessionUser>): (r: Reply<Lists>)
    ensures r.Fail? <==> !IsAdmin(caller)
    ensures r.Fail? ==> r.code == 401
    ensures r.Ok? ==>
              && r.code == 200
              && r.body.departments == db.departments
              && |r.body.solvers| == |db.solvers|
              && forall i :: 0 <= i < |db.solvers| ==> r.body.solvers[i] == OptionOf(db.users, db.solvers[i])
  {
    if !IsAdmin(caller) then Deny(401, Unauthorized)
    else
      Ok(200, Lists(db.departments,
        seq(|db.solvers|, i requires 0 <= i < |db.solvers| => OptionOf(db.users, db.solvers[i]))))
  }

  /** Every entry of the solver list names a solver profile, in the store's
      order, and has a non-empty name and e-mail to show. */
  lemma SolverListLabelsEveryProfile(db: Db, caller: Option<SessionUser>)
    requires IsAdmin(caller)
    ensures var ss := Get(db, caller).body.solvers;
            && (forall i :: 0 <= i < |ss| ==> ss[i].id == db.solvers[i].id)
            && (forall o :: o in ss ==> o.name != "" && o.email != "")
            && (forall o :: o in ss ==> exists s :: s in db.solvers && s.id == o.id)
  {
    var ss := Get(db, caller).body.solvers;
    forall o | o in ss
      ensures o.name != "" && o.email != ""
      ensures exists s :: s in db.solvers && s.id == o.id
    {
      var i :| 0 <= i < |ss| && ss[i] == o;
      assert db.solvers[i] in db.solvers;
    }
  }
}
