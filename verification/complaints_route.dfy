/** The citizen-facing complaints endpoint
    (metronix-app/src/app/api/complaints/route.ts): listing complaints and
    submitting a new one with its uploaded files and confirmation e-mail.
    The clock, the identifier the store assigns, `uuidv4`, `path.extname`
    and the mail transport's reply are parameters. */
module ComplaintsRoute {
  import opened Common
  import opened Model
  import Email

  const MissingFields := "Missing required fields"
  const InvalidCategory := "Invalid category"
  const InvalidPriority := "Invalid priority"
  const FileTooLarge := "File size too large"
  const CitizensOnly := "Only citizens can submit complaints"
  const Forbidden := "Forbidden"

  /** The largest accepted upload, in bytes: 10 MiB. */
  const MaxUploadBytes: nat := 10 * 1024 * 1024

  /** The public URL prefix of stored uploads. */
  const UploadsPath := "/uploads/complaints/"

  // ------------------------------------------------------------------ GET

  /** The `where` clause: by citizen when a truthy `userId` is given, otherwise everything. */
  function OwnedBy(userId: Option<string>): Complaint -> bool
  {
    (c: Complaint) => !Truthy(userId) || c.citizenId == userId.value
  }

  /** A citizen asking for someone else's complaints by `userId`. */
  predicate ForeignRequest(caller: Option<SessionUser>, userId: Option<string>)
    requires HasId(caller)
  {
    Truthy(userId) && RoleIs(caller, CITIZEN) && userId.value != CallerId(caller)
  }

  /** `GET /api/complaints?userId=`: the matching complaints, newest first,
      each with its citizen and solver. */
  function List(db: Db, caller: Option<SessionUser>, userId: Option<string>): (r: Reply<seq<ComplaintView>>)
    ensures r.Fail? && r.code == 401 <==> !HasId(caller)
    ensures r.Fail? && r.code == 403 <==> HasId(caller) && ForeignRequest(caller, userId)
    ensures r.Ok? <==> HasId(caller) && !ForeignRequest(caller, userId)
    ensures r.Ok? ==> r.code == 200
    ensures r.Ok? ==> NewestFirstOrder(ComplaintsOf(r.body))
    ensures r.Ok? ==> multiset(ComplaintsOf(r.body)) == multiset(Filter(db.complaints, OwnedBy(userId)))
    ensures r.Ok? ==> forall i :: 0 <= i < |r.body| ==> r.body[i] == View(db.users, r.body[i].complaint, true)
  {
    if !HasId(caller) then Deny(401, Unauthorized)
    else if ForeignRequest(caller, userId) then Deny(403, Forbidden)
    else
      var rows := ByNewest(Filter(db.complaints, OwnedBy(userId)));
      var vs := Views(db.users, rows, true);
      assert ComplaintsOf(vs) == rows;
      Ok(200, vs)
  }

  /** With a truthy `userId`, the list holds exactly that citizen's complaints. */
  lemma ListByOwner(db: Db, caller: Option<SessionUser>, userId: Option<string>, c: Complaint)
    requires HasId(caller) && !ForeignRequest(caller, userId) && Truthy(userId)
    ensures c in ComplaintsOf(List(db, caller, userId).body) <==> c in db.complaints && c.citizenId == userId.value
  {
    var body := ComplaintsOf(List(db, caller, userId).body);
    assert c in body <==> c in multiset(body);
  }

  /** Without `userId` nothing is filtered, whatever the caller's role: a
      citizen then receives every complaint in the store. */
  lemma ListUnfilteredForAnyRole(db: Db, caller: Option<SessionUser>, userId: Option<string>)
    requires HasId(caller) && !Truthy(userId)
    ensures List(db, caller, userId).Ok?
    ensures multiset(ComplaintsOf(List(db, caller, userId).body)) == multiset(db.complaints)
  {
    var all := Filter(db.complaints, OwnedBy(userId));
    assert multiset(all) == multiset(db.complaints) by {
      forall x
        ensures multiset(all)[x] == multiset(db.complaints)[x]
      {
        assert OwnedBy(userId)(x);
      }
    }
  }

  // ----------------------------------------------------------------- POST

  /** An uploaded file: its client-side name and its size in bytes. */
  datatype Upload = Upload(name: string, size: nat)

  /** The submitted form fields, each null when absent, and the `media` files. */
  datatype SubmitForm = SubmitForm(
    title: Option<string>,
    description: Option<string>,
    category: Option<string>,
    priority: Option<string>,
    location: Option<string>,
    lat: Option<string>,
    lng: Option<string>,
    media: seq<Upload>)

  /** The first failing field check, in the handler's order, or none. */
  function FieldError(f: SubmitForm): (e: Option<string>)
    ensures e == Some(MissingFields) <==> !(Truthy(f.title) && Truthy(f.description) && Truthy(f.category))
    ensures e.None? <==> Truthy(f.title) && Truthy(f.description) && Truthy(f.category)
                         && f.category.value in Categories
                         && (!Truthy(f.priority) || f.priority.value in Priorities)
    ensures e.Some? ==> e.value in {MissingFields, InvalidCategory, InvalidPriority}
  {
    if !Truthy(f.title) || !Truthy(f.description) || !Truthy(f.category) then Some(MissingFields)
    else if f.category.value !in Categories then Some(InvalidCategory)
    else if Truthy(f.priority) && f.priority.value !in Priorities then Some(InvalidPriority)
    else None
  }

  /** The files written by the upload loop and whether it stopped at an oversized file. */
  datatype UploadRun = UploadRun(names: seq<string>, tooLarge: bool)

  /** The upload loop from the `k`-th generated identifier on: each file is
      written as `<uuid><extension>` until the first file over the limit,
      which ends the request; files before it stay written. */
  function StoreUploads(files: seq<Upload>, k: nat, uuid: nat -> string, extname: string -> string): (r: UploadRun)
    ensures |r.names| <= |files|
    ensures forall j :: 0 <= j < |r.names| ==>
              files[j].size <= MaxUploadBytes && r.names[j] == uuid(k + j) + extname(files[j].name)
    ensures r.tooLarge <==> |r.names| < |files|
    ensures r.tooLarge ==> files[|r.names|].size > MaxUploadBytes
  {
    if |files| == 0 then UploadRun([], false)
    else if files[0].size > MaxUploadBytes then UploadRun([], true)
    else
      var rest := StoreUploads(files[1..], k + 1, uuid, extname);
      UploadRun([uuid(k) + extname(files[0].name)] + rest.names, rest.tooLarge)
  }

  /** The upload loop rejects the request exactly when some file exceeds
      10 MiB; a file of exactly 10 MiB passes. */
  lemma UploadLimit(files: seq<Upload>, uuid: nat -> string, extname: string -> string)
    ensures StoreUploads(files, 0, uuid, extname).tooLarge <==> exists i :: 0 <= i < |files| && files[i].size > MaxUploadBytes
  {
  }

  /** The URL under which a stored upload is served. */
  function UrlOf(name: string): string
  {
    UploadsPath + name
  }

  function Urls(names: seq<string>): (r: seq<string>)
    ensures |r| == |names|
    ensures forall j :: 0 <= j < |r| ==> r[j] == UrlOf(names[j])
  {
    seq(|names|, j requires 0 <= j < |names| => UrlOf(names[j]))
  }

  /** The effects the handler draws on from outside: the clock, the id the
      store assigns, the `uuidv4` sequence, `path.extname`, and the mail
      configuration and transport reply. */
  datatype Effects = Effects(
    now: int,
    newId: string,
    uuid: nat -> string,
    extname: string -> string,
    smtp: Email.SmtpConfig,
    transport: Email.Transport)

  /** The record the handler asks the store to create. */
  function NewComplaint(f: SubmitForm, id: string, owner: string, names: seq<string>, now: int): Complaint
    requires Truthy(f.title) && Truthy(f.description) && Truthy(f.category)
  {
    Complaint(
      id, f.title.value, f.description.value, f.category.value,
      OrElse(f.priority, NORMAL), SUBMITTED,
      f.location,
      if Truthy(f.lat) then f.lat else None,
      if Truthy(f.lng) then f.lng else None,
      if |names| > 0 then Some(Urls(names)) else None,
      owner, owner, None, None, now, now)
  }

  /** What a freshly submitted complaint looks like. */
  predicate FreshSubmission(c: Complaint, f: SubmitForm, owner: string, now: int)
  {
    && Truthy(f.title) && Truthy(f.description) && Truthy(f.category)
    && c.title == f.title.value && c.description == f.description.value
    && c.category == f.category.value && c.category in Categories
    && c.priority in Priorities
    && (Truthy(f.priority) ==> c.priority == f.priority.value)
    && (!Truthy(f.priority) ==> c.priority == NORMAL)
    && c.status == SUBMITTED
    && c.location == f.location
    && (c.lat.Some? <==> Truthy(f.lat)) && (c.lng.Some? <==> Truthy(f.lng))
    && c.citizenId == owner && c.userId == owner
    && c.solverId.None? && c.departmentId.None?
    && c.createdAt == now && c.updatedAt == now
    && (c.images.None? <==> |f.media| == 0)
  }

  /** The confirmation e-mail attempt after the complaint is stored: only
      when the citizen is found with an e-mail address. */
  function ConfirmationMail(users: seq<User>, c: Complaint, fx: Effects): (m: Option<Email.Delivery>)
    ensures m.Some? ==> c.citizenId != "" && exists u :: u in users && u.id == c.citizenId && u.email != ""
    ensures (&& c.citizenId != ""
             && (exists u :: u in users && u.id == c.citizenId)
             && (forall u :: u in users && u.id == c.citizenId ==> u.email != ""))
            ==> m.Some?
    ensures m.Some? && m.value.handedOver.Some? ==>
              exists u :: u in users && u.id == c.citizenId
                       && m.value.handedOver.value.to == u.email
                       && m.value.handedOver.value.subject == Email.ComplaintConfirmation(c, OrElse(u.name, "User")).subject
  {
    var citizen := FindUser(users, c.citizenId);
    if c.citizenId != "" && citizen.Some? && citizen.value.email != "" then
      Some(Email.SendComplaintConfirmationEmail(fx.smtp, citizen.value.email, c, OrElse(citizen.value.name, "User"), fx.transport))
    else None
  }

  /** What one submission did: its reply, the store after it, the upload
      files written to disk, and the confirmation e-mail attempt. */
  datatype PostOutcome = PostOutcome(reply: Reply<ComplaintView>, db: Db, written: seq<string>, mail: Option<Email.Delivery>)

  /** `POST /api/complaints`. The new record's `citizenId` and `userId` are
      relations to the user table, so a session id with no user row makes
      the store refuse the create, which the handler's `catch` answers
      with 500 after the uploads are already written. */
  function Post(db: Db, caller: Option<SessionUser>, f: SubmitForm, fx: Effects): (o: PostOutcome)
    ensures o.reply.Fail? && o.reply.code == 401 <==> !HasId(caller)
    ensures o.reply.Fail? && o.reply.code == 403 <==> HasId(caller) && !RoleIs(caller, CITIZEN)
    ensures o.reply.Ok? <==> HasId(caller) && RoleIs(caller, CITIZEN) && FieldError(f).None?
                             && (forall i :: 0 <= i < |f.media| ==> f.media[i].size <= MaxUploadBytes)
                             && FindUser(db.users, CallerId(caller)).Some?
    ensures o.reply.Fail? && o.reply.code == 500 <==>
              && HasId(caller) && RoleIs(caller, CITIZEN) && FieldError(f).None?
              && (forall i :: 0 <= i < |f.media| ==> f.media[i].size <= MaxUploadBytes)
              && FindUser(db.users, CallerId(caller)).None?
    ensures o.reply.Fail? ==> o.db == db && o.mail.None?
    ensures o.reply.Fail? && o.reply.code == 400 ==> o.reply.error in {MissingFields, InvalidCategory, InvalidPriority, FileTooLarge}
    ensures o.written != [] ==> HasId(caller) && RoleIs(caller, CITIZEN) && FieldError(f).None?
    ensures |o.written| <= |f.media|
    ensures forall j :: 0 <= j < |o.written| ==> o.written[j] == fx.uuid(j) + fx.extname(f.media[j].name)
    ensures o.reply.Ok? ==>
              && o.reply.code == 201
              && o.reply.body.solver.Omitted?
              && o.reply.body.complaint.id == fx.newId
              && FreshSubmission(o.reply.body.complaint, f, CallerId(caller), fx.now)
              && o.db == db.(complaints := db.complaints + [o.reply.body.complaint])
              && |o.written| == |f.media|
              && (|f.media| > 0 ==> o.reply.body.complaint.images == Some(Urls(o.written)))
  {
    if !HasId(caller) then PostOutcome(Deny(401, Unauthorized), db, [], None)
    else if !RoleIs(caller, CITIZEN) then PostOutcome(Deny(403, CitizensOnly), db, [], None)
    else if FieldError(f).Some? then PostOutcome(Deny(400, FieldError(f).value), db, [], None)
    else
      var run := StoreUploads(f.media, 0, fx.uuid, fx.extname);
      if run.tooLarge then PostOutcome(Deny(400, FileTooLarge), db, run.names, None)
      else if FindUser(db.users, CallerId(caller)).None? then PostOutcome(Deny(500, InternalError), db, run.names, None)
      else
        var c := NewComplaint(f, fx.newId, CallerId(caller), run.names, fx.now);
        var db' := db.(complaints := db.complaints + [c]);
        PostOutcome(Ok(201, View(db'.users, c, false)), db', run.names, ConfirmationMail(db'.users, c, fx))
  }

  /** The session gates come first: a rejected caller gets the same reply
      whatever the form holds, and nothing is written. */
  lemma PostGatesIgnoreForm(db: Db, caller: Option<SessionUser>, f: SubmitForm, g: SubmitForm, fx: Effects)
    requires !HasId(caller) || !RoleIs(caller, CITIZEN)
    ensures Post(db, caller, f, fx) == Post(db, caller, g, fx)
    ensures Post(db, caller, f, fx).written == []
  {
  }

  /** The e-mail outcome never changes the reply or the store. */
  lemma PostReplyIgnoresMail(db: Db, caller: Option<SessionUser>, f: SubmitForm, fx: Effects,
                             smtp: Email.SmtpConfig, transport: Email.Transport)
    ensures Post(db, caller, f, fx).reply == Post(db, caller, f, fx.(smtp := smtp, transport := transport)).reply
    ensures Post(db, caller, f, fx).db == Post(db, caller, f, fx.(smtp := smtp, transport := transport)).db
  {
  }

  /** An oversized file among several: the files before it stay written,
      the request fails and the store is unchanged. */
  lemma PostOversizedKeepsEarlierFiles(db: Db, caller: Option<SessionUser>, f: SubmitForm, fx: Effects, i: nat)
    requires HasId(caller) && RoleIs(caller, CITIZEN) && FieldError(f).None?
    requires i < |f.media| && f.media[i].size > MaxUploadBytes
    requires forall j :: 0 <= j < i ==> f.media[j].size <= MaxUploadBytes
    ensures Post(db, caller, f, fx).reply == Deny(400, FileTooLarge)
    ensures |Post(db, caller, f, fx).written| == i
    ensures Post(db, caller, f, fx).db == db
  {
    var run := StoreUploads(f.media, 0, fx.uuid, fx.extname);
    assert run.tooLarge;
  }

  /** A session whose id names no user: every file is written, then the
      store refuses the record and the request fails with 500. */
  lemma PostForUnknownCitizen(db: Db, caller: Option<SessionUser>, f: SubmitForm, fx: Effects)
    requires HasId(caller) && RoleIs(caller, CITIZEN) && FieldError(f).None?
    requires forall i :: 0 <= i < |f.media| ==> f.media[i].size <= MaxUploadBytes
    requires forall u :: u in db.users ==> u.id != CallerId(caller)
    ensures Post(db, caller, f, fx).reply == Deny(500, InternalError)
    ensures Post(db, caller, f, fx).db == db
    ensures |Post(db, caller, f, fx).written| == |f.media|
  {
    UploadLimit(f.media, fx.uuid, fx.extname);
  }

  /** Store invariant: every complaint carries a known category, priority and status. */
  predicate TokensValid(cs: seq<Complaint>)
  {
    forall i :: 0 <= i < |cs| ==> cs[i].category in Categories && cs[i].priority in Priorities && cs[i].status in Statuses
  }

  /** Submission keeps every stored complaint's tokens valid. */
  lemma PostKeepsTokensValid(db: Db, caller: Option<SessionUser>, f: SubmitForm, fx: Effects)
    requires TokensValid(db.complaints)
    ensures TokensValid(Post(db, caller, f, fx).db.complaints)
  {
    var o := Post(db, caller, f, fx);
    if o.reply.Ok? {
      var cs := o.db.complaints;
      forall i | 0 <= i < |cs|
        ensures cs[i].category in Categories && cs[i].priority in Priorities && cs[i].status in Statuses
      {
        if i < |db.complaints| {
          assert cs[i] == db.complaints[i];
        }
      }
    }
  }
}
