/** The administrator's daily summary
    (metronix-app/src/app/api/admin/daily-summary/route.ts): the complaints
    created on one day, their totals by status, and the summary e-mail.
    Date parsing, the clock, the rendering of a day as `YYYY-MM-DD`, the
    server's offset from UTC and the mail transport's reply are parameters. */
module DailySummary {
  import opened Common
  import opened Model
  import Email

  const InvalidTimeValue := "Invalid time value"
  const AdminNotFound := "Admin not found"
  const SendFailed := "Failed to send email"
  const SentMessage := "Daily summary email sent successfully"

  /** The effects the handler draws on from outside. `parse` is `new Date(s)`
      (`None` for an invalid date), `dayLabel` renders a UTC day number, and
      `tz` is the server clock's offset ahead of UTC in milliseconds. */
  datatype Effects = Effects(
    now: int,
    tz: int,
    parse: string -> Option<int>,
    dayLabel: int -> string,
    smtp: Email.SmtpConfig,
    transport: Email.Transport)

  /** `date ? new Date(date) : new Date()`: the instant to summarise, or
      `None` when the given date is invalid. */
  function TargetInstant(date: Option<string>, fx: Effects): (t: Option<int>)
    ensures !Truthy(date) ==> t == Some(fx.now)
    ensures Truthy(date) ==> t == fx.parse(date.value)
  {
    if Truthy(date) then fx.parse(date.value) else Some(fx.now)
  }

  /** An inclusive range of creation times. */
  datatype Bounds = Bounds(lo: int, hi: int)

  function CreatedWithin(b: Bounds): Complaint -> bool
  {
    (c: Complaint) => b.lo <= c.createdAt <= b.hi
  }

  // ------------------------------------------------------ the day's bounds

  /** The day number of an instant on a server clock `tz` milliseconds ahead of UTC. */
  function LocalDay(t: int, tz: int): int
  {
    (t + tz) / DayMs
  }

  /** As written: `setHours(0, 0, 0, 0)` and `setHours(23, 59, 59, 999)`
      take the server's local midnight and last millisecond of the day. */
  function LocalDayBounds(t: int, tz: int): (b: Bounds)
    ensures b.hi == b.lo + DayMs - 1
    ensures b.lo <= t <= b.hi
  {
    var start := LocalDay(t, tz) * DayMs - tz;
    Bounds(start, start + DayMs - 1)
  }

  /** The local bounds select exactly the complaints of the same local day. */
  lemma LocalBoundsSelectLocalDay(t: int, tz: int, c: Complaint)
    ensures CreatedWithin(LocalDayBounds(t, tz))(c) <==> LocalDay(c.createdAt, tz) == LocalDay(t, tz)
  {
    SameDayIffWithin(t + tz, c.createdAt + tz);
  }

  /** Two instants share a day number exactly when the second lies in the
      first one's day. */
  lemma SameDayIffWithin(t: int, x: int)
    ensures (t / DayMs) * DayMs <= x <= (t / DayMs) * DayMs + DayMs - 1 <==> x / DayMs == t / DayMs
  {
    var d := t / DayMs;
    if d * DayMs <= x <= d * DayMs + DayMs - 1 {
      assert x == d * DayMs + (x - d * DayMs);
    }
  }

  /** The reported date is the UTC day of the target instant, but the
      complaints are those of its local day: on a server five hours behind
      UTC, asking for day 10 (its UTC midnight) leaves out a complaint
      created at noon UTC on day 10. */
  lemma LocalBoundsMissTheReportedDay()
    ensures var tz := -5 * 60 * 60 * 1000;
            var t := 10 * DayMs;
            var c := 10 * DayMs + 12 * 60 * 60 * 1000;
            UtcDay(c) == UtcDay(t) && !(LocalDayBounds(t, tz).lo <= c <= LocalDayBounds(t, tz).hi)
  {
  }

  /** Corrected: the UTC day the summary is labelled with. */
  function DayBounds(t: int): (b: Bounds)
    ensures b.hi == b.lo + DayMs - 1
    ensures b.lo <= t <= b.hi
  {
    Bounds(UtcDay(t) * DayMs, UtcDay(t) * DayMs + DayMs - 1)
  }

  /** The corrected bounds select exactly the complaints of the reported day. */
  lemma DayBoundsSelectReportedDay(t: int, c: Complaint)
    ensures CreatedWithin(DayBounds(t))(c) <==> UtcDay(c.createdAt) == UtcDay(t)
  {
    SameDayIffWithin(t, c.createdAt);
  }

  /** On a server running on UTC the two coincide. */
  lemma BoundsAgreeOnUtc(t: int)
    ensures LocalDayBounds(t, 0) == DayBounds(t)
  {
  }

  /** As written: the complaints of the target instant's local day, newest
      first; that is the day `setHours` bounds, not the day in the label. */
  function DayComplaints(cs: seq<Complaint>, t: int, tz: int): (r: seq<Complaint>)
    ensures NewestFirstOrder(r)
    ensures multiset(r) == multiset(Filter(cs, CreatedWithin(LocalDayBounds(t, tz))))
    ensures forall c :: c in r <==> c in cs && LocalDay(c.createdAt, tz) == LocalDay(t, tz)
  {
    var r := ByNewest(Filter(cs, CreatedWithin(LocalDayBounds(t, tz))));
    assert forall c :: c in r <==> c in multiset(r);
    assert forall c :: CreatedWithin(LocalDayBounds(t, tz))(c) <==> LocalDay(c.createdAt, tz) == LocalDay(t, tz) by {
      forall c: Complaint
        ensures CreatedWithin(LocalDayBounds(t, tz))(c) <==> LocalDay(c.createdAt, tz) == LocalDay(t, tz)
      {
        LocalBoundsSelectLocalDay(t, tz, c);
      }
    }
    r
  }

  /** Corrected: the complaints of the UTC day the summary is labelled with, newest first. */
  function CorrectedDayComplaints(cs: seq<Complaint>, t: int): (r: seq<Complaint>)
    ensures NewestFirstOrder(r)
    ensures multiset(r) == multiset(Filter(cs, CreatedWithin(DayBounds(t))))
    ensures forall c :: c in r <==> c in cs && UtcDay(c.createdAt) == UtcDay(t)
  {
    var r := ByNewest(Filter(cs, CreatedWithin(DayBounds(t))));
    assert forall c :: c in r <==> c in multiset(r);
    assert forall c :: CreatedWithin(DayBounds(t))(c) <==> UtcDay(c.createdAt) == UtcDay(t) by {
      forall c: Complaint
        ensures CreatedWithin(DayBounds(t))(c) <==> UtcDay(c.createdAt) == UtcDay(t)
      {
        DayBoundsSelectReportedDay(t, c);
      }
    }
    r
  }

  /** On a server running on UTC the handlers' selection is the corrected one. */
  lemma SelectionAgreesOnUtc(cs: seq<Complaint>, t: int)
    ensures DayComplaints(cs, t, 0) == CorrectedDayComplaints(cs, t)
  {
    BoundsAgreeOnUtc(t);
  }

  // ----------------------------------------------------------------- GET

  /** The `{ date, stats, complaints }` body of the GET. */
  datatype SummaryData = SummaryData(date: string, total: nat, pendingCount: nat, assignedCount: nat, resolvedCount: nat, complaints: seq<ComplaintView>)

  /** `GET /api/admin/daily-summary?date=`. */
  function Get(db: Db, caller: Option<SessionUser>, date: Option<string>, fx: Effects): (r: Reply<SummaryData>)
    ensures r.Fail? && r.code == 401 <==> !IsAdmin(caller)
    ensures r.Fail? && r.code == 500 <==> IsAdmin(caller) && TargetInstant(date, fx).None?
    ensures r.Fail? && r.code == 500 ==> r.details == Some(InvalidTimeValue)
    ensures r.Ok? ==>
              var t := TargetInstant(date, fx).value;
              var day := DayComplaints(db.complaints, t, fx.tz);
              && r.code == 200
              && r.body.date == fx.dayLabel(UtcDay(t))
              && ComplaintsOf(r.body.complaints) == day
              && r.body.total == |day|
              && r.body.pendingCount == Count(day, StatusIs(SUBMITTED))
              && r.body.assignedCount == Count(day, StatusIs(ASSIGNED))
              && r.body.resolvedCount == Count(day, StatusIs(RESOLVED))
              && r.body.pendingCount + r.body.assignedCount + r.body.resolvedCount <= r.body.total
  {
    if !IsAdmin(caller) then Deny(401, Unauthorized)
    else
      match TargetInstant(date, fx)
      case None => Fail(500, InternalError, Some(InvalidTimeValue))
      case Some(t) =>
        var day := DayComplaints(db.complaints, t, fx.tz);
        var vs := Views(db.users, day, true);
        assert ComplaintsOf(vs) == day;
        CountDisjoint3(day, StatusIs(SUBMITTED), StatusIs(ASSIGNED), StatusIs(RESOLVED));
        Ok(200, SummaryData(fx.dayLabel(UtcDay(t)), |day|,
          Count(day, StatusIs(SUBMITTED)), Count(day, StatusIs(ASSIGNED)), Count(day, StatusIs(RESOLVED)), vs))
  }

  /** The GET's figures are those of the store's complaints of that day, in any order. */
  lemma GetCountsTheDay(db: Db, caller: Option<SessionUser>, date: Option<string>, fx: Effects)
    requires IsAdmin(caller) && TargetInstant(date, fx).Some?
    ensures var t := TargetInstant(date, fx).value;
            var chosen := Filter(db.complaints, CreatedWithin(LocalDayBounds(t, fx.tz)));
            && Get(db, caller, date, fx).body.total == |chosen|
            && Get(db, caller, date, fx).body.pendingCount == Count(chosen, StatusIs(SUBMITTED))
            && Get(db, caller, date, fx).body.assignedCount == Count(chosen, StatusIs(ASSIGNED))
            && Get(db, caller, date, fx).body.resolvedCount == Count(chosen, StatusIs(RESOLVED))
  {
    var t := TargetInstant(date, fx).value;
    var chosen := Filter(db.complaints, CreatedWithin(LocalDayBounds(t, fx.tz)));
    var day := DayComplaints(db.complaints, t, fx.tz);
    assert |day| == |multiset(day)| == |multiset(chosen)| == |chosen|;
    CountPermutation(day, chosen, StatusIs(SUBMITTED));
    CountPermutation(day, chosen, StatusIs(ASSIGNED));
    CountPermutation(day, chosen, StatusIs(RESOLVED));
  }

  /** As written, end to end: on a server five hours behind UTC, the
      summary labelled with day 10 omits a complaint created at noon UTC on
      day 10, which the corrected selection keeps. */
  lemma GetMissesTheLabelledDay(db: Db, caller: Option<SessionUser>, fx: Effects, c: Complaint)
    requires IsAdmin(caller)
    requires db.complaints == [c]
    requires fx.tz == -5 * 60 * 60 * 1000 && fx.now == 10 * DayMs
    requires c.createdAt == 10 * DayMs + 12 * 60 * 60 * 1000
    ensures Get(db, caller, None, fx).Ok?
    ensures Get(db, caller, None, fx).body.date == fx.dayLabel(UtcDay(c.createdAt))
    ensures Get(db, caller, None, fx).body.total == 0
    ensures CorrectedDayComplaints(db.complaints, fx.now) == [c]
  {
    var t := fx.now;
    assert !CreatedWithin(LocalDayBounds(t, fx.tz))(c);
    assert Filter([c], CreatedWithin(LocalDayBounds(t, fx.tz))) == [];
    assert CreatedWithin(DayBounds(t))(c);
    assert Filter([c], CreatedWithin(DayBounds(t))) == [c];
    var r := CorrectedDayComplaints(db.complaints, t);
    assert multiset(r) == multiset([c]);
    assert |r| == 1;
    assert r[0] in multiset(r);
  }

  // ---------------------------------------------------------------- POST

  /** The JSON body: `date` and `adminEmail`, each possibly absent. */
  datatype PostBody = PostBody(date: Option<string>, adminEmail: Option<string>)

  /** The request body as read: the fields, or the parser's error message. */
  datatype Parsed = Parsed(body: PostBody) | Malformed(message: string)

  /** The success body of the POST. */
  datatype Sent = Sent(message: string, date: string, complaintsCount: nat, emailId: Option<string>)

  /** What one POST did: its reply and the e-mail attempt it made. */
  datatype PostOutcome = PostOutcome(reply: Reply<Sent>, mail: Option<Email.Delivery>)

  /** `POST /api/admin/daily-summary`: e-mails the day's summary to
      `adminEmail`, or else to the signed-in admin. */
  function Post(db: Db, caller: Option<SessionUser>, request: Parsed, fx: Effects): (o: PostOutcome)
    ensures o.reply.Fail? && o.reply.code == 401 <==> !IsAdmin(caller)
    ensures o.mail.Some? ==> IsAdmin(caller) && request.Parsed? && TargetInstant(request.body.date, fx).Some?
    ensures o.reply.Fail? && o.reply.code == 404 <==>
              IsAdmin(caller) && request.Parsed? && TargetInstant(request.body.date, fx).Some?
              && caller.value.id.Some? && FindUser(db.users, caller.value.id.value).None?
    ensures o.reply.Ok? <==> o.mail.Some? && o.mail.value.result.success
    ensures o.mail.Some? && !o.mail.value.result.success ==>
              o.reply == Fail(500, SendFailed, o.mail.value.result.error)
    ensures o.mail.Some? ==> caller.value.id.Some? && FindUser(db.users, caller.value.id.value).Some?
    ensures o.mail.Some? ==>
              var t := TargetInstant(request.body.date, fx).value;
              var admin := FindUser(db.users, caller.value.id.value).value;
              var day := DayComplaints(db.complaints, t, fx.tz);
              && admin in db.users && admin.id == caller.value.id.value
              && o.mail.value == Email.SendDailySummaryEmail(fx.smtp,
                   OrElse(request.body.adminEmail, admin.email), day,
                   OrElse(admin.name, "Admin"), fx.dayLabel(UtcDay(t)), fx.transport)
    ensures o.reply.Ok? ==>
              var t := TargetInstant(request.body.date, fx).value;
              && o.reply.code == 200
              && o.reply.body.date == fx.dayLabel(UtcDay(t))
              && o.reply.body.complaintsCount == |DayComplaints(db.complaints, t, fx.tz)|
              && o.reply.body.emailId == o.mail.value.result.messageId
  {
    if !IsAdmin(caller) then PostOutcome(Deny(401, Unauthorized), None)
    else if request.Malformed? then PostOutcome(Fail(500, InternalError, Some(request.message)), None)
    else
      match TargetInstant(request.body.date, fx)
      case None => PostOutcome(Fail(500, InternalError, Some(InvalidTimeValue)), None)
      case Some(t) =>
        var dateString := fx.dayLabel(UtcDay(t));
        var day := DayComplaints(db.complaints, t, fx.tz);
        if caller.value.id.None? then PostOutcome(Fail(500, InternalError, None), None)
        else
          match FindUser(db.users, caller.value.id.value)
          case None => PostOutcome(Deny(404, AdminNotFound), None)
          case Some(admin) =>
            var d := Email.SendDailySummaryEmail(fx.smtp, OrElse(request.body.adminEmail, admin.email),
                       day, OrElse(admin.name, "Admin"), dateString, fx.transport);
            if !d.result.success then PostOutcome(Fail(500, SendFailed, d.result.error), Some(d))
            else PostOutcome(Ok(200, Sent(SentMessage, dateString, |day|, d.result.messageId)), Some(d))
  }

  /** Without mail credentials the POST fails with the configuration error
      and hands nothing to the transport. */
  lemma PostWithoutMailConfig(db: Db, caller: Option<SessionUser>, request: Parsed, fx: Effects)
    requires !Email.Configured(fx.smtp)
    ensures Post(db, caller, request, fx).reply.Fail?
    ensures Post(db, caller, request, fx).mail.Some? ==>
              && Post(db, caller, request, fx).reply == Fail(500, SendFailed, Some(Email.ConfigMissing))
              && Post(db, caller, request, fx).mail.value.handedOver.None?
  {
  }

  /** The summary mailed by the POST and the figures of the GET for the same
      date describe the same complaints. */
  lemma PostAndGetAgree(db: Db, caller: Option<SessionUser>, b: PostBody, fx: Effects)
    requires IsAdmin(caller) && TargetInstant(b.date, fx).Some?
    requires caller.value.id.Some? && FindUser(db.users, caller.value.id.value).Some?
    requires Email.Configured(fx.smtp)
    ensures Get(db, caller, b.date, fx).Ok?
    ensures var mailed := Post(db, caller, Parsed(b), fx).mail.value.handedOver.value.html;
            var data := Get(db, caller, b.date, fx).body;
            && mailed.DailySummaryBody?
            && mailed.date == data.date
            && mailed.total == data.total
            && mailed.submittedCount == data.pendingCount
            && mailed.assignedCount == data.assignedCount
            && mailed.resolvedCount == data.resolvedCount
  {
  }
}
