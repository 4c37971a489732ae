/** Notification e-mails (metronix-app/src/lib/email.ts): the four
    templates, reduced to their subjects and the values they compute, and
    the decisions of `sendEmail`. Markup and the SMTP transport itself are
    outside the model; the transport's reply is a parameter. */
module Email {
  import opened Common
  import opened Model

  const ConfirmationPrefix := "Complaint Submitted - "
  const AssignmentPrefix := "New Complaint Assigned - "
  const StatusUpdatePrefix := "Complaint Status Updated - "
  const DailySummaryPrefix := "Daily Complaint Summary - "
  const NotSpecified := "Not specified"
  const RecentLimit := 5
  const ConfigMissing := "Email configuration not available"

  /** One line of the daily summary's "Recent Complaints" section. */
  datatype RecentLine = RecentLine(title: string, category: string, priority: string, status: string)

  /** The values each template fills into its markup. */
  datatype Body =
    | ConfirmationBody(recipient: string, title: string, category: string, priority: string, location: string, description: string)
    | AssignmentBody(recipient: string, title: string, category: string, priority: string, location: string, description: string)
    | StatusUpdateBody(recipient: string, title: string, previous: string, next: string, note: Option<string>)
    | DailySummaryBody(recipient: string, date: string, total: nat, submittedCount: nat, assignedCount: nat, resolvedCount: nat, recent: Option<seq<RecentLine>>)

  datatype Template = Template(subject: string, html: Body)

  /** The title a subject carries after a given fixed phrase, if it starts with it. */
  function AfterPrefix(subject: string, prefix: string): Option<string>
  {
    if prefix <= subject then Some(subject[|prefix|..]) else None
  }

  /** `complaint.location || 'Not specified'`. */
  function LocationText(location: Option<string>): string
  {
    OrElse(location, NotSpecified)
  }

  function LineOf(c: Complaint): RecentLine
  {
    RecentLine(c.title, c.category, c.priority, c.status)
  }

  /** `emailTemplates.complaintConfirmation`. */
  function ComplaintConfirmation(c: Complaint, citizenName: string): (t: Template)
    ensures AfterPrefix(t.subject, ConfirmationPrefix) == Some(c.title)
    ensures t.html.ConfirmationBody? && t.html.recipient == citizenName
    ensures t.html.location == NotSpecified <==> !Truthy(c.location) || c.location.value == NotSpecified
  {
    assert (ConfirmationPrefix + c.title)[|ConfirmationPrefix|..] == c.title;
    Template(ConfirmationPrefix + c.title,
      ConfirmationBody(citizenName, c.title, c.category, c.priority, LocationText(c.location), c.description))
  }

  /** `emailTemplates.complaintAssignment`. */
  function ComplaintAssignment(c: Complaint, solverName: string): (t: Template)
    ensures AfterPrefix(t.subject, AssignmentPrefix) == Some(c.title)
    ensures t.html.AssignmentBody? && t.html.recipient == solverName
    ensures t.html.location == NotSpecified <==> !Truthy(c.location) || c.location.value == NotSpecified
  {
    assert (AssignmentPrefix + c.title)[|AssignmentPrefix|..] == c.title;
    Template(AssignmentPrefix + c.title,
      AssignmentBody(solverName, c.title, c.category, c.priority, LocationText(c.location), c.description))
  }

  /** `emailTemplates.statusUpdate`: the complaint's stored status is shown as
      the previous one, and the note paragraph only for a truthy note. */
  function StatusUpdate(c: Complaint, citizenName: string, newStatus: string, note: Option<string>): (t: Template)
    ensures AfterPrefix(t.subject, StatusUpdatePrefix) == Some(c.title)
    ensures t.html.StatusUpdateBody?
    ensures t.html.previous == c.status && t.html.next == newStatus
    ensures t.html.note.Some? <==> Truthy(note)
    ensures t.html.note.Some? ==> t.html.note == note
  {
    assert (StatusUpdatePrefix + c.title)[|StatusUpdatePrefix|..] == c.title;
    Template(StatusUpdatePrefix + c.title,
      StatusUpdateBody(citizenName, c.title, c.status, newStatus, if Truthy(note) then note else None))
  }

  /** `emailTemplates.dailySummary`: totals by status, and the first five
      complaints in the order given when the list is not empty. */
  function DailySummary(cs: seq<Complaint>, adminName: string, date: string): (t: Template)
    ensures AfterPrefix(t.subject, DailySummaryPrefix) == Some(date)
    ensures t.html.DailySummaryBody? && t.html.total == |cs|
    ensures t.html.submittedCount == Count(cs, StatusIs(SUBMITTED))
    ensures t.html.assignedCount == Count(cs, StatusIs(ASSIGNED))
    ensures t.html.resolvedCount == Count(cs, StatusIs(RESOLVED))
    ensures t.html.submittedCount + t.html.assignedCount + t.html.resolvedCount <= t.html.total
    ensures t.html.recent.Some? <==> |cs| > 0
    ensures t.html.recent.Some? ==>
              && |t.html.recent.value| <= RecentLimit
              && |t.html.recent.value| == (if |cs| < RecentLimit then |cs| else RecentLimit)
              && forall i :: 0 <= i < |t.html.recent.value| ==> t.html.recent.value[i] == LineOf(cs[i])
  {
    assert (DailySummaryPrefix + date)[|DailySummaryPrefix|..] == date;
    CountDisjoint3(cs, StatusIs(SUBMITTED), StatusIs(ASSIGNED), StatusIs(RESOLVED));
    var first := Take(cs, RecentLimit);
    Template(DailySummaryPrefix + date,
      DailySummaryBody(adminName, date, |cs|,
        Count(cs, StatusIs(SUBMITTED)), Count(cs, StatusIs(ASSIGNED)), Count(cs, StatusIs(RESOLVED)),
        if |cs| > 0 then Some(seq(|first|, i requires 0 <= i < |first| => LineOf(first[i]))) else None))
  }

  /** The four subject phrases are pairwise distinguishable: no subject of one
      kind can be read as a subject of another, whatever the titles. */
  lemma SubjectKindsDistinct(x: string, y: string)
    ensures ConfirmationPrefix + x != AssignmentPrefix + y
    ensures ConfirmationPrefix + x != StatusUpdatePrefix + y
    ensures ConfirmationPrefix + x != DailySummaryPrefix + y
    ensures AssignmentPrefix + x != StatusUpdatePrefix + y
    ensures AssignmentPrefix + x != DailySummaryPrefix + y
    ensures StatusUpdatePrefix + x != DailySummaryPrefix + y
  {
    assert (ConfirmationPrefix + x)[0] == 'C';
    assert (AssignmentPrefix + x)[0] == 'N';
    assert (AssignmentPrefix + y)[0] == 'N';
    assert (StatusUpdatePrefix + y)[0] == 'C';
    assert (DailySummaryPrefix + y)[0] == 'D';
    assert (StatusUpdatePrefix + x)[0] == 'C';
    assert (ConfirmationPrefix + x)[11] == 'u';
    assert (StatusUpdatePrefix + y)[11] == 't';
  }

  // ------------------------------------------------------------- sending

  /** The SMTP credentials read from the environment. */
  datatype SmtpConfig = SmtpConfig(user: Option<string>, pass: Option<string>)

  /** What the mail transport answers: a message id, or the error it threw. */
  datatype Transport = Accepted(messageId: string) | Rejected(message: string)

  /** `{ success, messageId?, error? }` as returned by `sendEmail`. */
  datatype SendResult = SendResult(success: bool, messageId: Option<string>, error: Option<string>)

  /** The message handed to the transport. */
  datatype Envelope = Envelope(from: string, to: string, subject: string, html: Body)

  /** What one `sendEmail` call did: its result, and the message it handed to
      the transport, if it got that far. */
  datatype Delivery = Delivery(result: SendResult, handedOver: Option<Envelope>)

  function FromHeader(user: string): string
  {
    "\"Metronix\" <" + user + ">"
  }

  predicate Configured(cfg: SmtpConfig)
  {
    Truthy(cfg.user) && Truthy(cfg.pass)
  }

  /** `sendEmail`: without credentials nothing is sent; otherwise the message
      is handed to the transport and its error, if any, is returned rather
      than thrown. */
  function SendEmail(cfg: SmtpConfig, to: string, subject: string, html: Body, transport: Transport): (d: Delivery)
    ensures d.handedOver.Some? <==> Configured(cfg)
    ensures d.handedOver.Some? ==> d.handedOver.value == Envelope(FromHeader(cfg.user.value), to, subject, html)
    ensures d.result.success <==> Configured(cfg) && transport.Accepted?
    ensures d.result.success ==> d.result.messageId == Some(transport.messageId) && d.result.error.None?
    ensures !d.result.success ==> d.result.error.Some? && d.result.messageId.None?
    ensures !Configured(cfg) ==> d.result.error == Some(ConfigMissing)
  {
    if !Configured(cfg) then
      Delivery(SendResult(false, None, Some(ConfigMissing)), None)
    else
      var envelope := Envelope(FromHeader(cfg.user.value), to, subject, html);
      match transport
      case Accepted(id) => Delivery(SendResult(true, Some(id), None), Some(envelope))
      case Rejected(message) => Delivery(SendResult(false, None, Some(message)), Some(envelope))
  }

  function Send(cfg: SmtpConfig, to: string, t: Template, transport: Transport): Delivery
  {
    SendEmail(cfg, to, t.subject, t.html, transport)
  }

  function SendComplaintConfirmationEmail(cfg: SmtpConfig, to: string, c: Complaint, citizenName: string, transport: Transport): Delivery
  {
    Send(cfg, to, ComplaintConfirmation(c, citizenName), transport)
  }

  function SendComplaintAssignmentEmail(cfg: SmtpConfig, to: string, c: Complaint, solverName: string, transport: Transport): Delivery
  {
    Send(cfg, to, ComplaintAssignment(c, solverName), transport)
  }

  function SendStatusUpdateEmail(cfg: SmtpConfig, to: string, c: Complaint, citizenName: string, newStatus: string, note: Option<string>, transport: Transport): Delivery
  {
    Send(cfg, to, StatusUpdate(c, citizenName, newStatus, note), transport)
  }

  function SendDailySummaryEmail(cfg: SmtpConfig, to: string, cs: seq<Complaint>, adminName: string, date: string, transport: Transport): Delivery
  {
    Send(cfg, to, DailySummary(cs, adminName, date), transport)
  }

  /** Each convenience sender hands the transport exactly its template's
      subject and body, addressed to the given recipient. */
  lemma ConvenienceSendersForward(cfg: SmtpConfig, to: string, c: Complaint, cs: seq<Complaint>, name: string,
                                  newStatus: string, note: Option<string>, date: string, transport: Transport)
    requires Configured(cfg)
    ensures SendComplaintConfirmationEmail(cfg, to, c, name, transport).handedOver
      == Some(Envelope(FromHeader(cfg.user.value), to, ComplaintConfirmation(c, name).subject, ComplaintConfirmation(c, name).html))
    ensures SendComplaintAssignmentEmail(cfg, to, c, name, transport).handedOver
      == Some(Envelope(FromHeader(cfg.user.value), to, ComplaintAssignment(c, name).subject, ComplaintAssignment(c, name).html))
    ensures SendStatusUpdateEmail(cfg, to, c, name, newStatus, note, transport).handedOver
      == Some(Envelope(FromHeader(cfg.user.value), to, StatusUpdate(c, name, newStatus, note).subject, StatusUpdate(c, name, newStatus, note).html))
    ensures SendDailySummaryEmail(cfg, to, cs, name, date, transport).handedOver
      == Some(Envelope(FromHeader(cfg.user.value), to, DailySummary(cs, name, date).subject, DailySummary(cs, name, date).html))
  {
  }

  /** When every complaint carries one of the three stored statuses, the
      summary's three figures add up to its total. */
  lemma SummaryFiguresPartitionTotal(cs: seq<Complaint>, adminName: string, date: string)
    requires forall i :: 0 <= i < |cs| ==> cs[i].status in Statuses
    ensures var b := DailySummary(cs, adminName, date).html;
      b.submittedCount + b.assignedCount + b.resolvedCount == b.total
  {
    CountPartition3(cs, StatusIs(SUBMITTED), StatusIs(ASSIGNED), StatusIs(RESOLVED));
  }
}
