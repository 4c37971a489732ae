/** The citizen's complaint form
    (metronix-app/src/app/citizen/dashboard/CitizenDashboardClient.tsx): the
    draft and its attachment list, the multipart fields it sends to
    `POST /api/complaints`, the reset after a successful submission, the
    category labels and the badge colours. Coordinates are numbers on the
    client; their decimal rendering is the parameter `show`. */
module CitizenForm {
  import opened Common
  import opened Model
  import opened ComplaintsRoute

  /** The categories the form offers, in its order. */
  const ClientCategories: seq<string> := ["ROADS", "WATER", "ELECTRICITY", "SANITATION", "NOISE", "PARKING", "OTHER"]

  /** The priorities the form offers. */
  const ClientPriorities: seq<string> := [LOW, NORMAL, HIGH]

  /** The attachment cap and the dropzone's per-file size limit. */
  const MaxFiles: nat := 3
  const DropMaxSize: nat := 10 * 1024 * 1024

  /** `formData`: the typed fields; `lat`/`lng` are null until the browser reports a position. */
  datatype FormState = FormState(
    title: string,
    description: string,
    category: string,
    priority: string,
    location: string,
    lat: Option<real>,
    lng: Option<real>)

  /** The form with its attachment list. */
  datatype Draft = Draft(form: FormState, files: seq<Upload>)

  /** The state the form opens in and returns to. */
  const InitialForm := FormState("", "", "", NORMAL, "", None, None)
  const InitialDraft := Draft(InitialForm, [])

  // ----------------------------------------------------------- attachments

  /** `onDrop`: the accepted files are appended and the first three kept. */
  function OnDrop(files: seq<Upload>, accepted: seq<Upload>): (r: seq<Upload>)
    ensures |r| == if |files| + |accepted| < MaxFiles then |files| + |accepted| else MaxFiles
    ensures r == (files + accepted)[..|r|]
  {
    Take(files + accepted, MaxFiles)
  }

  /** `removeFile(index)`: every file except the one at `index`; an index
      outside the list removes nothing. */
  function RemoveAt(files: seq<Upload>, index: int): (r: seq<Upload>)
    ensures 0 <= index < |files| ==> |r| == |files| - 1
    ensures 0 <= index < |files| ==> forall k :: 0 <= k < |r| ==> r[k] == (if k < index then files[k] else files[k + 1])
    ensures !(0 <= index < |files|) ==> r == files
  {
    if 0 <= index < |files| then files[..index] + files[index + 1..] else files
  }

  /** A change to the attachment list. */
  datatype FileEvent = Drop(accepted: seq<Upload>) | Remove(index: int)

  function Step(files: seq<Upload>, e: FileEvent): seq<Upload>
  {
    match e
    case Drop(accepted) => OnDrop(files, accepted)
    case Remove(index) => RemoveAt(files, index)
  }

  function Replay(files: seq<Upload>, events: seq<FileEvent>): seq<Upload>
    decreases |events|
  {
    if |events| == 0 then files else Replay(Step(files, events[0]), events[1..])
  }

  /** Whatever is dropped and removed, in any order, the list never holds
      more than three files, and each is a file some drop accepted. */
  lemma {:induction false} AttachmentsStayCapped(files: seq<Upload>, events: seq<FileEvent>)
    requires |files| <= MaxFiles
    decreases |events|
    ensures |Replay(files, events)| <= MaxFiles
    ensures forall f :: f in Replay(files, events) ==>
              f in files || exists i :: 0 <= i < |events| && events[i].Drop? && f in events[i].accepted
  {
    if |events| > 0 {
      var next := Step(files, events[0]);
      AttachmentsStayCapped(next, events[1..]);
      forall f | f in Replay(files, events)
        ensures f in files || exists i :: 0 <= i < |events| && events[i].Drop? && f in events[i].accepted
      {
        if f in next {
          match events[0]
          case Drop(accepted) =>
            assert f in files + accepted;
            if f !in files {
              assert events[0].Drop? && f in events[0].accepted;
            }
          case Remove(index) =>
            if 0 <= index < |files| {
              assert next == files[..index] + files[index + 1..];
              assert f in files[..index] || f in files[index + 1..];
            }
        } else {
          var i :| 0 <= i < |events[1..]| && events[1..][i].Drop? && f in events[1..][i].accepted;
          assert events[i + 1] == events[1..][i];
        }
      }
    }
  }

  // ------------------------------------------------------------ submission

  /** JavaScript truthiness of a coordinate: present and non-zero. */
  predicate CoordinateSent(x: Option<real>)
  {
    x.Some? && x.value != 0.0
  }

  /** `handleSubmit`'s multipart body: the five text fields always, `lat`
      and `lng` only when truthy, and one `media` entry per file, in order. */
  function FormFields(d: Draft, show: real -> string): (f: SubmitForm)
    ensures f.title == Some(d.form.title) && f.description == Some(d.form.description)
    ensures f.category == Some(d.form.category) && f.priority == Some(d.form.priority)
    ensures f.location == Some(d.form.location)
    ensures f.lat.Some? <==> CoordinateSent(d.form.lat)
    ensures f.lng.Some? <==> CoordinateSent(d.form.lng)
    ensures CoordinateSent(d.form.lat) ==> f.lat == Some(show(d.form.lat.value))
    ensures CoordinateSent(d.form.lng) ==> f.lng == Some(show(d.form.lng.value))
    ensures f.media == d.files
  {
    SubmitForm(
      Some(d.form.title), Some(d.form.description), Some(d.form.category),
      Some(d.form.priority), Some(d.form.location),
      if CoordinateSent(d.form.lat) then Some(show(d.form.lat.value)) else None,
      if CoordinateSent(d.form.lng) then Some(show(d.form.lng.value)) else None,
      d.files)
  }

  /** After the reply: a successful submission resets the form and empties
      the attachment list; a failed one leaves the draft as it was. */
  function AfterSubmit(d: Draft, ok: bool): (r: Draft)
    ensures ok ==> r.files == [] && r.form == FormState("", "", "", NORMAL, "", None, None)
    ensures !ok ==> r == d
  {
    if ok then InitialDraft else d
  }

  /** A draft filled in through the form's own pickers passes the handler's
      field checks exactly when title, description and category are
      non-empty, which is the browser's own gate; whitespace is not
      trimmed, so a title of one space passes. */
  lemma PickedDraftValidation(d: Draft, show: real -> string)
    requires d.form.category == "" || d.form.category in ClientCategories
    requires d.form.priority in ClientPriorities
    ensures FieldError(FormFields(d, show)).None? <==> Submits(d)
    ensures FieldError(FormFields(d, show)).Some? ==> FieldError(FormFields(d, show)) == Some(MissingFields)
  {
  }

  /** The browser's `required` constraint on the title, description and
      category controls: `handleSubmit` runs only when all three are
      non-empty. */
  predicate Submits(d: Draft)
  {
    d.form.title != "" && d.form.description != "" && d.form.category != ""
  }

  /** Every draft the page lets through, with category and priority chosen
      through its pickers, passes the handler's field checks. */
  lemma SubmittedDraftsPass(d: Draft, show: real -> string)
    requires Submits(d)
    requires d.form.category == "" || d.form.category in ClientCategories
    requires d.form.priority in ClientPriorities
    ensures FieldError(FormFields(d, show)).None?
  {
    PickedDraftValidation(d, show);
  }

  /** The form as it opens, and as it is reset, would be refused by the
      handler for missing fields; the browser does not send it. */
  lemma InitialDraftRefused(show: real -> string)
    ensures !Submits(InitialDraft) && !Submits(AfterSubmit(InitialDraft, true))
    ensures FieldError(FormFields(InitialDraft, show)) == Some(MissingFields)
    ensures FieldError(FormFields(AfterSubmit(InitialDraft, true), show)) == Some(MissingFields)
  {
  }

  /** Files the dropzone accepted are never too large for the handler: the
      two limits are the same 10 MiB. */
  lemma DropzoneMatchesServerLimit(d: Draft, show: real -> string, uuid: nat -> string, extname: string -> string)
    requires forall i :: 0 <= i < |d.files| ==> d.files[i].size <= DropMaxSize
    ensures DropMaxSize == MaxUploadBytes
    ensures !StoreUploads(FormFields(d, show).media, 0, uuid, extname).tooLarge
  {
  }

  /** A coordinate of exactly zero is not sent, so the equator or the
      prime meridian is stored as no coordinate at all. */
  lemma ZeroCoordinateDropped(d: Draft, show: real -> string)
    requires d.form.lat == Some(0.0)
    ensures FormFields(d, show).lat.None?
  {
  }

  // ---------------------------------------------------------------- labels

  function LowerChar(ch: char): char
  {
    if 'A' <= ch <= 'Z' then (ch as int + 32) as char else ch
  }

  function UpperChar(ch: char): char
  {
    if 'a' <= ch <= 'z' then (ch as int - 32) as char else ch
  }

  function Lower(s: string): (r: string)
    ensures |r| == |s|
    ensures forall k :: 0 <= k < |s| ==> r[k] == LowerChar(s[k])
  {
    seq(|s|, k requires 0 <= k < |s| => LowerChar(s[k]))
  }

  function Upper(s: string): (r: string)
    ensures |r| == |s|
    ensures forall k :: 0 <= k < |s| ==> r[k] == UpperChar(s[k])
  {
    seq(|s|, k requires 0 <= k < |s| => UpperChar(s[k]))
  }

  /** `category.charAt(0) + category.slice(1).toLowerCase()`; case mapping
      beyond ASCII letters is not modelled. */
  function CategoryLabel(category: string): (r: string)
    ensures |r| == |category|
    ensures |category| > 0 ==> r[0] == category[0]
    ensures forall k :: 1 <= k < |category| ==> r[k] == LowerChar(category[k])
  {
    if |category| == 0 then "" else [category[0]] + Lower(category[1..])
  }

  /** Upper-case ASCII letters and underscores only, as every category token is. */
  predicate TokenShaped(s: string)
  {
    forall k :: 0 <= k < |s| ==> 'A' <= s[k] <= 'Z' || s[k] == '_'
  }

  /** Upper-casing a label gives back its token, so distinct categories
      never share a label. */
  lemma LabelRoundTrip(category: string)
    requires TokenShaped(category)
    ensures Upper(CategoryLabel(category)) == category
  {
    var r := Upper(CategoryLabel(category));
    forall k | 0 <= k < |category|
      ensures r[k] == category[k]
    {
    }
  }

  lemma LabelsDistinct(a: string, b: string)
    requires TokenShaped(a) && TokenShaped(b) && a != b
    ensures CategoryLabel(a) != CategoryLabel(b)
  {
    LabelRoundTrip(a);
    LabelRoundTrip(b);
  }

  /** The form offers exactly the categories the handler accepts, and only
      priorities it accepts. */
  lemma ClientListsMatchServer()
    ensures ClientCategories == Categories
    ensures forall p :: p in ClientPriorities <==> p in Priorities
    ensures forall c :: c in ClientCategories ==> TokenShaped(c)
  {
  }

  // ---------------------------------------------------------------- badges

  /** The priority badge: `PRIORITIES.find(...)?.color || gray`. */
  function PriorityTone(priority: string): (t: Tone)
    ensures t == Gray <==> priority !in Priorities
  {
    if priority == LOW then Green
    else if priority == NORMAL then Blue
    else if priority == HIGH then Orange
    else Gray
  }

  /** The status badge: `STATUS_COLORS[status] || gray`. */
  function StatusTone(status: string): (t: Tone)
    ensures t == Gray <==> status !in Statuses
  {
    if status == SUBMITTED then Blue
    else if status == ASSIGNED then Yellow
    else if status == RESOLVED then Green
    else Gray
  }

  /** Each known priority and status has its own colour. */
  lemma TonesDistinct()
    ensures PriorityTone(LOW) != PriorityTone(NORMAL) && PriorityTone(NORMAL) != PriorityTone(HIGH) && PriorityTone(LOW) != PriorityTone(HIGH)
    ensures StatusTone(SUBMITTED) != StatusTone(ASSIGNED) && StatusTone(ASSIGNED) != StatusTone(RESOLVED) && StatusTone(SUBMITTED) != StatusTone(RESOLVED)
  {
  }
}
