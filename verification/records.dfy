/** The records the start-form controller reads and writes: templates and their
    submitter slots, submissions, submitters (as stored, and as the in-memory
    object the controller builds), attachments, and the request it receives. */
module Records {
  import opened Wrappers

  /** A value a visitor gave for one form field, as kept in a submitter's `values` JSON. */
  datatype FieldValue = Text(text: string) | Number(n: int) | Flag(b: bool) | Items(items: seq<string>)

  /** Field uuid to answer. */
  type Values = map<string, FieldValue>

  /** One entry of a submitter's `preferences` JSON: a JSON null, a boolean, another
      scalar, or a nested hash of field values (the `default_values` entry). */
  datatype Pref = PNull | PFlag(flag: bool) | PText(text: string) | PValues(values: Values)

  type Preferences = map<string, Pref>
  type Metadata = map<string, string>

  const DefaultValuesKey: string := "default_values"
  const SendEmailKey: string := "send_email"

  /** A submitter role declared by a template (`template.submitters`). */
  datatype Slot = Slot(uuid: string, name: string)

  datatype Template = Template(id: nat, slug: string, accountId: nat, archivedAt: Option<int>, slots: seq<Slot>)

  datatype Source = Link | OtherSource(name: string)

  /** A submission; `id` is None until it is saved. Timestamps are instants on one integer clock. */
  datatype Submission = Submission(id: Option<nat>, templateId: nat, accountId: nat, source: Source,
                                   archivedAt: Option<int>, expireAt: Option<int>, templateSlots: seq<Slot>)

  /** A stored file answer; `uuid` identifies the attachment and is what a field value refers to. */
  datatype Attachment = Attachment(uuid: string, blobKey: string)

  /** A submitter row as stored. */
  datatype SubmitterRecord = SubmitterRecord(
    id: nat, submissionId: nat, accountId: nat, slug: string, uuid: string,
    email: Option<string>, phone: Option<string>, name: Option<string>,
    ip: Option<string>, ua: Option<string>,
    completedAt: Option<int>, declinedAt: Option<int>, externalId: Option<string>,
    values: Values, preferences: Preferences, metadata: Metadata, attachments: seq<Attachment>)

  /** The rows the controller can query. */
  datatype Store = Store(submissions: seq<Submission>, submitters: seq<SubmitterRecord>)

  /** The permitted request parameters: `submitter[email|phone|name|values]`, the
      `resubmit` slug, and the request context (remote ip, user agent). The email
      is the one the controller's normalisation step produced. */
  datatype Request = Request(email: Option<string>, phone: Option<string>, name: Option<string>,
                             values: Option<Values>, resubmit: Option<string>,
                             ip: string, userAgent: string)

  /** The three identifying attributes a visitor is looked up by. */
  datatype LookupKey = Email | Phone | Name

  type LookupAttrs = map<LookupKey, string>

  /** Ruby's `blank?` on a string: empty or whitespace only. */
  predicate IsSpace(c: char) {
    c == ' ' || c == '\t' || c == '\n' || c == '\r' || c == '\U{B}' || c == '\U{C}'
  }

  predicate IsBlank(s: string) {
    forall i | 0 <= i < |s| :: IsSpace(s[i])
  }

  /** `present?` on an optional string parameter. */
  predicate Present(o: Option<string>) {
    o.Some? && !IsBlank(o.value)
  }

  function Get(attrs: LookupAttrs, k: LookupKey): (r: Option<string>)
    ensures r.Some? <==> k in attrs
    ensures r.Some? ==> r.value == attrs[k]
  {
    if k in attrs then Some(attrs[k]) else None
  }

  /** The submitter object the controller works on: a stored row loaded into
      memory, or a new record that is not saved yet (`id` None: `new_record?`). */
  datatype SubmitterState = SubmitterState(
    id: Option<nat>, slug: Option<string>, uuid: Option<string>,
    email: Option<string>, phone: Option<string>, name: Option<string>,
    ip: Option<string>, ua: Option<string>,
    values: Values, preferences: Preferences, metadata: Metadata, attachments: seq<Attachment>,
    completedAt: Option<int>, submission: Option<Submission>, accountId: Option<nat>)

  /** A stored row as loaded, together with its submission. */
  function Loaded(r: SubmitterRecord, sub: Option<Submission>): (s: SubmitterState)
    ensures s.id == Some(r.id) && s.completedAt == r.completedAt && s.values == r.values
  {
    SubmitterState(Some(r.id), Some(r.slug), Some(r.uuid), r.email, r.phone, r.name, r.ip, r.ua,
                   r.values, r.preferences, r.metadata, r.attachments, r.completedAt, sub, Some(r.accountId))
  }

  /** The record initialised when nothing matched: a new record that
      carries exactly the lookup attributes and is otherwise empty. */
  function Initialized(attrs: LookupAttrs): (s: SubmitterState)
    ensures s.id.None? && s.submission.None? && s.completedAt.None?
    ensures s.email == Get(attrs, Email) && s.phone == Get(attrs, Phone) && s.name == Get(attrs, Name)
  {
    SubmitterState(None, None, None, Get(attrs, Email), Get(attrs, Phone), Get(attrs, Name), None, None,
                   map[], map[], map[], [], None, None, None)
  }

  /** What the database hands back on a save: whether it succeeded, and the
      id, slug and submission id it assigns to rows that had none. */
  datatype Persistence = Persistence(saveSucceeds: bool, newSubmitterId: nat, newSubmissionId: nat, newSlug: string)

  /** The submitter after a successful `save`: a new submitter gets an id and a
      slug, a new submission (saved with it) gets an id, nothing else changes. */
  function Persisted(s: SubmitterState, p: Persistence): (r: SubmitterState)
    ensures r.id.Some? && r.slug.Some?
    ensures s.id.Some? ==> r.id == s.id
    ensures s.slug.Some? ==> r.slug == s.slug
    ensures s.submission.Some? <==> r.submission.Some?
    ensures s.submission.Some? ==>
      r.submission.value.id.Some? && r.submission.value.accountId == s.submission.value.accountId
    ensures s.submission.Some? && s.submission.value.id.Some? ==> r.submission == s.submission
    ensures s.submission.Some? ==> r.submission.value == s.submission.value.(id := r.submission.value.id)
    ensures r.(id := s.id, slug := s.slug, submission := s.submission) == s
  {
    var sub := match s.submission
      case None => None
      case Some(m) => Some(if m.id.Some? then m else m.(id := Some(p.newSubmissionId)));
    s.(id := Some(s.id.GetOr(p.newSubmitterId)), slug := Some(s.slug.GetOr(p.newSlug)), submission := sub)
  }
}
