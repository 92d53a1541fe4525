/** Who is this visitor? The candidate pool of `find_or_initialize_submitter`,
    its newest-first order, the first-match-or-new-record decision, and the
    lookup of a completed submitter by email used by the `completed` page. */
module Lookup {
  import opened Wrappers
  import opened Records

  function Field(req: Request, k: LookupKey): Option<string> {
    match k
    case Email => req.email
    case Phone => req.phone
    case Name => req.name
  }

  /** The lookup parameters (`submitter_params` without `values`) after
      `compact_blank`: an attribute is kept exactly when it was sent and is not blank. */
  function LookupAttributes(req: Request): (attrs: LookupAttrs)
    ensures forall k :: k in attrs <==> Present(Field(req, k))
    ensures forall k | k in attrs :: Some(attrs[k]) == Field(req, k)
  {
    var withEmail: LookupAttrs := if Present(req.email) then map[Email := req.email.value] else map[];
    var withPhone := if Present(req.phone) then withEmail[Phone := req.phone.value] else withEmail;
    if Present(req.name) then withPhone[Name := req.name.value] else withPhone
  }

  /** Submission `id` belongs to template `t`. */
  predicate OfTemplate(store: Store, t: Template, id: nat) {
    exists j | 0 <= j < |store.submissions| ::
      store.submissions[j].id == Some(id) && store.submissions[j].templateId == t.id
  }

  /** Submission `id` belongs to `t`, is not archived and has no expiry or one not before `now`. */
  predicate OpenSubmission(store: Store, t: Template, now: int, id: nat) {
    exists j | 0 <= j < |store.submissions| ::
      && store.submissions[j].id == Some(id)
      && store.submissions[j].templateId == t.id
      && store.submissions[j].archivedAt.None?
      && (store.submissions[j].expireAt.None? || store.submissions[j].expireAt.value >= now)
  }

  /** A submitter the link flow may match: in an open submission of the template,
      not declined, not created through another channel (no external id), and,
      when a resubmission was asked for, not completed either. */
  predicate Candidate(store: Store, t: Template, now: int, resubmit: bool, r: SubmitterRecord) {
    && OpenSubmission(store, t, now, r.submissionId)
    && r.declinedAt.None?
    && r.externalId.None?
    && (resubmit ==> r.completedAt.None?)
  }

  function Candidates(store: Store, t: Template, now: int, resubmit: bool, rs: seq<SubmitterRecord>)
    : (c: seq<SubmitterRecord>)
    ensures forall r :: r in c <==> r in rs && Candidate(store, t, now, resubmit, r)
  {
    if rs == [] then []
    else
      var rest := Candidates(store, t, now, resubmit, rs[1..]);
      if Candidate(store, t, now, resubmit, rs[0]) then [rs[0]] + rest else rest
  }

  /** Ordered by descending id, as the pool query asks. */
  predicate NewestFirst(s: seq<SubmitterRecord>) {
    forall i, j | 0 <= i < j < |s| :: s[i].id >= s[j].id
  }

  function InsertByIdDesc(x: SubmitterRecord, s: seq<SubmitterRecord>): seq<SubmitterRecord> {
    if s == [] || x.id >= s[0].id then [x] + s
    else [s[0]] + InsertByIdDesc(x, s[1..])
  }

  /** Inserting keeps exactly the same records plus `x`. */
  lemma {:induction false} InsertKeepsRecords(x: SubmitterRecord, s: seq<SubmitterRecord>)
    ensures multiset(InsertByIdDesc(x, s)) == multiset(s) + multiset{x}
  {
    if s != [] && x.id < s[0].id {
      InsertKeepsRecords(x, s[1..]);
      assert s == [s[0]] + s[1..];
    }
  }

  /** Inserting into a newest-first sequence keeps it newest first. */
  lemma {:induction false} InsertKeepsOrder(x: SubmitterRecord, s: seq<SubmitterRecord>)
    requires NewestFirst(s)
    ensures NewestFirst(InsertByIdDesc(x, s))
  {
    if s != [] && x.id < s[0].id {
      var rest := InsertByIdDesc(x, s[1..]);
      InsertKeepsOrder(x, s[1..]);
      InsertKeepsRecords(x, s[1..]);
      forall y | y in rest ensures y.id <= s[0].id {
        assert y in multiset(s[1..]) + multiset{x};
      }
      var r := [s[0]] + rest;
      forall i, j | 0 <= i < j < |r| ensures r[i].id >= r[j].id {
        if i == 0 { assert r[j] in rest; }
      }
    }
  }

  function OrderByIdDesc(s: seq<SubmitterRecord>): (r: seq<SubmitterRecord>)
    ensures NewestFirst(r)
    ensures multiset(r) == multiset(s)
  {
    if s == [] then []
    else
      var rest := OrderByIdDesc(s[1..]);
      InsertKeepsOrder(s[0], rest);
      InsertKeepsRecords(s[0], rest);
      assert s == [s[0]] + s[1..];
      InsertByIdDesc(s[0], rest)
  }

  /** The candidate pool, newest first. */
  function Pool(store: Store, t: Template, now: int, resubmit: bool): (p: seq<SubmitterRecord>)
    ensures NewestFirst(p)
    ensures forall r :: r in p <==> r in store.submitters && Candidate(store, t, now, resubmit, r)
  {
    var c := Candidates(store, t, now, resubmit, store.submitters);
    var p := OrderByIdDesc(c);
    assert forall r :: r in p <==> r in multiset(c);
    p
  }

  /** Every kept lookup attribute equals the submitter's column of that name. */
  predicate Matches(r: SubmitterRecord, attrs: LookupAttrs) {
    && (Email in attrs ==> r.email == Some(attrs[Email]))
    && (Phone in attrs ==> r.phone == Some(attrs[Phone]))
    && (Name in attrs ==> r.name == Some(attrs[Name]))
  }

  /** Index of the first submitter in `p` that matches. */
  function FirstMatch(p: seq<SubmitterRecord>, attrs: LookupAttrs): (i: Option<nat>)
    ensures i.Some? ==> i.value < |p| && Matches(p[i.value], attrs)
    ensures i.Some? ==> forall j | 0 <= j < i.value :: !Matches(p[j], attrs)
    ensures i.None? ==> forall j | 0 <= j < |p| :: !Matches(p[j], attrs)
  {
    if p == [] then None
    else if Matches(p[0], attrs) then Some(0)
    else
      match FirstMatch(p[1..], attrs)
      case None => None
      case Some(k) => Some(k + 1)
  }

  /** The outcome of the lookup: a stored submitter, a new record, or the
      argument error raised when no lookup attribute is left to search by. */
  datatype MatchResult = Existing(record: SubmitterRecord) | NewRecord(attrs: LookupAttrs) | NoAttributes

  /** The first match in a newest-first sequence has the largest id among all matches. */
  lemma FirstMatchIsNewest(p: seq<SubmitterRecord>, attrs: LookupAttrs, i: nat, r: SubmitterRecord)
    requires NewestFirst(p)
    requires i < |p| && forall j | 0 <= j < i :: !Matches(p[j], attrs)
    requires r in p && Matches(r, attrs)
    ensures r.id <= p[i].id
  {
  }

  /** Finding or initialising the submitter: the newest candidate whose non-blank
      lookup attributes all match, or else a new record carrying exactly those
      attributes. With every attribute blank the keyword splat passes no
      argument at all, and the call raises an argument error instead. */
  function FindOrInitialize(store: Store, t: Template, now: int, resubmit: bool, attrs: LookupAttrs)
    : (m: MatchResult)
    ensures m.Existing? ==>
      && m.record in store.submitters
      && Candidate(store, t, now, resubmit, m.record)
      && Matches(m.record, attrs)
    ensures m.Existing? ==>
      forall r | r in store.submitters && Candidate(store, t, now, resubmit, r) && Matches(r, attrs) ::
        r.id <= m.record.id
    ensures m.NoAttributes? <==> attrs == map[]
    ensures m.NewRecord? <==>
      attrs != map[] &&
      forall r | r in store.submitters && Candidate(store, t, now, resubmit, r) :: !Matches(r, attrs)
    ensures m.NewRecord? ==> m.attrs == attrs
  {
    if attrs == map[] then NoAttributes
    else
      var p := Pool(store, t, now, resubmit);
      match FirstMatch(p, attrs)
      case None => NewRecord(attrs)
      case Some(i) =>
        forall r | r in store.submitters && Candidate(store, t, now, resubmit, r) && Matches(r, attrs)
          ensures r.id <= p[i].id
        {
          FirstMatchIsNewest(p, attrs, i, r);
        }
        Existing(p[i])
  }

  /** A request whose email, phone and name are all missing or blank raises
      before any candidate is looked at, whatever the pool holds. */
  lemma BlankLookupRaises(store: Store, t: Template, now: int, resubmit: bool, req: Request)
    requires !Present(req.email) && !Present(req.phone) && !Present(req.name)
    ensures FindOrInitialize(store, t, now, resubmit, LookupAttributes(req)) == NoAttributes
  {
    var attrs := LookupAttributes(req);
    forall k | true ensures k !in attrs {
      match k
      case Email =>
      case Phone =>
      case Name =>
    }
    assert attrs.Keys == {};
  }

  /** The `completed` page's condition: a completed submitter of one of the
      template's submissions, with exactly this email (a missing email matches a
      submitter without one). */
  predicate CompletedWith(store: Store, t: Template, email: Option<string>, r: SubmitterRecord) {
    OfTemplate(store, t, r.submissionId) && r.completedAt.Some? && r.email == email
  }

  function FirstCompleted(store: Store, t: Template, email: Option<string>, rs: seq<SubmitterRecord>)
    : (r: Option<SubmitterRecord>)
    ensures r.Some? ==> r.value in rs && CompletedWith(store, t, email, r.value)
    ensures r.None? ==> forall x | x in rs :: !CompletedWith(store, t, email, x)
  {
    if rs == [] then None
    else if CompletedWith(store, t, email, rs[0]) then Some(rs[0])
    else FirstCompleted(store, t, email, rs[1..])
  }

  /** `completed`: some completed submitter of the template with the email from
      the query string, or None where the controller raises record-not-found (404). */
  function CompletedSubmitter(store: Store, t: Template, email: Option<string>): (r: Option<SubmitterRecord>)
    ensures r.Some? ==> r.value in store.submitters && CompletedWith(store, t, email, r.value)
    ensures r.None? <==> forall x | x in store.submitters :: !CompletedWith(store, t, email, x)
  {
    FirstCompleted(store, t, email, store.submitters)
  }
}
