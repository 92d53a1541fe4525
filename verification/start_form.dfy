/** The start-form controller: the `show` page's draft, the in-memory submitter
    that `update` finds or builds and then changes in place, and `update`'s
    decision flow from lookup to save and webhook jobs. */
module StartForm {
  import opened Wrappers
  import opened Records
  import opened Lookup
  import opened Attributes
  import opened Webhooks

  /** What `update` answers: a redirect, the form rendered again, or an
      unhandled exception. */
  datatype Response =
    | RedirectToStartForm(templateSlug: string)
    | RedirectToCompleted(templateSlug: string, email: Option<string>)
    | RenderShowNotFound
    | RenderShowInvalid
    | RedirectToSubmitForm(submitterSlug: string)
    | ServerError(fault: Fault)

  /** The submitter object of `update`, whose attributes are assigned and merged in place. */
  class Submitter {
    var id: Option<nat>
    var slug: Option<string>
    var uuid: Option<string>
    var email: Option<string>
    var phone: Option<string>
    var name: Option<string>
    var ip: Option<string>
    var ua: Option<string>
    var values: Values
    var preferences: Preferences
    var metadata: Metadata
    var attachments: seq<Attachment>
    var completedAt: Option<int>
    var submission: Option<Submission>
    var accountId: Option<nat>

    function State(): SubmitterState
      reads this
    {
      SubmitterState(id, slug, uuid, email, phone, name, ip, ua, values, preferences, metadata,
                     attachments, completedAt, submission, accountId)
    }

    /** A stored submitter loaded with its submission. */
    constructor Load(r: SubmitterRecord, sub: Option<Submission>)
      ensures State() == Loaded(r, sub)
    {
      id, slug, uuid := Some(r.id), Some(r.slug), Some(r.uuid);
      email, phone, name := r.email, r.phone, r.name;
      ip, ua := r.ip, r.ua;
      values, preferences, metadata, attachments := r.values, r.preferences, r.metadata, r.attachments;
      completedAt, submission, accountId := r.completedAt, sub, Some(r.accountId);
    }

    /** A new record with the lookup attributes. */
    constructor Initialize(attrs: LookupAttrs)
      ensures State() == Initialized(attrs)
    {
      id, slug, uuid := None, None, None;
      email, phone, name := Get(attrs, Email), Get(attrs, Phone), Get(attrs, Name);
      ip, ua := None, None;
      values, preferences, metadata, attachments := map[], map[], map[], [];
      completedAt, submission, accountId := None, None, None;
    }

    /** An existing submitter's values get the new values merged in place. */
    method MergeValues(newValues: Values)
      modifies this
      ensures State() == old(State()).(values := Overlay(old(values), newValues))
    {
      values := Overlay(values, newValues);
    }

    /** The copy loop of `assign_submission_attributes`: append a copy of each
      given attachment whose uuid is one of this submitter's values (collected
      in order, then appended). */
    method CarryAttachments(from: seq<Attachment>)
      modifies this
      ensures State() == old(State()).(attachments := old(attachments) + CarriedAttachments(from, old(values)))
    {
      var carried: seq<Attachment> := [];
      var i := 0;
      while i < |from|
        invariant 0 <= i <= |from|
        invariant carried == CarriedAttachments(from[..i], values)
        modifies {}
      {
        assert from[..i + 1] == from[..i] + [from[i]];
        CarriedAppend(from[..i], from[i], values);
        if Referenced(from[i], values) {
          carried := carried + [from[i]];
        }
        i := i + 1;
      }
      assert from[..i] == from;
      attachments := attachments + carried;
    }

    /** The `assign_attributes` call of `assign_submission_attributes`: slot,
      ip, user agent, values, preferences and metadata. */
    method AssignAttributes(slot: string, remoteIp: string, userAgent: string,
                            newValues: Values, prefs: Preferences, meta: Metadata)
      modifies this
      ensures State() == old(State()).(uuid := Some(slot), ip := Some(remoteIp), ua := Some(userAgent),
                                       values := newValues, preferences := prefs, metadata := meta)
    {
      uuid, ip, ua := Some(slot), Some(remoteIp), Some(userAgent);
      values, preferences, metadata := newValues, prefs, meta;
    }

    /** The end of `assign_submission_attributes`: join a new `link`
      submission unless already in one, and take the submission's account. */
    method JoinSubmission(t: Template)
      modifies this
      ensures State() == old(State()).(submission := Some(old(submission).GetOr(LinkSubmission(t))),
                                       accountId := Some(old(submission).GetOr(LinkSubmission(t)).accountId))
    {
      if submission.None? {
        submission := Some(LinkSubmission(t));
      }
      accountId := Some(submission.value.accountId);
    }

    /** `assign_submission_attributes`: on success the new state is
      `AssignedState` of the old one; otherwise the exception it raises. */
    method AssignSubmissionAttributes(t: Template, undefined: seq<Slot>, rs: Option<SubmitterRecord>,
                                      newValues: Values, remoteIp: string, userAgent: string)
      returns (fault: Option<Fault>)
      modifies this
      ensures var a := AssignedState(old(State()), t, undefined, rs, newValues, remoteIp, userAgent);
        && (fault.None? <==> a.Ok?)
        && (a.Ok? ==> State() == a.value)
        && (a.Err? ==> fault == Some(a.error))
    {
      var defaults := ReadDefaults(rs);
      if defaults.Err? {
        return Some(defaults.error);
      }
      var merged := Overlay(defaults.value.Contents(), newValues);
      var slot := DefaultSlotUuid(undefined, t.slots);
      if slot.None? {
        return Some(NoSlot);
      }
      AssignAttributes(slot.value, remoteIp, userAgent, merged,
                       InheritedPreferences(rs, defaults.value, merged), InheritedMetadata(rs));
      if |values| > 0 {
        if rs.None? {
          return Some(NoResubmitSubmitter);
        }
        CarryAttachments(rs.value.attachments);
      }
      JoinSubmission(t);
      fault := None;
    }

    /** `save`: the database's verdict; on success the assigned ids and slug. */
    method Save(p: Persistence) returns (ok: bool)
      modifies this
      ensures ok == p.saveSucceeds
      ensures State() == if ok then Persisted(old(State()), p) else old(State())
    {
      ok := p.saveSucceeds;
      if ok {
        var saved := Persisted(State(), p);
        id, slug, submission := saved.id, saved.slug, saved.submission;
      }
    }
  }

  /** The submission a stored submitter belongs to. */
  function SubmissionOf(store: Store, id: nat): (r: Option<Submission>)
    ensures r.Some? ==> r.value in store.submissions && r.value.id == Some(id)
    ensures r.None? <==> forall s | s in store.submissions :: s.id != Some(id)
  {
    FirstSubmission(store.submissions, id)
  }

  function FirstSubmission(subs: seq<Submission>, id: nat): (r: Option<Submission>)
    ensures r.Some? ==> r.value in subs && r.value.id == Some(id)
    ensures r.None? ==> forall s | s in subs :: s.id != Some(id)
  {
    if subs == [] then None
    else if subs[0].id == Some(id) then Some(subs[0])
    else FirstSubmission(subs[1..], id)
  }

  /** The lookup outcome for this request's template and lookup attributes. */
  function MatchFor(t: Template, store: Store, now: int, req: Request): MatchResult {
    FindOrInitialize(store, t, now, Present(req.resubmit), LookupAttributes(req))
  }

  /** The values sent with the request, or none. */
  function NewValues(req: Request): Values {
    req.values.GetOr(map[])
  }

  /** The new submitter `assign_submission_attributes` produces for this request. */
  function NewSubmitterFor(t: Template, store: Store, undefined: seq<Slot>, req: Request): Result<SubmitterState, Fault> {
    AssignedState(Initialized(LookupAttributes(req)), t, undefined, ResubmitSubmitter(store, t, req.resubmit),
                  NewValues(req), req.ip, req.userAgent)
  }

  /** `update`. `undefined` is what `filter_undefined_submitters` returns for
      the template, `now` is the current time, `p` is what the database does on
      save, `hooks` are the registered webhook URLs. Returns the response, the
      jobs enqueued, and the submitter as saved (None when nothing was saved). */
  method Update(t: Template, store: Store, undefined: seq<Slot>, now: int, req: Request,
                p: Persistence, hooks: seq<WebhookUrl>)
    returns (resp: Response, jobs: seq<Job>, saved: Option<SubmitterState>)
    // something is saved only on a successful save, which redirects to the form
    ensures saved.Some? <==> resp.RedirectToSubmitForm?
    ensures saved.Some? ==> p.saveSucceeds && saved.value.slug == Some(resp.submitterSlug)
    // webhook jobs only for a new submitter that was saved
    ensures jobs != [] ==> saved.Some? && MatchFor(t, store, now, req).NewRecord?
    // an archived template redirects to the start form before any lookup
    ensures t.archivedAt.Some? ==> resp == RedirectToStartForm(t.slug) && jobs == [] && saved.None?
    // email, phone and name all blank: the lookup raises an argument error
    ensures t.archivedAt.None? && LookupAttributes(req) == map[] ==>
      resp == ServerError(NoLookupAttributes) && jobs == [] && saved.None?
    // a matched, completed submitter redirects to the completed page with the lookup email
    ensures t.archivedAt.None? && MatchFor(t, store, now, req).Existing?
              && MatchFor(t, store, now, req).record.completedAt.Some? ==>
      resp == RedirectToCompleted(t.slug, req.email) && jobs == [] && saved.None?
    // a new visitor while several slots are undefined gets the not-found message
    ensures t.archivedAt.None? && MatchFor(t, store, now, req).NewRecord? && |undefined| > 1 ==>
      resp == RenderShowNotFound && jobs == [] && saved.None?
    // an open existing submitter has the new values merged into its own
    ensures t.archivedAt.None? && MatchFor(t, store, now, req).Existing?
              && MatchFor(t, store, now, req).record.completedAt.None? ==>
      var r := MatchFor(t, store, now, req).record;
      && jobs == []
      && (p.saveSucceeds ==>
            saved == Some(Persisted(Loaded(r, SubmissionOf(store, r.submissionId))
                                      .(values := Overlay(r.values, NewValues(req))), p)))
      && (!p.saveSucceeds ==> resp == RenderShowInvalid)
    // a new submitter gets its assigned attributes, is saved, and announces the submission
    ensures t.archivedAt.None? && MatchFor(t, store, now, req).NewRecord? && |undefined| <= 1 ==>
      var a := NewSubmitterFor(t, store, undefined, req);
      && (a.Err? ==> resp == ServerError(a.error) && jobs == [] && saved.None?)
      && (a.Ok? && !p.saveSucceeds ==> resp == RenderShowInvalid && jobs == [] && saved.None?)
      && (a.Ok? && p.saveSucceeds ==>
            && saved == Some(Persisted(a.value, p))
            && jobs == JobsFor(SubscribedUrls(hooks, a.value.accountId.value),
                               Persisted(a.value, p).submission.value.id.value))
  {
    jobs, saved := [], None;
    if t.archivedAt.Some? {
      return RedirectToStartForm(t.slug), jobs, saved;
    }
    var lookupAttrs := LookupAttributes(req);
    var newValues := NewValues(req);
    var found := FindOrInitialize(store, t, now, Present(req.resubmit), lookupAttrs);
    var submitter: Submitter;
    if found.NoAttributes? {
      return ServerError(NoLookupAttributes), jobs, saved;
    } else if found.Existing? {
      submitter := new Submitter.Load(found.record, SubmissionOf(store, found.record.submissionId));
    } else {
      submitter := new Submitter.Initialize(found.attrs);
    }
    if submitter.completedAt.Some? {
      return RedirectToCompleted(t.slug, req.email), jobs, saved;
    }
    if |undefined| > 1 && submitter.id.None? {
      return RenderShowNotFound, jobs, saved;
    }
    var isNewRecord := submitter.id.None?;
    if isNewRecord {
      var resubmitter := ResubmitSubmitter(store, t, req.resubmit);
      var fault := submitter.AssignSubmissionAttributes(t, undefined, resubmitter, newValues, req.ip, req.userAgent);
      if fault.Some? {
        return ServerError(fault.value), jobs, saved;
      }
    } else {
      submitter.MergeValues(newValues);
    }
    var ok := submitter.Save(p);
    if ok {
      if isNewRecord {
        jobs := EnqueueCreatedWebhooks(hooks, submitter.accountId.value, submitter.submission.value.id.value);
      }
      saved := Some(submitter.State());
      resp := RedirectToSubmitForm(submitter.slug.value);
    } else {
      resp := RenderShowInvalid;
    }
  }

  /** What `show` prepares: a new submission of the template's account and a
      new submitter in the default slot. */
  datatype Draft = Draft(templateId: nat, accountId: nat, slotUuid: string)

  /** `show`; NoSlot where the controller indexes nil (no slot at all). */
  function Show(t: Template, undefined: seq<Slot>): (r: Result<Draft, Fault>)
    ensures r.Ok? <==> |undefined| > 0 || |t.slots| > 0
    ensures r.Ok? ==> r.value.templateId == t.id && r.value.accountId == t.accountId
    ensures r.Ok? ==> Some(r.value.slotUuid) == DefaultSlotUuid(undefined, t.slots)
    ensures r.Err? ==> r.error == NoSlot
  {
    match DefaultSlotUuid(undefined, t.slots)
    case None => Err(NoSlot)
    case Some(u) => Ok(Draft(t.id, t.accountId, u))
  }

  /** A new submitter saved by `update` fills the slot the `show` page offers,
      provided both see the same undefined slots. They are separate requests,
      and the set of undefined slots can change in between; the premise is that
      it did not. */
  lemma UpdateFillsShownSlot(t: Template, store: Store, undefined: seq<Slot>, req: Request)
    requires NewSubmitterFor(t, store, undefined, req).Ok?
    ensures Show(t, undefined).Ok?
    ensures NewSubmitterFor(t, store, undefined, req).value.uuid == Some(Show(t, undefined).value.slotUuid)
  {
  }
}
