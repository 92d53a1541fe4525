/** What `assign_submission_attributes` makes of a new submitter: defaults
    inherited from a resubmitted submitter and overlaid with the new values,
    inherited preferences and metadata, carried-over attachments, the slot it
    fills, and the `link` submission it joins. Stated as functions of the
    inputs; the in-place method that does the work is `StartForm.Submitter`. */
module Attributes {
  import opened Wrappers
  import opened Records
  import Lookup

  /** The exceptions `update` can raise, which end the request with a server
      error: an argument error when no lookup attribute is left, and on the
      new-record path a method called on nil or on a non-hash. */
  datatype Fault = NoLookupAttributes | DefaultValuesNotAHash | NoSlot | NoResubmitSubmitter

  /** An in-place hash merge: every key of `top` with its value from `top`,
      every other key of `base` unchanged. */
  function Overlay(base: Values, top: Values): (r: Values)
    ensures r.Keys == base.Keys + top.Keys
    ensures forall k | k in top :: r[k] == top[k]
    ensures forall k | k in base && k !in top :: r[k] == base[k]
  {
    base + top
  }

  /** Merging the same values a second time changes nothing. */
  lemma OverlayIdempotent(base: Values, top: Values)
    ensures Overlay(Overlay(base, top), top) == Overlay(base, top)
  {
  }

  /** The resubmitted submitter the `resubmit` slug names, among all
      submitters of the template's submissions. */
  predicate SlugOfTemplate(store: Store, t: Template, slug: string, r: SubmitterRecord) {
    Lookup.OfTemplate(store, t, r.submissionId) && r.slug == slug
  }

  function FindBySlug(store: Store, t: Template, slug: string, rs: seq<SubmitterRecord>)
    : (r: Option<SubmitterRecord>)
    ensures r.Some? ==> r.value in rs && SlugOfTemplate(store, t, slug, r.value)
    ensures r.None? ==> forall x | x in rs :: !SlugOfTemplate(store, t, slug, x)
  {
    if rs == [] then None
    else if SlugOfTemplate(store, t, slug, rs[0]) then Some(rs[0])
    else FindBySlug(store, t, slug, rs[1..])
  }

  /** The resubmitted submitter: looked up only when `resubmit` is present, and then
      absent when no submitter of the template has that slug. */
  function ResubmitSubmitter(store: Store, t: Template, resubmit: Option<string>): (r: Option<SubmitterRecord>)
    ensures r.Some? ==>
      Present(resubmit) && r.value in store.submitters && SlugOfTemplate(store, t, resubmit.value, r.value)
    ensures r.None? <==>
      !Present(resubmit) || forall x | x in store.submitters :: !SlugOfTemplate(store, t, resubmit.value, x)
  {
    if Present(resubmit) then FindBySlug(store, t, resubmit.value, store.submitters) else None
  }

  /** The hash that new values are merged into: a fresh empty one, or the very
      hash stored under `default_values` in the resubmitted submitter's preferences. */
  datatype DefaultsHash = FreshHash | StoredHash(stored: Values) {
    function Contents(): Values {
      match this
      case FreshHash => map[]
      case StoredHash(m) => m
    }
  }

  /** Which hash the new values are merged into: the stored `default_values`
      entry when it is a hash, a fresh empty hash when there is no resubmitted
      submitter or the entry is missing, null or false; any other entry makes
      the merge raise. */
  function ReadDefaults(rs: Option<SubmitterRecord>): (d: Result<DefaultsHash, Fault>)
    ensures d == Ok(FreshHash) <==>
      rs.None? || DefaultValuesKey !in rs.value.preferences
      || rs.value.preferences[DefaultValuesKey] in {PNull, PFlag(false)}
    ensures d.Ok? && d.value.StoredHash? <==>
      rs.Some? && DefaultValuesKey in rs.value.preferences && rs.value.preferences[DefaultValuesKey].PValues?
    ensures d.Ok? && d.value.StoredHash? ==> rs.value.preferences[DefaultValuesKey] == PValues(d.value.stored)
  {
    match rs
    case None => Ok(FreshHash)
    case Some(r) =>
      if DefaultValuesKey !in r.preferences then Ok(FreshHash)
      else
        match r.preferences[DefaultValuesKey]
        case PNull => Ok(FreshHash)
        case PFlag(b) => if b then Err(DefaultValuesNotAHash) else Ok(FreshHash)
        case PText(_) => Err(DefaultValuesNotAHash)
        case PValues(m) => Ok(StoredHash(m))
  }

  /** The resubmitted submitter's preferences once `merge!` has run: when the
      merged hash is the stored one, their `default_values` entry now holds the
      merged values too. */
  function PreferencesAfterMerge(prefs: Preferences, d: DefaultsHash, merged: Values): (r: Preferences)
    ensures d.StoredHash? ==> r.Keys == prefs.Keys + {DefaultValuesKey} && r[DefaultValuesKey] == PValues(merged)
    ensures d.FreshHash? ==> r == prefs
    ensures forall k | k in prefs && k != DefaultValuesKey :: k in r && r[k] == prefs[k]
  {
    if d.StoredHash? then prefs[DefaultValuesKey := PValues(merged)] else prefs
  }

  /** The resubmitted submitter's preferences (after the merge) when it has
      any, otherwise preferences that only turn e-mail sending on. */
  function InheritedPreferences(rs: Option<SubmitterRecord>, d: DefaultsHash, merged: Values): (r: Preferences)
    ensures |r| > 0
    ensures rs.None? ==> r == map[SendEmailKey := PFlag(true)]
    ensures rs.Some? && (|rs.value.preferences| > 0 || d.StoredHash?) ==>
      r == PreferencesAfterMerge(rs.value.preferences, d, merged)
    ensures rs.Some? && |rs.value.preferences| == 0 && d.FreshHash? ==> r == map[SendEmailKey := PFlag(true)]
  {
    if rs.Some? && |PreferencesAfterMerge(rs.value.preferences, d, merged)| > 0
    then PreferencesAfterMerge(rs.value.preferences, d, merged)
    else map[SendEmailKey := PFlag(true)]
  }

  /** The resubmitted submitter's metadata when it has any, otherwise none. */
  function InheritedMetadata(rs: Option<SubmitterRecord>): (r: Metadata)
    ensures rs.Some? ==> r == rs.value.metadata
    ensures rs.None? ==> r == map[]
  {
    if rs.Some? && |rs.value.metadata| > 0 then rs.value.metadata else map[]
  }

  /** Some field's answer is exactly this attachment's uuid. */
  predicate Referenced(a: Attachment, values: Values) {
    Text(a.uuid) in values.Values
  }

  /** The attachments the copy loop of `assign_submission_attributes` carries
      over, in their original order. */
  function CarriedAttachments(atts: seq<Attachment>, values: Values): (r: seq<Attachment>)
    ensures forall a :: a in r <==> a in atts && Referenced(a, values)
    ensures |r| <= |atts|
  {
    if atts == [] then []
    else
      var last := atts[|atts| - 1];
      var init := atts[..|atts| - 1];
      assert atts == init + [last];
      CarriedAttachments(init, values) + (if Referenced(last, values) then [last] else [])
  }

  /** Each referenced attachment is carried as often as it occurs, every other one never. */
  lemma {:induction false} CarriedCounts(atts: seq<Attachment>, values: Values)
    ensures var r := CarriedAttachments(atts, values);
      forall a :: multiset(r)[a] == if Referenced(a, values) then multiset(atts)[a] else 0
  {
    if atts != [] {
      var last := atts[|atts| - 1];
      var init := atts[..|atts| - 1];
      assert atts == init + [last];
      CarriedCounts(init, values);
      assert CarriedAttachments(atts, values) ==
        CarriedAttachments(init, values) + (if Referenced(last, values) then [last] else []);
    }
  }

  /** Carrying one more attachment appends it exactly when it is referenced. */
  lemma CarriedAppend(atts: seq<Attachment>, x: Attachment, values: Values)
    ensures CarriedAttachments(atts + [x], values) ==
      CarriedAttachments(atts, values) + (if Referenced(x, values) then [x] else [])
  {
    assert (atts + [x])[..|atts|] == atts;
  }

  /** The slot a new submitter fills: the first undefined slot, else the
      template's first slot; None where there is neither and the controller
      indexes nil. */
  function DefaultSlotUuid(undefined: seq<Slot>, slots: seq<Slot>): (r: Option<string>)
    ensures r.Some? <==> |undefined| > 0 || |slots| > 0
    ensures |undefined| > 0 ==> r == Some(undefined[0].uuid)
    ensures |undefined| == 0 && |slots| > 0 ==> r == Some(slots[0].uuid)
    ensures r.Some? ==> exists s | s in undefined + slots :: s.uuid == r.value
  {
    if |undefined| > 0 then Some(undefined[0].uuid)
    else if |slots| > 0 then Some(slots[0].uuid)
    else None
  }

  /** The slot chosen is a slot of the template whenever the undefined slots are. */
  lemma DefaultSlotIsTemplateSlot(undefined: seq<Slot>, slots: seq<Slot>)
    requires forall s | s in undefined :: s in slots
    ensures DefaultSlotUuid(undefined, slots).Some? <==> |slots| > 0
    ensures DefaultSlotUuid(undefined, slots).Some? ==>
      exists s | s in slots :: s.uuid == DefaultSlotUuid(undefined, slots).value
  {
    if |undefined| > 0 {
      assert undefined[0] in slots;
    }
  }

  /** A new, unsaved submission of the template, owned by the template's
      account, carrying its slots and tagged as started from a link. */
  function LinkSubmission(t: Template): Submission {
    Submission(None, t.id, t.accountId, Link, None, None, t.slots)
  }

  /** The new submitter after `assign_submission_attributes`, or the exception it raises. */
  function AssignedState(s: SubmitterState, t: Template, undefined: seq<Slot>, rs: Option<SubmitterRecord>,
                         newValues: Values, remoteIp: string, userAgent: string): (r: Result<SubmitterState, Fault>)
    ensures r.Ok? ==> r.value.submission.Some? && r.value.accountId == Some(r.value.submission.value.accountId)
  {
    match ReadDefaults(rs)
    case Err(f) => Err(f)
    case Ok(d) =>
      var values := Overlay(d.Contents(), newValues);
      match DefaultSlotUuid(undefined, t.slots)
      case None => Err(NoSlot)
      case Some(uuid) =>
        if |values| > 0 && rs.None? then Err(NoResubmitSubmitter)
        else
          var carried := if |values| > 0 then CarriedAttachments(rs.value.attachments, values) else [];
          var sub := if s.submission.Some? then s.submission.value else LinkSubmission(t);
          Ok(s.(uuid := Some(uuid), ip := Some(remoteIp), ua := Some(userAgent), values := values,
                preferences := InheritedPreferences(rs, d, values), metadata := InheritedMetadata(rs),
                attachments := s.attachments + carried, submission := Some(sub), accountId := Some(sub.accountId)))
  }

  /** The default values the resubmitted submitter stores, if any. */
  function StoredDefaults(rs: Option<SubmitterRecord>): Values {
    if rs.Some? && DefaultValuesKey in rs.value.preferences && rs.value.preferences[DefaultValuesKey].PValues?
    then rs.value.preferences[DefaultValuesKey].values
    else map[]
  }

  /** The new submitter's values are the resubmitted submitter's default values
      overlaid with the new ones: every new key with its new value, every other
      default kept, nothing else. */
  lemma AssignedValues(s: SubmitterState, t: Template, undefined: seq<Slot>, rs: Option<SubmitterRecord>,
                       newValues: Values, remoteIp: string, userAgent: string)
    requires AssignedState(s, t, undefined, rs, newValues, remoteIp, userAgent).Ok?
    ensures var r := AssignedState(s, t, undefined, rs, newValues, remoteIp, userAgent).value;
      && r.values.Keys == StoredDefaults(rs).Keys + newValues.Keys
      && (forall k | k in newValues :: r.values[k] == newValues[k])
      && (forall k | k in StoredDefaults(rs) && k !in newValues :: r.values[k] == StoredDefaults(rs)[k])
  {
  }

  /** Inherited preferences: the resubmitted submitter's, if it has any, with
      `default_values` now holding the merged values whenever that entry was a
      hash (the merge wrote through it); otherwise `send_email` on. */
  lemma AssignedPreferences(s: SubmitterState, t: Template, undefined: seq<Slot>, rs: Option<SubmitterRecord>,
                            newValues: Values, remoteIp: string, userAgent: string)
    requires AssignedState(s, t, undefined, rs, newValues, remoteIp, userAgent).Ok?
    ensures var r := AssignedState(s, t, undefined, rs, newValues, remoteIp, userAgent).value;
      if rs.Some? && |rs.value.preferences| > 0 then
        && r.preferences.Keys == rs.value.preferences.Keys
        && (forall k | k in r.preferences && k != DefaultValuesKey :: r.preferences[k] == rs.value.preferences[k])
        && (DefaultValuesKey in r.preferences ==>
              r.preferences[DefaultValuesKey] ==
                if rs.value.preferences[DefaultValuesKey].PValues? then PValues(r.values)
                else rs.value.preferences[DefaultValuesKey])
      else
        r.preferences == map[SendEmailKey := PFlag(true)]
  {
  }

  /** Inherited metadata: the resubmitted submitter's if it has any, else empty. */
  lemma AssignedMetadata(s: SubmitterState, t: Template, undefined: seq<Slot>, rs: Option<SubmitterRecord>,
                         newValues: Values, remoteIp: string, userAgent: string)
    requires AssignedState(s, t, undefined, rs, newValues, remoteIp, userAgent).Ok?
    ensures var r := AssignedState(s, t, undefined, rs, newValues, remoteIp, userAgent).value;
      && (rs.Some? && |rs.value.metadata| > 0 ==> r.metadata == rs.value.metadata)
      && (rs.None? || |rs.value.metadata| == 0 ==> r.metadata == map[])
  {
  }

  /** The slot filled is the first undefined one, or the template's first slot
      when none is undefined; with exactly one undefined slot it is that one. */
  lemma AssignedSlot(s: SubmitterState, t: Template, undefined: seq<Slot>, rs: Option<SubmitterRecord>,
                     newValues: Values, remoteIp: string, userAgent: string)
    requires AssignedState(s, t, undefined, rs, newValues, remoteIp, userAgent).Ok?
    ensures var r := AssignedState(s, t, undefined, rs, newValues, remoteIp, userAgent).value;
      && (|undefined| > 0 ==> r.uuid == Some(undefined[0].uuid))
      && (|undefined| == 0 ==> |t.slots| > 0 && r.uuid == Some(t.slots[0].uuid))
  {
  }

  /** The submitter joins its own submission if it has one, else a new `link`
      submission of the template and its account; its account is its submission's. */
  lemma AssignedSubmission(s: SubmitterState, t: Template, undefined: seq<Slot>, rs: Option<SubmitterRecord>,
                           newValues: Values, remoteIp: string, userAgent: string)
    requires AssignedState(s, t, undefined, rs, newValues, remoteIp, userAgent).Ok?
    ensures var r := AssignedState(s, t, undefined, rs, newValues, remoteIp, userAgent).value;
      && (s.submission.Some? ==> r.submission == s.submission)
      && (s.submission.None? ==>
            r.submission == Some(Submission(None, t.id, t.accountId, Link, None, None, t.slots)))
      && r.accountId == Some(r.submission.value.accountId)
      && r.id == s.id && r.slug == s.slug && r.completedAt == s.completedAt
      && r.email == s.email && r.phone == s.phone && r.name == s.name
  {
  }

  /** When values were given, exactly the resubmitted submitter's attachments
      whose uuid is one of the values are appended, in order; otherwise none. */
  lemma AssignedAttachments(s: SubmitterState, t: Template, undefined: seq<Slot>, rs: Option<SubmitterRecord>,
                            newValues: Values, remoteIp: string, userAgent: string)
    requires AssignedState(s, t, undefined, rs, newValues, remoteIp, userAgent).Ok?
    ensures var r := AssignedState(s, t, undefined, rs, newValues, remoteIp, userAgent).value;
      && |s.attachments| <= |r.attachments|
      && r.attachments[..|s.attachments|] == s.attachments
      && (|r.values| == 0 ==> r.attachments == s.attachments)
      && (|r.values| > 0 ==>
            && rs.Some?
            && (forall a :: a in r.attachments[|s.attachments|..] <==> a in rs.value.attachments && Referenced(a, r.values))
            && (forall a :: multiset(r.attachments[|s.attachments|..])[a] ==
                  if Referenced(a, r.values) then multiset(rs.value.attachments)[a] else 0))
  {
    var r := AssignedState(s, t, undefined, rs, newValues, remoteIp, userAgent).value;
    if |r.values| > 0 {
      var carried := CarriedAttachments(rs.value.attachments, r.values);
      assert r.attachments == s.attachments + carried;
      assert r.attachments[|s.attachments|..] == carried;
      CarriedCounts(rs.value.attachments, r.values);
    }
  }

  /** Values sent without a resubmitted submitter make the attachment loop call
      `attachments` on nil: the only cause of that exception. */
  lemma MissingResubmitRaises(s: SubmitterState, t: Template, undefined: seq<Slot>, rs: Option<SubmitterRecord>,
                              newValues: Values, remoteIp: string, userAgent: string)
    ensures rs.None? && |newValues| > 0 && DefaultSlotUuid(undefined, t.slots).Some? ==>
      AssignedState(s, t, undefined, rs, newValues, remoteIp, userAgent) == Err(NoResubmitSubmitter)
    ensures AssignedState(s, t, undefined, rs, newValues, remoteIp, userAgent) == Err(NoResubmitSubmitter) ==>
      rs.None? && |newValues| > 0
  {
  }

  /** Resubmitting with default values {a: 1, b: 2} and new values {b: 9, c: 3}
      gives exactly {a: 1, b: 9, c: 3}. */
  lemma ResubmitOverlayExample(s: SubmitterState, t: Template, rs: SubmitterRecord)
    requires |t.slots| > 0
    requires rs.preferences == map[DefaultValuesKey := PValues(map["a" := Number(1), "b" := Number(2)])]
    ensures var r := AssignedState(s, t, [], Some(rs), map["b" := Number(9), "c" := Number(3)], "", "");
      r.Ok? && r.value.values == map["a" := Number(1), "b" := Number(9), "c" := Number(3)]
  {
    var stored := map["a" := Number(1), "b" := Number(2)];
    var sent := map["b" := Number(9), "c" := Number(3)];
    assert ReadDefaults(Some(rs)) == Ok(StoredHash(stored));
    assert DefaultSlotUuid([], t.slots) == Some(t.slots[0].uuid);
    var merged := Overlay(stored, sent);
    assert merged.Keys == {"a", "b", "c"};
    assert merged == map["a" := Number(1), "b" := Number(9), "c" := Number(3)];
  }
}
