# Start-form intake: a Dafny model

This project models the intake decision of the start-form controller of a
link-based document-signing service. A visitor opens a template's public link
and posts an email, phone or name, optionally field `values`, and optionally a
`resubmit` slug that names an earlier submitter. The controller must decide
what happens next:

- the template is archived, so the visitor is sent back to the start form;
- the visitor matches a submitter who already completed, so they are sent to the completed page;
- the visitor is new but several slots are still undefined, so it cannot tell
  which one they fill and renders "not found";
- the visitor matches an open submitter, whose values get the new ones merged in;
- the visitor is new, so a submitter is built with defaults inherited from the
  resubmitted submitter, joins a new `link` submission, is saved, and
  `submission.created` webhook jobs are enqueued.

Modules, one per part of the controller:

- `Records` (records.dfy): templates, slots, submissions, stored submitters,
  the request, the in-memory submitter state and what a save does.
- `Lookup` (lookup.dfy): blank dropping, the candidate pool, newest-first
  order, find-or-initialize, and the `completed` lookup.
- `Attributes` (attributes.dfy): `assign_submission_attributes` as a function
  of its inputs (`AssignedState`), with one lemma per thing it promises.
- `Webhooks` (webhooks.dfy): the enqueue loop and the jobs it produces.
- `StartForm` (start_form.dfy): the `Submitter` class, whose methods change
  the submitter in place as the controller does; `Update`, the whole `update`
  action; and `Show`.

Collaborators are inputs:

- the template found by slug;
- the rows the controller can query (`Store`);
- the result of `filter_undefined_submitters` (`undefined`);
- `Time.current` (`now`);
- what the database does on `save` (`Persistence`: success flag, new ids, new slug);
- the registered webhook URLs.

Exceptions the controller would raise become `ServerError(fault)`: the
argument error of a lookup with no attribute left, and the method calls on nil
or on a non-hash in `assign_submission_attributes`.

Small helpers without a contract of their own (`LinkSubmission`, `NewValues`,
`MatchFor`, `NewSubmitterFor`, `StoredDefaults`, `DistinctIds`) are covered by
the members whose contracts use them: `AssignedSubmission` for the new link
submission, `Update` for the request's values and lookup outcome,
`AssignedValues` for the stored defaults, `OneJobPerSubscribedUrl` for
distinct URL ids. Helpers whose contracts only serve a larger proof are
covered the same way: `StartForm.FirstSubmission` by `SubmissionOf`,
`Records.Loaded` by `Submitter.Load`, `Webhooks.OccursOnce` by
`OneJobPerSubscribedUrl`.

## Model

| member | source | states |
|---|---|---|
| `Lookup.LookupAttributes` | app/controllers/start_form_controller.rb:79 | `compact_blank` of the lookup parameters: an attribute is kept iff it was sent and is not blank, and then with its value as sent |
| `Lookup.Candidates` | app/controllers/start_form_controller.rb:73-78 | a record is kept iff it is in the input and is a candidate |
| `Lookup.InsertKeepsRecords` | app/controllers/start_form_controller.rb:75 | inserting by id keeps exactly the same records plus the new one |
| `Lookup.InsertKeepsOrder` | app/controllers/start_form_controller.rb:75 | inserting into a newest-first sequence keeps it newest first |
| `Lookup.OrderByIdDesc` | app/controllers/start_form_controller.rb:75 | `order(id: :desc)`: the result is newest first and a permutation of the input |
| `Lookup.Pool` | app/controllers/start_form_controller.rb:73-78 | the pool holds exactly the submitters whose submission is of the template, not archived and unexpired (`expire_at` nil or ≥ now), that are not declined, have no external id, and are not completed when `resubmit` is present; it is newest first |
| `Lookup.FirstMatch` | app/controllers/start_form_controller.rb:79 | returns the index of the first record whose kept attributes all match, and no earlier record matches; None iff no record matches |
| `Lookup.FirstMatchIsNewest` | app/controllers/start_form_controller.rb:75-79 | in a newest-first pool, the first match has an id at least that of every match |
| `Lookup.FindOrInitialize` | app/controllers/start_form_controller.rb:72-80 | with no lookup attribute kept, the lookup raises an argument error (and only then); otherwise an existing result is a pool member that matches and has the highest id of all matching pool members, and a new record is returned iff no pool member matches, carrying exactly the kept lookup attributes |
| `Lookup.BlankLookupRaises` | app/controllers/start_form_controller.rb:79 | with email, phone and name all blank, no keyword is passed to the lookup and it raises an argument error before any candidate is considered |
| `Lookup.FirstCompleted` | app/controllers/start_form_controller.rb:65-67 | finds a completed submitter of the template with exactly the given email, or reports that none exists |
| `Lookup.CompletedSubmitter` | app/controllers/start_form_controller.rb:64-68 | `completed`: Some completed submitter of the template with the query email, None (record not found) iff there is none |
| `Records.Initialized` | app/controllers/start_form_controller.rb:79 | a new record has no id, no submission and no completion, and its email/phone/name are exactly the kept lookup attributes |
| `Records.Persisted` | app/controllers/start_form_controller.rb:49 | a successful save leaves the submitter with an id and a slug, keeps those it had, gives a new submission an id and leaves a saved one as it was, changes no other field of the submission, and changes nothing else |
| `Attributes.Overlay` | app/controllers/start_form_controller.rb:44 | `merge!`: the keys of both maps; a new key has its new value; a key absent from the new values keeps its old value |
| `Attributes.OverlayIdempotent` | app/controllers/start_form_controller.rb:44 | merging the same values twice gives the same map as merging once |
| `Attributes.FindBySlug` | app/controllers/start_form_controller.rb:85 | finds a submitter of one of the template's submissions with the slug, or reports that none exists |
| `Attributes.ResubmitSubmitter` | app/controllers/start_form_controller.rb:84-85 | the resubmitted submitter exists only when `resubmit` is present; it is absent iff `resubmit` is blank or no submitter of the template has that slug |
| `Attributes.PreferencesAfterMerge` | app/controllers/start_form_controller.rb:89-91 | when the merged hash is the stored one, the preferences' `default_values` entry holds the merged values and every other entry is unchanged; a fresh hash leaves the preferences as they were |
| `Attributes.InheritedPreferences` | app/controllers/start_form_controller.rb:99 | never empty; `{send_email: true}` without a resubmitted submitter or when its preferences are empty; otherwise its preferences after the merge |
| `Attributes.InheritedMetadata` | app/controllers/start_form_controller.rb:100 | exactly the resubmitted submitter's metadata when there is one (empty stays empty), otherwise empty |
| `Attributes.ReadDefaults` | app/controllers/start_form_controller.rb:89-91 | a fresh empty hash iff there is no resubmitted submitter or its `default_values` is missing, null or false; the stored hash iff `default_values` holds a hash; otherwise the merge raises |
| `Attributes.CarriedAttachments` | app/controllers/start_form_controller.rb:103-107 | keeps exactly those attachments whose uuid is one of the values |
| `Attributes.CarriedCounts` | app/controllers/start_form_controller.rb:104-105 | each referenced attachment is carried exactly as many times as it occurs, every other attachment never |
| `Attributes.CarriedAppend` | app/controllers/start_form_controller.rb:104-105 | one more loop step appends the attachment exactly when some value is its uuid |
| `Attributes.DefaultSlotUuid` | app/controllers/start_form_controller.rb:15 | a slot is chosen iff some slot is undefined or the template has one; the first undefined slot wins, and with none undefined the template's first slot is taken; the chosen uuid belongs to an undefined or a template slot |
| `Attributes.DefaultSlotIsTemplateSlot` | app/controllers/start_form_controller.rb:95 | when the undefined slots are template slots, a slot is chosen iff the template has one, and the chosen uuid is a template slot's |
| `Attributes.AssignedState` | app/controllers/start_form_controller.rb:83-118 | after assignment, the submitter has a submission and its account id equals the submission's |
| `Attributes.AssignedValues` | app/controllers/start_form_controller.rb:89-98 | values = the resubmitted submitter's `default_values` (or empty) overlaid with the new values; a new value wins on a key conflict |
| `Attributes.AssignedPreferences` | app/controllers/start_form_controller.rb:89-99 | preferences are the resubmitted submitter's when non-empty, with `default_values` rewritten to the merged values when it held a hash (one shared hash); otherwise `{send_email: true}` |
| `Attributes.AssignedMetadata` | app/controllers/start_form_controller.rb:100 | metadata is the resubmitted submitter's when non-empty, else empty |
| `Attributes.AssignedSlot` | app/controllers/start_form_controller.rb:95 | uuid is the first undefined slot's uuid, or the template's first slot's uuid when none is undefined |
| `Attributes.AssignedSubmission` | app/controllers/start_form_controller.rb:109-115 | a submitter without a submission joins a new `link` submission of the template, with the template's account and slots; the submitter's account is its submission's; identity fields are untouched |
| `Attributes.AssignedAttachments` | app/controllers/start_form_controller.rb:103-107 | with non-empty values, exactly the resubmitted submitter's attachments whose uuid is among the values are appended, each as many times as it occurs there; with empty values nothing is appended |
| `Attributes.MissingResubmitRaises` | app/controllers/start_form_controller.rb:103-104 | new values without a resubmitted submitter raise (nil has no attachments) whenever a slot exists; that exception happens only then |
| `Attributes.ResubmitOverlayExample` | app/controllers/start_form_controller.rb:89-91 | defaults {a: 1, b: 2} with new values {b: 9, c: 3} give exactly {a: 1, b: 9, c: 3} |
| `Webhooks.SubscribedUrls` | app/controllers/start_form_controller.rb:51 | keeps exactly the account's URLs registered for `submission.created` |
| `Webhooks.SubscribedCounts` | app/controllers/start_form_controller.rb:51 | each subscribed URL is selected exactly as many times as it occurs, every other URL never |
| `Webhooks.SubscribedKeepsDistinctIds` | app/controllers/start_form_controller.rb:51 | the selected URLs keep distinct ids when the registered ones have them |
| `Webhooks.JobsFor` | app/controllers/start_form_controller.rb:51-54 | one job per target, in order, each carrying the submission id and that target's id |
| `Webhooks.EnqueueCreatedWebhooks` | app/controllers/start_form_controller.rb:51-54 | the loop enqueues exactly `JobsFor` the account's subscribed URLs |
| `Webhooks.OneJobPerSubscribedUrl` | app/controllers/start_form_controller.rb:51-54 | when URL ids are distinct (they are primary keys), every subscribed URL of the account has exactly one job (its multiset count is 1); the number of jobs is the number of subscribed URLs; every job carries the submission id and the id of a subscribed URL |
| `StartForm.SubmissionOf` | app/controllers/start_form_controller.rb:79 | the found submitter's submission is a stored submission with its id, and is missing iff no stored submission has that id |
| `StartForm.Submitter.Load` | app/controllers/start_form_controller.rb:79 | a found submitter is loaded as stored, with its submission |
| `StartForm.Submitter.Initialize` | app/controllers/start_form_controller.rb:79 | a new submitter holds exactly the lookup attributes |
| `StartForm.Submitter.MergeValues` | app/controllers/start_form_controller.rb:44 | values become the old values overlaid with the new ones; nothing else changes |
| `StartForm.Submitter.CarryAttachments` | app/controllers/start_form_controller.rb:103-107 | appends the referenced attachments, in order; nothing else changes |
| `StartForm.Submitter.AssignAttributes` | app/controllers/start_form_controller.rb:94-101 | sets uuid, ip, user agent, values, preferences and metadata, and nothing else |
| `StartForm.Submitter.JoinSubmission` | app/controllers/start_form_controller.rb:109-115 | keeps the submission or joins a new link submission, and copies its account id |
| `StartForm.Submitter.AssignSubmissionAttributes` | app/controllers/start_form_controller.rb:83-118 | the new state is `AssignedState` of the old one, or the method reports the exception that function names |
| `StartForm.Submitter.Save` | app/controllers/start_form_controller.rb:49 | a save succeeds as the database says; on success the state is `Persisted`, otherwise unchanged |
| `StartForm.Update` | app/controllers/start_form_controller.rb:19-62 | archived → start form, before any lookup; all lookup attributes blank → server error for the argument error; completed match → completed page with the email; new record and more than one undefined slot → not found; each with no save and no job. An open match is saved with values merged. A new record is saved as assigned, or the exception is reported. Something is saved iff the response is the submit-form redirect. Jobs are enqueued only for a new record that saved, one per subscribed URL |
| `StartForm.Show` | app/controllers/start_form_controller.rb:13-17 | the draft is for the template and its account, in the default slot; it fails iff the template has no slot and none is undefined |
| `StartForm.UpdateFillsShownSlot` | app/controllers/start_form_controller.rb:15-16 | a new submitter created by `update` fills the slot that `show` offered |

## Left out

- Request handling is not modelled: parameter parsing and permitting, locale
  selection, the domain redirect, the authentication skips and template
  loading. An unknown slug's not-found is outside the model; `Update` receives
  the template.
- Email normalisation (`Submissions.normalize_email`) is not part of this
  model. The request's email is the normalised one, so case-insensitive
  matching is not modelled.
- Blank detection treats only ASCII whitespace as blank. Ruby also counts
  other Unicode spaces.
- `Templates.filter_undefined_submitters` is not part of this model. Its
  result is one input, used for both the ambiguity check and the slot choice;
  nothing persists between those two calls.
- `Submissions::AssignDefinedSubmitters` (line 47) is not part of this model.
  Its effect on the submission is not represented.
- `WebhookUrls.for_account_id` is not part of this model. It is taken to
  select the account's URLs registered for the event, in registration order.
  Job delivery is not modelled.
- Persistence is reduced to an outcome. Validations, SQL and the database's
  choice of ids and slugs are inputs. The controller opens no transaction,
  so none is modelled.
- Queries without an order (`find_by(slug:)`, `find_by!(email:)`) return the
  first matching row in store order.
- Attachment copies (`dup`) equal their originals. Record identity is not
  modelled.
- The resubmitted submitter's own in-memory preferences, rewritten by
  `merge!`, are never saved. Their one later read, at line 99, is modelled by
  `InheritedPreferences`.
- The new submission's submitter list (line 112, `submitters: [submitter]`) is
  not represented: `Submission` has no submitter list. The model does not
  record that the new submission holds exactly this submitter; only the
  submitter's link to its submission is modelled.
- Rendering, I18n messages and redirect URLs become `Response` values. An
  unhandled exception becomes `ServerError`.
- Two simultaneous first visits can race, and that race is not modelled.
- The migration that adds a `cpf` column is not modelled. The controller never
  reads that column; a CPF travels inside `values`.
- `StartForm.Submitter.AssignSubmissionAttributes`: when it raises, the
  attributes it had already assigned are left unspecified. The request ends
  there and nothing is saved.
- Values sent without `resubmit` make line 104 call `attachments` on nil; the
  model returns `ServerError(NoResubmitSubmitter)` (`MissingResubmitRaises`).
