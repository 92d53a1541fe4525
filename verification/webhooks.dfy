/** The `submission.created` notifications `update` enqueues after a new
    submitter is saved: one background job per registered URL. */
module Webhooks {

  const SubmissionCreated: string := "submission.created"

  /** A registered webhook destination of an account and the events it wants. */
  datatype WebhookUrl = WebhookUrl(id: nat, accountId: nat, events: seq<string>)

  /** A background job that delivers one `submission.created` event for one
      submission to one webhook URL. */
  datatype Job = Job(submissionId: nat, webhookUrlId: nat)

  predicate Subscribed(w: WebhookUrl, accountId: nat) {
    w.accountId == accountId && SubmissionCreated in w.events
  }

  /** The URLs the webhook lookup returns for an account and the
      `submission.created` event: the account's URLs registered for it, in
      registration order. */
  function SubscribedUrls(urls: seq<WebhookUrl>, accountId: nat): (r: seq<WebhookUrl>)
    ensures forall w :: w in r <==> w in urls && Subscribed(w, accountId)
    ensures |r| <= |urls|
  {
    if urls == [] then []
    else
      var last := urls[|urls| - 1];
      var init := urls[..|urls| - 1];
      assert urls == init + [last];
      SubscribedUrls(init, accountId) + (if Subscribed(last, accountId) then [last] else [])
  }

  /** Each subscribed URL is selected as often as it occurs, every other URL never. */
  lemma {:induction false} SubscribedCounts(urls: seq<WebhookUrl>, accountId: nat)
    ensures var r := SubscribedUrls(urls, accountId);
      forall w :: multiset(r)[w] == if Subscribed(w, accountId) then multiset(urls)[w] else 0
  {
    if urls != [] {
      var last := urls[|urls| - 1];
      var init := urls[..|urls| - 1];
      assert urls == init + [last];
      SubscribedCounts(init, accountId);
      assert SubscribedUrls(urls, accountId) ==
        SubscribedUrls(init, accountId) + (if Subscribed(last, accountId) then [last] else []);
    }
  }

  /** No two URLs share an id. */
  predicate DistinctIds(urls: seq<WebhookUrl>) {
    forall i, j | 0 <= i < j < |urls| :: urls[i].id != urls[j].id
  }

  /** Selecting the subscribed URLs keeps their ids distinct. */
  lemma {:induction false} SubscribedKeepsDistinctIds(urls: seq<WebhookUrl>, accountId: nat)
    requires DistinctIds(urls)
    ensures DistinctIds(SubscribedUrls(urls, accountId))
  {
    if urls != [] {
      var last := urls[|urls| - 1];
      var init := urls[..|urls| - 1];
      assert urls == init + [last];
      assert DistinctIds(init) by {
        forall i, j | 0 <= i < j < |init| ensures init[i].id != init[j].id {
          assert init[i] == urls[i] && init[j] == urls[j];
        }
      }
      SubscribedKeepsDistinctIds(init, accountId);
      var prefix := SubscribedUrls(init, accountId);
      var r := SubscribedUrls(urls, accountId);
      if Subscribed(last, accountId) {
        assert r == prefix + [last];
        forall i, j | 0 <= i < j < |r| ensures r[i].id != r[j].id {
          if j == |prefix| {
            assert r[i] == prefix[i] && r[i] in init;
            var m :| 0 <= m < |init| && init[m] == r[i];
            assert urls[m] == r[i] && urls[|urls| - 1] == last;
          } else {
            assert r[i] == prefix[i] && r[j] == prefix[j];
          }
        }
      } else {
        assert r == prefix;
      }
    }
  }

  /** A value found at exactly one index of a sequence occurs there once. */
  lemma OccursOnce<T>(s: seq<T>, x: T, k: nat)
    requires k < |s| && s[k] == x
    requires forall i | 0 <= i < |s| && i != k :: s[i] != x
    ensures multiset(s)[x] == 1
  {
    assert s == s[..k] + [x] + s[k + 1..];
    assert x !in s[..k] && x !in s[k + 1..];
    assert multiset(s) == multiset(s[..k]) + multiset{x} + multiset(s[k + 1..]);
  }

  /** One job per target, in order, each carrying the submission and that target's id. */
  function JobsFor(targets: seq<WebhookUrl>, submissionId: nat): (jobs: seq<Job>)
    ensures |jobs| == |targets|
    ensures forall k | 0 <= k < |jobs| :: jobs[k] == Job(submissionId, targets[k].id)
  {
    if targets == [] then []
    else JobsFor(targets[..|targets| - 1], submissionId) + [Job(submissionId, targets[|targets| - 1].id)]
  }

  /** The `.each` loop of `update` over the looked-up URLs, after a new submitter is saved. */
  method EnqueueCreatedWebhooks(urls: seq<WebhookUrl>, accountId: nat, submissionId: nat)
    returns (jobs: seq<Job>)
    ensures jobs == JobsFor(SubscribedUrls(urls, accountId), submissionId)
  {
    var targets := SubscribedUrls(urls, accountId);
    jobs := [];
    var i := 0;
    while i < |targets|
      invariant 0 <= i <= |targets|
      invariant jobs == JobsFor(targets[..i], submissionId)
    {
      assert targets[..i + 1][..i] == targets[..i];
      jobs := jobs + [Job(submissionId, targets[i].id)];
      i := i + 1;
    }
    assert targets[..i] == targets;
  }

  /** Exactly one job per registered `submission.created` URL of the account
      (URL ids being distinct, as primary keys are): every job carries the
      submission id and such a URL's id, and every such URL has exactly one job. */
  lemma OneJobPerSubscribedUrl(urls: seq<WebhookUrl>, accountId: nat, submissionId: nat)
    requires DistinctIds(urls)
    ensures var jobs := JobsFor(SubscribedUrls(urls, accountId), submissionId);
      && |jobs| == |SubscribedUrls(urls, accountId)|
      && (forall j | j in jobs :: j.submissionId == submissionId &&
            exists w | w in urls :: Subscribed(w, accountId) && w.id == j.webhookUrlId)
      && (forall w | w in urls && Subscribed(w, accountId) :: multiset(jobs)[Job(submissionId, w.id)] == 1)
  {
    var targets := SubscribedUrls(urls, accountId);
    var jobs := JobsFor(targets, submissionId);
    SubscribedKeepsDistinctIds(urls, accountId);
    forall j | j in jobs
      ensures j.submissionId == submissionId &&
              exists w | w in urls :: Subscribed(w, accountId) && w.id == j.webhookUrlId
    {
      var k :| 0 <= k < |jobs| && jobs[k] == j;
      assert targets[k] in targets;
    }
    forall w | w in urls && Subscribed(w, accountId)
      ensures multiset(jobs)[Job(submissionId, w.id)] == 1
    {
      assert w in targets;
      var k :| 0 <= k < |targets| && targets[k] == w;
      forall i | 0 <= i < |jobs| && i != k ensures jobs[i] != Job(submissionId, w.id) {
        assert targets[i].id != targets[k].id;
      }
      OccursOnce(jobs, Job(submissionId, w.id), k);
    }
  }
}
