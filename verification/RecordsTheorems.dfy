/** What every run of the conversation engine keeps. */
module RecordsTheorems {
  import opened Options
  import opened RecordsTables
  import opened RecordsProtocol
  import opened RecordsInvariant
  import opened RecordsRows
  import opened RecordsLifecycle
  import opened RecordsMail
  import opened RecordsAnswers
  import opened RecordsMoney
  import opened RecordsFollowups
  import opened RecordsSends
  import Amounts

  lemma InitInv(s: State)
    requires Init(s)
    ensures Inv(s)
  {
  }

  lemma StepKeepsInv(s: State, step: Step)
    requires Inv(s) && Enabled(s, step)
    ensures Inv(Apply(s, step))
  {
    StepKeepsRows(s, step);
    StepGrows(s, step);
    StepKeepsPlaced(s, step);
    StepKeepsMail(s, step);
    StepKeepsAnswers(s, step);
    StepKeepsMoney(s, step);
    StepKeepsFollow(s, step);
    StepKeepsSends(s, step);
  }

  lemma {:induction false} RunKeepsInv(s: State, steps: seq<Step>)
    requires Inv(s) && ValidRun(s, steps)
    ensures Inv(Run(s, steps)) && Run(s, steps).campaigns == s.campaigns
    decreases |steps|
  {
    if steps != [] {
      StepKeepsInv(s, steps[0]);
      CampaignsStay(s, steps[0]);
      RunKeepsInv(Apply(s, steps[0]), steps[1..]);
    }
  }

  lemma ReachableInv(s0: State, steps: seq<Step>)
    requires Init(s0) && ValidRun(s0, steps)
    ensures Inv(Run(s0, steps)) && Run(s0, steps).campaigns == s0.campaigns
  {
    InitInv(s0);
    RunKeepsInv(s0, steps);
  }

  // ---- inbound mail

  /** A message id is logged at most once in a campaign, and each row causes each effect at most once. */
  lemma MailReactsOnce(s0: State, steps: seq<Step>, i: nat, j: nat, e: Effect)
    requires Init(s0) && ValidRun(s0, steps)
    requires i < |Run(s0, steps).emails| && j < |Run(s0, steps).emails|
    ensures var s := Run(s0, steps);
      s.reactions[(i, e)] <= 1 &&
      (i != j && s.emails[i].messageId.Some? && s.emails[i].messageId == s.emails[j].messageId ==>
        s.emails[i].campaign != s.emails[j].campaign)
  {
    ReachableInv(s0, steps);
  }

  // ---- money

  /** Every ledger entry was booked for the largest amount in a payment demand of its thread and campaign,
      and no demand is booked twice. */
  lemma LedgerIsSound(s0: State, steps: seq<Step>, k: nat, l: nat)
    requires Init(s0) && ValidRun(s0, steps) && k < |Run(s0, steps).spend| && l < |Run(s0, steps).spend|
    ensures var s := Run(s0, steps);
      EntryOk(s.emails, s.spend[k]) && (k != l ==> s.spend[k].source != s.spend[l].source) &&
      s.spend[k].amount < 100_000_000
  {
    ReachableInv(s0, steps);
    var s := Run(s0, steps);
    assert EntryOk(s.emails, s.spend[k]);
    Amounts.LargestIsSmall(s.emails[s.spend[k].source].body);
  }

  /** What a campaign has committed never exceeds its budget. */
  lemma BudgetHolds(s0: State, steps: seq<Step>, c: nat)
    requires Init(s0) && ValidRun(s0, steps) && c in s0.campaigns
    ensures Committed(Run(s0, steps).spend, c) == 0 || Committed(Run(s0, steps).spend, c) <= s0.campaigns[c].budget
  {
    ReachableInv(s0, steps);
    assert WithinBudget(Run(s0, steps).spend, s0.campaigns);
  }

  /** Every agreement ever queued is for the amount of an entry already in the ledger. */
  lemma AgreementJobsAreBooked(s0: State, steps: seq<Step>, job: Job)
    requires Init(s0) && ValidRun(s0, steps) && job in Run(s0, steps).jobs && job.AgreementJob?
    ensures HasEntry(Run(s0, steps).spend, job.thread, job.inbound, job.amount)
  {
    ReachableInv(s0, steps);
  }

  /** Every agreement email answers a ledger entry of its own thread. */
  lemma AgreementAnswersAnEntry(s0: State, steps: seq<Step>, i: nat) returns (k: nat)
    requires Init(s0) && ValidRun(s0, steps) && i < |Run(s0, steps).emails|
    requires Run(s0, steps).emails[i].kind == Some(FeeAgreement)
    ensures k < |Run(s0, steps).spend| && Answers(Run(s0, steps).emails[i], Run(s0, steps).spend[k])
  {
    ReachableInv(s0, steps);
    var s := Run(s0, steps);
    var e := s.emails[i];
    assert HasSource(s.spend, e.thread.value, e.inReplyTo.value);
    k :| 0 <= k < |s.spend| && s.spend[k].thread == e.thread.value && s.spend[k].source == e.inReplyTo.value;
  }

  /** Agreement emails map one to one to ledger entries of their own thread. */
  lemma AgreementsMatchEntries(s0: State, steps: seq<Step>, i: nat, j: nat)
    requires Init(s0) && ValidRun(s0, steps) && i < j < |Run(s0, steps).emails|
    requires Run(s0, steps).emails[i].kind == Run(s0, steps).emails[j].kind == Some(FeeAgreement)
    ensures AnswerTwoEntries(Run(s0, steps).spend, Run(s0, steps).emails[i], Run(s0, steps).emails[j])
  {
    ReachableInv(s0, steps);
    var k := AgreementAnswersAnEntry(s0, steps, i);
    var l := AgreementAnswersAnEntry(s0, steps, j);
  }

  ghost predicate AnswerTwoEntries(spend: seq<Spend>, a: Email, b: Email) {
    exists k, l :: 0 <= k < |spend| && 0 <= l < |spend| && k != l && Answers(a, spend[k]) && Answers(b, spend[l])
  }

  predicate Answers(e: Email, entry: Spend) { e.thread == Some(entry.thread) && e.inReplyTo == Some(entry.source) }

  // ---- follow-ups and replies

  /** A thread's counter is the number of its follow-up rows, and never exceeds the campaign's limit. */
  lemma FollowUpsAreBounded(s0: State, steps: seq<Step>, t: nat)
    requires Init(s0) && ValidRun(s0, steps) && t < |Run(s0, steps).threads|
    ensures var s := Run(s0, steps);
      FollowUpRows(s.emails, t) == s.threads[t].followups && s.threads[t].campaign in s0.campaigns &&
      (FollowUpRows(s.emails, t) > 0 ==> FollowUpRows(s.emails, t) <= s0.campaigns[s.threads[t].campaign].maxFollowups)
  {
    ReachableInv(s0, steps);
    var s := Run(s0, steps);
    assert ThreadCounts(s.emails, s.campaigns, t, s.threads[t]);
  }

  /** No queued follow-up is ahead of its thread's counter. */
  lemma JobsDoNotRunAhead(s0: State, steps: seq<Step>, job: Job)
    requires Init(s0) && ValidRun(s0, steps) && job in Run(s0, steps).jobs && job.FollowUpJob?
    ensures job.thread < |Run(s0, steps).threads| && job.index <= Run(s0, steps).threads[job.thread].followups
  {
    ReachableInv(s0, steps);
    assert JobOk(Run(s0, steps).threads, s0.campaigns, job);
  }

  /** An inbound mail is answered at most once per kind, whatever the thread. */
  lemma OneReplyPerKind(s0: State, steps: seq<Step>, inbound: nat, kind: Outbound, i: nat, j: nat)
    requires Init(s0) && ValidRun(s0, steps) && i < |Run(s0, steps).emails| && j < |Run(s0, steps).emails|
    requires var emails := Run(s0, steps).emails;
      emails[i].kind == emails[j].kind == Some(kind) && emails[i].inReplyTo == emails[j].inReplyTo == Some(inbound)
    ensures i == j
  {
    ReachableInv(s0, steps);
    var emails := Run(s0, steps).emails;
    assert RowAnswered(emails, emails[i]) && RowAnswered(emails, emails[j]);
  }

  // ---- send limits

  /** The initial requests of a campaign on one UTC day never exceed its cap. */
  lemma DailyCapHolds(s0: State, steps: seq<Step>, c: nat, d: int)
    requires Init(s0) && ValidRun(s0, steps) && c in s0.campaigns
    ensures InitialsOn(Run(s0, steps).emails, c, d) ==
      0 || InitialsOn(Run(s0, steps).emails, c, d) <= s0.campaigns[c].dailyCap
  {
    ReachableInv(s0, steps);
    assert CapsKept(Run(s0, steps).emails, s0.campaigns);
  }

  /** An initial request that may not bypass the cooldown keeps its campaign's distance from every earlier
      real request to the same office, whichever campaign sent it. */
  lemma CooldownHolds(s0: State, steps: seq<Step>, i: nat, j: nat, office: nat)
    requires Init(s0) && ValidRun(s0, steps) && i < j < |Run(s0, steps).emails|
    requires Contacts(Run(s0, steps).threads, s0.campaigns, Run(s0, steps).emails[i], office)
    requires IsRequest(Run(s0, steps).threads, s0.campaigns, Run(s0, steps).emails[j], office)
    requires !Run(s0, steps).emails[j].bypass
    ensures Run(s0, steps).emails[i].at + 86400 * s0.campaigns[Run(s0, steps).emails[j].campaign.value].cooldownDays
            <= Run(s0, steps).emails[j].at
  {
    ReachableInv(s0, steps);
    assert CooldownKept(Run(s0, steps).threads, Run(s0, steps).emails, s0.campaigns);
  }

  // ---- scans

  /** A scan's reschedule moves a thread exactly when the thread went one state back while the scan held it. */
  lemma WhenARescheduleMovesAThread(s0: State, steps: seq<Step>, k: nat)
    requires Init(s0) && ValidRun(s0, steps) && Enabled(Run(s0, steps), Follow(k, Reschedule))
    ensures var s := Run(s0, steps);
      var pc := s.scanners[k];
      pc.thread < |s.threads| &&
      (Apply(s, Follow(k, Reschedule)).threads[pc.thread].status != s.threads[pc.thread].status <==>
        (pc.row.status.RequestSent? && s.threads[pc.thread].status.PendingSend?) ||
        (pc.row.status.AwaitingReply? && s.threads[pc.thread].status.RequestSent?))
  {
    ReachableInv(s0, steps);
  }
}
