/** Follow-ups and replies: the counter is the number of rows, never above the limit; one reply per kind and demand. */
module RecordsFollowups {
  import opened Options
  import opened RecordsTables
  import opened RecordsProtocol
  import opened RecordsInvariant
  import opened RecordsFrames

  lemma FollowUpRowsAppend(emails: seq<Email>, e: Email, t: nat)
    ensures FollowUpRows(emails + [e], t) == FollowUpRows(emails, t) + if IsFollowUp(e, t) then 1 else 0
  {
    assert (emails + [e])[..|emails|] == emails;
  }

  /** A thread nobody wrote to yet has no follow-ups. */
  lemma {:induction false} NoRowsYet(threads: seq<Thread>, emails: seq<Email>, t: nat)
    requires EmailsPlaced(threads, emails) && t >= |threads|
    ensures FollowUpRows(emails, t) == 0
    decreases |emails|
  {
    if emails != [] {
      assert EmailPlaced(threads, emails[|emails| - 1]);
      var rest := emails[..|emails| - 1];
      forall i | 0 <= i < |rest| ensures EmailPlaced(threads, rest[i]) { assert EmailPlaced(threads, emails[i]); }
      NoRowsYet(threads, rest, t);
    }
  }

  /** Same rows up to status, due time and contact. */
  ghost predicate SameCounts(a: seq<Thread>, b: seq<Thread>) {
    |a| == |b| && forall t :: 0 <= t < |a| ==> b[t].followups == a[t].followups && b[t].campaign == a[t].campaign
  }

  lemma SameCountsKeepFollow(s: State, threads: seq<Thread>)
    requires FollowOk(s.threads, s.emails, s.jobs, s.replier, s.scanners, s.campaigns) && SameCounts(s.threads, threads)
    ensures FollowOk(threads, s.emails, s.jobs, s.replier, s.scanners, s.campaigns)
  {
    forall t | 0 <= t < |threads| ensures ThreadCounts(s.emails, s.campaigns, t, threads[t]) {
      assert ThreadCounts(s.emails, s.campaigns, t, s.threads[t]);
    }
    forall j | j in s.jobs ensures JobOk(threads, s.campaigns, j) { assert JobOk(s.threads, s.campaigns, j); }
  }

  /** An email that is neither a follow-up nor a reply. */
  lemma OtherEmailKeepsFollow(s: State, e: Email)
    requires FollowOk(s.threads, s.emails, s.jobs, s.replier, s.scanners, s.campaigns)
    requires e.kind != Some(FollowUp) && e.inReplyTo.None?
    ensures FollowOk(s.threads, s.emails + [e], s.jobs, s.replier, s.scanners, s.campaigns)
  {
    var emails := s.emails + [e];
    forall t | 0 <= t < |s.threads| ensures ThreadCounts(emails, s.campaigns, t, s.threads[t]) {
      assert ThreadCounts(s.emails, s.campaigns, t, s.threads[t]);
      FollowUpRowsAppend(s.emails, e, t);
    }
  }

  /** A new thread starts its count at zero. */
  lemma ThreadKeepsFollow(s: State, row: Thread)
    requires FollowOk(s.threads, s.emails, s.jobs, s.replier, s.scanners, s.campaigns) &&
      EmailsPlaced(s.threads, s.emails)
    requires row.followups == 0
    ensures FollowOk(s.threads + [row], s.emails, s.jobs, s.replier, s.scanners, s.campaigns)
  {
    var threads := s.threads + [row];
    forall t | 0 <= t < |threads| ensures ThreadCounts(s.emails, s.campaigns, t, threads[t]) {
      if t < |s.threads| { assert ThreadCounts(s.emails, s.campaigns, t, s.threads[t]); }
      else { NoRowsYet(s.threads, s.emails, t); }
    }
    forall j | j in s.jobs ensures JobOk(threads, s.campaigns, j) { assert JobOk(s.threads, s.campaigns, j); }
  }

  // ---- the thread-job sender

  lemma CheckKeepsFollow(s: State, step: ReplyStep)
    requires FollowOk(s.threads, s.emails, s.jobs, s.replier, s.scanners, s.campaigns) &&
      ReplierPlaced(s.jobs, s.replier)
    requires ReplyEnabled(s, step) && !step.CommitJob?
    ensures ReadyOk(s.threads, s.emails, ApplyReply(s, step).replier)
  {
    if step.CheckJob? { assert s.replier.job in s.jobs && JobOk(s.threads, s.campaigns, s.replier.job); }
  }

  /** A follow-up row is written together with the counter, and only below the limit. */
  lemma FollowUpCounts(s: State, threads: seq<Thread>, row: Thread, e: Email, t: nat)
    requires t < |s.threads| && threads == s.threads[t := row] && IsFollowUp(e, t) &&
      row.campaign == s.threads[t].campaign
    requires row.followups == s.threads[t].followups + 1
    requires row.campaign in s.campaigns ==> row.followups <= s.campaigns[row.campaign].maxFollowups
    requires forall u :: 0 <= u < |s.threads| ==> ThreadCounts(s.emails, s.campaigns, u, s.threads[u])
    ensures forall u :: 0 <= u < |threads| ==> ThreadCounts(s.emails + [e], s.campaigns, u, threads[u])
  {
    forall u | 0 <= u < |threads| ensures ThreadCounts(s.emails + [e], s.campaigns, u, threads[u]) {
      assert ThreadCounts(s.emails, s.campaigns, u, s.threads[u]);
      FollowUpRowsAppend(s.emails, e, u);
    }
  }

  lemma ReplyCounts(s: State, threads: seq<Thread>, row: Thread, e: Email, t: nat)
    requires t < |s.threads| && threads == s.threads[t := row] && e.kind != Some(FollowUp) &&
      row.campaign == s.threads[t].campaign
    requires row.followups == s.threads[t].followups
    requires forall u :: 0 <= u < |s.threads| ==> ThreadCounts(s.emails, s.campaigns, u, s.threads[u])
    ensures forall u :: 0 <= u < |threads| ==> ThreadCounts(s.emails + [e], s.campaigns, u, threads[u])
  {
    forall u | 0 <= u < |threads| ensures ThreadCounts(s.emails + [e], s.campaigns, u, threads[u]) {
      assert ThreadCounts(s.emails, s.campaigns, u, s.threads[u]);
      FollowUpRowsAppend(s.emails, e, u);
    }
  }

  lemma ReplyIsNew(emails: seq<Email>, e: Email)
    requires OneReply(emails)
    requires e.inReplyTo.Some? ==>
      e.thread.Some? && e.kind.Some? && !ReplyExists(emails, e.thread.value, e.inReplyTo.value, e.kind.value)
    ensures OneReply(emails + [e])
  {
    forall i | 0 <= i < |emails| && e.inReplyTo.Some?
      ensures !IsReply(emails[i], e.thread.value, e.inReplyTo.value, e.kind.value) {}
  }

  lemma JobsSurvive(s: State, t: nat, row: Thread)
    requires t < |s.threads| && row.campaign == s.threads[t].campaign && row.followups >= s.threads[t].followups
    requires (forall j :: j in s.jobs ==> JobOk(s.threads, s.campaigns, j)) && ScannersOk(s.threads, s.scanners)
    ensures forall j :: j in s.jobs ==> JobOk(s.threads[t := row], s.campaigns, j)
    ensures ScannersOk(s.threads[t := row], s.scanners)
  {
    forall j | j in s.jobs ensures JobOk(s.threads[t := row], s.campaigns,
      j) { assert JobOk(s.threads, s.campaigns, j); }
  }

  lemma CommitJobKeepsFollow(s: State, body: string)
    requires FollowOk(s.threads, s.emails, s.jobs, s.replier, s.scanners, s.campaigns) &&
      ReplierPlaced(s.jobs, s.replier)
    requires s.replier.Ready?
    ensures var s' := DoCommitJob(s, body);
      FollowOk(s'.threads, s'.emails, s'.jobs, s'.replier, s'.scanners, s'.campaigns)
  {
    var s' := DoCommitJob(s, body);
    var job := s.replier.job;
    if s'.emails != s.emails {
      var row, e := s'.threads[job.thread], JobEmail(s.threads, job, body, s.now);
      assert JobOk(s.threads, s.campaigns, job);
      if job.FollowUpJob? { FollowUpCounts(s, s'.threads, row, e, job.thread); }
        else { ReplyCounts(s, s'.threads, row, e, job.thread); }
      ReplyIsNew(s.emails, e);
      JobsSurvive(s, job.thread, row);
    }
  }

  // ---- the other steps

  lemma ScanKeepsFollow(s: State, k: nat, step: ScanStep)
    requires FollowOk(s.threads, s.emails, s.jobs, s.replier, s.scanners, s.campaigns)
    requires ScannersPlaced(s.threads, s.scanners) && ScanEnabled(s, k, step)
    ensures var s' := ApplyScan(s, k, step);
      (forall j :: j in s'.jobs ==> JobOk(s.threads, s.campaigns, j)) && ScannersOk(s.threads, s'.scanners)
  {
  }

  lemma SetStatusCounts(threads: seq<Thread>, t: nat, status: Status, due: Option<Time>)
    ensures SameCounts(threads, SetStatus(threads, t, status, due))
  {
  }

  lemma MailCounts(s: State, r: nat, step: MailStep)
    requires MailEnabled(s, r, step)
    ensures SameCounts(s.threads, ApplyMail(s, r, step).threads)
  {
    match step
    case Settle => var pc := s.receivers[r]; SetStatusCounts(s.threads, pc.thread, pc.status,
      DueAfter(s, pc.thread, pc.status));
    case EscalateMail => var pc := s.receivers[r]; SetStatusCounts(s.threads, pc.thread, NeedsHuman,
      DueAfter(s, pc.thread, NeedsHuman));
    case _ => MailRows(s, r, step);
  }

  lemma RequestCounts(s: State, step: RequestStep)
    requires RequestEnabled(s, step) && !step.CommitInitial?
    ensures SameCounts(s.threads, ApplyRequest(s, step).threads)
  {
  }

  lemma ScanCounts(s: State, k: nat, step: ScanStep)
    requires ScanEnabled(s, k, step)
    ensures SameCounts(s.threads, ApplyScan(s, k, step).threads)
  {
  }

  lemma EnvCounts(s: State, step: EnvStep)
    requires EnvEnabled(s, step)
    ensures SameCounts(s.threads, ApplyEnv(s, step).threads)
  {
  }

  lemma InitialKeepsFollow(s: State, body: string)
    requires FollowOk(s.threads, s.emails, s.jobs, s.replier, s.scanners, s.campaigns) &&
      EmailsPlaced(s.threads, s.emails)
    requires s.requester.Cleared?
    ensures var s' := DoInitial(s, body); FollowOk(s'.threads, s'.emails, s.jobs, s.replier, s.scanners, s.campaigns)
  {
    var s' := DoInitial(s, body);
    if s'.emails != s.emails {
      var e := s'.emails[|s.emails|];
      if |s'.threads| > |s.threads| { ThreadKeepsFollow(s, s'.threads[|s.threads|]); }
      else { SameCountsKeepFollow(s, s'.threads); }
      OtherEmailKeepsFollow(s.(threads := s'.threads), e);
    }
  }

  lemma LogKeepsFollow(s: State, r: nat, category: Option<Category>, referred: bool)
    requires FollowOk(s.threads, s.emails, s.jobs, s.replier, s.scanners, s.campaigns)
    requires r in s.receivers && s.receivers[r].Fresh? && (s.receivers[r].found.Some? ==> category.Some?)
    ensures FollowOk(s.threads, DoLog(s, r, category, referred).emails, s.jobs, s.replier, s.scanners, s.campaigns)
  {
    var s' := DoLog(s, r, category, referred);
    if s'.emails != s.emails { OtherEmailKeepsFollow(s, s'.emails[|s.emails|]); }
  }

  lemma MailKeepsFollow(s: State, r: nat, step: MailStep)
    requires FollowOk(s.threads, s.emails, s.jobs, s.replier, s.scanners, s.campaigns) && MailEnabled(s, r, step)
    ensures var s' := ApplyMail(s, r, step);
      FollowOk(s'.threads, s'.emails, s'.jobs, s'.replier, s'.scanners, s'.campaigns)
  {
    var s' := ApplyMail(s, r, step);
    MailFrame(s, r, step);
    MailRows(s, r, step);
    if step.Log? || step.LogUnmatched? {
      LogKeepsFollow(s, r, if step.Log? then Some(step.category) else None, step.Log? && step.referred);
    } else {
      MailCounts(s, r, step);
      SameCountsKeepFollow(s, s'.threads);
      if step.QueueJob? { assert forall j :: j in s'.jobs && j !in s.jobs ==> !j.FollowUpJob?; }
    }
  }

  lemma StepKeepsFollow(s: State, step: Step)
    requires FollowOk(s.threads, s.emails, s.jobs, s.replier, s.scanners, s.campaigns) && Placed(s) && Enabled(s, step)
    ensures var s' := Apply(s, step);
      FollowOk(s'.threads, s'.emails, s'.jobs, s'.replier, s'.scanners, s'.campaigns)
  {
    var s' := Apply(s, step);
    match step
    case Env(e) => EnvFrame(s, e); EnvCounts(s, e); SameCountsKeepFollow(s, s'.threads);
    case Receive(r, m) => MailKeepsFollow(s, r, m);
    case Request(q) =>
      RequestFrame(s, q);
      if q.CommitInitial? { InitialKeepsFollow(s, q.body); }
      else { RequestRows(s, q); RequestCounts(s, q); SameCountsKeepFollow(s, s'.threads); }
    case Reply(p) =>
      if p.CommitJob? { CommitJobKeepsFollow(s, p.body); }
      else { ReplyFrame(s, p); ReplyRows(s, p); CheckKeepsFollow(s, p); }
    case Follow(k, c) =>
      ScanFrame(s, k, c);
      ScanKeepsFollow(s, k, c);
      ScanCounts(s, k, c);
      SameCountsKeepFollow(s.(jobs := s'.jobs, scanners := s'.scanners), s'.threads);
  }
}
