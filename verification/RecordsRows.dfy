/** References between the rows stay valid: rows are only added, and never change their owner. */
module RecordsRows {
  import opened Options
  import opened RecordsTables
  import opened RecordsProtocol
  import opened RecordsInvariant
  import opened RecordsFrames
  import opened RecordsLifecycle

  /** Rows are only added, and a row keeps its campaign and office; its counter never drops. */
  ghost predicate Grown(a: seq<Thread>, b: seq<Thread>) {
    |a| <= |b| && forall t :: 0 <= t < |a| ==>
      b[t].campaign == a[t].campaign && b[t].jurisdiction == a[t].jurisdiction && a[t].followups <= b[t].followups
  }

  lemma StepGrows(s: State, step: Step)
    requires Enabled(s, step) && SnapshotsOpen(s.scanners)
    ensures Grown(s.threads, Apply(s, step).threads)
  {
    if !(step.Env? && step.env.Resolve?) {
      StepMovesAutomatically(s, step);
      forall t | 0 <= t < |s.threads| ensures AutoRow(s.threads[t], Apply(s, step).threads[t]) {}
    }
  }

  lemma ScansKeepPlaced(s: State, k: nat, step: ScanStep)
    requires ScanEnabled(s, k, step) && ScannersPlaced(s.threads, s.scanners)
    ensures ScannersPlaced(s.threads, ApplyScan(s, k, step).scanners)
  {
    match step
    case Scan(_) =>
    case ScanAct =>
    case Reschedule => assert ApplyScan(s, k, step).scanners == s.scanners - {k};
    case StopScan =>
  }

  lemma JobsGrow(s: State, step: Step)
    requires Enabled(s, step)
    ensures s.jobs <= Apply(s, step).jobs
  {
    match step
    case Env(e) => EnvFrame(s, e);
    case Receive(r, m) => if !m.QueueJob? { MailRows(s, r, m); }
    case Request(q) => RequestFrame(s, q);
    case Reply(p) => ReplyFrame(s, p);
    case Follow(_, _) =>
  }

  lemma RequestsKeepPlaced(s: State, step: RequestStep)
    requires RequestEnabled(s, step) && RequesterPlaced(s.threads, s.campaigns, s.requester)
    requires Grown(s.threads, ApplyRequest(s, step).threads)
    ensures RequesterPlaced(ApplyRequest(s, step).threads, s.campaigns, ApplyRequest(s, step).requester)
  {
  }

  lemma ReceiverKeepsPlaced(s: State, r: nat, step: MailStep, q: nat)
    requires MailEnabled(s, r, step) && q in ApplyMail(s, r, step).receivers
    requires q in s.receivers ==> ReceiverPlaced(s.threads, s.receivers[q])
    ensures ReceiverPlaced(s.threads, ApplyMail(s, r, step).receivers[q])
  {
  }

  lemma ReceiversKeepPlaced(s: State, r: nat, step: MailStep)
    requires MailEnabled(s, r, step) && ReceiversPlaced(s.threads, s.receivers)
    ensures ReceiversPlaced(s.threads, ApplyMail(s, r, step).receivers)
  {
    var s' := ApplyMail(s, r, step);
    forall q | q in s'.receivers ensures ReceiverPlaced(s.threads, s'.receivers[q]) {
      ReceiverKeepsPlaced(s, r, step, q);
    }
  }

  lemma RepliesKeepPlaced(s: State, step: ReplyStep)
    requires ReplyEnabled(s, step) && ReplierPlaced(s.jobs, s.replier)
    ensures ReplierPlaced(s.jobs, ApplyReply(s, step).replier)
  {
  }

  // ---- new rows

  lemma GrownKeepsEmails(a: seq<Thread>, b: seq<Thread>, emails: seq<Email>)
    requires Grown(a, b) && EmailsPlaced(a, emails)
    ensures EmailsPlaced(b, emails)
  {
    forall i | 0 <= i < |emails| ensures EmailPlaced(b, emails[i]) { assert EmailPlaced(a, emails[i]); }
  }

  lemma LogPlaces(s: State, r: nat, category: Option<Category>, referred: bool)
    requires r in s.receivers && s.receivers[r].Fresh? && (s.receivers[r].found.Some? ==> category.Some?)
    requires EmailsPlaced(s.threads, s.emails) && ReceiverPlaced(s.threads, s.receivers[r])
    ensures EmailsPlaced(s.threads, DoLog(s, r, category, referred).emails)
  {
  }

  lemma InitialPlaces(s: State, body: string)
    requires s.requester.Cleared? && RequesterPlaced(s.threads, s.campaigns, s.requester)
    requires ThreadsPlaced(s.threads, s.campaigns) && EmailsPlaced(s.threads, s.emails)
    ensures var s' := DoInitial(s, body); ThreadsPlaced(s'.threads, s.campaigns) && EmailsPlaced(s'.threads, s'.emails)
  {
    var s' := DoInitial(s, body);
    forall i | 0 <= i < |s.emails| ensures EmailPlaced(s'.threads,
      s.emails[i]) { assert EmailPlaced(s.threads, s.emails[i]); }
  }

  lemma CommitJobPlaces(s: State, body: string)
    requires s.replier.Ready? && ThreadsPlaced(s.threads, s.campaigns) && EmailsPlaced(s.threads, s.emails)
    ensures var s' := DoCommitJob(s, body);
      ThreadsPlaced(s'.threads, s.campaigns) && EmailsPlaced(s'.threads, s'.emails)
  {
    var s' := DoCommitJob(s, body);
    forall i | 0 <= i < |s.emails| ensures EmailPlaced(s'.threads,
      s.emails[i]) { assert EmailPlaced(s.threads, s.emails[i]); }
  }

  /** Steps that add no row. */
  predicate AddsRows(step: Step) {
    match step
    case Receive(_, m) => m.Log? || m.LogUnmatched?
    case Request(q) => q.CommitInitial?
    case Reply(p) => p.CommitJob?
    case _ => false
  }

  lemma QuietSteps(s: State, step: Step)
    requires Enabled(s, step) && !AddsRows(step)
    ensures Apply(s, step).emails == s.emails && |Apply(s, step).threads| == |s.threads|
  {
    match step
    case Env(e) => EnvFrame(s, e);
    case Receive(r, m) => MailRows(s, r, m);
    case Request(q) => RequestRows(s, q);
    case Reply(p) => ReplyRows(s, p);
    case Follow(k, c) => ScanFrame(s, k, c);
  }

  lemma CampaignsStay(s: State, step: Step)
    requires Enabled(s, step)
    ensures Apply(s, step).campaigns == s.campaigns
  {
    match step
    case Env(e) => EnvFrame(s, e);
    case Receive(r, m) => MailFrame(s, r, m);
    case Request(q) => RequestFrame(s, q);
    case Reply(p) => ReplyFrame(s, p);
    case Follow(k, c) => ScanFrame(s, k, c);
  }

  lemma NewRowsPlaced(s: State, step: Step)
    requires Enabled(s, step) && Placed(s) && Grown(s.threads, Apply(s, step).threads)
    ensures var s' := Apply(s, step); ThreadsPlaced(s'.threads, s'.campaigns) && EmailsPlaced(s'.threads, s'.emails)
  {
    CampaignsStay(s, step);
    if !AddsRows(step) {
      QuietSteps(s, step);
      GrownKeepsEmails(s.threads, Apply(s, step).threads, s.emails);
    } else {
      match step
      case Receive(r, m) =>
        MailRows(s, r, m);
        LogPlaces(s, r, if m.Log? then Some(m.category) else None, m.Log? && m.referred);
      case Request(q) => InitialPlaces(s, q.body);
      case Reply(p) => CommitJobPlaces(s, p.body);
    }
  }

  // ---- holders of references

  lemma GrownKeepsHolders(s: State, b: seq<Thread>)
    requires Grown(s.threads, b) && Placed(s)
    ensures RequesterPlaced(b, s.campaigns, s.requester) && ReceiversPlaced(b, s.receivers) &&
      ScannersPlaced(b, s.scanners)
  {
    forall r | r in s.receivers ensures ReceiverPlaced(b,
      s.receivers[r]) { assert ReceiverPlaced(s.threads, s.receivers[r]); }
  }

  lemma HoldersPlaced(s: State, step: Step)
    requires Enabled(s, step) && Placed(s) && Grown(s.threads, Apply(s, step).threads)
    ensures var s' := Apply(s, step);
      RequesterPlaced(s'.threads, s'.campaigns, s'.requester) && ReceiversPlaced(s'.threads, s'.receivers) &&
      ReplierPlaced(s'.jobs, s'.replier) && ScannersPlaced(s'.threads, s'.scanners)
  {
    var s' := Apply(s, step);
    JobsGrow(s, step);
    CampaignsStay(s, step);
    GrownKeepsHolders(s, s'.threads);
    match step
    case Env(e) => EnvFrame(s, e);
    case Receive(r, m) =>
      MailFrame(s, r, m);
      ReceiversKeepPlaced(s, r, m);
      GrownKeepsHolders(s.(receivers := s'.receivers), s'.threads);
    case Request(q) => RequestFrame(s, q); RequestsKeepPlaced(s, q);
    case Reply(p) => ReplyFrame(s, p); RepliesKeepPlaced(s, p);
    case Follow(k, c) =>
      ScanFrame(s, k, c);
      ScansKeepPlaced(s, k, c);
      GrownKeepsHolders(s.(scanners := s'.scanners), s'.threads);
  }

  lemma StepKeepsPlaced(s: State, step: Step)
    requires Enabled(s, step) && Placed(s) && SnapshotsOpen(s.scanners)
    ensures Placed(Apply(s, step))
  {
    StepGrows(s, step);
    NewRowsPlaced(s, step);
    HoldersPlaced(s, step);
  }
}
