/** Which parts of the conversation engine's state each kind of step leaves alone. */
module RecordsFrames {
  import opened Options
  import opened RecordsTables
  import opened RecordsProtocol

  lemma EnvFrame(s: State, step: EnvStep)
    requires EnvEnabled(s, step)
    ensures var s' := ApplyEnv(s, step);
      s'.campaigns == s.campaigns && s'.emails == s.emails && s'.spend == s.spend && s'.contacted == s.contacted &&
      s'.jobs == s.jobs && s'.receivers == s.receivers && s'.requester == s.requester && s'.replier == s.replier &&
      s'.scanners == s.scanners && s'.reactions == s.reactions && s'.now >= s.now &&
      |s'.threads| == |s.threads|
  {
  }

  /** Everything a receiver never writes. */
  ghost predicate MailUntouched(s: State, s': State) {
    s'.now == s.now && s'.campaigns == s.campaigns && s'.contacted == s.contacted && s'.requester == s.requester &&
    s'.replier == s.replier && s'.scanners == s.scanners
  }

  lemma LogFrame(s: State, r: nat, category: Option<Category>, referred: bool)
    requires r in s.receivers && s.receivers[r].Fresh? && (s.receivers[r].found.Some? ==> category.Some?)
    ensures MailUntouched(s, DoLog(s, r, category, referred))
  {
  }

  lemma BookFrame(s: State, r: nat)
    requires r in s.receivers && s.receivers[r].Reacting?
    ensures MailUntouched(s, DoBook(s, r))
  {
  }

  lemma EndFrame(s: State, r: nat, status: Status)
    requires r in s.receivers
    ensures Queues(s.receivers[r]) ==> MailUntouched(s, DoQueueJob(s, r))
    ensures s.receivers[r].Settling? || Escalates(s.receivers[r]) ==> MailUntouched(s, DoMove(s, r, status))
  {
  }

  lemma MailFrame(s: State, r: nat, step: MailStep)
    requires MailEnabled(s, r, step)
    ensures MailUntouched(s, ApplyMail(s, r, step))
  {
    match step
    case LogUnmatched => LogFrame(s, r, None, false);
    case Log(category, referred) => LogFrame(s, r, Some(category), referred);
    case Book => BookFrame(s, r);
    case QueueJob => EndFrame(s, r, NeedsHuman);
    case Settle => EndFrame(s, r, s.receivers[r].status);
    case EscalateMail => EndFrame(s, r, NeedsHuman);
    case _ =>
  }

  lemma MailRows(s: State, r: nat, step: MailStep)
    requires MailEnabled(s, r, step)
    ensures var s' := ApplyMail(s, r, step);
      (!step.Log? && !step.LogUnmatched? ==> s'.emails == s.emails) && (!step.Book? ==> s'.spend == s.spend) &&
      (!step.QueueJob? ==> s'.jobs == s.jobs) && (!step.Settle? && !step.EscalateMail? ==> s'.threads == s.threads)
  {
  }

  /** Everything the initial-request sender never writes. */
  ghost predicate RequestUntouched(s: State, s': State) {
    s'.now == s.now && s'.campaigns == s.campaigns && s'.spend == s.spend && s'.jobs == s.jobs &&
    s'.receivers == s.receivers && s'.replier == s.replier && s'.scanners == s.scanners && s'.reactions == s.reactions
  }

  lemma RequestFrame(s: State, step: RequestStep)
    requires RequestEnabled(s, step)
    ensures RequestUntouched(s, ApplyRequest(s, step))
  {
  }

  lemma RequestRows(s: State, step: RequestStep)
    requires RequestEnabled(s, step) && !step.CommitInitial?
    ensures var s' := ApplyRequest(s, step);
      s'.emails == s.emails && s'.contacted == s.contacted && |s'.threads| == |s.threads|
  {
    match step
    case PassGates => assert ApplyRequest(s, step).emails == s.emails;
    case _ =>
  }

  /** Everything the thread-job sender never writes. */
  ghost predicate ReplyUntouched(s: State, s': State) {
    s'.now == s.now && s'.campaigns == s.campaigns && s'.spend == s.spend && s'.contacted == s.contacted &&
    s'.jobs == s.jobs && s'.receivers == s.receivers && s'.requester == s.requester && s'.scanners == s.scanners &&
    s'.reactions == s.reactions
  }

  lemma CommitJobFrame(s: State, body: string)
    requires s.replier.Ready?
    ensures ReplyUntouched(s, DoCommitJob(s, body))
  {
  }

  lemma ReplyFrame(s: State, step: ReplyStep)
    requires ReplyEnabled(s, step)
    ensures ReplyUntouched(s, ApplyReply(s, step))
  {
    match step
    case CommitJob(body) => CommitJobFrame(s, body);
    case _ =>
  }

  lemma ReplyRows(s: State, step: ReplyStep)
    requires ReplyEnabled(s, step) && !step.CommitJob?
    ensures var s' := ApplyReply(s, step); s'.emails == s.emails && s'.threads == s.threads
  {
  }

  /** Everything a scan never writes. */
  ghost predicate ScanUntouched(s: State, s': State) {
    s'.now == s.now && s'.campaigns == s.campaigns && s'.emails == s.emails && s'.spend == s.spend &&
    s'.contacted == s.contacted && s'.receivers == s.receivers && s'.requester == s.requester &&
    s'.replier == s.replier && s'.reactions == s.reactions
  }

  lemma ScanFrame(s: State, k: nat, step: ScanStep)
    requires ScanEnabled(s, k, step)
    ensures ScanUntouched(s, ApplyScan(s, k, step)) && |ApplyScan(s, k, step).threads| == |s.threads|
  {
  }
}
