/** Replies stay on the thread of the mail they answer. */
module RecordsAnswers {
  import opened Options
  import opened RecordsTables
  import opened RecordsProtocol
  import opened RecordsInvariant
  import opened RecordsFrames

  /** A row that answers nothing, or the mail of its own thread. */
  lemma RowKeepsAnswers(emails: seq<Email>, jobs: set<Job>, e: Email)
    requires AnswersOk(emails, jobs) && RowAnswered(emails, e)
    ensures AnswersOk(emails + [e], jobs)
  {
    forall j | j in jobs ensures JobAnswered(emails + [e], j) { assert JobAnswered(emails, j); }
    forall i | 0 <= i < |emails| ensures RowAnswered(emails + [e], emails[i]) { assert RowAnswered(emails, emails[i]); }
  }

  lemma LogKeepsAnswers(s: State, r: nat, category: Option<Category>, referred: bool)
    requires AnswersOk(s.emails, s.jobs)
    requires r in s.receivers && s.receivers[r].Fresh? && (s.receivers[r].found.Some? ==> category.Some?)
    ensures AnswersOk(DoLog(s, r, category, referred).emails, s.jobs)
  {
    var pc := s.receivers[r];
    RowKeepsAnswers(s.emails, s.jobs, InboundEmail(pc.mail, pc.found, CampaignOf(s, pc.found), category, s.now));
  }

  lemma QueueKeepsAnswers(s: State, r: nat)
    requires AnswersOk(s.emails, s.jobs) && r in s.receivers && Queues(s.receivers[r])
    requires WorkOk(s.emails, s.reactions, s.receivers[r])
    ensures AnswersOk(s.emails, DoQueueJob(s, r).jobs)
  {
  }

  lemma CommitKeepsAnswers(s: State, body: string)
    requires AnswersOk(s.emails, s.jobs) && s.replier.Ready? && ReplierPlaced(s.jobs, s.replier)
    ensures AnswersOk(DoCommitJob(s, body).emails, s.jobs)
  {
    var job := s.replier.job;
    assert JobAnswered(s.emails, job);
    if job.thread < |s.threads| { RowKeepsAnswers(s.emails, s.jobs, JobEmail(s.threads, job, body, s.now)); }
  }

  lemma InitialKeepsAnswers(s: State, body: string)
    requires AnswersOk(s.emails, s.jobs) && s.requester.Cleared?
    ensures AnswersOk(DoInitial(s, body).emails, s.jobs)
  {
    var s' := DoInitial(s, body);
    if s'.emails != s.emails { RowKeepsAnswers(s.emails, s.jobs, s'.emails[|s.emails|]); }
  }

  lemma MailKeepsAnswers(s: State, r: nat, step: MailStep)
    requires AnswersOk(s.emails, s.jobs) && MailEnabled(s, r, step) && MailOk(s.emails, s.receivers, s.reactions)
    ensures var s' := ApplyMail(s, r, step); AnswersOk(s'.emails, s'.jobs)
  {
    match step
    case LogUnmatched => LogKeepsAnswers(s, r, None, false);
    case Log(category, referred) => LogKeepsAnswers(s, r, Some(category), referred);
    case QueueJob => QueueKeepsAnswers(s, r);
    case _ => MailRows(s, r, step);
  }

  lemma ScanKeepsAnswers(s: State, k: nat, step: ScanStep)
    requires AnswersOk(s.emails, s.jobs) && ScanEnabled(s, k, step)
    ensures AnswersOk(s.emails, ApplyScan(s, k, step).jobs)
  {
  }

  lemma StepKeepsAnswers(s: State, step: Step)
    requires AnswersOk(s.emails, s.jobs) && Enabled(s, step) && MailOk(s.emails, s.receivers, s.reactions)
    requires ReplierPlaced(s.jobs, s.replier)
    ensures var s' := Apply(s, step); AnswersOk(s'.emails, s'.jobs)
  {
    match step
    case Env(e) => EnvFrame(s, e);
    case Receive(r, m) => MailKeepsAnswers(s, r, m);
    case Request(q) =>
      RequestFrame(s, q);
      if q.CommitInitial? { InitialKeepsAnswers(s, q.body); } else { RequestRows(s, q); }
    case Reply(p) =>
      ReplyFrame(s, p);
      if p.CommitJob? { CommitKeepsAnswers(s, p.body); } else { ReplyRows(s, p); }
    case Follow(k, c) => ScanFrame(s, k, c); ScanKeepsAnswers(s, k, c);
  }
}
