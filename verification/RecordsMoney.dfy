/** The ledger: one entry per payment demand, for its largest amount, within the budget, before any agreement. */
module RecordsMoney {
  import opened Options
  import opened RecordsTables
  import opened RecordsProtocol
  import opened RecordsInvariant
  import opened RecordsFrames
  import opened RecordsRows

  lemma EmailKeepsMoney(s: State, e: Email)
    requires MoneyOk(s.emails, s.spend, s.receivers, s.jobs, s.campaigns)
    requires e.kind == Some(FeeAgreement) ==>
      e.thread.Some? && e.inReplyTo.Some? && HasSource(s.spend, e.thread.value, e.inReplyTo.value)
    ensures MoneyOk(s.emails + [e], s.spend, s.receivers, s.jobs, s.campaigns)
  {
    forall k | 0 <= k < |s.spend| ensures EntryOk(s.emails + [e], s.spend[k]) { assert EntryOk(s.emails, s.spend[k]); }
  }

  /** One receiver moved or left. */
  lemma ReceiverKeepsMoney(s: State, receivers: map<nat, Receiver>, r: nat)
    requires MoneyOk(s.emails, s.spend, s.receivers, s.jobs, s.campaigns)
    requires forall q :: q in receivers && q != r ==> q in s.receivers && receivers[q] == s.receivers[q]
    requires r in receivers ==> BookingOk(s.spend, receivers[r])
    ensures MoneyOk(s.emails, s.spend, receivers, s.jobs, s.campaigns)
  {
    forall q | q in receivers ensures BookingOk(s.spend, receivers[q]) {
      if q != r { assert BookingOk(s.spend, s.receivers[q]); }
    }
  }

  /** A fresh inbound row has no entry yet. */
  lemma FreshRowUnbooked(emails: seq<Email>, spend: seq<Spend>, pc: Receiver)
    requires forall k :: 0 <= k < |spend| ==> EntryOk(emails, spend[k])
    requires pc.Reacting? && pc.inbound == |emails|
    ensures BookingOk(spend, pc)
  {
    forall k | 0 <= k < |spend| ensures spend[k].source != pc.inbound { assert EntryOk(emails, spend[k]); }
  }

  lemma DoLogKeepsMoney(s: State, r: nat, category: Option<Category>, referred: bool)
    requires MoneyOk(s.emails, s.spend, s.receivers, s.jobs, s.campaigns)
    requires r in s.receivers && s.receivers[r].Fresh? && (s.receivers[r].found.Some? ==> category.Some?)
    ensures var s' := DoLog(s, r, category, referred); MoneyOk(s'.emails, s.spend, s'.receivers, s.jobs, s.campaigns)
  {
    var s' := DoLog(s, r, category, referred);
    var pc := s.receivers[r];
    if r in s'.receivers { FreshRowUnbooked(s.emails, s.spend, s'.receivers[r]); }
    ReceiverKeepsMoney(s, s'.receivers, r);
    if s'.emails != s.emails {
      EmailKeepsMoney(s.(receivers := s'.receivers),
        InboundEmail(pc.mail, pc.found, CampaignOf(s, pc.found), category, s.now));
    }
  }

  lemma CommittedAppend(spend: seq<Spend>, e: Spend, c: nat)
    ensures Committed(spend + [e], c) == Committed(spend, c) + if e.campaign == c then e.amount else 0
  {
    assert (spend + [e])[..|spend|] == spend;
  }

  lemma EntryKeepsLists(spend: seq<Spend>, e: Spend, jobs: set<Job>, emails: seq<Email>)
    requires JobsBooked(spend, jobs) && AgreementsBooked(spend, emails)
    ensures JobsBooked(spend + [e], jobs) && AgreementsBooked(spend + [e], emails)
  {
    forall t, i, a | HasEntry(spend, t, i, a) ensures HasEntry(spend + [e], t, i, a) {
      var k :| 0 <= k < |spend| && spend[k].thread == t && spend[k].source == i && spend[k].amount == a;
      assert (spend + [e])[k] == spend[k];
    }
    forall t, i | HasSource(spend, t, i) ensures HasSource(spend + [e], t, i) {
      var k :| 0 <= k < |spend| && spend[k].thread == t && spend[k].source == i;
      assert (spend + [e])[k] == spend[k];
    }
  }

  lemma EntryKeepsBooking(spend: seq<Spend>, e: Spend, pc: Receiver)
    requires BookingOk(spend, pc) && (pc.Reacting? ==> e.source != pc.inbound)
    ensures BookingOk(spend + [e], pc)
  {
    if pc.Owing? {
      var k :| 0 <= k < |spend| && spend[k].thread == pc.thread && spend[k].source == pc.inbound &&
        spend[k].amount == pc.amount;
      assert (spend + [e])[k] == spend[k];
    }
  }

  lemma EntryKeepsBudget(spend: seq<Spend>, e: Spend, campaigns: map<nat, Campaign>)
    requires WithinBudget(spend, campaigns) && e.campaign in campaigns
    requires Committed(spend, e.campaign) + e.amount <= campaigns[e.campaign].budget
    ensures WithinBudget(spend + [e], campaigns)
  {
    forall c | c in campaigns
      ensures Committed(spend + [e], c) == 0 || Committed(spend + [e], c) <= campaigns[c].budget
    {
      CommittedAppend(spend, e, c);
    }
  }

  /** Booking: the handler's own demand had no entry, the amount fits, and the handler now holds one. */
  lemma BookedKeepsMoney(s: State, r: nat, e: Spend)
    requires MoneyOk(s.emails, s.spend, s.receivers, s.jobs, s.campaigns) && OneHandlerPerRow(s.receivers)
    requires r in s.receivers && s.receivers[r].Reacting? && e.source == s.receivers[r].inbound &&
      e.thread == s.receivers[r].thread
    requires EntryOk(s.emails, e) && e.campaign in s.campaigns
    requires Committed(s.spend, e.campaign) + e.amount <= s.campaigns[e.campaign].budget
    ensures MoneyOk(s.emails, s.spend + [e], s.receivers[r := Owing(e.thread, e.source, e.amount)], s.jobs, s.campaigns)
  {
    var spend, receivers := s.spend + [e], s.receivers[r := Owing(e.thread, e.source, e.amount)];
    assert BookingOk(s.spend, s.receivers[r]);
    EntryKeepsLists(s.spend, e, s.jobs, s.emails);
    EntryKeepsBudget(s.spend, e, s.campaigns);
    forall q | q in receivers ensures BookingOk(spend, receivers[q]) {
      if q == r { assert spend[|s.spend|] == e; } else { EntryKeepsBooking(s.spend, e, s.receivers[q]); }
    }
  }

  lemma DoBookKeepsMoney(s: State, r: nat)
    requires MoneyOk(s.emails, s.spend, s.receivers, s.jobs, s.campaigns) && MailOk(s.emails, s.receivers, s.reactions)
    requires EmailsPlaced(s.threads, s.emails)
    requires r in s.receivers && s.receivers[r].Reacting? && s.receivers[r].category.PaymentRequired?
    ensures var s' := DoBook(s, r); MoneyOk(s.emails, s'.spend, s'.receivers, s.jobs, s.campaigns)
  {
    var s' := DoBook(s, r);
    var pc := s.receivers[r];
    assert WorkOk(s.emails, s.reactions, pc) && EmailPlaced(s.threads, s.emails[pc.inbound]);
    if s'.spend == s.spend {
      ReceiverKeepsMoney(s, s'.receivers, r);
    } else {
      BookedKeepsMoney(s, r, s'.spend[|s.spend|]);
    }
  }

  lemma DoQueueKeepsMoney(s: State, r: nat)
    requires MoneyOk(s.emails, s.spend, s.receivers, s.jobs, s.campaigns) && r in s.receivers && Queues(s.receivers[r])
    ensures var s' := DoQueueJob(s, r); MoneyOk(s.emails, s.spend, s'.receivers, s'.jobs, s.campaigns)
  {
    assert BookingOk(s.spend, s.receivers[r]);
    ReceiverKeepsMoney(s, DoQueueJob(s, r).receivers, r);
  }

  lemma MailKeepsMoney(s: State, r: nat, step: MailStep)
    requires MoneyOk(s.emails, s.spend, s.receivers, s.jobs, s.campaigns) && MailOk(s.emails, s.receivers, s.reactions)
    requires EmailsPlaced(s.threads, s.emails) && MailEnabled(s, r, step)
    ensures var s' := ApplyMail(s, r, step); MoneyOk(s'.emails, s'.spend, s'.receivers, s'.jobs, s.campaigns)
  {
    match step
    case LogUnmatched => DoLogKeepsMoney(s, r, None, false);
    case Log(category, referred) => DoLogKeepsMoney(s, r, Some(category), referred);
    case Book => DoBookKeepsMoney(s, r);
    case QueueJob => DoQueueKeepsMoney(s, r);
    case _ => QuietMailKeepsMoney(s, r, step);
  }

  lemma QuietMailKeepsMoney(s: State, r: nat, step: MailStep)
    requires MoneyOk(s.emails, s.spend, s.receivers, s.jobs, s.campaigns) && MailEnabled(s, r, step)
    requires !step.LogUnmatched? && !step.Log? && !step.Book? && !step.QueueJob?
    ensures var s' := ApplyMail(s, r, step); MoneyOk(s'.emails, s'.spend, s'.receivers, s'.jobs, s.campaigns)
  {
    MailRows(s, r, step);
    OtherReceivers(s, r, step);
    ReceiverKeepsMoney(s, ApplyMail(s, r, step).receivers, r);
  }

  /** Only the receiver of the step moves, and no other step starts or books a reaction. */
  lemma OtherReceivers(s: State, r: nat, step: MailStep)
    requires MailEnabled(s, r, step)
    requires !step.LogUnmatched? && !step.Log? && !step.Book? && !step.QueueJob?
    ensures var s' := ApplyMail(s, r, step);
      (forall q :: q in s'.receivers && q != r ==> q in s.receivers && s'.receivers[q] == s.receivers[q]) &&
      (r in s'.receivers ==> !s'.receivers[r].Reacting? && !s'.receivers[r].Owing?)
  {
  }

  /** An agreement email answers a booked demand. */
  lemma CommitJobKeepsMoney(s: State, body: string)
    requires MoneyOk(s.emails, s.spend, s.receivers, s.jobs, s.campaigns) && s.replier.Ready? &&
      ReplierPlaced(s.jobs, s.replier)
    ensures MoneyOk(DoCommitJob(s, body).emails, s.spend, s.receivers, s.jobs, s.campaigns)
  {
    var s' := DoCommitJob(s, body);
    if s'.emails != s.emails {
      var job := s.replier.job;
      if job.AgreementJob? { EntryIsSource(s.spend, job); }
      EmailKeepsMoney(s, JobEmail(s.threads, job, body, s.now));
    }
  }

  lemma EntryIsSource(spend: seq<Spend>, job: Job)
    requires job.AgreementJob? && HasEntry(spend, job.thread, job.inbound, job.amount)
    ensures HasSource(spend, job.thread, job.inbound)
  {
  }

  lemma InitialKeepsMoney(s: State, body: string)
    requires MoneyOk(s.emails, s.spend, s.receivers, s.jobs, s.campaigns) && s.requester.Cleared?
    ensures MoneyOk(DoInitial(s, body).emails, s.spend, s.receivers, s.jobs, s.campaigns)
  {
    var s' := DoInitial(s, body);
    if s'.emails != s.emails { EmailKeepsMoney(s, s'.emails[|s.emails|]); }
  }

  lemma ScanQueuesFollowUps(s: State, k: nat, step: ScanStep)
    requires ScanEnabled(s, k, step) && JobsBooked(s.spend, s.jobs)
    ensures JobsBooked(s.spend, ApplyScan(s, k, step).jobs)
  {
  }

  lemma StepKeepsMoney(s: State, step: Step)
    requires MoneyOk(s.emails, s.spend, s.receivers, s.jobs, s.campaigns) && MailOk(s.emails, s.receivers, s.reactions)
    requires EmailsPlaced(s.threads, s.emails) && ReplierPlaced(s.jobs, s.replier) && Enabled(s, step)
    ensures var s' := Apply(s, step); MoneyOk(s'.emails, s'.spend, s'.receivers, s'.jobs, s'.campaigns)
  {
    CampaignsStay(s, step);
    match step
    case Env(e) => EnvFrame(s, e);
    case Receive(r, m) => MailKeepsMoney(s, r, m);
    case Request(q) =>
      RequestFrame(s, q);
      if q.CommitInitial? { InitialKeepsMoney(s, q.body); } else { RequestRows(s, q); }
    case Reply(p) =>
      ReplyFrame(s, p);
      if p.CommitJob? { CommitJobKeepsMoney(s, p.body); } else { ReplyRows(s, p); }
    case Follow(k, c) => ScanFrame(s, k, c); ScanQueuesFollowUps(s, k, c);
  }
}
