/** What every reachable state of the conversation engine satisfies, one predicate per theme. */
module RecordsInvariant {
  import opened Options
  import opened RecordsTables
  import opened RecordsProtocol
  import Amounts

  // ---- references between rows

  ghost predicate EmailPlaced(threads: seq<Thread>, e: Email) {
    e.thread.Some? ==> e.thread.value < |threads| && e.campaign == Some(threads[e.thread.value].campaign)
  }

  ghost predicate RequesterPlaced(threads: seq<Thread>, campaigns: map<nat, Campaign>, pc: Requester) {
    (!pc.Idle? ==> pc.msg.campaign in campaigns) &&
    (((pc.Found? || pc.Cleared?) && pc.existing.Some?) ==>
      pc.existing.value < |threads| && threads[pc.existing.value].campaign == pc.msg.campaign &&
      threads[pc.existing.value].jurisdiction == pc.msg.jurisdiction)
  }

  ghost predicate ReceiverPlaced(threads: seq<Thread>, pc: Receiver) {
    ((pc.Matched? || pc.Fresh?) && pc.found.Some? ==> pc.found.value < |threads|)
  }

  ghost predicate EmailsPlaced(threads: seq<Thread>, emails: seq<Email>) {
    forall i :: 0 <= i < |emails| ==> EmailPlaced(threads, emails[i])
  }

  ghost predicate ReceiversPlaced(threads: seq<Thread>, receivers: map<nat, Receiver>) {
    forall r :: r in receivers ==> ReceiverPlaced(threads, receivers[r])
  }

  ghost predicate ScannersPlaced(threads: seq<Thread>, scanners: map<nat, Scanner>) {
    forall k :: k in scanners ==>
      scanners[k].thread < |threads| && scanners[k].row.campaign == threads[scanners[k].thread].campaign
  }

  ghost predicate ThreadsPlaced(threads: seq<Thread>, campaigns: map<nat, Campaign>) {
    forall t :: 0 <= t < |threads| ==> threads[t].campaign in campaigns
  }

  ghost predicate ReplierPlaced(jobs: set<Job>, pc: Replier) {
    pc.Opened? || pc.Ready? ==> pc.job in jobs
  }

  ghost predicate Placed(s: State) {
    ThreadsPlaced(s.threads, s.campaigns) && EmailsPlaced(s.threads, s.emails) &&
    RequesterPlaced(s.threads, s.campaigns, s.requester) && ReceiversPlaced(s.threads, s.receivers) &&
    ReplierPlaced(s.jobs, s.replier) && ScannersPlaced(s.threads, s.scanners)
  }

  // ---- inbound mail

  ghost predicate UniqueMessages(emails: seq<Email>) {
    forall i, j :: 0 <= i < j < |emails| && emails[i].messageId.Some? && emails[i].messageId == emails[j].messageId ==>
      emails[i].campaign != emails[j].campaign
  }

  predicate Working(pc: Receiver) { pc.Reacting? || pc.Owing? || pc.Settling? || pc.Escalating? }

  /** The effects a handler may still have. */
  predicate Pending(pc: Receiver, e: Effect) {
    match e
    case Booking => pc.Reacting?
    case Queueing => pc.Reacting? || pc.Owing?
    case Referring => pc.Reacting?
    case Moving => Working(pc)
  }

  ghost predicate WorkOk(emails: seq<Email>, reactions: multiset<(nat, Effect)>, pc: Receiver) {
    Working(pc) ==>
      pc.inbound < |emails| && emails[pc.inbound].kind.None? && emails[pc.inbound].thread == Some(pc.thread) &&
      (pc.Reacting? ==> emails[pc.inbound].category == Some(pc.category)) &&
      forall e :: Pending(pc, e) ==> reactions[(pc.inbound, e)] == 0
  }

  ghost predicate OneHandlerPerRow(receivers: map<nat, Receiver>) {
    forall q, r :: q in receivers && r in receivers && q != r && Working(receivers[q]) && Working(receivers[r]) ==>
      receivers[q].inbound != receivers[r].inbound
  }

  ghost predicate ReactedOnce(emails: seq<Email>, reactions: multiset<(nat, Effect)>) {
    forall i: nat, e :: reactions[(i, e)] <= 1 && (i >= |emails| ==> reactions[(i, e)] == 0)
  }

  ghost predicate MailOk(emails: seq<Email>, receivers: map<nat, Receiver>, reactions: multiset<(nat, Effect)>) {
    UniqueMessages(emails) && OneHandlerPerRow(receivers) && ReactedOnce(emails, reactions) &&
    forall r :: r in receivers ==> WorkOk(emails, reactions, receivers[r])
  }

  // ---- money

  ghost predicate HasEntry(spend: seq<Spend>, thread: nat, inbound: nat, amount: nat) {
    exists k :: 0 <= k < |spend| && spend[k].thread == thread && spend[k].source == inbound && spend[k].amount == amount
  }

  ghost predicate HasSource(spend: seq<Spend>, thread: nat, inbound: nat) {
    exists k :: 0 <= k < |spend| && spend[k].thread == thread && spend[k].source == inbound
  }

  /** The entry was booked for the largest amount in a payment demand of its thread. */
  ghost predicate EntryOk(emails: seq<Email>, e: Spend) {
    e.source < |emails| && emails[e.source].kind.None? && emails[e.source].category == Some(PaymentRequired) &&
    emails[e.source].thread == Some(e.thread) && emails[e.source].campaign == Some(e.campaign) &&
    Amounts.Largest(emails[e.source].body) == Some(e.amount)
  }

  ghost predicate OneEntryPerDemand(spend: seq<Spend>) {
    forall k, l :: 0 <= k < l < |spend| ==> spend[k].source != spend[l].source
  }

  ghost predicate WithinBudget(spend: seq<Spend>, campaigns: map<nat, Campaign>) {
    forall c :: c in campaigns ==> Committed(spend, c) == 0 || Committed(spend, c) <= campaigns[c].budget
  }

  ghost predicate BookingOk(spend: seq<Spend>, pc: Receiver) {
    (pc.Reacting? ==> forall k :: 0 <= k < |spend| ==> spend[k].source != pc.inbound) &&
    (pc.Owing? ==> HasEntry(spend, pc.thread, pc.inbound, pc.amount))
  }

  ghost predicate JobsBooked(spend: seq<Spend>, jobs: set<Job>) {
    forall j :: j in jobs && j.AgreementJob? ==> HasEntry(spend, j.thread, j.inbound, j.amount)
  }

  ghost predicate AgreementsBooked(spend: seq<Spend>, emails: seq<Email>) {
    forall i :: 0 <= i < |emails| && emails[i].kind == Some(FeeAgreement) ==>
      emails[i].thread.Some? && emails[i].inReplyTo.Some? &&
      HasSource(spend, emails[i].thread.value, emails[i].inReplyTo.value)
  }

  ghost predicate MoneyOk(emails: seq<Email>, spend: seq<Spend>, receivers: map<nat, Receiver>, jobs: set<Job>,
                          campaigns: map<nat, Campaign>) {
    (forall k :: 0 <= k < |spend| ==> EntryOk(emails, spend[k])) && OneEntryPerDemand(spend) &&
    WithinBudget(spend, campaigns) && JobsBooked(spend, jobs) && AgreementsBooked(spend, emails) &&
    forall r :: r in receivers ==> BookingOk(spend, receivers[r])
  }

  // ---- follow-ups and replies

  predicate IsFollowUp(e: Email, t: nat) { e.thread == Some(t) && e.kind == Some(FollowUp) }

  ghost function FollowUpRows(emails: seq<Email>, t: nat): nat {
    if emails == [] then 0
    else FollowUpRows(emails[..|emails| - 1], t) + if IsFollowUp(emails[|emails| - 1], t) then 1 else 0
  }

  ghost predicate ThreadCounts(emails: seq<Email>, campaigns: map<nat, Campaign>, t: nat, row: Thread) {
    FollowUpRows(emails, t) == row.followups &&
    (row.followups > 0 && row.campaign in campaigns ==> row.followups <= campaigns[row.campaign].maxFollowups)
  }

  ghost predicate JobOk(threads: seq<Thread>, campaigns: map<nat, Campaign>, j: Job) {
    j.FollowUpJob? ==>
      j.thread < |threads| && j.index <= threads[j.thread].followups &&
      threads[j.thread].campaign in campaigns && j.index < campaigns[threads[j.thread].campaign].maxFollowups
  }

  ghost predicate ReadyOk(threads: seq<Thread>, emails: seq<Email>, pc: Replier) {
    pc.Ready? ==>
      if pc.job.FollowUpJob? then pc.job.thread < |threads| && pc.job.index >= threads[pc.job.thread].followups
      else !ReplyExists(emails, pc.job.thread, pc.job.inbound, JobKind(pc.job))
  }

  ghost predicate OneReply(emails: seq<Email>) {
    forall i, j :: (0 <= i < j < |emails| && emails[i].kind.Some? && emails[i].inReplyTo.Some? &&
      emails[j].kind == emails[i].kind && emails[j].inReplyTo ==
        emails[i].inReplyTo) ==> emails[j].thread != emails[i].thread
  }

  ghost predicate JobAnswered(emails: seq<Email>, j: Job) {
    !j.FollowUpJob? ==> j.inbound < |emails| && emails[j.inbound].thread == Some(j.thread)
  }

  ghost predicate RowAnswered(emails: seq<Email>, e: Email) {
    e.inReplyTo.Some? ==> e.inReplyTo.value < |emails| && emails[e.inReplyTo.value].thread == e.thread
  }

  /** Every reply, queued or sent, is on the thread of the mail it answers. */
  ghost predicate AnswersOk(emails: seq<Email>, jobs: set<Job>) {
    (forall j :: j in jobs ==> JobAnswered(emails, j)) &&
    forall i :: 0 <= i < |emails| ==> RowAnswered(emails, emails[i])
  }

  ghost predicate ScannersOk(threads: seq<Thread>, scanners: map<nat, Scanner>) {
    forall k :: k in scanners ==>
      scanners[k].thread < |threads| && scanners[k].row.followups <= threads[scanners[k].thread].followups
  }

  ghost predicate FollowOk(threads: seq<Thread>, emails: seq<Email>, jobs: set<Job>, replier: Replier,
                           scanners: map<nat, Scanner>, campaigns: map<nat, Campaign>) {
    (forall t :: 0 <= t < |threads| ==> ThreadCounts(emails, campaigns, t, threads[t])) &&
    (forall j :: j in jobs ==> JobOk(threads, campaigns, j)) &&
    ReadyOk(threads, emails, replier) && OneReply(emails) && ScannersOk(threads, scanners)
  }

  // ---- send limits

  predicate InitialOn(e: Email, c: nat, d: int) {
    e.campaign == Some(c) && e.kind == Some(InitialRequest) && Day(e.at) == d
  }

  /** The initial requests of campaign `c` on UTC day `d`. */
  ghost function InitialsOn(emails: seq<Email>, c: nat, d: int): nat {
    if emails == [] then 0
    else InitialsOn(emails[..|emails| - 1], c, d) + if InitialOn(emails[|emails| - 1], c, d) then 1 else 0
  }

  ghost predicate CapsKept(emails: seq<Email>, campaigns: map<nat, Campaign>) {
    forall c, d :: c in campaigns ==> InitialsOn(emails, c, d) == 0 || InitialsOn(emails, c, d) <= campaigns[c].dailyCap
  }

  /** An initial request to this office that really went out. */
  ghost predicate Contacts(threads: seq<Thread>, campaigns: map<nat, Campaign>, e: Email, office: nat) {
    e.kind == Some(InitialRequest) && e.thread.Some? && e.thread.value < |threads| &&
    threads[e.thread.value].jurisdiction == office && e.campaign.Some? && e.campaign.value in campaigns &&
    !campaigns[e.campaign.value].isTest
  }

  /** The office's stamp is no older than any real request to it. */
  ghost predicate ContactsStamped(threads: seq<Thread>, emails: seq<Email>, contacted: map<nat, Time>,
                                  campaigns: map<nat, Campaign>) {
    forall i, office :: 0 <= i < |emails| && Contacts(threads, campaigns, emails[i], office) ==>
      office in contacted && emails[i].at <= contacted[office]
  }

  ghost predicate CooldownKept(threads: seq<Thread>, emails: seq<Email>, campaigns: map<nat, Campaign>) {
    forall i, j, office :: (0 <= i < j < |emails| && Contacts(threads, campaigns, emails[i], office) &&
      IsRequest(threads, campaigns, emails[j], office) && !emails[j].bypass) ==>
      emails[i].at + DAY * campaigns[emails[j].campaign.value].cooldownDays <= emails[j].at
  }

  /** Any initial request to this office, test campaigns included. */
  ghost predicate IsRequest(threads: seq<Thread>, campaigns: map<nat, Campaign>, e: Email, office: nat) {
    e.kind == Some(InitialRequest) && e.thread.Some? && e.thread.value < |threads| &&
    threads[e.thread.value].jurisdiction == office && e.campaign.Some? && e.campaign.value in campaigns
  }

  ghost predicate RequesterOk(emails: seq<Email>, contacted: map<nat, Time>, campaigns: map<nat, Campaign>, now: Time,
                              pc: Requester) {
    (pc.Looking? || pc.Found? ==>
      if pc.msg.jurisdiction in contacted then pc.last == Some(contacted[pc.msg.jurisdiction]) else pc.last.None?) &&
    (pc.Cleared? && pc.msg.campaign in campaigns ==>
      pc.at <= now && InitialsOn(emails, pc.msg.campaign, Day(pc.at)) < campaigns[pc.msg.campaign].dailyCap &&
      (pc.msg.jurisdiction in contacted ==>
        contacted[pc.msg.jurisdiction] <= pc.at &&
        (pc.msg.bypass || contacted[pc.msg.jurisdiction] + DAY * campaigns[pc.msg.campaign].cooldownDays <= pc.at)))
  }

  ghost predicate SendOk(threads: seq<Thread>, emails: seq<Email>, contacted: map<nat, Time>, requester: Requester,
                         campaigns: map<nat, Campaign>, now: Time) {
    CapsKept(emails, campaigns) && ContactsStamped(threads, emails, contacted, campaigns) &&
    CooldownKept(threads, emails, campaigns) && RequesterOk(emails, contacted, campaigns, now, requester) &&
    forall o :: o in contacted ==> contacted[o] <= now
  }

  // ---- thread rows

  /** A due time is only kept while the thread waits for the office. */
  ghost predicate DueOnlyOpen(threads: seq<Thread>) {
    forall t :: 0 <= t < |threads| && threads[t].due.Some? ==> IsOpen(threads[t].status)
  }

  ghost predicate SnapshotsOpen(scanners: map<nat, Scanner>) {
    forall k :: k in scanners ==> IsOpen(scanners[k].row.status)
  }

  ghost predicate UniqueTokens(threads: seq<Thread>) {
    forall i, j :: 0 <= i < j < |threads| ==> threads[i].token != threads[j].token
  }

  ghost predicate RowsOk(threads: seq<Thread>, scanners: map<nat, Scanner>) {
    DueOnlyOpen(threads) && SnapshotsOpen(scanners) && UniqueTokens(threads)
  }

  ghost predicate Inv(s: State) {
    Placed(s) && RowsOk(s.threads, s.scanners) && MailOk(s.emails, s.receivers, s.reactions) &&
    AnswersOk(s.emails, s.jobs) &&
    MoneyOk(s.emails, s.spend, s.receivers, s.jobs, s.campaigns) &&
    FollowOk(s.threads, s.emails, s.jobs, s.replier, s.scanners, s.campaigns) &&
    SendOk(s.threads, s.emails, s.contacted, s.requester, s.campaigns, s.now)
  }
}
