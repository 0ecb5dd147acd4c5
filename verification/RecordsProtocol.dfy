/** The public-records conversation engine as one interleaved step system.

    Every store and queue operation is one step. Any number of receivers and scans run at once; one consumer
    sends initial requests and one sends thread jobs, as deployed. Each of them may stop between any two steps.
    Mail and contact messages may arrive at any time and any number of times; a queued job may be delivered any
    number of times or never. A scan over several threads is that many scanners started at one moment. */
module RecordsProtocol {
  import opened Options
  import opened RecordsTables
  import Amounts

  datatype Mail = Mail(source: string, messageId: string, token: Option<string>, from: string, body: string)

  datatype Contact = Contact(campaign: nat, jurisdiction: nat, address: string, bypass: bool)

  datatype Receiver =
    | Arrived(mail: Mail)
    | Unnamed(mail: Mail)
    | Matched(mail: Mail, found: Option<nat>)
    | Fresh(mail: Mail, found: Option<nat>)
    | Reacting(thread: nat, inbound: nat, category: Category, referred: bool)
    | Owing(thread: nat, inbound: nat, amount: nat)
    | Settling(thread: nat, inbound: nat, status: Status)
    | Escalating(thread: nat, inbound: nat)

  datatype Requester =
    | Idle
    | Looking(msg: Contact, last: Option<Time>)
    | Found(msg: Contact, last: Option<Time>, existing: Option<nat>, token: string)
    | Cleared(msg: Contact, existing: Option<nat>, token: string, at: Time)

  datatype Replier =
    | Waiting
    | Opened(job: Job)
    | Ready(job: Job, due: Option<Time>)

  datatype Scanner =
    | Holding(thread: nat, row: Thread)
    | Rescheduling(thread: nat, row: Thread)

  /** What a reaction to one inbound row can do to the outside. */
  datatype Effect = Booking | Queueing | Referring | Moving

  /** `reactions` is bookkeeping: every effect ever made in reaction to an inbound row. */
  datatype State = State(
    now: Time, campaigns: map<nat, Campaign>, active: set<nat>, threads: seq<Thread>, emails: seq<Email>,
      spend: seq<Spend>,
    contacted: map<nat, Time>, jobs: set<Job>, receivers: map<nat, Receiver>, requester: Requester, replier: Replier,
    scanners: map<nat, Scanner>, reactions: multiset<(nat, Effect)>)

  datatype EnvStep = Tick(dt: nat) | Activate(campaign: nat, on: bool) | Resolve(thread: nat,
    status: Status) | DeadLetter(thread: nat)

  datatype MailStep =
    | Take(mail: Mail)
    | MatchToken(found: Option<nat>)
    | MatchSender(found: Option<nat>)
    | Dedupe
    | LogUnmatched
    | Log(category: Category, referred: bool)
    | File(stored: bool)
    | Book
    | QueueJob
    | Refer
    | Settle
    | EscalateMail
    | Crash

  datatype RequestStep =
    | TakeContact(msg: Contact)
    | FindThread(found: Option<nat>, newToken: string)
    | PassGates
    | RefuseAnonymous
    | CommitInitial(body: string)
    | DropContact

  datatype ReplyStep = TakeJob(job: Job) | CheckJob | CommitJob(body: string) | DropJob

  datatype ScanStep = Scan(thread: nat) | ScanAct | Reschedule | StopScan

  /** Steps of the environment and the human, a receiver, the initial-request sender, the thread-job sender, a scan. */
  datatype Step =
    | Env(env: EnvStep)
    | Receive(r: nat, mail: MailStep)
    | Request(request: RequestStep)
    | Reply(reply: ReplyStep)
    | Follow(k: nat, scan: ScanStep)

  predicate Named(mail: Mail) { mail.token.Some? && mail.token.value != "" }

  /** Reactions that end in an escalation without touching anything first. */
  predicate Escalates(pc: Receiver) {
    pc.Escalating? || (pc.Reacting? && (pc.category.Denial? || pc.category.Unclear? ||
      (pc.category.Referral? && !pc.referred)))
  }

  predicate Queues(pc: Receiver) {
    pc.Owing? || (pc.Reacting? && pc.category.NeedsClarification?)
  }

  ghost predicate EnvEnabled(s: State, step: EnvStep) {
    match step
    case Tick(_) => true
    case Activate(c, _) => c in s.campaigns
    case Resolve(t, _) => t < |s.threads|
    case DeadLetter(_) => true
  }

  ghost predicate MailReady(s: State, pc: Receiver, step: MailStep) {
    match step
    case MatchToken(found) =>
      pc.Arrived? && if Named(pc.mail) then FirstWithToken(s.threads, pc.mail.token.value, found) else found.None?
    case MatchSender(found) => pc.Unnamed? && FirstOpenTo(s.threads, pc.mail.from, found)
    case Dedupe => pc.Matched?
    case LogUnmatched => pc.Fresh? && pc.found.None?
    case Log(_, _) => pc.Fresh? && pc.found.Some?
    case File(_) => pc.Reacting? && (pc.category.DataProvided? || pc.category.Acknowledgment?)
    case Book => pc.Reacting? && pc.category.PaymentRequired?
    case QueueJob => Queues(pc)
    case Refer => pc.Reacting? && pc.category.Referral? && pc.referred
    case Settle => pc.Settling?
    case EscalateMail => Escalates(pc)
    case _ => true
  }

  ghost predicate MailEnabled(s: State, r: nat, step: MailStep) {
    match step
    case Take(_) => r !in s.receivers
    case Crash => true
    case _ => r in s.receivers && MailReady(s, s.receivers[r], step)
  }

  ghost predicate RequestEnabled(s: State, step: RequestStep) {
    match step
    case TakeContact(_) => s.requester.Idle?
    case FindThread(found, _) =>
      s.requester.Looking? &&
      FirstFor(s.threads, s.requester.msg.campaign, s.requester.msg.jurisdiction, s.requester.msg.address, found)
    case PassGates => s.requester.Found?
    case RefuseAnonymous => s.requester.Cleared?
    case CommitInitial(_) => s.requester.Cleared?
    case DropContact => true
  }

  ghost predicate ReplyEnabled(s: State, step: ReplyStep) {
    match step
    case TakeJob(job) => s.replier.Waiting? && job in s.jobs
    case CheckJob => s.replier.Opened?
    case CommitJob(_) => s.replier.Ready?
    case DropJob => true
  }

  ghost predicate ScanEnabled(s: State, k: nat, step: ScanStep) {
    match step
    case Scan(t) =>
      k !in s.scanners && t < |s.threads| && IsOpen(s.threads[t].status) && s.threads[t].due.Some? &&
      s.threads[t].due.value <= s.now
    case ScanAct => k in s.scanners && s.scanners[k].Holding?
    case Reschedule => k in s.scanners && s.scanners[k].Rescheduling?
    case StopScan => true
  }

  ghost predicate Enabled(s: State, step: Step) {
    match step
    case Env(e) => EnvEnabled(s, e)
    case Receive(r, m) => MailEnabled(s, r, m)
    case Request(q) => RequestEnabled(s, q)
    case Reply(p) => ReplyEnabled(s, p)
    case Follow(k, c) => ScanEnabled(s, k, c)
  }

  // ---- receivers

  function CampaignOf(s: State, found: Option<nat>): Option<nat> {
    if found.Some? && found.value < |s.threads| then Some(s.threads[found.value].campaign) else None
  }

  function Put(s: State, r: nat, pc: Receiver): State { s.(receivers := s.receivers[r := pc]) }

  function Dropped(s: State, r: nat): State { s.(receivers := s.receivers - {r}) }

  function InboundEmail(mail: Mail, thread: Option<nat>, campaign: Option<nat>, category: Option<Category>,
                        now: Time): Email {
    Email(thread, campaign, None, Some(mail.messageId), Some(mail.source), category, mail.body, None, now, false)
  }

  /** The unique constraint on (campaign, message id) refuses the row if another receiver wrote it first. */
  function DoLog(s: State, r: nat, category: Option<Category>, referred: bool): State
    requires r in s.receivers && s.receivers[r].Fresh? && (s.receivers[r].found.Some? ==> category.Some?)
  {
    var pc := s.receivers[r];
    var campaign := CampaignOf(s, pc.found);
    if HasMessage(s.emails, campaign, pc.mail.messageId) then Dropped(s, r)
    else
      s.(emails := s.emails + [InboundEmail(pc.mail, pc.found, campaign, category, s.now)],
         receivers := if pc.found.None? then s.receivers - {r}
                      else s.receivers[r := Reacting(pc.found.value, |s.emails|, category.value, referred)])
  }

  function Reacted(s: State, inbound: nat, effect: Effect): multiset<(nat, Effect)> {
    s.reactions + multiset{(inbound, effect)}
  }

  /** The amount the fee flow may book: the mail names one, the campaign has a budget, and the rest of it holds the
      amount. */
  function Payable(s: State, thread: nat, inbound: nat): Option<nat> {
    if inbound >= |s.emails| || thread >= |s.threads| || s.threads[thread].campaign !in s.campaigns then None
    else
      var c := s.threads[thread].campaign;
      var amount := Amounts.Largest(s.emails[inbound].body);
      if amount.None? || s.campaigns[c].budget <= 0 ||
        Committed(s.spend, c) + amount.value > s.campaigns[c].budget then None
      else amount
  }

  function DoBook(s: State, r: nat): State
    requires r in s.receivers && s.receivers[r].Reacting?
  {
    var pc := s.receivers[r];
    var amount := Payable(s, pc.thread, pc.inbound);
    if amount.None? then Put(s, r, Escalating(pc.thread, pc.inbound))
    else
      s.(spend := s.spend + [Spend(s.threads[pc.thread].campaign, pc.thread, amount.value, pc.inbound)],
         receivers := s.receivers[r := Owing(pc.thread, pc.inbound, amount.value)],
         reactions := Reacted(s, pc.inbound, Booking))
  }

  function DoQueueJob(s: State, r: nat): State
    requires r in s.receivers && Queues(s.receivers[r])
  {
    var pc := s.receivers[r];
    var job := if pc.Owing? then AgreementJob(pc.thread, pc.inbound, pc.amount)
      else ClarificationJob(pc.thread, pc.inbound);
    s.(jobs := s.jobs + {job}, receivers := s.receivers[r := Settling(pc.thread, pc.inbound, AwaitingReply)],
       reactions := Reacted(s, pc.inbound, Queueing))
  }

  /** The due time a settled reaction leaves: the next follow-up for a thread that waits, none otherwise. */
  function DueAfter(s: State, t: nat, status: Status): Option<Time> {
    if status.AwaitingReply? && t < |s.threads| && s.threads[t].campaign in s.campaigns
    then Some(NextAction(s.campaigns[s.threads[t].campaign], s.now)) else None
  }

  function DoMove(s: State, r: nat, status: Status): State
    requires r in s.receivers && (s.receivers[r].Settling? || Escalates(s.receivers[r]))
  {
    var pc := s.receivers[r];
    s.(threads := SetStatus(s.threads, pc.thread, status, DueAfter(s, pc.thread, status)),
      receivers := s.receivers - {r},
       reactions := Reacted(s, pc.inbound, Moving))
  }

  // ---- the initial-request sender

  function AfterTake(s: State, msg: Contact): Requester {
    if msg.campaign !in s.campaigns || msg.campaign !in s.active then Idle
    else Looking(msg, if msg.jurisdiction in s.contacted then Some(s.contacted[msg.jurisdiction]) else None)
  }

  /** An existing thread is only sent again when a human put it back to pending. */
  function AfterFind(threads: seq<Thread>, pc: Requester, found: Option<nat>, newToken: string): Requester
    requires pc.Looking? && (found.Some? ==> found.value < |threads|)
  {
    if found.None? then Found(pc.msg, pc.last, None, newToken)
    else if threads[found.value].status.PendingSend? then Found(pc.msg, pc.last, found, threads[found.value].token)
    else Idle
  }

  /** The daily cap counts every outbound row since UTC midnight; the cooldown looks at the office's stamp. */
  function AfterGates(s: State, pc: Requester): Requester
    requires pc.Found?
  {
    if pc.msg.campaign !in s.campaigns then Idle
    else
      var c := s.campaigns[pc.msg.campaign];
      if CountSince(s.emails, pc.msg.campaign, Midnight(s.now)) >= c.dailyCap then Idle
      else if !pc.msg.bypass && pc.last.Some? && s.now < pc.last.value + DAY * c.cooldownDays then Idle
      else Cleared(pc.msg, pc.existing, pc.token, s.now)
  }

  function TokenTaken(threads: seq<Thread>, token: string): bool {
    exists i :: 0 <= i < |threads| && threads[i].token == token
  }

  function DoInitial(s: State, body: string): State
    requires s.requester.Cleared?
  {
    var pc := s.requester;
    var msg := pc.msg;
    if msg.campaign !in s.campaigns then s.(requester := Idle)
    else
      var c := s.campaigns[msg.campaign];
      var due := Some(NextAction(c, s.now));
      var contacted := if c.isTest then s.contacted else s.contacted[msg.jurisdiction := pc.at];
      if pc.existing.Some? then
        var t := pc.existing.value;
        if t < |s.threads| && MayMove(s.threads[t].status, RequestSent) then
          s.(threads := s.threads[t := s.threads[t].(status := RequestSent, contact := msg.address, due := due)],
             emails := s.emails + [InitialEmail(t, msg.campaign, body, pc.at, msg.bypass)],
             contacted := contacted, requester := Idle)
        else s.(requester := Idle)
      else if TokenTaken(s.threads, pc.token) then s.(requester := Idle)
      else
        s.(threads := s.threads + [Thread(msg.campaign, msg.jurisdiction, msg.address, pc.token, RequestSent, 0, due)],
           emails := s.emails + [InitialEmail(|s.threads|, msg.campaign, body, pc.at, msg.bypass)],
           contacted := contacted, requester := Idle)
  }

  // ---- the thread-job sender

  function AfterTakeJob(threads: seq<Thread>, job: Job): Replier {
    if job.thread < |threads| && IsOpen(threads[job.thread].status) then Opened(job) else Waiting
  }

  function AfterCheck(threads: seq<Thread>, emails: seq<Email>, job: Job): Replier {
    if job.thread >= |threads| then Waiting
    else if job.FollowUpJob? then
      if job.index < threads[job.thread].followups then Waiting else Ready(job, threads[job.thread].due)
    else if ReplyExists(emails, job.thread, job.inbound, JobKind(job)) then Waiting
    else Ready(job, None)
  }

  function DoCommitJob(s: State, body: string): State
    requires s.replier.Ready?
  {
    var job := s.replier.job;
    if job.thread >= |s.threads| || !MayMove(s.threads[job.thread].status, AwaitingReply) then s.(replier := Waiting)
    else
      var due := if job.FollowUpJob? then s.replier.due else DueAfter(s, job.thread, AwaitingReply);
      s.(threads := s.threads[job.thread := AfterSend(s.threads[job.thread], job, due)],
         emails := s.emails + [JobEmail(s.threads, job, body, s.now)], replier := Waiting)
  }

  // ---- follow-up scans

  function DoScanAct(s: State, k: nat): State
    requires k in s.scanners && s.scanners[k].Holding?
  {
    var pc := s.scanners[k];
    if pc.row.campaign !in s.campaigns then s.(scanners := s.scanners - {k})
    else if pc.row.followups >= s.campaigns[pc.row.campaign].maxFollowups then
      s.(threads := Escalate(s.threads, pc.thread), scanners := s.scanners - {k})
    else
      s.(jobs := s.jobs + {FollowUpJob(pc.thread, pc.row.followups)},
         scanners := s.scanners[k := Rescheduling(pc.thread, pc.row)])
  }

  function DoReschedule(s: State, k: nat): State
    requires k in s.scanners && s.scanners[k].Rescheduling?
  {
    var pc := s.scanners[k];
    if pc.row.campaign !in s.campaigns then s.(scanners := s.scanners - {k})
    else
      s.(threads := SetStatus(s.threads, pc.thread, pc.row.status,
        Some(NextAction(s.campaigns[pc.row.campaign], s.now))),
         scanners := s.scanners - {k})
  }

  // ---- steps

  function ApplyEnv(s: State, step: EnvStep): State
    requires EnvEnabled(s, step)
  {
    match step
    case Tick(dt) => s.(now := s.now + dt)
    case Activate(c, on) => s.(active := if on then s.active + {c} else s.active - {c})
    case Resolve(t, status) => s.(threads := s.threads[t := s.threads[t].(status := status, due := None)])
    case DeadLetter(t) => s.(threads := Escalate(s.threads, t))
  }

  function ApplyMail(s: State, r: nat, step: MailStep): State
    requires MailEnabled(s, r, step)
  {
    match step
    case Take(mail) => Put(s, r, Arrived(mail))
    case MatchToken(found) =>
      Put(s, r, if found.Some? then Matched(s.receivers[r].mail, found) else Unnamed(s.receivers[r].mail))
    case MatchSender(found) => Put(s, r, Matched(s.receivers[r].mail, found))
    case Dedupe =>
      var pc := s.receivers[r];
      if HasMessage(s.emails, CampaignOf(s, pc.found), pc.mail.messageId) then Dropped(s, r)
      else Put(s, r, Fresh(pc.mail, pc.found))
    case LogUnmatched => DoLog(s, r, None, false)
    case Log(category, referred) => DoLog(s, r, Some(category), referred)
    case File(stored) =>
      var pc := s.receivers[r];
      Put(s, r, Settling(pc.thread, pc.inbound, if pc.category.DataProvided? ||
        stored then Fulfilled else AwaitingReply))
    case Book => DoBook(s, r)
    case QueueJob => DoQueueJob(s, r)
    case Refer =>
      var pc := s.receivers[r];
      Put(s, r, Settling(pc.thread, pc.inbound, Referred)).(reactions := Reacted(s, pc.inbound, Referring))
    case Settle => DoMove(s, r, s.receivers[r].status)
    case EscalateMail => DoMove(s, r, NeedsHuman)
    case Crash => Dropped(s, r)
  }

  function ApplyRequest(s: State, step: RequestStep): State
    requires RequestEnabled(s, step)
  {
    match step
    case TakeContact(msg) => s.(requester := AfterTake(s, msg))
    case FindThread(found, newToken) => s.(requester := AfterFind(s.threads, s.requester, found, newToken))
    case PassGates => s.(requester := AfterGates(s, s.requester))
    case RefuseAnonymous =>
      s.(threads := if s.requester.existing.Some? then Escalate(s.threads, s.requester.existing.value) else s.threads,
         requester := Idle)
    case CommitInitial(body) => DoInitial(s, body)
    case DropContact => s.(requester := Idle)
  }

  function ApplyReply(s: State, step: ReplyStep): State
    requires ReplyEnabled(s, step)
  {
    match step
    case TakeJob(job) => s.(replier := AfterTakeJob(s.threads, job))
    case CheckJob => s.(replier := AfterCheck(s.threads, s.emails, s.replier.job))
    case CommitJob(body) => DoCommitJob(s, body)
    case DropJob => s.(replier := Waiting)
  }

  function ApplyScan(s: State, k: nat, step: ScanStep): State
    requires ScanEnabled(s, k, step)
  {
    match step
    case Scan(t) => s.(scanners := s.scanners[k := Holding(t, s.threads[t])])
    case ScanAct => DoScanAct(s, k)
    case Reschedule => DoReschedule(s, k)
    case StopScan => s.(scanners := s.scanners - {k})
  }

  function Apply(s: State, step: Step): State
    requires Enabled(s, step)
  {
    match step
    case Env(e) => ApplyEnv(s, e)
    case Receive(r, m) => ApplyMail(s, r, m)
    case Request(q) => ApplyRequest(s, q)
    case Reply(p) => ApplyReply(s, p)
    case Follow(k, c) => ApplyScan(s, k, c)
  }

  // ---- runs

  /** No threads, mail, ledger entries or work yet; campaigns are registered. */
  ghost predicate Init(s: State) {
    s.threads == [] && s.emails == [] && s.spend == [] && s.contacted == map[] && s.jobs == {} &&
      s.receivers == map[] &&
    s.requester.Idle? && s.replier.Waiting? && s.scanners == map[] && s.reactions == multiset{}
  }

  ghost predicate ValidRun(s: State, steps: seq<Step>)
    decreases |steps|
  {
    steps == [] || (Enabled(s, steps[0]) && ValidRun(Apply(s, steps[0]), steps[1..]))
  }

  ghost function Run(s: State, steps: seq<Step>): State
    requires ValidRun(s, steps)
    decreases |steps|
  {
    if steps == [] then s else Run(Apply(s, steps[0]), steps[1..])
  }

  lemma {:induction false} Extend(s: State, steps: seq<Step>, step: Step)
    requires ValidRun(s, steps) && Enabled(Run(s, steps), step)
    ensures ValidRun(s, steps + [step]) && Run(s, steps + [step]) == Apply(Run(s, steps), step)
    decreases |steps|
  {
    if steps == [] {
      assert [step][1..] == [];
    } else {
      Extend(Apply(s, steps[0]), steps[1..], step);
      assert (steps + [step])[1..] == steps[1..] + [step];
    }
  }
}
