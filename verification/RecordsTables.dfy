/** The public-records rows and the pure part of their store's operations. */
module RecordsTables {
  import opened Options

  type Time = int

  const DAY: Time := 86400

  datatype Status = PendingSend | RequestSent | AwaitingReply | Fulfilled | Referred | NeedsHuman | Failed

  datatype Category = DataProvided | PaymentRequired | NeedsClarification | Denial | Referral | Acknowledgment | Unclear

  datatype Campaign = Campaign(
    maxFollowups: int, budget: int, dailyCap: int, cooldownDays: int, intervalDays: int, isTest: bool)

  /** A thread's id is its position in the table. */
  datatype Thread = Thread(
    campaign: nat, jurisdiction: nat, contact: string, token: string, status: Status, followups: nat, due: Option<Time>)

  datatype Outbound = InitialRequest | FollowUp | ClarificationReply | FeeAgreement

  /** An email's id is its position in the table. `kind` is absent on inbound rows. `bypass` is bookkeeping:
      whether the message behind an initial request was allowed to skip the cooldown. */
  datatype Email = Email(
    thread: Option<nat>, campaign: Option<nat>, kind: Option<Outbound>, messageId: Option<string>,
      source: Option<string>,
    category: Option<Category>, body: string, inReplyTo: Option<nat>, at: Time, bypass: bool)

  /** `source` is bookkeeping: the inbound row whose handler booked the entry. */
  datatype Spend = Spend(campaign: nat, thread: nat, amount: nat, source: nat)

  datatype Job =
    | FollowUpJob(thread: nat, index: nat)
    | ClarificationJob(thread: nat, inbound: nat)
    | AgreementJob(thread: nat, inbound: nat, amount: nat)

  // ---- the thread state machine

  predicate IsOpen(status: Status) { status.RequestSent? || status.AwaitingReply? }

  /** The moves the pipeline may make on its own. */
  predicate AutoMove(from: Status, to: Status) {
    match from
    case PendingSend => to.RequestSent? || to.NeedsHuman?
    case RequestSent => to.AwaitingReply? || to.Fulfilled? || to.Referred? || to.NeedsHuman?
    case AwaitingReply => to.AwaitingReply? || to.Fulfilled? || to.Referred? || to.NeedsHuman?
    case _ => false
  }

  /** What the transition check lets through when no human is involved. */
  predicate MayMove(from: Status, to: Status) {
    from == to || AutoMove(from, to)
  }

  /** The allowed moves as a table: from sent or waiting onwards, from pending to sent or to a human, nothing else. */
  lemma MovesAreThese(from: Status, to: Status)
    ensures MayMove(from, to) == (from == to ||
      (from in {RequestSent, AwaitingReply} && to in {AwaitingReply, Fulfilled, Referred, NeedsHuman}) ||
      (from == PendingSend && to in {RequestSent, NeedsHuman}))
  {
  }

  /** An automatic status change; an illegal one raises and changes nothing. */
  function SetStatus(threads: seq<Thread>, t: nat, status: Status, due: Option<Time>): seq<Thread> {
    if t < |threads| && MayMove(threads[t].status, status) then threads[t := threads[t].(status := status, due := due)]
    else threads
  }

  function Escalate(threads: seq<Thread>, t: nat): seq<Thread> {
    SetStatus(threads, t, NeedsHuman, None)
  }

  function NextAction(c: Campaign, now: Time): Time { now + DAY * c.intervalDays }

  // ---- lookups

  ghost predicate FirstWithToken(threads: seq<Thread>, token: string, found: Option<nat>) {
    match found
    case None => forall i :: 0 <= i < |threads| ==> threads[i].token != token
    case Some(k) => k < |threads| && threads[k].token == token && forall i :: 0 <= i < k ==> threads[i].token != token
  }

  predicate OpenTo(t: Thread, contact: string) { t.contact == contact && IsOpen(t.status) }

  ghost predicate FirstOpenTo(threads: seq<Thread>, contact: string, found: Option<nat>) {
    match found
    case None => forall i :: 0 <= i < |threads| ==> !OpenTo(threads[i], contact)
    case Some(k) => k < |threads| && OpenTo(threads[k], contact) && forall i :: 0 <= i < k ==>
      !OpenTo(threads[i], contact)
  }

  predicate IsFor(t: Thread, campaign: nat, jurisdiction: nat, contact: string) {
    t.campaign == campaign && t.jurisdiction == jurisdiction && t.contact == contact
  }

  ghost predicate FirstFor(threads: seq<Thread>, campaign: nat, jurisdiction: nat, contact: string,
                           found: Option<nat>) {
    match found
    case None => forall i :: 0 <= i < |threads| ==> !IsFor(threads[i], campaign, jurisdiction, contact)
    case Some(k) =>
      k < |threads| && IsFor(threads[k], campaign, jurisdiction, contact) &&
      forall i :: 0 <= i < k ==> !IsFor(threads[i], campaign, jurisdiction, contact)
  }

  predicate HasMessage(emails: seq<Email>, campaign: Option<nat>, messageId: string) {
    exists i :: 0 <= i < |emails| && emails[i].messageId == Some(messageId) && emails[i].campaign == campaign
  }

  predicate IsReply(e: Email, thread: nat, inbound: nat, kind: Outbound) {
    e.thread == Some(thread) && e.kind == Some(kind) && e.inReplyTo == Some(inbound)
  }

  predicate ReplyExists(emails: seq<Email>, thread: nat, inbound: nat, kind: Outbound) {
    exists i :: 0 <= i < |emails| && IsReply(emails[i], thread, inbound, kind)
  }

  // ---- counts and sums

  function Midnight(now: Time): Time { now - now % DAY }
  function Day(now: Time): int { now / DAY }

  predicate OutboundSince(e: Email, campaign: nat, since: Time) {
    e.campaign == Some(campaign) && e.kind.Some? && e.at >= since
  }

  function CountSince(emails: seq<Email>, campaign: nat, since: Time): nat {
    if emails == [] then 0
    else
      CountSince(emails[..|emails| - 1], campaign, since) +
      if OutboundSince(emails[|emails| - 1], campaign, since) then 1 else 0
  }

  function Committed(spend: seq<Spend>, campaign: nat): nat {
    if spend == [] then 0
    else
      Committed(spend[..|spend| - 1], campaign) +
      if spend[|spend| - 1].campaign == campaign then spend[|spend| - 1].amount else 0
  }

  /** Midnight is the start of the day: the last multiple of 86400 seconds up to now. */
  lemma MidnightStartsTheDay(now: Time)
    ensures Midnight(now) % 86400 == 0 && Midnight(now) <= now < Midnight(now) + 86400
    ensures Midnight(now) == 86400 * Day(now)
  {
  }

  /** Every outbound row counts once, for its own campaign, from its own time on; the order does not matter. */
  lemma {:induction false} CountOfParts(a: seq<Email>, b: seq<Email>, campaign: nat, since: Time)
    ensures CountSince(a + b, campaign, since) == CountSince(a, campaign, since) + CountSince(b, campaign, since)
    decreases |b|
  {
    if b == [] {
      assert a + b == a;
    } else {
      CountOfParts(a, b[..|b| - 1], campaign, since);
      assert (a + b)[..|a + b| - 1] == a + b[..|b| - 1];
    }
  }

  lemma CountOfOne(e: Email, campaign: nat, since: Time)
    ensures CountSince([e], campaign, since) == if e.campaign == Some(campaign) && e.kind != None && since <= e.at
      then 1 else 0
  {
    assert [e][..0] == [];
  }

  /** Every entry is committed once, for its own campaign; the order does not matter. */
  lemma {:induction false} CommittedOfParts(a: seq<Spend>, b: seq<Spend>, campaign: nat)
    ensures Committed(a + b, campaign) == Committed(a, campaign) + Committed(b, campaign)
    decreases |b|
  {
    if b == [] {
      assert a + b == a;
    } else {
      CommittedOfParts(a, b[..|b| - 1], campaign);
      assert (a + b)[..|a + b| - 1] == a + b[..|b| - 1];
    }
  }

  lemma CommittedOfOne(e: Spend, campaign: nat)
    ensures Committed([e], campaign) == if e.campaign == campaign then e.amount else 0
  {
    assert [e][..0] == [];
  }

  // ---- the composite send commits

  function JobKind(job: Job): Outbound {
    match job
    case FollowUpJob(_, _) => FollowUp
    case ClarificationJob(_, _) => ClarificationReply
    case AgreementJob(_, _, _) => FeeAgreement
  }

  function JobEmail(threads: seq<Thread>, job: Job, body: string, now: Time): Email
    requires job.thread < |threads|
  {
    Email(Some(job.thread), Some(threads[job.thread].campaign), Some(JobKind(job)), None, None, None, body,
          if job.FollowUpJob? then None else Some(job.inbound), now, false)
  }

  function InitialEmail(thread: nat, campaign: nat, body: string, now: Time, bypass: bool): Email {
    Email(Some(thread), Some(campaign), Some(InitialRequest), None, None, None, body, None, now, bypass)
  }

  /** The thread row after a thread send: waiting for a reply, and one more follow-up when it was one. */
  function AfterSend(t: Thread, job: Job, due: Option<Time>): Thread {
    t.(status := AwaitingReply, due := due, followups := t.followups + if job.FollowUpJob? then 1 else 0)
  }
}
