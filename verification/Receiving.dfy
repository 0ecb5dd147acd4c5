/** The email receiver and the fee flow: match, classify, log, react, each as steps of the protocol. */
module Receiving {
  import opened Options
  import opened RecordsTables
  import opened RecordsProtocol
  import opened RecordsWorld
  import Amounts

  /** The thread a mail belongs to: its token's, else the first open thread of its sender. */
  ghost predicate Matches(threads: seq<Thread>, mail: Mail, found: Option<nat>) {
    if Named(mail) && !FirstWithToken(threads, mail.token.value, None) then
      FirstWithToken(threads, mail.token.value, found)
    else FirstOpenTo(threads, mail.from, found)
  }

  /** Nothing happened but that receiver `r` now stands at `pc`. */
  ghost predicate Stands(before: State, after: State, r: nat, pc: Receiver) {
    after == before.(receivers := before.receivers[r := pc])
  }

  method MatchToken(w: World, ghost r: nat, mail: Mail) returns (found: Option<nat>)
    requires w.Valid() && r !in w.receivers
    modifies w`trace, w`receivers, w`requester, w`replier, w`scanners, w`reactions
    ensures w.Valid() && old(w.trace) <= w.trace
    ensures Stands(old(w.View()), w.View(), r, if found.Some? then Matched(mail, found) else Unnamed(mail))
    ensures if Named(mail) then FirstWithToken(w.threads, mail.token.value, found) else found.None?
  {
    w.Moves(r, Take(mail), Arrived(mail));
    found := None;
    if mail.token.Some? && mail.token.value != "" {
      found := w.GetThreadByToken(mail.token.value);
    }
    w.Moves(r, MailStep.MatchToken(found), if found.Some? then Matched(mail, found) else Unnamed(mail));
  }

  method MatchThread(w: World, ghost r: nat, mail: Mail) returns (found: Option<nat>)
    requires w.Valid() && r !in w.receivers
    modifies w`trace, w`receivers, w`requester, w`replier, w`scanners, w`reactions
    ensures w.Valid() && Stands(old(w.View()), w.View(), r, Matched(mail, found)) && old(w.trace) <= w.trace
    ensures Matches(w.threads, mail, found)
  {
    found := MatchToken(w, r, mail);
    if found.None? {
      found := w.FindOpenThreadByContact(mail.from);
      w.Moves(r, MatchSender(found), Matched(mail, found));
    }
  }

  // ---- reactions

  /** The handler of row `inbound` is done, having moved its thread to `status` if that was allowed. */
  ghost predicate Settled(before: State, after: State, r: nat, thread: nat, inbound: nat, status: Status) {
    after == before.(
      threads := SetStatus(before.threads, thread, status, DueAfter(before, thread, status)),
      receivers := before.receivers - {r}, reactions := Reacted(before, inbound, Moving))
  }

  /** Sets the thread's status, and its next follow-up when it waits again. */
  method SettleThread(w: World, ghost r: nat, thread: nat, ghost inbound: nat, status: Status) returns (ok: bool)
    requires w.Valid() && r in w.receivers && !status.NeedsHuman?
    requires w.receivers[r] == Settling(thread, inbound, status)
    modifies w`threads, w`trace, w`receivers, w`requester, w`replier, w`scanners, w`reactions
    ensures w.Valid() && Settled(old(w.View()), w.View(), r, thread, inbound, status) && old(w.trace) <= w.trace
    ensures ok == (thread < |old(w.threads)| && MayMove(old(w.threads)[thread].status, status))
  {
    ghost var before := w.View();
    var due: Option<Time> := None;
    if status.AwaitingReply? && thread < |w.threads| && w.threads[thread].campaign in w.campaigns {
      due := Some(NextAction(w.campaigns[w.threads[thread].campaign], w.now));
    }
    ok := false;
    if thread < |w.threads| { ok := w.SetThreadStatus(thread, status, due, false); }
    w.Record(before, Receive(r, Settle));
  }

  /** Parks the thread for a human; a thread already closed keeps its status. */
  method EscalateThread(w: World, ghost r: nat, thread: nat, ghost inbound: nat)
    requires w.Valid() && r in w.receivers && Escalates(w.receivers[r])
    requires w.receivers[r].thread == thread && w.receivers[r].inbound == inbound
    modifies w`threads, w`trace, w`receivers, w`requester, w`replier, w`scanners, w`reactions
    ensures w.Valid() && Settled(old(w.View()), w.View(), r, thread, inbound, NeedsHuman) && old(w.trace) <= w.trace
  {
    ghost var before := w.View();
    if thread < |w.threads| { var _ := w.SetThreadStatus(thread, NeedsHuman, None, false); }
    w.Record(before, Receive(r, EscalateMail));
  }

  /** Queues the job the reaction calls for. */
  method SendJob(w: World, ghost r: nat, job: Job)
    requires w.Valid() && r in w.receivers && Queues(w.receivers[r]) && !job.FollowUpJob?
    requires var pc := w.receivers[r];
      job == if pc.Owing? then AgreementJob(pc.thread, pc.inbound, pc.amount)
        else ClarificationJob(pc.thread, pc.inbound)
    modifies w`jobs, w`trace, w`receivers, w`requester, w`replier, w`scanners, w`reactions
    ensures w.Valid() && old(w.trace) <= w.trace
    ensures w.View() == old(w.View()).(
      jobs := old(w.jobs) + {job}, receivers := old(w.receivers)[r := Settling(job.thread, job.inbound, AwaitingReply)],
      reactions := Reacted(old(w.View()), job.inbound, Queueing))
  {
    ghost var before := w.View();
    w.jobs := w.jobs + {job};
    w.Record(before, Receive(r, QueueJob));
  }

  /** The reaction ends in an illegal status change: the call raises, and the message is left for redelivery. */
  predicate Refused(s: State, t: nat, goal: Status) {
    !goal.NeedsHuman? && !(t < |s.threads| && MayMove(s.threads[t].status, goal))
  }

  // ---- the fee flow

  /** The demand's amount is in the ledger, the agreement is queued, and the thread waits again. */
  ghost predicate Agreed(s: State, s': State, r: nat, t: nat, i: nat, amount: nat)
    requires t < |s.threads|
  {
    s'.spend == s.spend + [Spend(s.threads[t].campaign, t, amount, i)] &&
      s'.jobs == s.jobs + {AgreementJob(t, i, amount)} &&
    s' == s.(spend := s'.spend, jobs := s'.jobs, reactions := s'.reactions, receivers := s.receivers - {r},
             threads := SetStatus(s.threads, t, AwaitingReply, DueAfter(s, t, AwaitingReply)))
  }

  method HandlePaymentRequired(w: World, ghost r: nat, thread: nat, inbound: nat) returns (done: bool)
    requires w.Valid() && r in w.receivers && w.receivers[r].Reacting? && w.receivers[r].category.PaymentRequired?
    requires w.receivers[r].thread == thread && w.receivers[r].inbound == inbound
    modifies w`threads, w`spend, w`jobs, w`trace, w`receivers, w`requester, w`replier, w`scanners, w`reactions
    ensures w.Valid() && old(w.trace) <= w.trace
    ensures var amount := Payable(old(w.View()), thread, inbound);
      if amount.None? then done && Settled(old(w.View()), w.View(), r, thread, inbound, NeedsHuman)
      else
        thread < |old(w.threads)| && Agreed(old(w.View()), w.View(), r, thread, inbound, amount.value) &&
        done == !Refused(old(w.View()), thread, AwaitingReply)
  {
    var booked, amount := Book(w, r, thread, inbound);
    if !booked {
      EscalateThread(w, r, thread, inbound);
      return true;
    }
    SendJob(w, r, AgreementJob(thread, inbound, amount));
    done := SettleThread(w, r, thread, inbound, AwaitingReply);
  }

  /** Parses the amount, checks the budget and books it. */
  method Book(w: World, ghost r: nat, thread: nat, inbound: nat) returns (booked: bool, amount: nat)
    requires w.Valid() && r in w.receivers && w.receivers[r].Reacting? && w.receivers[r].category.PaymentRequired?
    requires w.receivers[r].thread == thread && w.receivers[r].inbound == inbound
    modifies w`spend, w`trace, w`receivers, w`requester, w`replier, w`scanners, w`reactions
    ensures w.Valid() && old(w.trace) <= w.trace && w.View() == DoBook(old(w.View()), r)
    ensures Payable(old(w.View()), thread, inbound) == if booked then Some(amount) else None
  {
    ghost var before := w.View();
    booked, amount := false, 0;
    if inbound < |w.emails| && thread < |w.threads| && w.threads[thread].campaign in w.campaigns {
      var campaign := w.threads[thread].campaign;
      var largest := Amounts.ParseLargestAmountCents(w.emails[inbound].body);
      if largest.Some? && w.campaigns[campaign].budget > 0 {
        amount := largest.value;
        booked := w.BookFee(campaign, thread, amount, w.campaigns[campaign].budget, inbound);
      }
    }
    w.Record(before, Receive(r, MailStep.Book));
  }

  // ---- the reaction to one mail

  /** Where a reaction takes the thread. `stored` says whether any attachment was new. */
  function Goal(s: State, t: nat, i: nat, category: Category, referred: bool, stored: bool): Status {
    match category
    case DataProvided => Fulfilled
    case Acknowledgment => if stored then Fulfilled else AwaitingReply
    case PaymentRequired => if Payable(s, t, i).Some? then AwaitingReply else NeedsHuman
    case NeedsClarification => AwaitingReply
    case Referral => if referred then Referred else NeedsHuman
    case Denial => NeedsHuman
    case Unclear => NeedsHuman
  }

  /** The job a reaction queues. */
  function JobFor(s: State, t: nat, i: nat, category: Category): set<Job> {
    if category.NeedsClarification? then {ClarificationJob(t, i)}
    else if category.PaymentRequired? && Payable(s, t, i).Some? then {AgreementJob(t, i, Payable(s, t, i).value)}
    else {}
  }

  /** The ledger entry a reaction books. */
  function EntryFor(s: State, t: nat, i: nat, category: Category): seq<Spend> {
    if category.PaymentRequired? && t < |s.threads| && Payable(s, t, i).Some?
    then [Spend(s.threads[t].campaign, t, Payable(s, t, i).value, i)] else []
  }

  /** Everything the reaction to row `i` changes. */
  ghost predicate Answered(s: State, s': State, r: nat, t: nat, i: nat, category: Category, referred: bool,
                           stored: bool) {
    var goal := Goal(s, t, i, category, referred, stored);
    s'.spend == s.spend + EntryFor(s, t, i, category) && s'.jobs == s.jobs + JobFor(s, t, i, category) &&
    s' == s.(spend := s'.spend, jobs := s'.jobs, reactions := s'.reactions, receivers := s.receivers - {r},
             threads := SetStatus(s.threads, t, goal, DueAfter(s, t, goal)))
  }

  /** The contact message a referral sends on behalf of the thread: it bypasses the cooldown. */
  function ReferralFor(s: State, t: nat, category: Category, referral: Option<string>): Option<Contact> {
    if category.Referral? && referral.Some? && t < |s.threads|
    then Some(Contact(s.threads[t].campaign, s.threads[t].jurisdiction, referral.value, true)) else None
  }

  method Refer(w: World, ghost r: nat, thread: nat, inbound: nat, address: string) returns (sent: Option<Contact>)
    requires w.Valid() && r in w.receivers && w.receivers[r] == Reacting(thread, inbound, Referral, true)
    modifies w`trace, w`receivers, w`requester, w`replier, w`scanners, w`reactions
    ensures w.Valid() && old(w.trace) <= w.trace && sent == ReferralFor(old(w.View()), thread, Referral, Some(address))
    ensures w.View() == old(w.View()).(
      receivers := old(w.receivers)[r := Settling(thread, inbound, Referred)],
      reactions := Reacted(old(w.View()), inbound, Referring))
  {
    sent := None;
    if thread < |w.threads| {
      sent := Some(Contact(w.threads[thread].campaign, w.threads[thread].jurisdiction, address, true));
    }
    w.Record(w.View(), Receive(r, MailStep.Refer));
  }

  method FileAttachments(w: World, ghost r: nat, thread: nat, ghost inbound: nat, category: Category, stored: bool)
      returns (done: bool)
    requires w.Valid() && r in w.receivers && (category.DataProvided? || category.Acknowledgment?)
    requires w.receivers[r].Reacting? && w.receivers[r].category == category
    requires w.receivers[r].thread == thread && w.receivers[r].inbound == inbound
    modifies w`threads, w`trace, w`receivers, w`requester, w`replier, w`scanners, w`reactions
    ensures w.Valid() && old(w.trace) <= w.trace
    ensures var goal := if category.DataProvided? || stored then Fulfilled else AwaitingReply;
      Settled(old(w.View()), w.View(), r, thread, inbound, goal) && done == !Refused(old(w.View()), thread, goal)
  {
    var status := if category.DataProvided? || stored then Fulfilled else AwaitingReply;
    w.Moves(r, File(stored), Settling(thread, inbound, status));
    done := SettleThread(w, r, thread, inbound, status);
  }

  method PassOn(w: World, ghost r: nat, thread: nat, inbound: nat, address: string)
    returns (done: bool, sent: Option<Contact>)
    requires w.Valid() && r in w.receivers && w.receivers[r] == Reacting(thread, inbound, Referral, true)
    modifies w`threads, w`trace, w`receivers, w`requester, w`replier, w`scanners, w`reactions
    ensures w.Valid() && old(w.trace) <= w.trace
    ensures Answered(old(w.View()), w.View(), r, thread, inbound, Referral, true, false)
    ensures done == !Refused(old(w.View()), thread, Referred)
    ensures sent == ReferralFor(old(w.View()), thread, Referral, Some(address))
  {
    sent := Refer(w, r, thread, inbound, address);
    done := SettleThread(w, r, thread, inbound, Referred);
  }

  method Clarify(w: World, ghost r: nat, thread: nat, inbound: nat) returns (done: bool)
    requires w.Valid() && r in w.receivers && w.receivers[r].Reacting? && w.receivers[r].category.NeedsClarification?
    requires w.receivers[r].thread == thread && w.receivers[r].inbound == inbound
    modifies w`threads, w`jobs, w`trace, w`receivers, w`requester, w`replier, w`scanners, w`reactions
    ensures w.Valid() && old(w.trace) <= w.trace
    ensures Answered(old(w.View()), w.View(), r, thread, inbound, NeedsClarification, false, false)
    ensures done == !Refused(old(w.View()), thread, AwaitingReply)
  {
    SendJob(w, r, ClarificationJob(thread, inbound));
    done := SettleThread(w, r, thread, inbound, AwaitingReply);
  }

  /** `referral` is the address an office points to. */
  method React(w: World, ghost r: nat, thread: nat, inbound: nat, category: Category, referral: Option<string>,
               stored: bool)
    returns (done: bool, sent: Option<Contact>)
    requires w.Valid() && r in w.receivers && w.receivers[r] == Reacting(thread, inbound, category, referral.Some?)
    modifies w`threads, w`spend, w`jobs, w`trace, w`receivers, w`requester, w`replier, w`scanners, w`reactions
    ensures w.Valid() && old(w.trace) <= w.trace
    ensures Answered(old(w.View()), w.View(), r, thread, inbound, category, referral.Some?, stored)
    ensures done == !Refused(old(w.View()), thread,
      Goal(old(w.View()), thread, inbound, category, referral.Some?, stored))
    ensures sent == ReferralFor(old(w.View()), thread, category, referral)
  {
    sent := None;
    if category.DataProvided? || category.Acknowledgment? {
      done := FileAttachments(w, r, thread, inbound, category, stored);
    } else if category.PaymentRequired? {
      done := HandlePaymentRequired(w, r, thread, inbound);
    } else if category.Referral? && referral.Some? {
      done, sent := PassOn(w, r, thread, inbound, referral.value);
    } else if category.NeedsClarification? {
      done := Clarify(w, r, thread, inbound);
    } else {
      EscalateThread(w, r, thread, inbound);
      done := true;
    }
  }

  // ---- one delivery

  /** Reads the row's campaign and checks whether the message is already logged there. */
  method Dedupe(w: World, ghost r: nat, mail: Mail, found: Option<nat>) returns (seen: bool)
    requires w.Valid() && r in w.receivers && w.receivers[r] == Matched(mail, found)
    modifies w`trace, w`receivers, w`requester, w`replier, w`scanners, w`reactions
    ensures w.Valid() && old(w.trace) <= w.trace
    ensures seen == HasMessage(w.emails, CampaignOf(w.View(), found), mail.messageId)
    ensures w.View() == old(w.View()).(
      receivers := if seen then old(w.receivers) - {r} else old(w.receivers)[r := Fresh(mail, found)])
  {
    var campaign := if found.Some? && found.value < |w.threads| then Some(w.threads[found.value].campaign) else None;
    seen := w.HasMessageId(campaign, mail.messageId);
    w.Record(w.View(), Receive(r, MailStep.Dedupe));
  }

  /** Writes the inbound row; a handler with a matched thread goes on to react to it. */
  method Log(w: World, ghost r: nat, mail: Mail, found: Option<nat>, category: Option<Category>, referred: bool)
    requires w.Valid() && r in w.receivers && w.receivers[r] == Fresh(mail, found) && found.Some? == category.Some?
    requires !HasMessage(w.emails, CampaignOf(w.View(), found), mail.messageId)
    modifies w`emails, w`trace, w`receivers, w`requester, w`replier, w`scanners, w`reactions
    ensures w.Valid() && old(w.trace) <= w.trace
    ensures w.View() == old(w.View()).(
      emails := old(w.emails) + [InboundEmail(mail, found, CampaignOf(old(w.View()), found), category, w.now)],
      receivers := if found.None? then old(w.receivers) - {r}
                   else old(w.receivers)[r := Reacting(found.value, |old(w.emails)|, category.value, referred)])
  {
    ghost var before := w.View();
    var campaign := if found.Some? && found.value < |w.threads| then Some(w.threads[found.value].campaign) else None;
    var _ := w.InsertInbound(mail, found, campaign, category);
    w.Record(before, Receive(r, if found.None? then LogUnmatched else MailStep.Log(category.value, referred)));
  }

  /** The classifier's answer. */
  datatype Verdict = Verdict(category: Category, referral: Option<string>)

  /** The state in which the reaction starts: the inbound row is written, always before any reaction. */
  function Logged(s: State, mail: Mail, found: Option<nat>, category: Option<Category>): State {
    s.(emails := s.emails + [InboundEmail(mail, found, CampaignOf(s, found), category, s.now)])
  }

  /** What one delivery does: nothing when the message is already logged or cannot be classified; otherwise one
      inbound row, and on a matched thread the reaction its category calls for. */
  ghost predicate Delivered(s: State, s': State, r: nat, mail: Mail, found: Option<nat>, verdict: Option<Verdict>,
                            stored: bool) {
    if HasMessage(s.emails, CampaignOf(s, found), mail.messageId) || (found.Some? && verdict.None?) then s' == s
    else if found.None? then s' == Logged(s, mail, None, None)
    else
      var v := verdict.value;
      Answered(Logged(s, mail, found, Some(v.category)), s', r, found.value, |s.emails|, v.category, v.referral.Some?,
        stored)
  }

  /** Whether the message is deleted afterwards: it was logged before, belongs to no thread, or its reaction was not
      refused. */
  function Finished(s: State, mail: Mail, found: Option<nat>, verdict: Option<Verdict>, stored: bool): bool {
    HasMessage(s.emails, CampaignOf(s, found), mail.messageId) || found.None? ||
    (verdict.Some? &&
     var v := verdict.value;
     var logged := Logged(s, mail, found, Some(v.category));
     !Refused(s, found.value, Goal(logged, found.value, |s.emails|, v.category, v.referral.Some?, stored)))
  }

  /** The contact message the delivery sends, if it logs a referral. */
  function Refers(s: State, mail: Mail, found: Option<nat>, verdict: Option<Verdict>): Option<Contact> {
    if HasMessage(s.emails, CampaignOf(s, found), mail.messageId) || found.None? || verdict.None? then None
    else ReferralFor(s, found.value, verdict.value.category, verdict.value.referral)
  }

  method LogAndReact(w: World, ghost r: nat, mail: Mail, thread: nat, v: Verdict, stored: bool)
    returns (done: bool, sent: Option<Contact>)
    requires w.Valid() && r in w.receivers && w.receivers[r] == Fresh(mail, Some(thread))
    requires !HasMessage(w.emails, CampaignOf(w.View(), Some(thread)), mail.messageId)
    modifies w`threads, w`emails, w`spend, w`jobs, w`trace, w`receivers, w`requester, w`replier, w`scanners, w`reactions
    ensures w.Valid() && old(w.trace) <= w.trace
    ensures var s := Logged(old(w.View()).(receivers := old(w.receivers) - {r}), mail, Some(thread), Some(v.category));
      Answered(s, w.View(), r, thread, |s.emails| - 1, v.category, v.referral.Some?, stored) &&
      done == !Refused(s, thread, Goal(s, thread, |s.emails| - 1, v.category, v.referral.Some?, stored)) &&
      sent == ReferralFor(s, thread, v.category, v.referral)
  {
    Log(w, r, mail, Some(thread), Some(v.category), v.referral.Some?);
    ghost var mid := w.View();
    ghost var logged := Logged(old(w.View()).(receivers := old(w.receivers) - {r}), mail, Some(thread),
      Some(v.category));
    assert mid.receivers - {r} == logged.receivers && logged == mid.(receivers := logged.receivers);
    done, sent := React(w, r, thread, |w.emails| - 1, v.category, v.referral, stored);
    HandlerIsNoInput(mid, logged, w.View(), r, thread, |mid.emails| - 1, v.category, v.referral.Some?, stored);
  }

  /** A reaction reads the tables, not where its handler stands. */
  lemma HandlerIsNoInput(s: State, rest: State, s': State, r: nat, t: nat, i: nat, category: Category, referred: bool,
                         stored: bool)
    requires Answered(s, s', r, t, i, category, referred, stored)
    requires rest == s.(receivers := rest.receivers) && rest.receivers == s.receivers - {r}
    ensures Answered(rest, s', r, t, i, category, referred, stored)
    ensures Goal(rest, t, i, category, referred, stored) == Goal(s, t, i, category, referred, stored)
    ensures Refused(rest, t, Goal(s, t, i, category, referred, stored)) ==
      Refused(s, t, Goal(s, t, i, category, referred, stored))
    ensures forall a :: ReferralFor(rest, t, category, a) == ReferralFor(s, t, category, a)
  {
    assert rest.receivers - {r} == rest.receivers;
  }

  /** A fresh mail is classified, logged, and reacted to. */
  method Process(w: World, ghost r: nat, mail: Mail, found: Option<nat>, verdict: Option<Verdict>, stored: bool)
    returns (done: bool, sent: Option<Contact>)
    requires w.Valid() && r in w.receivers && w.receivers[r] == Fresh(mail, found)
    requires !HasMessage(w.emails, CampaignOf(w.View(), found), mail.messageId)
    modifies w`threads, w`emails, w`spend, w`jobs, w`trace, w`receivers, w`requester, w`replier, w`scanners, w`reactions
    ensures w.Valid() && old(w.trace) <= w.trace
    ensures var s := old(w.View()).(receivers := old(w.receivers) - {r});
      Delivered(s, w.View(), r, mail, found, verdict, stored) && done == Finished(s, mail, found, verdict, stored) &&
      sent == Refers(s, mail, found, verdict)
  {
    if found.None? {
      Log(w, r, mail, None, None, false);
      done, sent := true, None;
    } else if verdict.None? {
      w.Record(w.View(), Receive(r, MailStep.Crash));
      done, sent := false, None;
    } else {
      done, sent := LogAndReact(w, r, mail, found.value, verdict.value, stored);
    }
  }

  // ---- the same in rows, jobs and messages

  /** The amount a payment demand on thread `row` is booked for: the largest its text names, if the campaign has a
      budget and it fits into what is left of it. */
  ghost function Booked(s: State, row: Thread, body: string): Option<nat> {
    var amount := Amounts.Largest(body);
    if amount.Some? && row.campaign in s.campaigns && s.campaigns[row.campaign].budget > 0 &&
      Committed(s.spend, row.campaign) + amount.value <= s.campaigns[row.campaign].budget
    then amount else None
  }

  /** Where a mail of the category takes its thread. */
  ghost function Target(category: Category, referred: bool, stored: bool, booked: bool): Status {
    if category == DataProvided || (category == Acknowledgment && stored) then Fulfilled
    else if category == Acknowledgment || category == NeedsClarification || (category == PaymentRequired && booked)
    then AwaitingReply
    else if category == Referral && referred then Referred
    else NeedsHuman
  }

  /** A waiting thread goes anywhere; one not yet sent goes only to a human; a closed one stays. */
  ghost predicate Goes(from: Status, to: Status) {
    from == to || from == RequestSent || from == AwaitingReply || (from == PendingSend && to == NeedsHuman)
  }

  /** What a logged mail does to its thread `t`: the status its category calls for, with the next follow-up when it
      waits again; the ledger entry and the agreement of a booked demand; the clarification; the contact it refers to.
      */
  ghost predicate ThreadReacts(s: State, s': State, t: nat, mail: Mail, v: Verdict, stored: bool, done: bool,
                               sent: Option<Contact>)
    requires t < |s.threads|
  {
    var row, i, amount := s.threads[t], |s.emails|, Booked(s, s.threads[t], mail.body);
    var booked := v.category == PaymentRequired && amount.Some?;
    var to := Target(v.category, v.referral.Some?, stored, booked);
    var due := if to == AwaitingReply && row.campaign in s.campaigns
      then Some(s.now + 86400 * s.campaigns[row.campaign].intervalDays) else None;
    s'.emails == s.emails + [Email(Some(t), Some(row.campaign), None, Some(mail.messageId), Some(mail.source),
      Some(v.category), mail.body, None, s.now, false)] &&
    s'.threads == (if Goes(row.status, to) then s.threads[t := row.(status := to, due := due)] else s.threads) &&
    s'.spend == s.spend + (if booked then [Spend(row.campaign, t, amount.value, i)] else []) &&
    s'.jobs == s.jobs + (if booked then {AgreementJob(t, i, amount.value)}
                         else if v.category == NeedsClarification then {ClarificationJob(t, i)} else {}) &&
    sent == (if v.category == Referral && v.referral.Some?
             then Some(Contact(row.campaign, row.jurisdiction, v.referral.value, true)) else None) &&
    done == (to == NeedsHuman || Goes(row.status, to)) &&
    s' == s.(emails := s'.emails, threads := s'.threads, spend := s'.spend, jobs := s'.jobs, reactions := s'.reactions)
  }

  /** The first thread with the mail's token; if it has none that is known, the first thread to its sender that was sent
      a request or waits for a reply. */
  ghost predicate Claims(threads: seq<Thread>, mail: Mail, found: Option<nat>) {
    if mail.token.Some? && mail.token.value != "" && exists t :: t in threads && t.token == mail.token.value then
      found.Some? && found.value < |threads| && threads[found.value].token == mail.token.value &&
      forall t :: 0 <= t < found.value ==> threads[t].token != mail.token.value
    else
      match found
      case None => forall t :: 0 <= t < |threads| ==> !WaitsFor(threads[t], mail.from)
      case Some(k) =>
        k < |threads| && WaitsFor(threads[k], mail.from) && forall t :: 0 <= t < k ==> !WaitsFor(threads[t], mail.from)
  }

  ghost predicate WaitsFor(t: Thread, sender: string) {
    t.contact == sender && (t.status == RequestSent || t.status == AwaitingReply)
  }

  lemma MatchesClaims(threads: seq<Thread>, mail: Mail, found: Option<nat>)
    requires Matches(threads, mail, found)
    ensures Claims(threads, mail, found)
  {
    forall t | 0 <= t < |threads| ensures WaitsFor(threads[t], mail.from) <==> OpenTo(threads[t], mail.from) {}
    if Named(mail) && !FirstWithToken(threads, mail.token.value, None) {
      assert threads[found.value] in threads;
    } else if Named(mail) {
      forall t | t in threads ensures t.token != mail.token.value {
        var i :| 0 <= i < |threads| && threads[i] == t;
      }
    }
  }

  /** What one delivery does: nothing to a mail its campaign has or that cannot be classified; one row for a mail no
      thread claims; otherwise one row and its thread's reaction. */
  ghost predicate Received(s: State, s': State, mail: Mail, found: Option<nat>, verdict: Option<Verdict>, stored: bool,
                           done: bool, sent: Option<Contact>) {
    Claims(s.threads, mail, found) && (found.Some? ==> found.value < |s.threads|) &&
    var campaign := if found.Some? then Some(s.threads[found.value].campaign) else None;
    var known := exists e :: e in s.emails && e.messageId == Some(mail.messageId) && e.campaign == campaign;
    if known || (found.Some? && verdict.None?) then s' == s && sent == None && done == known
    else if found.None? then
      done && sent == None &&
      s' == s.(emails := s.emails + [Email(None, None, None, Some(mail.messageId), Some(mail.source), None, mail.body,
        None, s.now, false)])
    else ThreadReacts(s, s', found.value, mail, verdict.value, stored, done, sent)
  }

  lemma HasMessageIsKnown(emails: seq<Email>, campaign: Option<nat>, id: string)
    ensures HasMessage(emails, campaign, id) <==>
      exists e :: e in emails && e.messageId == Some(id) && e.campaign == campaign
  {
    if e :| e in emails && e.messageId == Some(id) && e.campaign == campaign {
      var i :| 0 <= i < |emails| && emails[i] == e;
    }
  }

  lemma GoesIsMayMove(category: Category, from: Status, referred: bool, stored: bool, booked: bool)
    ensures var to := Target(category, referred, stored, booked); Goes(from, to) <==> MayMove(from, to)
  {
  }

  lemma AnsweredReacts(s: State, s': State, r: nat, t: nat, mail: Mail, v: Verdict, stored: bool)
    requires t < |s.threads| && r !in s.receivers
    requires Answered(Logged(s, mail, Some(t), Some(v.category)), s', r, t, |s.emails|, v.category, v.referral.Some?,
      stored)
    ensures var logged := Logged(s, mail, Some(t), Some(v.category));
      ThreadReacts(s, s', t, mail, v, stored,
        !Refused(s, t, Goal(logged, t, |s.emails|, v.category, v.referral.Some?, stored)),
        ReferralFor(s, t, v.category, v.referral))
  {
    var logged := Logged(s, mail, Some(t), Some(v.category));
    var row, amount := s.threads[t], Booked(s, s.threads[t], mail.body);
    assert logged.emails[|s.emails|].body == mail.body;
    assert Payable(logged, t, |s.emails|) == amount;
    var booked := v.category == PaymentRequired && amount.Some?;
    GoalIsTarget(logged, t, |s.emails|, v.category, v.referral.Some?, stored, booked);
    GoesIsMayMove(v.category, row.status, v.referral.Some?, stored, booked);
    assert s.receivers - {r} == s.receivers;
  }

  lemma GoalIsTarget(s: State, t: nat, i: nat, category: Category, referred: bool, stored: bool, booked: bool)
    requires booked == (category.PaymentRequired? && Payable(s, t, i).Some?)
    ensures Goal(s, t, i, category, referred, stored) == Target(category, referred, stored, booked)
  {
  }

  lemma DeliveredIsReceived(s: State, s': State, r: nat, mail: Mail, found: Option<nat>, verdict: Option<Verdict>,
                            stored: bool)
    requires Matches(s.threads, mail, found) && r !in s.receivers
    requires Delivered(s, s', r, mail, found, verdict, stored)
    ensures Received(s, s', mail, found, verdict, stored, Finished(s, mail, found, verdict, stored),
      Refers(s, mail, found, verdict))
  {
    MatchesClaims(s.threads, mail, found);
    assert found.Some? ==> found.value < |s.threads|;
    var campaign := if found.Some? then Some(s.threads[found.value].campaign) else None;
    assert campaign == CampaignOf(s, found);
    HasMessageIsKnown(s.emails, campaign, mail.messageId);
    if !HasMessage(s.emails, campaign, mail.messageId) && found.Some? && verdict.Some? {
      AnsweredReacts(s, s', r, found.value, mail, verdict.value, stored);
    }
  }

  /** `verdict` is absent when the classifier fails; `stored` says whether any attachment was new. */
  method HandleInbound(w: World, ghost r: nat, mail: Mail, verdict: Option<Verdict>, stored: bool)
    returns (done: bool, sent: Option<Contact>, ghost found: Option<nat>)
    requires w.Valid() && r !in w.receivers
    modifies w`threads, w`emails, w`spend, w`jobs, w`trace, w`receivers, w`requester, w`replier, w`scanners, w`reactions
    ensures w.Valid() && old(w.trace) <= w.trace
    ensures Matches(old(w.threads), mail, found) && Delivered(old(w.View()), w.View(), r, mail, found, verdict, stored)
    ensures done == Finished(old(w.View()), mail, found, verdict, stored) &&
      sent == Refers(old(w.View()), mail, found, verdict)
    ensures Received(old(w.View()), w.View(), mail, found, verdict, stored, done, sent)
  {
    done, sent, found := Deliver(w, r, mail, verdict, stored);
    DeliveredIsReceived(old(w.View()), w.View(), r, mail, found, verdict, stored);
  }

  method Deliver(w: World, ghost r: nat, mail: Mail, verdict: Option<Verdict>, stored: bool)
    returns (done: bool, sent: Option<Contact>, ghost found: Option<nat>)
    requires w.Valid() && r !in w.receivers
    modifies w`threads, w`emails, w`spend, w`jobs, w`trace, w`receivers, w`requester, w`replier, w`scanners, w`reactions
    ensures w.Valid() && old(w.trace) <= w.trace
    ensures Matches(old(w.threads), mail, found) && Delivered(old(w.View()), w.View(), r, mail, found, verdict, stored)
    ensures done == Finished(old(w.View()), mail, found, verdict, stored) &&
      sent == Refers(old(w.View()), mail, found, verdict)
  {
    var thread := MatchThread(w, r, mail);
    found := thread;
    assert w.receivers - {r} == old(w.receivers);
    var seen := Dedupe(w, r, mail, thread);
    if seen { return true, None, found; }
    assert w.receivers - {r} == old(w.receivers);
    assert old(w.View()) == w.View().(receivers := w.receivers - {r});
    done, sent := Process(w, r, mail, thread, verdict, stored);
  }

  /** Once a delivery says it is finished, the mail has its row in the campaign it matched. */
  lemma FinishedMailIsLogged(s: State, s': State, r: nat, mail: Mail, found: Option<nat>, verdict: Option<Verdict>,
                             stored: bool)
    requires Delivered(s, s', r, mail, found, verdict, stored) && Finished(s, mail, found, verdict, stored)
    ensures HasMessage(s'.emails, CampaignOf(s, found), mail.messageId)
  {
    if s' != s { assert s'.emails[|s.emails|].messageId == Some(mail.messageId); }
  }
}
