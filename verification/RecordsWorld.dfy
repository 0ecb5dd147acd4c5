/** The records store and queues as one mutable object, whose every operation is one step of the protocol.

    The ghost fields say where each running handler stands and which run of the protocol led here, so whatever
    holds in every run of the protocol holds of this object after any sequence of calls. */
module RecordsWorld {
  import opened Options
  import opened RecordsTables
  import opened RecordsProtocol
  import opened RecordsInvariant
  import opened RecordsTheorems

  class World {
    var now: Time
    var campaigns: map<nat, Campaign>
    var active: set<nat>
    var threads: seq<Thread>
    var emails: seq<Email>
    var spend: seq<Spend>
    var contacted: map<nat, Time>
    var jobs: set<Job>
    ghost var receivers: map<nat, Receiver>
    ghost var requester: Requester
    ghost var replier: Replier
    ghost var scanners: map<nat, Scanner>
    ghost var reactions: multiset<(nat, Effect)>
    ghost var start: State
    ghost var trace: seq<Step>

    ghost function View(): State
      reads this
    {
      State(now, campaigns, active, threads, emails, spend, contacted, jobs, receivers, requester, replier, scanners,
        reactions)
    }

    /** The object stands at the end of a run of the protocol. */
    ghost predicate Valid()
      reads this
    {
      Init(start) && ValidRun(start, trace) && Run(start, trace) == View()
    }

    /** Registered campaigns, none of them active, and nothing else; no handler is at work. */
    constructor (now: Time, campaigns: map<nat, Campaign>)
      ensures Valid()
      ensures View() == State(now, campaigns, {}, [], [], [], map[], {}, map[], Idle, Waiting, map[], multiset{})
    {
      this.now, this.campaigns, active, threads, emails, spend, contacted, jobs := now, campaigns, {}, [], [], [],
        map[], {};
      receivers, requester, replier, scanners, reactions := map[], Idle, Waiting, map[], multiset{};
      start := State(now, campaigns, {}, [], [], [], map[], {}, map[], Idle, Waiting, map[], multiset{});
      trace := [];
    }

    /** Starts or stops a registered campaign. */
    method SetActive(campaign: nat, on: bool)
      requires Valid() && campaign in campaigns
      modifies this`active, this`trace, this`receivers, this`requester, this`replier, this`scanners, this`reactions
      ensures Valid() && old(trace) <= trace
      ensures View() == old(View()).(active := if on then old(active) + {campaign} else old(active) - {campaign})
    {
      ghost var before := View();
      active := if on then active + {campaign} else active - {campaign};
      Record(before, Env(Activate(campaign, on)));
    }

    method AdvanceClock(dt: nat)
      requires Valid()
      modifies this`now, this`trace, this`receivers, this`requester, this`replier, this`scanners, this`reactions
      ensures Valid() && old(trace) <= trace && View() == old(View()).(now := old(now) + dt)
    {
      ghost var before := View();
      now := now + dt;
      Record(before, Env(Tick(dt)));
    }

    /** Moves the ghost side along with the step the real fields have just taken. */
    ghost method Record(before: State, step: Step)
      requires Init(start) && ValidRun(start, trace) && Run(start, trace) == before && Enabled(before, step)
      requires View() == Apply(before, step).(
        receivers := receivers, requester := requester, replier := replier, scanners := scanners,
          reactions := reactions)
      modifies this`trace, this`receivers, this`requester, this`replier, this`scanners, this`reactions
      ensures Valid() && View() == Apply(before, step) && trace == old(trace) + [step]
    {
      Extend(start, trace, step);
      trace := trace + [step];
      Install(Apply(before, step));
    }

    /** The ghost fields take their values from the state the step leads to. */
    ghost method Install(after: State)
      requires View() == after.(
        receivers := receivers, requester := requester, replier := replier, scanners := scanners,
          reactions := reactions)
      modifies this`receivers, this`requester, this`replier, this`scanners, this`reactions
      ensures View() == after
    {
      receivers, requester, replier, scanners, reactions :=
        after.receivers, after.requester, after.replier, after.scanners, after.reactions;
    }

    /** A step of one receiver that changes nothing but where it stands. */
    ghost method Moves(r: nat, step: MailStep, pc: Receiver)
      requires Valid() && MailEnabled(View(), r, step)
      requires ApplyMail(View(), r, step) == View().(receivers := receivers[r := pc])
      modifies this`trace, this`receivers, this`requester, this`replier, this`scanners, this`reactions
      ensures Valid() && View() == old(View()).(receivers := old(receivers)[r := pc]) &&
        trace == old(trace) + [Receive(r, step)]
    {
      Record(View(), Receive(r, step));
    }

    // ---- lookups

    /** The first thread with the token. */
    method GetThreadByToken(token: string) returns (found: Option<nat>)
      ensures FirstWithToken(threads, token, found)
    {
      for i := 0 to |threads|
        invariant forall k :: 0 <= k < i ==> threads[k].token != token
      {
        if threads[i].token == token { return Some(i); }
      }
      return None;
    }

    /** The first thread to this address that still waits for a reply. */
    method FindOpenThreadByContact(contact: string) returns (found: Option<nat>)
      ensures FirstOpenTo(threads, contact, found)
    {
      for i := 0 to |threads|
        invariant forall k :: 0 <= k < i ==> !OpenTo(threads[k], contact)
      {
        if OpenTo(threads[i], contact) { return Some(i); }
      }
      return None;
    }

    method FindThread(campaign: nat, jurisdiction: nat, contact: string) returns (found: Option<nat>)
      ensures FirstFor(threads, campaign, jurisdiction, contact, found)
    {
      for i := 0 to |threads|
        invariant forall k :: 0 <= k < i ==> !IsFor(threads[k], campaign, jurisdiction, contact)
      {
        if IsFor(threads[i], campaign, jurisdiction, contact) { return Some(i); }
      }
      return None;
    }

    method HasMessageId(campaign: Option<nat>, messageId: string) returns (found: bool)
      ensures found == HasMessage(emails, campaign, messageId)
    {
      for i := 0 to |emails|
        invariant forall k :: 0 <= k < i ==> !(emails[k].messageId == Some(messageId) && emails[k].campaign == campaign)
      {
        if emails[i].messageId == Some(messageId) && emails[i].campaign == campaign { return true; }
      }
      return false;
    }

    method OutboundReplyExists(thread: nat, inbound: nat, kind: Outbound) returns (found: bool)
      ensures found == ReplyExists(emails, thread, inbound, kind)
    {
      for i := 0 to |emails|
        invariant forall k :: 0 <= k < i ==> !IsReply(emails[k], thread, inbound, kind)
      {
        if IsReply(emails[i], thread, inbound, kind) { return true; }
      }
      return false;
    }

    method CountOutboundSince(campaign: nat, since: Time) returns (count: nat)
      ensures count == CountSince(emails, campaign, since)
    {
      count := 0;
      for i := 0 to |emails|
        invariant count == CountSince(emails[..i], campaign, since)
      {
        assert emails[..i + 1][..i] == emails[..i];
        if OutboundSince(emails[i], campaign, since) { count := count + 1; }
      }
      assert emails[..|emails|] == emails;
    }

    method CommittedTotalCents(campaign: nat) returns (total: nat)
      ensures total == Committed(spend, campaign)
    {
      total := 0;
      for i := 0 to |spend|
        invariant total == Committed(spend[..i], campaign)
      {
        assert spend[..i + 1][..i] == spend[..i];
        if spend[i].campaign == campaign { total := total + spend[i].amount; }
      }
      assert spend[..|spend|] == spend;
    }

    // ---- writes

    /** Sets the status if the transition check allows it or a human asks; otherwise the call raises. */
    method SetThreadStatus(t: nat, status: Status, due: Option<Time>, byHuman: bool) returns (ok: bool)
      requires t < |threads|
      modifies this`threads
      ensures ok == (byHuman || MayMove(old(threads)[t].status, status))
      ensures threads == if ok then old(threads)[t := old(threads)[t].(status := status, due := due)] else old(threads)
    {
      ok := byHuman || MayMove(threads[t].status, status);
      if ok { threads := threads[t := threads[t].(status := status, due := due)]; }
    }

    /** Books the amount if the campaign's commitments leave room for it. */
    method BookFee(campaign: nat, thread: nat, amount: nat, budget: int, inbound: nat) returns (booked: bool)
      modifies this`spend
      ensures booked == (Committed(old(spend), campaign) + amount <= budget)
      ensures spend == if booked then old(spend) + [Spend(campaign, thread, amount, inbound)] else old(spend)
    {
      var committed := CommittedTotalCents(campaign);
      booked := committed + amount <= budget;
      if booked { spend := spend + [Spend(campaign, thread, amount, inbound)]; }
    }

    /** Inserts an inbound row unless the campaign already has the message id. */
    method InsertInbound(mail: Mail, thread: Option<nat>, campaign: Option<nat>, category: Option<Category>)
        returns (id: Option<nat>)
      modifies this`emails
      ensures HasMessage(old(emails), campaign, mail.messageId) ==> id == None && emails == old(emails)
      ensures !HasMessage(old(emails), campaign, mail.messageId) ==>
        id == Some(|old(emails)|) && emails == old(emails) + [InboundEmail(mail, thread, campaign, category, now)]
    {
      var known := HasMessageId(campaign, mail.messageId);
      if known { return None; }
      id := Some(|emails|);
      emails := emails + [InboundEmail(mail, thread, campaign, category, now)];
    }
  }

  /** Whatever any run of the protocol keeps, the object keeps. */
  lemma WorldIsSafe(w: World)
    requires w.Valid()
    ensures Inv(w.View())
  {
    ReachableInv(w.start, w.trace);
  }
}
