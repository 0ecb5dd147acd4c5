/** One mail delivered several times: when it is logged again, and when it is not. */
module RecordsRematch {
  import opened Options
  import opened RecordsTables
  import opened RecordsProtocol
  import opened RecordsInvariant
  import opened RecordsFrames
  import opened RecordsLifecycle
  import opened RecordsRows
  import opened RecordsTheorems

  // ---- one more delivery

  /** In every reachable state, a receiver about to log adds a row exactly when the campaign it matched (or none)
      has no row of the message id yet. */
  lemma WhenADeliveryAddsARow(s0: State, steps: seq<Step>, r: nat, step: MailStep)
    requires Init(s0) && ValidRun(s0, steps) && MailEnabled(Run(s0, steps), r, step) &&
      (step.Log? || step.LogUnmatched?)
    ensures var s := Run(s0, steps); var pc := s.receivers[r];
      (ApplyMail(s, r, step).emails != s.emails <==>
        forall i :: 0 <= i < |s.emails| && s.emails[i].messageId == Some(pc.mail.messageId) ==>
          s.emails[i].campaign != CampaignOf(s, pc.found)) &&
      (pc.found.Some? ==> CampaignOf(s, pc.found).Some?)
  {
    ReachableInv(s0, steps);
    var s := Run(s0, steps);
    var s' := ApplyMail(s, r, step);
    assert ReceiverPlaced(s.threads, s.receivers[r]);
    assert |s'.emails| != |s.emails| ==> s'.emails != s.emails;
  }

  // ---- mails that always lead to one campaign

  /** Mail objects never change: whatever arrives from `m`'s object is `m`. */
  predicate OneContent(steps: seq<Step>, m: Mail) {
    forall i :: (0 <= i < |steps| && steps[i].Receive? && steps[i].mail.Take? &&
      steps[i].mail.mail.source == m.source) ==> steps[i].mail.mail == m
  }

  /** The matches under consideration: threads of campaign `c`, or one thread of it alone. */
  datatype Home = Home(campaign: nat, only: Option<nat>)

  predicate AtHome(threads: seq<Thread>, t: nat, h: Home) {
    t < |threads| && threads[t].campaign == h.campaign && (h.only.Some? ==> t == h.only.value)
  }

  predicate LookingUp(pc: Receiver) { pc.Arrived? || pc.Unnamed? || pc.Matched? || pc.Fresh? }

  /** A receiver that has matched the mail is on a home thread. */
  ghost predicate BoundReceiver(threads: seq<Thread>, pc: Receiver, m: Mail, h: Home) {
    (LookingUp(pc) && pc.mail.source == m.source) ==>
      pc.mail == m && (h.only.Some? ==> !pc.Unnamed?) &&
      (pc.Matched? || pc.Fresh? ==> pc.found.Some? && AtHome(threads, pc.found.value, h))
  }

  ghost predicate BoundEmail(threads: seq<Thread>, e: Email, m: Mail, h: Home) {
    e.source == Some(m.source) ==>
      e.thread.Some? && AtHome(threads, e.thread.value, h) && e.campaign == Some(h.campaign) &&
        e.messageId == Some(m.messageId)
  }

  /** Everything that came from `m` so far is bound to its home. */
  ghost predicate Bound(s: State, m: Mail, h: Home) {
    (forall r :: r in s.receivers ==> BoundReceiver(s.threads, s.receivers[r], m, h)) &&
    (forall i :: 0 <= i < |s.emails| ==> BoundEmail(s.threads, s.emails[i], m, h))
  }

  /** Every thread the mail's token can name is home, and one does when home is a single thread. */
  ghost predicate TokenLeadsHome(threads: seq<Thread>, m: Mail, h: Home) {
    (forall t :: 0 <= t < |threads| && Named(m) && threads[t].token == m.token.value ==> AtHome(threads, t, h)) &&
    (h.only.Some? ==> Named(m) && exists t :: 0 <= t < |threads| && threads[t].token == m.token.value)
  }

  /** Some thread waits for the sender, and every one that does is home. */
  ghost predicate SenderLeadsHome(threads: seq<Thread>, m: Mail, h: Home) {
    (exists t :: 0 <= t < |threads| && OpenTo(threads[t], m.from)) &&
    forall t :: 0 <= t < |threads| && OpenTo(threads[t], m.from) ==> AtHome(threads, t, h)
  }

  /** Whatever way the mail is matched now, it is matched to its home. */
  ghost predicate LeadsHome(threads: seq<Thread>, m: Mail, h: Home) {
    TokenLeadsHome(threads, m, h) && (h.only.None? ==> SenderLeadsHome(threads, m, h))
  }

  lemma ReceiverStaysBound(s: State, r: nat, step: MailStep, m: Mail, h: Home, q: nat)
    requires Bound(s, m, h) && LeadsHome(s.threads, m, h) && MailEnabled(s, r, step)
    requires step.Take? && step.mail.source == m.source ==> step.mail == m
    requires q in ApplyMail(s, r, step).receivers
    ensures BoundReceiver(s.threads, ApplyMail(s, r, step).receivers[q], m, h)
  {
    if q != r {
      OthersStand(s, r, step, q);
      assert BoundReceiver(s.threads, s.receivers[q], m, h);
    } else {
      if q in s.receivers { assert BoundReceiver(s.threads, s.receivers[q], m, h); }
      HandlerStaysBound(s, r, step, m, h);
    }
  }

  lemma HandlerStaysBound(s: State, r: nat, step: MailStep, m: Mail, h: Home)
    requires LeadsHome(s.threads, m, h) && MailEnabled(s, r, step)
    requires r in s.receivers ==> BoundReceiver(s.threads, s.receivers[r], m, h)
    requires step.Take? && step.mail.source == m.source ==> step.mail == m
    requires r in ApplyMail(s, r, step).receivers
    ensures BoundReceiver(s.threads, ApplyMail(s, r, step).receivers[r], m, h)
  {
    match step
    case Take(mail) =>
    case MatchToken(found) => TokenStaysBound(s, r, found, m, h);
    case MatchSender(found) => SenderStaysBound(s, r, found, m, h);
    case Dedupe => assert ApplyMail(s, r, step).receivers[r] == Fresh(s.receivers[r].mail, s.receivers[r].found);
    case _ => LookupIsOver(s, r, step);
  }

  lemma LookupIsOver(s: State, r: nat, step: MailStep)
    requires MailEnabled(s, r, step) && !step.Take? && !step.MatchToken? && !step.MatchSender? && !step.Dedupe?
    requires r in ApplyMail(s, r, step).receivers
    ensures !LookingUp(ApplyMail(s, r, step).receivers[r])
  {
  }

  lemma SenderStaysBound(s: State, r: nat, found: Option<nat>, m: Mail, h: Home)
    requires LeadsHome(s.threads, m, h) && MailEnabled(s, r, MatchSender(found))
    requires BoundReceiver(s.threads, s.receivers[r], m, h)
    ensures BoundReceiver(s.threads, ApplyMail(s, r, MatchSender(found)).receivers[r], m, h)
  {
    SenderFindsHome(s.threads, s.receivers[r].mail, m, h, found);
  }

  lemma TokenStaysBound(s: State, r: nat, found: Option<nat>, m: Mail, h: Home)
    requires LeadsHome(s.threads, m, h) && MailEnabled(s, r, MatchToken(found))
    requires BoundReceiver(s.threads, s.receivers[r], m, h)
    ensures BoundReceiver(s.threads, ApplyMail(s, r, MatchToken(found)).receivers[r], m, h)
  {
    var mail := s.receivers[r].mail;
    if Named(mail) { TokenFindsHome(s.threads, mail, m, h, found); }
  }

  lemma TokenFindsHome(threads: seq<Thread>, mail: Mail, m: Mail, h: Home, found: Option<nat>)
    requires LeadsHome(threads, m, h) && Named(mail) && FirstWithToken(threads, mail.token.value, found)
    ensures mail == m && found.Some? ==> AtHome(threads, found.value, h)
    ensures mail == m && found.None? ==> h.only.None?
  {
  }

  lemma SenderFindsHome(threads: seq<Thread>, mail: Mail, m: Mail, h: Home, found: Option<nat>)
    requires LeadsHome(threads, m, h) && FirstOpenTo(threads, mail.from, found)
    ensures mail == m && h.only.None? ==> found.Some? && AtHome(threads, found.value, h)
  {
  }

  lemma OthersStand(s: State, r: nat, step: MailStep, q: nat)
    requires MailEnabled(s, r, step) && q != r && q in ApplyMail(s, r, step).receivers
    ensures q in s.receivers && ApplyMail(s, r, step).receivers[q] == s.receivers[q]
  {
    match step
    case LogUnmatched => assert ApplyMail(s, r, step) == DoLog(s, r, None, false);
    case Log(c, f) => assert ApplyMail(s, r, step) == DoLog(s, r, Some(c), f);
    case Book => assert ApplyMail(s, r, step) == DoBook(s, r);
    case QueueJob => assert ApplyMail(s, r, step) == DoQueueJob(s, r);
    case _ =>
  }

  lemma LogStaysBound(s: State, r: nat, category: Option<Category>, referred: bool, m: Mail, h: Home)
    requires Bound(s, m, h) && r in s.receivers && s.receivers[r].Fresh? && (s.receivers[r].found.Some? ==>
      category.Some?)
    ensures var s' := DoLog(s, r, category, referred);
      forall i :: 0 <= i < |s'.emails| ==> BoundEmail(s.threads, s'.emails[i], m, h)
  {
    assert BoundReceiver(s.threads, s.receivers[r], m, h);
  }

  lemma SendersKeepBound(s: State, step: Step, m: Mail, h: Home)
    requires Bound(s, m, h) && Enabled(s, step) && !step.Receive?
    ensures var s' := Apply(s, step); forall i :: 0 <= i < |s'.emails| ==> BoundEmail(s.threads, s'.emails[i], m, h)
  {
    RecordsMail.SendersWriteOutbound(s, step);
    if |Apply(s, step).emails| > |s.emails| { RecordsMail.SendersWriteNoSource(s, step); }
  }

  lemma GrownStaysBound(s: State, threads: seq<Thread>, m: Mail, h: Home)
    requires Bound(s, m, h) && Grown(s.threads, threads)
    ensures Bound(s.(threads := threads), m, h)
  {
    forall r | r in s.receivers ensures BoundReceiver(threads, s.receivers[r], m, h) {
      assert BoundReceiver(s.threads, s.receivers[r], m, h);
    }
    forall i | 0 <= i < |s.emails| ensures BoundEmail(threads, s.emails[i], m, h) {
      assert BoundEmail(s.threads, s.emails[i], m, h);
    }
  }

  lemma StepStaysBound(s: State, step: Step, m: Mail, h: Home)
    requires Bound(s, m, h) && LeadsHome(s.threads, m, h) && SnapshotsOpen(s.scanners) && Enabled(s, step) &&
      OneContent([step], m)
    ensures Bound(Apply(s, step), m, h)
  {
    var s' := Apply(s, step);
    StepGrows(s, step);
    if step.Receive? {
      assert [step][0] == step;
      forall q | q in s'.receivers ensures BoundReceiver(s.threads, s'.receivers[q], m, h) {
        ReceiverStaysBound(s, step.r, step.mail, m, h, q);
      }
      MailStaysBound(s, step.r, step.mail, m, h);
    } else {
      SendersKeepBound(s, step, m, h);
      RecordsMail.OthersLeaveMail(s, step);
    }
    GrownStaysBound(s.(receivers := s'.receivers, emails := s'.emails), s'.threads, m, h);
  }

  lemma MailStaysBound(s: State, r: nat, step: MailStep, m: Mail, h: Home)
    requires Bound(s, m, h) && MailEnabled(s, r, step)
    ensures forall i :: 0 <= i < |ApplyMail(s, r, step).emails| ==>
      BoundEmail(s.threads, ApplyMail(s, r, step).emails[i], m, h)
  {
    match step
    case LogUnmatched => LogStaysBound(s, r, None, false, m, h);
    case Log(category, referred) => LogStaysBound(s, r, Some(category), referred, m, h);
    case _ => MailRows(s, r, step);
  }

  /** The mail leads home in every state of the run but the last. */
  ghost predicate AlwaysLeadsHome(s: State, steps: seq<Step>, m: Mail, h: Home)
    requires ValidRun(s, steps)
    decreases |steps|
  {
    steps == [] || (LeadsHome(s.threads, m, h) && AlwaysLeadsHome(Apply(s, steps[0]), steps[1..], m, h))
  }

  lemma {:induction false} RunStaysBound(s: State, steps: seq<Step>, m: Mail, h: Home)
    requires Bound(s, m, h) && RowsOk(s.threads, s.scanners) && ValidRun(s, steps) && OneContent(steps, m)
    requires AlwaysLeadsHome(s, steps, m, h)
    ensures Bound(Run(s, steps), m, h)
    decreases |steps|
  {
    if steps != [] {
      assert OneContent([steps[0]], m) && OneContent(steps[1..], m);
      StepStaysBound(s, steps[0], m, h);
      StepKeepsRows(s, steps[0]);
      RunStaysBound(Apply(s, steps[0]), steps[1..], m, h);
    }
  }

  /** Nothing came from `m`'s object so far. */
  ghost predicate NotSeen(s: State, m: Mail) {
    (forall r :: r in s.receivers && LookingUp(s.receivers[r]) ==> s.receivers[r].mail.source != m.source) &&
    (forall i :: 0 <= i < |s.emails| ==> s.emails[i].source != Some(m.source))
  }

  lemma BoundMailIsLoggedOnce(s0: State, before: seq<Step>, after: seq<Step>, m: Mail, h: Home, i: nat, j: nat)
    requires Init(s0) && ValidRun(s0, before) && ValidRun(Run(s0, before), after) && OneContent(after, m)
    requires NotSeen(Run(s0, before), m) && AlwaysLeadsHome(Run(s0, before), after, m, h)
    requires var r := Run(Run(s0, before), after);
      i < |r.emails| && j < |r.emails| && r.emails[i].source == r.emails[j].source == Some(m.source)
    ensures var r := Run(Run(s0, before), after);
      i == j && r.emails[i].thread.Some? && AtHome(r.threads, r.emails[i].thread.value, h)
  {
    var s := Run(s0, before);
    ReachableInv(s0, before);
    RunStaysBound(s, after, m, h);
    RunKeepsInv(s, after);
    var r := Run(s, after);
    assert BoundEmail(r.threads, r.emails[i], m, h) && BoundEmail(r.threads, r.emails[j], m, h);
  }

  // ---- two conditions a caller can check

  /** A token that names a thread names it for good. */
  lemma {:induction false} TokenAlwaysLeads(s: State, steps: seq<Step>, m: Mail, t: nat)
    requires ValidRun(s, steps) && RowsOk(s.threads, s.scanners)
    requires Named(m) && t < |s.threads| && s.threads[t].token == m.token.value
    ensures AlwaysLeadsHome(s, steps, m, Home(s.threads[t].campaign, Some(t)))
    decreases |steps|
  {
    if steps != [] {
      TokensStay(s, steps[0]);
      StepKeepsRows(s, steps[0]);
      TokenAlwaysLeads(Apply(s, steps[0]), steps[1..], m, t);
    }
  }

  lemma TokensStay(s: State, step: Step)
    requires Enabled(s, step) && SnapshotsOpen(s.scanners)
    ensures forall t :: 0 <= t < |s.threads| ==>
      t < |Apply(s, step).threads| && Apply(s, step).threads[t].token == s.threads[t].token &&
      Apply(s, step).threads[t].campaign == s.threads[t].campaign
  {
    if step.Env? && step.env.Resolve? {
      assert Apply(s, step) == ApplyEnv(s, step.env);
    } else {
      StepMovesAutomatically(s, step);
      forall t | 0 <= t < |s.threads| ensures AutoRow(s.threads[t], Apply(s, step).threads[t]) {}
    }
  }

  /** A mail that first arrives when its token names a thread is logged at most once, in whatever number of
      deliveries and concurrent receivers. */
  lemma TokenMailIsLoggedOnce(s0: State, before: seq<Step>, after: seq<Step>, m: Mail, t: nat, i: nat, j: nat)
    requires Init(s0) && ValidRun(s0, before) && ValidRun(Run(s0, before), after) && OneContent(after, m)
    requires var s := Run(s0, before);
      NotSeen(s, m) && Named(m) && t < |s.threads| && s.threads[t].token == m.token.value
    requires var r := Run(Run(s0, before), after);
      i < |r.emails| && j < |r.emails| && r.emails[i].source == r.emails[j].source == Some(m.source)
    ensures i == j && Run(Run(s0, before), after).emails[i].thread == Some(t)
  {
    var s := Run(s0, before);
    ReachableInv(s0, before);
    TokenAlwaysLeads(s, after, m, t);
    BoundMailIsLoggedOnce(s0, before, after, m, Home(s.threads[t].campaign, Some(t)), i, j);
  }

  /** So is one whose token never names a foreign thread, as long as its sender always has a waiting thread and all
      of the sender's waiting threads belong to one campaign. */
  lemma SenderMailIsLoggedOnce(s0: State, before: seq<Step>, after: seq<Step>, m: Mail, c: nat, i: nat, j: nat)
    requires Init(s0) && ValidRun(s0, before) && ValidRun(Run(s0, before), after) && OneContent(after, m)
    requires NotSeen(Run(s0, before), m) && AlwaysLeadsHome(Run(s0, before), after, m, Home(c, None))
    requires var r := Run(Run(s0, before), after);
      i < |r.emails| && j < |r.emails| && r.emails[i].source == r.emails[j].source == Some(m.source)
    ensures i == j && Run(Run(s0, before), after).emails[i].campaign == Some(c)
  {
    BoundMailIsLoggedOnce(s0, before, after, m, Home(c, None), i, j);
    ReachableInv(s0, before);
    RunKeepsInv(Run(s0, before), after);
    var r := Run(Run(s0, before), after);
    assert EmailPlaced(r.threads, r.emails[i]);
  }

  // ---- without a token that names a thread

  lemma Then(s0: State, steps: seq<Step>, step: Step) returns (more: seq<Step>, s: State)
    requires ValidRun(s0, steps) && Enabled(Run(s0, steps), step)
    ensures ValidRun(s0, more) && s == Run(s0, more) == Apply(Run(s0, steps), step)
  {
    Extend(s0, steps, step);
    more := steps + [step];
    s := Run(s0, more);
  }

  const LIMITS := Campaign(3, 0, 200, 7, 10, false)
  const CLERK := "clerk@example.gov"

  /** Two campaigns that both wrote to the same clerk. */
  function Start(): State {
    State(0, map[0 := LIMITS, 1 := LIMITS], {0, 1}, [], [], [], map[], {}, map[], Idle, Waiting, map[], multiset{})
  }

  function Sent(c: nat): Thread {
    Thread(c, c, CLERK, TokenOf(c), RequestSent, 0, Some(10 * DAY))
  }

  function TokenOf(c: nat): string { if c == 0 then "a" else "b" }

  ghost predicate ReadyFor(s: State, c: nat) {
    s == Start().(threads := s.threads, emails := s.emails, contacted := s.contacted) && c !in s.contacted &&
    if c == 0 then s.threads == [] && s.emails == []
    else s.threads == [Sent(0)] && |s.emails| == 1 && s.emails[0].messageId.None?
  }

  lemma Clears(before: seq<Step>, c: nat) returns (steps: seq<Step>)
    requires c < 2 && ValidRun(Start(), before) && ReadyFor(Run(Start(), before), c)
    ensures ValidRun(Start(), steps)
    ensures Run(Start(), steps) ==
      Run(Start(), before).(requester := Cleared(Contact(c, c, CLERK, false), None, TokenOf(c), 0))
  {
    var s: State;
    var s0 := Run(Start(), before);
    var msg := Contact(c, c, CLERK, false);
    steps, s := Then(Start(), before, Request(TakeContact(msg)));
    steps, s := Then(Start(), steps, Request(FindThread(None, TokenOf(c))));
    assert s == s0.(requester := Found(msg, None, None, TokenOf(c)));
    assert CountSince(s.emails, c, 0) <= 1 by { assert s.emails == [] || s.emails[..|s.emails| - 1] == []; }
    steps, s := Then(Start(), steps, Request(PassGates));
  }

  /** An initial request of campaign `c` to the clerk, whose office is not on cooldown. */
  lemma Requests(before: seq<Step>, c: nat) returns (steps: seq<Step>)
    requires c < 2 && ValidRun(Start(), before) && ReadyFor(Run(Start(), before), c)
    ensures ValidRun(Start(), steps)
    ensures var s, s' := Run(Start(), before), Run(Start(), steps);
      s' == Start().(threads := s.threads + [Sent(c)], emails := s'.emails, contacted := s'.contacted) &&
      s'.contacted == s.contacted[c := 0] && s'.emails == s.emails + [InitialEmail(c, c, "", 0, false)]
  {
    var s: State;
    steps := Clears(before, c);
    steps, s := Then(Start(), steps, Request(CommitInitial("")));
  }

  /** The mail has no token, or one that names none of the threads. */
  predicate Nameless(threads: seq<Thread>, m: Mail) {
    Named(m) ==> forall t :: 0 <= t < |threads| ==> threads[t].token != m.token.value
  }

  lemma LooksUp(before: seq<Step>, m: Mail, t: nat) returns (steps: seq<Step>)
    requires ValidRun(Start(), before) && Nameless(Run(Start(), before).threads, m)
    requires Run(Start(), before).receivers == map[] && FirstOpenTo(Run(Start(), before).threads, m.from, Some(t))
    ensures ValidRun(Start(), steps)
    ensures Run(Start(), steps) == Run(Start(), before).(receivers := map[0 := Matched(m, Some(t))])
  {
    var s: State;
    var s0 := Run(Start(), before);
    steps, s := Then(Start(), before, Receive(0, Take(m)));
    steps, s := Then(Start(), steps, Receive(0, MatchToken(None)));
    assert s == s0.(receivers := map[0 := Unnamed(m)]);
    steps, s := Then(Start(), steps, Receive(0, MatchSender(Some(t))));
  }

  /** One delivery of the clerk's mail, as far as its row: no token, so the sender's open thread takes it. */
  lemma Delivers(before: seq<Step>, m: Mail, t: nat) returns (steps: seq<Step>)
    requires ValidRun(Start(), before) && Nameless(Run(Start(), before).threads, m)
    requires var s := Run(Start(), before);
      s.receivers == map[] && FirstOpenTo(s.threads, m.from, Some(t)) &&
        !HasMessage(s.emails, Some(s.threads[t].campaign), m.messageId)
    ensures ValidRun(Start(), steps)
    ensures var s, s' := Run(Start(), before), Run(Start(), steps);
      s' == s.(emails := s.emails + [InboundEmail(m, Some(t), Some(s.threads[t].campaign), Some(DataProvided), s.now)],
               receivers := map[0 := Reacting(t, |s.emails|, DataProvided, false)])
  {
    var s: State;
    var s0 := Run(Start(), before);
    steps := LooksUp(before, m, t);
    steps, s := Then(Start(), steps, Receive(0, Dedupe));
    assert s == s0.(receivers := map[0 := Fresh(m, Some(t))]);
    steps, s := Then(Start(), steps, Receive(0, Log(DataProvided, false)));
  }

  /** The reaction runs to its end, and the message is delivered again before it is deleted. */
  lemma Fulfills(before: seq<Step>, t: nat, i: nat) returns (steps: seq<Step>)
    requires ValidRun(Start(), before)
    requires var s := Run(Start(), before);
      s.receivers == map[0 := Reacting(t, i, DataProvided, false)] && t < |s.threads| &&
        s.threads[t].status.RequestSent?
    ensures ValidRun(Start(), steps)
    ensures var s, s' := Run(Start(), before), Run(Start(), steps);
      s'.threads == s.threads[t := s.threads[t].(status := Fulfilled, due := None)] && s'.emails == s.emails &&
        s'.receivers == map[]
  {
    var s: State;
    steps, s := Then(Start(), before, Receive(0, File(false)));
    steps, s := Then(Start(), steps, Receive(0, Settle));
  }

  lemma BothSent() returns (steps: seq<Step>)
    ensures ValidRun(Start(), steps)
    ensures var s := Run(Start(), steps);
      s.threads == [Sent(0), Sent(1)] && s.receivers == map[] && |s.emails| == 2 &&
      s.emails[0].messageId.None? && s.emails[1].messageId.None?
  {
    steps := Requests([], 0);
    steps := Requests(steps, 1);
  }

  /** A mail whose token names no thread, delivered twice: the first delivery fulfils the thread of one campaign, and
      the second is logged again in the other campaign and fulfils its thread too. */
  lemma UnnamedMailIsLoggedTwice(m: Mail) returns (steps: seq<Step>)
    requires m.from == CLERK && Nameless([Sent(0), Sent(1)], m)
    ensures Init(Start()) && ValidRun(Start(), steps)
    ensures var s := Run(Start(), steps);
      |s.emails| == 4 && s.emails[2].source == s.emails[3].source == Some(m.source) &&
      s.emails[2].campaign == Some(0) && s.emails[3].campaign == Some(1) && s.receivers == map[] &&
      s.threads == [Sent(0).(status := Fulfilled, due := None), Sent(1).(status := Fulfilled, due := None)]
  {
    steps := BothSent();
    assert OpenTo(Run(Start(), steps).threads[0], CLERK);
    steps := Delivers(steps, m, 0);
    steps := Fulfills(steps, 0, 2);
    assert Run(Start(), steps).threads == [Sent(0).(status := Fulfilled, due := None), Sent(1)];
    steps := SecondDelivery(steps, m);
  }

  lemma SecondDelivery(before: seq<Step>, m: Mail) returns (steps: seq<Step>)
    requires m.from == CLERK && Nameless([Sent(0), Sent(1)], m) && ValidRun(Start(), before)
    requires var s := Run(Start(), before);
      s.threads == [Sent(0).(status := Fulfilled, due := None), Sent(1)] && |s.emails| == 3 && s.receivers == map[] &&
      !HasMessage(s.emails, Some(1), m.messageId)
    ensures ValidRun(Start(), steps)
    ensures var s, s' := Run(Start(), before), Run(Start(), steps);
      |s'.emails| == 4 && s'.emails[..3] == s.emails && s'.emails[3].source == Some(m.source) &&
      s'.emails[3].campaign == Some(1) && s'.receivers == map[] &&
      s'.threads == [Sent(0).(status := Fulfilled, due := None), Sent(1).(status := Fulfilled, due := None)]
  {
    var threads := Run(Start(), before).threads;
    assert OpenTo(threads[1], CLERK);
    assert threads[0].token == [Sent(0), Sent(1)][0].token && threads[1].token == [Sent(0), Sent(1)][1].token;
    steps := Delivers(before, m, 1);
    steps := Fulfills(steps, 1, 3);
  }
}
