/** The email sender: initial requests behind their gates, and thread jobs, each as steps of the protocol. */
module Sending {
  import opened Options
  import opened RecordsTables
  import opened RecordsProtocol
  import opened RecordsWorld

  // ---- initial requests

  /** What the gates say to a contact message: drop it, leave it for later, or send. */
  datatype Gate = Drop | Later | Go

  function GateFor(s: State, msg: Contact, found: Option<nat>): Gate {
    if msg.campaign !in s.campaigns || msg.campaign !in s.active then Drop
    else if found.Some? && found.value < |s.threads| && !s.threads[found.value].status.PendingSend? then Drop
    else if CountSince(s.emails, msg.campaign, Midnight(s.now)) >= s.campaigns[msg.campaign].dailyCap then Later
    else if !msg.bypass && msg.jurisdiction in s.contacted &&
      s.now < s.contacted[msg.jurisdiction] + DAY * s.campaigns[msg.campaign].cooldownDays then Later
    else Go
  }

  /** The token on the request: the thread's own when it is sent again. */
  function TokenFor(s: State, found: Option<nat>, newToken: string): string {
    if found.Some? && found.value < |s.threads| then s.threads[found.value].token else newToken
  }

  /** A sent request: the thread waits for its reply, the row is logged, and the office is stamped unless this is a
      test. */
  ghost predicate Requested(s: State, s': State, msg: Contact, found: Option<nat>, newToken: string, body: string) {
    msg.campaign in s.campaigns && (found.Some? ==> found.value < |s.threads|) &&
    var t := if found.Some? then found.value else |s.threads|;
    var due := Some(NextAction(s.campaigns[msg.campaign], s.now));
    s' == s.(
      threads := (if found.Some? then s.threads[t := s.threads[t].(status := RequestSent, contact := msg.address,
        due := due)]
                  else s.threads + [Thread(msg.campaign, msg.jurisdiction, msg.address, newToken, RequestSent, 0,
                    due)]),
      emails := s.emails + [InitialEmail(t, msg.campaign, body, s.now, msg.bypass)],
      contacted := if s.campaigns[msg.campaign].isTest then s.contacted else s.contacted[msg.jurisdiction := s.now])
  }

  /** The gates of one message, in order; a message that gets through stands cleared. */
  method PassGates(w: World, msg: Contact, newToken: string) returns (gate: Gate, found: Option<nat>)
    requires w.Valid() && w.requester.Idle?
    modifies w`trace, w`receivers, w`requester, w`replier, w`scanners, w`reactions
    ensures w.Valid() && old(w.trace) <= w.trace
    ensures FirstFor(w.threads, msg.campaign, msg.jurisdiction, msg.address, found) &&
      gate == GateFor(old(w.View()), msg, found)
    ensures w.View() == old(w.View()).(
      requester := if gate.Go? then Cleared(msg, found, TokenFor(old(w.View()), found, newToken), w.now) else Idle)
  {
    ghost var before := w.View();
    found := w.FindThread(msg.campaign, msg.jurisdiction, msg.address);
    if msg.campaign !in w.campaigns || msg.campaign !in w.active { return Drop, found; }
    Looks(w, msg);
    w.Record(w.View(), Request(RequestStep.FindThread(found, newToken)));
    if found.Some? && !w.threads[found.value].status.PendingSend? { return Drop, found; }
    gate := CapAndCooldown(w, msg);
  }

  ghost method Looks(w: World, msg: Contact)
    requires w.Valid() && w.requester.Idle? && msg.campaign in w.campaigns && msg.campaign in w.active
    modifies w`trace, w`receivers, w`requester, w`replier, w`scanners, w`reactions
    ensures w.Valid() && old(w.trace) <= w.trace
    ensures w.View() == old(w.View()).(
      requester := Looking(msg, if msg.jurisdiction in w.contacted then Some(w.contacted[msg.jurisdiction]) else None))
  {
    w.Record(w.View(), Request(TakeContact(msg)));
  }

  method CapAndCooldown(w: World, msg: Contact) returns (gate: Gate)
    requires w.Valid() && w.requester.Found? && w.requester.msg == msg && msg.campaign in w.campaigns
    requires w.requester.last == if msg.jurisdiction in w.contacted then Some(w.contacted[msg.jurisdiction]) else None
    modifies w`trace, w`receivers, w`requester, w`replier, w`scanners, w`reactions
    ensures w.Valid() && old(w.trace) <= w.trace
    ensures gate ==
      if CountSince(w.emails, msg.campaign, Midnight(w.now)) >= w.campaigns[msg.campaign].dailyCap then Later
      else if !msg.bypass && msg.jurisdiction in w.contacted &&
        w.now < w.contacted[msg.jurisdiction] + DAY * w.campaigns[msg.campaign].cooldownDays then Later
      else Go
    ensures w.View() == old(w.View()).(
      requester := if gate.Go? then Cleared(msg, old(w.requester).existing, old(w.requester).token, w.now) else Idle)
  {
    var c := w.campaigns[msg.campaign];
    var sent := w.CountOutboundSince(msg.campaign, Midnight(w.now));
    gate := Go;
    if sent >= c.dailyCap {
      gate := Later;
    } else if !msg.bypass && msg.jurisdiction in w.contacted &&
      w.now < w.contacted[msg.jurisdiction] + DAY * c.cooldownDays {
      gate := Later;
    }
    w.Record(w.View(), Request(RequestStep.PassGates));
  }

  /** The anonymous-state refusal parks an existing thread and drops the message. */
  method Refuse(w: World, msg: Contact, found: Option<nat>)
    requires w.Valid() && w.requester.Cleared? && w.requester.existing == found
    modifies w`threads, w`trace, w`receivers, w`requester, w`replier, w`scanners, w`reactions
    ensures w.Valid() && old(w.trace) <= w.trace
    ensures w.View() == old(w.View()).(
      requester := Idle, threads := if found.Some? then Escalate(old(w.threads), found.value) else old(w.threads))
  {
    ghost var before := w.View();
    if found.Some? && found.value < |w.threads| { var _ := w.SetThreadStatus(found.value, NeedsHuman, None, false); }
    w.Record(before, Request(RefuseAnonymous));
  }

  /** Commits thread, email and office stamp together; a taken token or an illegal status change raises. */
  method RecordInitialSend(w: World, msg: Contact, found: Option<nat>, token: string, body: string) returns (ok: bool)
    requires w.Valid() && w.requester == Cleared(msg, found, token, w.now) && msg.campaign in w.campaigns
    requires found.Some? ==> found.value < |w.threads|
    modifies w`threads, w`emails, w`contacted, w`trace, w`receivers, w`requester, w`replier, w`scanners, w`reactions
    ensures w.Valid() && old(w.trace) <= w.trace && w.requester.Idle?
    ensures ok == if found.Some? then MayMove(old(w.threads)[found.value].status,
      RequestSent) else !TokenTaken(old(w.threads), token)
    ensures var s := old(w.View()).(requester := Idle);
      if ok then Requested(s, w.View(), msg, found, token, body) else w.View() == s
  {
    if found.Some? {
      ok := Resend(w, msg, found.value, token, body);
    } else {
      ok := OpenThread(w, msg, token, body);
    }
  }

  method Resend(w: World, msg: Contact, t: nat, token: string, body: string) returns (ok: bool)
    requires w.Valid() && w.requester == Cleared(msg, Some(t), token, w.now) && msg.campaign in w.campaigns &&
      t < |w.threads|
    modifies w`threads, w`emails, w`contacted, w`trace, w`receivers, w`requester, w`replier, w`scanners, w`reactions
    ensures w.Valid() && old(w.trace) <= w.trace && w.requester.Idle?
    ensures ok == MayMove(old(w.threads)[t].status, RequestSent)
    ensures var s := old(w.View()).(requester := Idle);
      if ok then Requested(s, w.View(), msg, Some(t), token, body) else w.View() == s
  {
    ghost var before := w.View();
    var due := Some(NextAction(w.campaigns[msg.campaign], w.now));
    ok := MayMove(w.threads[t].status, RequestSent);
    if ok {
      w.threads := w.threads[t := w.threads[t].(status := RequestSent, contact := msg.address, due := due)];
      LogRequest(w, msg, t, body);
    }
    w.Record(before, Request(CommitInitial(body)));
  }

  method OpenThread(w: World, msg: Contact, token: string, body: string) returns (ok: bool)
    requires w.Valid() && w.requester == Cleared(msg, None, token, w.now) && msg.campaign in w.campaigns
    modifies w`threads, w`emails, w`contacted, w`trace, w`receivers, w`requester, w`replier, w`scanners, w`reactions
    ensures w.Valid() && old(w.trace) <= w.trace && w.requester.Idle? && ok == !TokenTaken(old(w.threads), token)
    ensures var s := old(w.View()).(requester := Idle);
      if ok then Requested(s, w.View(), msg, None, token, body) else w.View() == s
  {
    ghost var before := w.View();
    var due := Some(NextAction(w.campaigns[msg.campaign], w.now));
    var taken := w.GetThreadByToken(token);
    ok := taken.None?;
    if ok {
      w.threads := w.threads + [Thread(msg.campaign, msg.jurisdiction, msg.address, token, RequestSent, 0, due)];
      LogRequest(w, msg, |w.threads| - 1, body);
    }
    w.Record(before, Request(CommitInitial(body)));
  }

  method LogRequest(w: World, msg: Contact, t: nat, body: string)
    requires msg.campaign in w.campaigns
    modifies w`emails, w`contacted
    ensures w.emails == old(w.emails) + [InitialEmail(t, msg.campaign, body, w.now, msg.bypass)]
    ensures w.contacted ==
      if w.campaigns[msg.campaign].isTest then old(w.contacted) else old(w.contacted)[msg.jurisdiction := w.now]
  {
    w.emails := w.emails + [InitialEmail(t, msg.campaign, body, w.now, msg.bypass)];
    if !w.campaigns[msg.campaign].isTest { w.contacted := w.contacted[msg.jurisdiction := w.now]; }
  }

  /** What handling one contact message does. `blocked` is the anonymous-state guard, `sends` whether drafting
      and delivery succeed. */
  ghost predicate ContactHandled(s: State, s': State, msg: Contact, found: Option<nat>, newToken: string, blocked: bool,
                                 sends: bool, body: string, done: bool) {
    match GateFor(s, msg, found)
    case Drop => done && s' == s
    case Later => !done && s' == s
    case Go =>
      if blocked then
        done && s' == s.(threads := if found.Some? then Escalate(s.threads, found.value) else s.threads)
      else if !sends then !done && s' == s
      else if found.None? && TokenTaken(s.threads, newToken) then !done && s' == s
      else done && Requested(s, s', msg, found, newToken, body)
  }

  // ---- the same in rows

  /** The request goes out: its thread waits for a first reply until the campaign's interval is over, its row is logged,
      and its office is stamped unless the campaign is a test. */
  ghost predicate SentTo(s: State, s': State, msg: Contact, found: Option<nat>, newToken: string, body: string)
    requires msg.campaign in s.campaigns
  {
    var c := s.campaigns[msg.campaign];
    var due := Some(s.now + 86400 * c.intervalDays);
    var t := if found.Some? then found.value else |s.threads|;
    (found.Some? ==> t < |s.threads|) &&
    s' == s.(
      threads := (if found.Some? then s.threads[t := s.threads[t].(status := RequestSent, contact := msg.address,
        due := due)]
                  else s.threads + [Thread(msg.campaign, msg.jurisdiction, msg.address, newToken, RequestSent, 0,
                    due)]),
      emails := s.emails + [Email(Some(t), Some(msg.campaign), Some(InitialRequest), None, None, None, body, None,
        s.now, msg.bypass)],
      contacted := if c.isTest then s.contacted else s.contacted[msg.jurisdiction := s.now])
  }

  /** The first thread of this campaign, office and address, if there is one. */
  ghost predicate ThreadOf(threads: seq<Thread>, msg: Contact, found: Option<nat>) {
    match found
    case None => forall t :: 0 <= t < |threads| ==> !Fits(threads[t], msg)
    case Some(k) => k < |threads| && Fits(threads[k], msg) && forall t :: 0 <= t < k ==> !Fits(threads[t], msg)
  }

  ghost predicate Fits(t: Thread, msg: Contact) {
    t.campaign == msg.campaign && t.jurisdiction == msg.jurisdiction && t.contact == msg.address
  }

  /** What becomes of a contact message. An unknown or stopped campaign and a thread that is not pending drop it; the
      daily cap and the office's cooldown keep it; the anonymous-state guard hands its thread to a human; otherwise it
      is sent, unless sending fails or its new token is taken. */
  ghost predicate Contacted(s: State, s': State, msg: Contact, found: Option<nat>, newToken: string, blocked: bool,
                            sends: bool, body: string, done: bool) {
    ThreadOf(s.threads, msg, found) &&
    if msg.campaign !in s.campaigns || msg.campaign !in s.active then done && s' == s
    else
      var c := s.campaigns[msg.campaign];
      if found.Some? && s.threads[found.value].status != PendingSend then done && s' == s
      else if CountSince(s.emails, msg.campaign, s.now - s.now % 86400) >= c.dailyCap then !done && s' == s
      else if !msg.bypass && msg.jurisdiction in s.contacted &&
        s.now < s.contacted[msg.jurisdiction] + 86400 * c.cooldownDays then !done && s' == s
      else if blocked then
        done && s' == s.(threads := if found.None? then s.threads
          else s.threads[found.value := s.threads[found.value].(status := NeedsHuman, due := None)])
      else if !sends || (found.None? && exists t :: t in s.threads && t.token == newToken) then !done && s' == s
      else done && SentTo(s, s', msg, found, newToken, body)
  }

  lemma HandledIsContacted(s: State, s': State, msg: Contact, found: Option<nat>, newToken: string, blocked: bool,
                           sends: bool, body: string, done: bool)
    requires FirstFor(s.threads, msg.campaign, msg.jurisdiction, msg.address, found)
    requires ContactHandled(s, s', msg, found, newToken, blocked, sends, body, done)
    ensures Contacted(s, s', msg, found, newToken, blocked, sends, body, done)
  {
    TokenTakenIs(s.threads, newToken);
    forall t | 0 <= t < |s.threads|
      ensures Fits(s.threads[t], msg) <==> IsFor(s.threads[t], msg.campaign, msg.jurisdiction, msg.address) {}
  }

  lemma TokenTakenIs(threads: seq<Thread>, token: string)
    ensures TokenTaken(threads, token) <==> exists t :: t in threads && t.token == token
  {
    if t :| t in threads && t.token == token {
      var i :| 0 <= i < |threads| && threads[i] == t;
    }
  }

  method HandleContact(w: World, msg: Contact, newToken: string, blocked: bool, sends: bool, body: string)
    returns (done: bool, ghost found: Option<nat>)
    requires w.Valid() && w.requester.Idle?
    modifies w`threads, w`emails, w`contacted, w`trace, w`receivers, w`requester, w`replier, w`scanners, w`reactions
    ensures w.Valid() && old(w.trace) <= w.trace && w.requester.Idle?
    ensures FirstFor(old(w.threads), msg.campaign, msg.jurisdiction, msg.address, found)
    ensures ContactHandled(old(w.View()), w.View(), msg, found, newToken, blocked, sends, body, done)
    ensures Contacted(old(w.View()), w.View(), msg, found, newToken, blocked, sends, body, done)
  {
    done, found := WorkContact(w, msg, newToken, blocked, sends, body);
    HandledIsContacted(old(w.View()), w.View(), msg, found, newToken, blocked, sends, body, done);
  }

  method WorkContact(w: World, msg: Contact, newToken: string, blocked: bool, sends: bool, body: string)
    returns (done: bool, ghost found: Option<nat>)
    requires w.Valid() && w.requester.Idle?
    modifies w`threads, w`emails, w`contacted, w`trace, w`receivers, w`requester, w`replier, w`scanners, w`reactions
    ensures w.Valid() && old(w.trace) <= w.trace && w.requester.Idle?
    ensures FirstFor(old(w.threads), msg.campaign, msg.jurisdiction, msg.address, found)
    ensures ContactHandled(old(w.View()), w.View(), msg, found, newToken, blocked, sends, body, done)
  {
    var gate, existing := PassGates(w, msg, newToken);
    found := existing;
    if gate.Drop? { return true, found; }
    if gate.Later? { return false, found; }
    if blocked {
      Refuse(w, msg, existing);
      return true, found;
    }
    if !sends {
      w.Record(w.View(), Request(DropContact));
      return false, found;
    }
    var token := if existing.Some? then w.threads[existing.value].token else newToken;
    done := RecordInitialSend(w, msg, existing, token, body);
  }

  // ---- thread jobs

  /** What a job still has to do: nothing, or one email. */
  predicate JobIsDue(s: State, job: Job) {
    job.thread < |s.threads| && IsOpen(s.threads[job.thread].status) &&
    if job.FollowUpJob? then job.index >= s.threads[job.thread].followups
    else !ReplyExists(s.emails, job.thread, job.inbound, JobKind(job))
  }

  /** A sent job: one row of its kind, and the thread waits again. A follow-up keeps the schedule the scan set. */
  ghost predicate JobSent(s: State, s': State, job: Job, body: string)
    requires job.thread < |s.threads|
  {
    var due := if job.FollowUpJob? then s.threads[job.thread].due else DueAfter(s, job.thread, AwaitingReply);
    s' == s.(threads := s.threads[job.thread := AfterSend(s.threads[job.thread], job, due)],
             emails := s.emails + [JobEmail(s.threads, job, body, s.now)])
  }

  /** Reads the thread and the idempotency key; a job still due stands ready. */
  method Check(w: World, job: Job) returns (due: bool)
    requires w.Valid() && w.replier.Waiting? && job in w.jobs
    modifies w`trace, w`receivers, w`requester, w`replier, w`scanners, w`reactions
    ensures w.Valid() && old(w.trace) <= w.trace && due == JobIsDue(old(w.View()), job)
    ensures w.View() == old(w.View()).(
      replier := if due then Ready(job, if job.FollowUpJob? then w.threads[job.thread].due else None) else Waiting)
  {
    w.Record(w.View(), Reply(TakeJob(job)));
    if job.thread >= |w.threads| || !IsOpen(w.threads[job.thread].status) { return false; }
    if job.FollowUpJob? {
      due := job.index >= w.threads[job.thread].followups;
    } else {
      var answered := w.OutboundReplyExists(job.thread, job.inbound, JobKind(job));
      due := !answered;
    }
    w.Record(w.View(), Reply(CheckJob));
  }

  method RecordThreadSend(w: World, job: Job, body: string)
    requires w.Valid() && job.thread < |w.threads| && IsOpen(w.threads[job.thread].status)
    requires w.replier == Ready(job, if job.FollowUpJob? then w.threads[job.thread].due else None)
    modifies w`threads, w`emails, w`trace, w`receivers, w`requester, w`replier, w`scanners, w`reactions
    ensures w.Valid() && old(w.trace) <= w.trace && JobSent(old(w.View()).(replier := Waiting), w.View(), job, body)
  {
    ghost var before := w.View();
    var t := job.thread;
    var row := w.threads[t];
    var due := row.due;
    if !job.FollowUpJob? {
      due := if row.campaign in w.campaigns then Some(NextAction(w.campaigns[row.campaign], w.now)) else None;
    }
    w.emails := w.emails + [JobEmail(w.threads, job, body, w.now)];
    w.threads := w.threads[t := AfterSend(row, job, due)];
    w.Record(before, Reply(CommitJob(body)));
  }

  /** The job still has its email to send: its thread was sent a request or waits for a reply, and the follow-up's index
      is not below the thread's counter, or the mail has no answer of the job's kind on the thread. */
  ghost predicate StillOpen(s: State, job: Job) {
    job.thread < |s.threads| &&
    (s.threads[job.thread].status == RequestSent || s.threads[job.thread].status == AwaitingReply) &&
    match job
    case FollowUpJob(t, index) => index >= s.threads[t].followups
    case ClarificationJob(t, inbound) => !Answered(s.emails, t, inbound, ClarificationReply)
    case AgreementJob(t, inbound, _) => !Answered(s.emails, t, inbound, FeeAgreement)
  }

  ghost predicate Answered(emails: seq<Email>, thread: nat, inbound: nat, kind: Outbound) {
    exists e :: e in emails && e.thread == Some(thread) && e.kind == Some(kind) && e.inReplyTo == Some(inbound)
  }

  /** The job's email is logged and its thread waits: a follow-up is counted and keeps the scan's schedule, a reply
      starts the campaign's interval anew. */
  ghost predicate JobDone(s: State, s': State, job: Job, body: string)
    requires job.thread < |s.threads|
  {
    var t, row := job.thread, s.threads[job.thread];
    var kind :=
      if job.FollowUpJob? then FollowUp else if job.ClarificationJob? then ClarificationReply else FeeAgreement;
    var due := if job.FollowUpJob? then row.due
      else if row.campaign in s.campaigns then Some(s.now + 86400 * s.campaigns[row.campaign].intervalDays) else None;
    s' == s.(
      threads := s.threads[t := row.(status := AwaitingReply, due := due,
        followups := if job.FollowUpJob? then row.followups + 1 else row.followups)],
      emails := s.emails + [Email(Some(t), Some(row.campaign), Some(kind), None, None, None, body,
        if job.FollowUpJob? then None else Some(job.inbound), s.now, false)])
  }

  lemma DueIsOpen(s: State, job: Job)
    ensures JobIsDue(s, job) <==> StillOpen(s, job)
  {
    if !job.FollowUpJob? { ReplyIsAnswer(s.emails, job.thread, job.inbound, JobKind(job)); }
  }

  lemma ReplyIsAnswer(emails: seq<Email>, thread: nat, inbound: nat, kind: Outbound)
    ensures ReplyExists(emails, thread, inbound, kind) <==> Answered(emails, thread, inbound, kind)
  {
    if Answered(emails, thread, inbound, kind) {
      var e :| e in emails && e.thread == Some(thread) && e.kind == Some(kind) && e.inReplyTo == Some(inbound);
      var i :| 0 <= i < |emails| && emails[i] == e;
      assert IsReply(emails[i], thread, inbound, kind);
    }
  }

  lemma SentIsDone(s: State, s': State, job: Job, body: string)
    requires job.thread < |s.threads| && JobSent(s, s', job, body)
    ensures JobDone(s, s', job, body)
  {
  }

  /** One delivery of a queued job sends its email at most once. */
  method HandleFollowupJob(w: World, job: Job, sends: bool, body: string) returns (done: bool)
    requires w.Valid() && w.replier.Waiting? && job in w.jobs
    modifies w`threads, w`emails, w`trace, w`receivers, w`requester, w`replier, w`scanners, w`reactions
    ensures w.Valid() && old(w.trace) <= w.trace && done == (sends || !JobIsDue(old(w.View()), job))
    ensures if sends && JobIsDue(old(w.View()), job) then JobSent(old(w.View()), w.View(), job, body)
            else w.View() == old(w.View())
    ensures done == (sends || !StillOpen(old(w.View()), job))
    ensures if sends && StillOpen(old(w.View()), job) then JobDone(old(w.View()), w.View(), job, body)
            else w.View() == old(w.View())
  {
    DueIsOpen(w.View(), job);
    done := WorkJob(w, job, sends, body);
    if sends && JobIsDue(old(w.View()), job) { SentIsDone(old(w.View()), w.View(), job, body); }
  }

  method WorkJob(w: World, job: Job, sends: bool, body: string) returns (done: bool)
    requires w.Valid() && w.replier.Waiting? && job in w.jobs
    modifies w`threads, w`emails, w`trace, w`receivers, w`requester, w`replier, w`scanners, w`reactions
    ensures w.Valid() && old(w.trace) <= w.trace && done == (sends || !JobIsDue(old(w.View()), job))
    ensures if sends && JobIsDue(old(w.View()), job) then JobSent(old(w.View()), w.View(), job, body)
            else w.View() == old(w.View())
  {
    var due := Check(w, job);
    if !due { return true; }
    if !sends {
      w.Record(w.View(), Reply(DropJob));
      return false;
    }
    RecordThreadSend(w, job, body);
    done := true;
  }

  /** The same job delivered again finds nothing left to do. */
  lemma SentJobIsNotDue(s: State, s': State, job: Job, body: string)
    requires JobIsDue(s, job) && JobSent(s, s', job, body)
    requires job.FollowUpJob? ==> job.index <= s.threads[job.thread].followups
    ensures !JobIsDue(s', job)
  {
    assert s'.emails[|s.emails|] == JobEmail(s.threads, job, body, s.now);
  }
}
