/** Inbound mail: one row per campaign and message id, and one reaction per row. */
module RecordsMail {
  import opened Options
  import opened RecordsTables
  import opened RecordsProtocol
  import opened RecordsInvariant
  import opened RecordsFrames

  lemma OutboundKeepsMail(emails: seq<Email>, receivers: map<nat, Receiver>, reactions: multiset<(nat, Effect)>,
                          e: Email)
    requires MailOk(emails, receivers, reactions) && e.messageId.None?
    ensures MailOk(emails + [e], receivers, reactions)
  {
    WorkSurvives(emails, receivers, reactions, e);
  }

  lemma WorkSurvives(emails: seq<Email>, receivers: map<nat, Receiver>, reactions: multiset<(nat, Effect)>, e: Email)
    requires forall r :: r in receivers ==> WorkOk(emails, reactions, receivers[r])
    ensures forall r :: r in receivers ==> WorkOk(emails + [e], reactions, receivers[r])
  {
    forall r | r in receivers ensures WorkOk(emails + [e], reactions, receivers[r]) {
      assert WorkOk(emails, reactions, receivers[r]);
    }
  }

  /** A receiver that is not reacting arrives, looks something up, or is gone. */
  lemma BystanderKeepsMail(emails: seq<Email>, receivers: map<nat, Receiver>, receivers': map<nat, Receiver>,
                           reactions: multiset<(nat, Effect)>, r: nat)
    requires MailOk(emails, receivers, reactions)
    requires forall q :: q in receivers' && q != r ==> q in receivers && receivers'[q] == receivers[q]
    requires r in receivers' ==> !Working(receivers'[r])
    ensures MailOk(emails, receivers', reactions)
  {
    forall q | q in receivers' ensures WorkOk(emails, reactions, receivers'[q]) {
      if q != r { assert WorkOk(emails, reactions, receivers[q]); }
    }
  }

  /** `next` carries on with the same row as `pc`, with fewer effects left. */
  predicate CarriesOn(pc: Receiver, next: Receiver) {
    Working(pc) && Working(next) && next.inbound == pc.inbound && next.thread == pc.thread && !next.Reacting? &&
    (next.Owing? ==> pc.Reacting?)
  }

  lemma AdvanceKeepsMail(emails: seq<Email>, receivers: map<nat, Receiver>, reactions: multiset<(nat, Effect)>,
                         r: nat, next: Receiver)
    requires MailOk(emails, receivers, reactions) && r in receivers && CarriesOn(receivers[r], next)
    ensures MailOk(emails, receivers[r := next], reactions)
  {
    var pc := receivers[r];
    assert WorkOk(emails, reactions, pc);
    assert WorkOk(emails, reactions, next) by {
      forall e | Pending(next, e) ensures reactions[(next.inbound, e)] == 0 { assert Pending(pc, e); }
    }
    forall q | q in receivers && q != r ensures WorkOk(emails, reactions, receivers[q]) {}
  }

  /** A pending effect is made, and is no longer pending. */
  lemma EffectKeepsMail(emails: seq<Email>, receivers: map<nat, Receiver>, reactions: multiset<(nat, Effect)>, r: nat,
                        e: Effect)
    requires MailOk(emails, receivers, reactions) && r in receivers && Working(receivers[r])
    requires reactions[(receivers[r].inbound, e)] == 0 && !Pending(receivers[r], e)
    ensures MailOk(emails, receivers, reactions + multiset{(receivers[r].inbound, e)})
  {
    var i := receivers[r].inbound;
    var more := reactions + multiset{(i, e)};
    assert WorkOk(emails, reactions, receivers[r]);
    forall q | q in receivers ensures WorkOk(emails, more, receivers[q]) {
      assert WorkOk(emails, reactions, receivers[q]);
    }
  }

  lemma LogKeepsMail(emails: seq<Email>, receivers: map<nat, Receiver>, reactions: multiset<(nat, Effect)>, r: nat,
                     e: Email, next: Receiver)
    requires MailOk(emails, receivers, reactions) && e.messageId.Some? && e.kind.None?
    requires !HasMessage(emails, e.campaign, e.messageId.value)
    requires next.Reacting? && next.inbound == |emails| && e.thread == Some(next.thread) &&
      e.category == Some(next.category)
    ensures MailOk(emails + [e], receivers[r := next], reactions)
  {
    WorkSurvives(emails, receivers, reactions, e);
    forall q | q in receivers ensures WorkOk(emails, reactions, receivers[q]) {}
    assert WorkOk(emails + [e], reactions, next);
    assert OneHandlerPerRow(receivers[r := next]);
    UniqueGrows(emails, e);
  }

  lemma UniqueGrows(emails: seq<Email>, e: Email)
    requires UniqueMessages(emails)
    requires e.messageId.Some? ==> !HasMessage(emails, e.campaign, e.messageId.value)
    ensures UniqueMessages(emails + [e])
  {
  }

  lemma DoLogKeepsMail(s: State, r: nat, category: Option<Category>, referred: bool)
    requires MailOk(s.emails, s.receivers, s.reactions)
    requires r in s.receivers && s.receivers[r].Fresh? && (s.receivers[r].found.Some? ==> category.Some?)
    ensures var s' := DoLog(s, r, category, referred); MailOk(s'.emails, s'.receivers, s'.reactions)
  {
    var s' := DoLog(s, r, category, referred);
    var pc := s.receivers[r];
    if HasMessage(s.emails, CampaignOf(s, pc.found), pc.mail.messageId) {
      BystanderKeepsMail(s.emails, s.receivers, s'.receivers, s.reactions, r);
    } else {
      var e := InboundEmail(pc.mail, pc.found, CampaignOf(s, pc.found), category, s.now);
      if pc.found.None? {
        BystanderKeepsMail(s.emails, s.receivers, s'.receivers, s.reactions, r);
        WorkSurvives(s.emails, s'.receivers, s.reactions, e);
        UniqueGrows(s.emails, e);
      } else {
        LogKeepsMail(s.emails, s.receivers, s.reactions, r, e, s'.receivers[r]);
      }
    }
  }

  lemma DoBookKeepsMail(s: State, r: nat)
    requires MailOk(s.emails, s.receivers, s.reactions) && r in s.receivers && s.receivers[r].Reacting?
    ensures var s' := DoBook(s, r); MailOk(s'.emails, s'.receivers, s'.reactions)
  {
    var s' := DoBook(s, r);
    var pc := s.receivers[r];
    assert WorkOk(s.emails, s.reactions, pc) && Pending(pc, Booking);
    AdvanceKeepsMail(s.emails, s.receivers, s.reactions, r, s'.receivers[r]);
    if s'.receivers[r].Owing? { EffectKeepsMail(s.emails, s'.receivers, s.reactions, r, Booking); }
  }

  /** A reaction goes from `pc` to `next` and makes one effect on the way. */
  lemma SendKeepsMail(s: State, r: nat, next: Receiver, e: Effect)
    requires MailOk(s.emails, s.receivers, s.reactions) && r in s.receivers && CarriesOn(s.receivers[r], next)
    requires Pending(s.receivers[r], e) && !Pending(next, e)
    ensures MailOk(s.emails, s.receivers[r := next], Reacted(s, next.inbound, e))
  {
    assert WorkOk(s.emails, s.reactions, s.receivers[r]);
    AdvanceKeepsMail(s.emails, s.receivers, s.reactions, r, next);
    EffectKeepsMail(s.emails, s.receivers[r := next], s.reactions, r, e);
  }

  /** The last effect of a reaction. */
  lemma DoMoveKeepsMail(s: State, r: nat, status: Status)
    requires MailOk(s.emails, s.receivers, s.reactions) && r in s.receivers
    requires s.receivers[r].Settling? || Escalates(s.receivers[r])
    ensures var s' := DoMove(s, r, status); MailOk(s'.emails, s'.receivers, s'.reactions)
  {
    var pc := s.receivers[r];
    var rest := s.receivers - {r};
    var more := Reacted(s, pc.inbound, Moving);
    assert WorkOk(s.emails, s.reactions, pc) && Pending(pc, Moving);
    forall q | q in rest ensures WorkOk(s.emails, more, rest[q]) {
      assert WorkOk(s.emails, s.reactions, s.receivers[q]);
    }
  }

  lemma MailKeepsMail(s: State, r: nat, step: MailStep)
    requires MailOk(s.emails, s.receivers, s.reactions) && MailEnabled(s, r, step)
    ensures var s' := ApplyMail(s, r, step); MailOk(s'.emails, s'.receivers, s'.reactions)
  {
    var s' := ApplyMail(s, r, step);
    match step
    case LogUnmatched => DoLogKeepsMail(s, r, None, false);
    case Log(category, referred) => DoLogKeepsMail(s, r, Some(category), referred);
    case Book => DoBookKeepsMail(s, r);
    case QueueJob => SendKeepsMail(s, r, s'.receivers[r], Queueing);
    case Refer => SendKeepsMail(s, r, s'.receivers[r], Referring);
    case File(_) => AdvanceKeepsMail(s.emails, s.receivers, s.reactions, r, s'.receivers[r]);
    case Settle => DoMoveKeepsMail(s, r, s.receivers[r].status);
    case EscalateMail => DoMoveKeepsMail(s, r, NeedsHuman);
    case _ => BystanderKeepsMail(s.emails, s.receivers, s'.receivers, s.reactions, r);
  }

  /** The rows the two senders write are outbound, and carry no message id. */
  lemma SendersWriteOutbound(s: State, step: Step)
    requires Enabled(s, step) && !step.Receive?
    ensures var s' := Apply(s, step);
      s'.emails == s.emails ||
      (|s'.emails| == |s.emails| + 1 && s'.emails == s.emails + [s'.emails[|s.emails|]] &&
       s'.emails[|s.emails|].messageId.None? && s'.emails[|s.emails|].kind.Some?)
  {
    match step
    case Env(e) => EnvFrame(s, e);
    case Request(q) => if !q.CommitInitial? { RequestRows(s, q); }
    case Reply(p) => if !p.CommitJob? { ReplyRows(s, p); }
    case Follow(k, c) => ScanFrame(s, k, c);
  }

  lemma SendersWriteNoSource(s: State, step: Step)
    requires Enabled(s, step) && !step.Receive? && |Apply(s, step).emails| > |s.emails|
    ensures Apply(s, step).emails[|s.emails|].source.None?
  {
    match step
    case Env(e) => EnvFrame(s, e);
    case Request(q) => if !q.CommitInitial? { RequestRows(s, q); }
    case Reply(p) => if !p.CommitJob? { ReplyRows(s, p); }
    case Follow(k, c) => ScanFrame(s, k, c);
  }

  lemma OthersLeaveMail(s: State, step: Step)
    requires Enabled(s, step) && !step.Receive?
    ensures Apply(s, step).receivers == s.receivers && Apply(s, step).reactions == s.reactions
  {
    match step
    case Env(e) => EnvFrame(s, e);
    case Request(q) => RequestFrame(s, q);
    case Reply(p) => ReplyFrame(s, p);
    case Follow(k, c) => ScanFrame(s, k, c);
  }

  lemma StepKeepsMail(s: State, step: Step)
    requires MailOk(s.emails, s.receivers, s.reactions) && Enabled(s, step)
    ensures var s' := Apply(s, step); MailOk(s'.emails, s'.receivers, s'.reactions)
  {
    if step.Receive? {
      MailKeepsMail(s, step.r, step.mail);
    } else {
      SendersWriteOutbound(s, step);
      OthersLeaveMail(s, step);
      var s' := Apply(s, step);
      if s'.emails != s.emails { OutboundKeepsMail(s.emails, s.receivers, s.reactions, s'.emails[|s.emails|]); }
    }
  }
}
