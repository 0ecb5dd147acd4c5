/** Send limits: the daily cap on initial requests, and the cooldown of every office. */
module RecordsSends {
  import opened Options
  import opened RecordsTables
  import opened RecordsProtocol
  import opened RecordsInvariant
  import opened RecordsFrames
  import opened RecordsRows

  lemma InitialsAppend(emails: seq<Email>, e: Email, c: nat, d: int)
    ensures InitialsOn(emails + [e], c, d) == InitialsOn(emails, c, d) + if InitialOn(e, c, d) then 1 else 0
  {
    assert (emails + [e])[..|emails|] == emails;
  }

  /** The cap's count since midnight covers the initial requests of the day. */
  lemma {:induction false} CountCoversDay(emails: seq<Email>, c: nat, now: Time)
    ensures InitialsOn(emails, c, Day(now)) <= CountSince(emails, c, Midnight(now))
    decreases |emails|
  {
    if emails != [] {
      CountCoversDay(emails[..|emails| - 1], c, now);
      var e := emails[|emails| - 1];
      if InitialOn(e, c, Day(now)) { SameDaySinceMidnight(e.at, now); }
    }
  }

  lemma SameDaySinceMidnight(at: Time, now: Time)
    requires Day(at) == Day(now)
    ensures at >= Midnight(now)
  {
    assert Midnight(now) == DAY * Day(now) && at == DAY * Day(at) + at % DAY;
  }

  // ---- new rows

  /** Placed emails mean the same thing under a grown table. */
  lemma GrownKeepsSends(s: State, b: seq<Thread>)
    requires Grown(s.threads, b) && EmailsPlaced(s.threads, s.emails)
    requires ContactsStamped(s.threads, s.emails, s.contacted, s.campaigns) &&
      CooldownKept(s.threads, s.emails, s.campaigns)
    ensures ContactsStamped(b, s.emails, s.contacted, s.campaigns) && CooldownKept(b, s.emails, s.campaigns)
  {
    forall i, o | 0 <= i < |s.emails|
      ensures Contacts(b, s.campaigns, s.emails[i], o) == Contacts(s.threads, s.campaigns, s.emails[i], o)
      ensures IsRequest(b, s.campaigns, s.emails[i], o) == IsRequest(s.threads, s.campaigns, s.emails[i], o)
    {
      assert EmailPlaced(s.threads, s.emails[i]);
    }
  }

  lemma OtherEmailKeepsSends(s: State, e: Email)
    requires SendOk(s.threads, s.emails, s.contacted, s.requester, s.campaigns, s.now) && e.kind != Some(InitialRequest)
    ensures SendOk(s.threads, s.emails + [e], s.contacted, s.requester, s.campaigns, s.now)
  {
    forall c, d | true
      ensures InitialsOn(s.emails + [e], c, d) == InitialsOn(s.emails, c, d)
    {
      InitialsAppend(s.emails, e, c, d);
    }
  }

  lemma CapStays(emails: seq<Email>, campaigns: map<nat, Campaign>, e: Email)
    requires CapsKept(emails, campaigns) && e.kind == Some(InitialRequest) && e.campaign.Some? &&
      e.campaign.value in campaigns
    requires InitialsOn(emails, e.campaign.value, Day(e.at)) < campaigns[e.campaign.value].dailyCap
    ensures CapsKept(emails + [e], campaigns)
  {
    forall c, d | c in campaigns
      ensures InitialsOn(emails + [e], c, d) == 0 || InitialsOn(emails + [e], c, d) <= campaigns[c].dailyCap
    {
      InitialsAppend(emails, e, c, d);
    }
  }

  /** The request being sent: placed on a thread of the message's office, and cleared against the office's stamp. */
  ghost predicate Clear(threads: seq<Thread>, contacted: map<nat, Time>, campaigns: map<nat, Campaign>, e: Email,
                        office: nat) {
    IsRequest(threads, campaigns, e, office) &&
    (office in contacted ==>
      contacted[office] <= e.at &&
      (e.bypass || contacted[office] + DAY * campaigns[e.campaign.value].cooldownDays <= e.at))
  }

  lemma CooldownStays(threads: seq<Thread>, emails: seq<Email>, contacted: map<nat, Time>, campaigns: map<nat,
                      Campaign>,
                      e: Email, office: nat)
    requires CooldownKept(threads, emails, campaigns) && ContactsStamped(threads, emails, contacted, campaigns)
    requires Clear(threads, contacted, campaigns, e, office)
    ensures CooldownKept(threads, emails + [e], campaigns)
  {
    forall i, j, o | 0 <= i < j < |emails + [e]| && Contacts(threads, campaigns, (emails + [e])[i], o) &&
      IsRequest(threads, campaigns, (emails + [e])[j], o) && !(emails + [e])[j].bypass
      ensures (emails + [e])[i].at + DAY * campaigns[(emails + [e])[j].campaign.value].cooldownDays <=
        (emails + [e])[j].at
    {
      assert (emails + [e])[i] == emails[i];
      if j == |emails| { assert o == office && Contacts(threads, campaigns, emails[i], office); }
    }
  }

  lemma StampsStay(threads: seq<Thread>, emails: seq<Email>, contacted: map<nat, Time>, campaigns: map<nat, Campaign>,
                   e: Email, office: nat, contacted': map<nat, Time>)
    requires ContactsStamped(threads, emails, contacted, campaigns) && Clear(threads, contacted, campaigns, e, office)
    requires contacted' == if campaigns[e.campaign.value].isTest then contacted else contacted[office := e.at]
    ensures ContactsStamped(threads, emails + [e], contacted', campaigns)
  {
    forall i, o | 0 <= i < |emails + [e]| && Contacts(threads, campaigns, (emails + [e])[i], o)
      ensures o in contacted' && (emails + [e])[i].at <= contacted'[o]
    {
      if i < |emails| { assert (emails + [e])[i] == emails[i] && Contacts(threads, campaigns, emails[i], o); }
    }
  }

  /** What committing an initial request does to the rows the limits look at. */
  ghost predicate Sent(s: State, s': State, e: Email, office: nat) {
    s'.emails == s.emails + [e] && e.kind == Some(InitialRequest) &&
      Clear(s'.threads, s.contacted, s.campaigns, e, office) &&
    InitialsOn(s.emails, e.campaign.value, Day(e.at)) < s.campaigns[e.campaign.value].dailyCap && e.at <= s.now &&
    s'.contacted == (if s.campaigns[e.campaign.value].isTest then s.contacted else s.contacted[office := e.at])
  }

  /** A request on an existing thread. */
  lemma InitialOnExisting(s: State, body: string)
    requires s.requester.Cleared? && s.requester.existing.Some?
    requires RequesterOk(s.emails, s.contacted, s.campaigns, s.now, s.requester)
    requires RequesterPlaced(s.threads, s.campaigns, s.requester)
    ensures var s' := DoInitial(s, body);
      (s'.emails == s.emails && s'.contacted == s.contacted) ||
      (|s'.emails| > |s.emails| && Sent(s, s', s'.emails[|s.emails|], s.requester.msg.jurisdiction))
  {
  }

  /** A request that opens its thread. */
  lemma InitialOnNew(s: State, body: string)
    requires s.requester.Cleared? && s.requester.existing.None?
    requires RequesterOk(s.emails, s.contacted, s.campaigns, s.now, s.requester)
    requires RequesterPlaced(s.threads, s.campaigns, s.requester)
    ensures var s' := DoInitial(s, body);
      (s'.emails == s.emails && s'.contacted == s.contacted) ||
      (|s'.emails| > |s.emails| && Sent(s, s', s'.emails[|s.emails|], s.requester.msg.jurisdiction))
  {
  }

  lemma InitialSends(s: State, body: string)
    requires s.requester.Cleared? && RequesterOk(s.emails, s.contacted, s.campaigns, s.now, s.requester)
    requires RequesterPlaced(s.threads, s.campaigns, s.requester)
    ensures var s' := DoInitial(s, body);
      s'.requester.Idle? &&
      ((s'.emails == s.emails && s'.contacted == s.contacted) ||
       (|s'.emails| > |s.emails| && Sent(s, s', s'.emails[|s.emails|], s.requester.msg.jurisdiction)))
  {
    if s.requester.existing.Some? { InitialOnExisting(s, body); } else { InitialOnNew(s, body); }
  }

  lemma SentKeepsSends(s: State, s': State, e: Email, office: nat)
    requires CapsKept(s.emails, s.campaigns) && ContactsStamped(s'.threads, s.emails, s.contacted, s.campaigns)
    requires CooldownKept(s'.threads, s.emails, s.campaigns) && forall o :: o in s.contacted ==> s.contacted[o] <= s.now
    requires Sent(s, s', e, office) && s'.requester.Idle?
    ensures SendOk(s'.threads, s'.emails, s'.contacted, s'.requester, s.campaigns, s.now)
  {
    CapStays(s.emails, s.campaigns, e);
    CooldownStays(s'.threads, s.emails, s.contacted, s.campaigns, e, office);
    StampsStay(s'.threads, s.emails, s.contacted, s.campaigns, e, office, s'.contacted);
  }

  lemma InitialKeepsSends(s: State, body: string)
    requires SendOk(s.threads, s.emails, s.contacted, s.requester, s.campaigns, s.now) && s.requester.Cleared?
    requires Placed(s) && Grown(s.threads, DoInitial(s, body).threads)
    ensures var s' := DoInitial(s, body);
      SendOk(s'.threads, s'.emails, s'.contacted, s'.requester, s.campaigns, s.now)
  {
    var s' := DoInitial(s, body);
    GrownKeepsSends(s, s'.threads);
    InitialSends(s, body);
    if s'.emails != s.emails { SentKeepsSends(s, s', s'.emails[|s.emails|], s.requester.msg.jurisdiction); }
  }

  // ---- the sender's own gates

  lemma GatesKeepRequester(s: State)
    requires RequesterOk(s.emails, s.contacted, s.campaigns, s.now, s.requester) && s.requester.Found?
    requires forall o :: o in s.contacted ==> s.contacted[o] <= s.now
    ensures RequesterOk(s.emails, s.contacted, s.campaigns, s.now, AfterGates(s, s.requester))
  {
    CountCoversDay(s.emails, s.requester.msg.campaign, s.now);
  }

  lemma RequestKeepsRequester(s: State, step: RequestStep)
    requires RequesterOk(s.emails, s.contacted, s.campaigns, s.now, s.requester) && RequestEnabled(s, step)
    requires !step.CommitInitial? && forall o :: o in s.contacted ==> s.contacted[o] <= s.now
    ensures RequesterOk(s.emails, s.contacted, s.campaigns, s.now, ApplyRequest(s, step).requester)
  {
    if step.PassGates? { GatesKeepRequester(s); }
  }

  lemma RequestKeepsSends(s: State, step: RequestStep)
    requires SendOk(s.threads, s.emails, s.contacted, s.requester, s.campaigns, s.now) && RequestEnabled(s, step)
    requires Placed(s) && Grown(s.threads, ApplyRequest(s, step).threads)
    ensures var s' := ApplyRequest(s, step); SendOk(s'.threads, s'.emails, s'.contacted, s'.requester, s.campaigns,
      s.now)
  {
    if step.CommitInitial? {
      InitialKeepsSends(s, step.body);
    } else {
      RequestRows(s, step);
      RequestKeepsRequester(s, step);
      GrownKeepsSends(s, ApplyRequest(s, step).threads);
    }
  }

  // ---- everyone else

  lemma OthersLeaveSends(s: State, step: Step)
    requires Enabled(s, step) && !step.Request?
    ensures var s' := Apply(s, step); s'.contacted == s.contacted && s'.requester == s.requester && s'.now >= s.now
    ensures var s' := Apply(s, step);
      s'.emails == s.emails ||
      (|s'.emails| == |s.emails| + 1 && s'.emails == s.emails + [s'.emails[|s.emails|]] &&
       s'.emails[|s.emails|].kind != Some(InitialRequest))
  {
    match step
    case Env(e) => EnvFrame(s, e);
    case Receive(r, m) => MailFrame(s, r, m); if !m.Log? && !m.LogUnmatched? { MailRows(s, r, m); }
    case Reply(p) => ReplyFrame(s, p); if !p.CommitJob? { ReplyRows(s, p); }
    case Follow(k, c) => ScanFrame(s, k, c);
  }

  lemma StepKeepsSends(s: State, step: Step)
    requires SendOk(s.threads, s.emails, s.contacted, s.requester, s.campaigns, s.now) && Placed(s)
    requires Enabled(s, step) && Grown(s.threads, Apply(s, step).threads)
    ensures var s' := Apply(s, step); SendOk(s'.threads, s'.emails, s'.contacted, s'.requester, s'.campaigns, s'.now)
  {
    var s' := Apply(s, step);
    CampaignsStay(s, step);
    if step.Request? {
      RequestFrame(s, step.request);
      RequestKeepsSends(s, step.request);
    } else {
      OthersLeaveSends(s, step);
      GrownKeepsSends(s, s'.threads);
      if s'.emails != s.emails {
        OtherEmailKeepsSends(s.(threads := s'.threads, now := s'.now), s'.emails[|s.emails|]);
      }
    }
  }
}
