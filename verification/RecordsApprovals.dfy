/** A follow-up scan against a human approval: a thread put back to pending while the scan holds an older snapshot. */
module RecordsApprovals {
  import opened Options
  import opened RecordsTables
  import opened RecordsProtocol
  import opened RecordsInvariant
  import opened RecordsTheorems
  import opened RecordsRematch
  import opened Sending

  /** The contact message a human approval of the thread sends. */
  function ApprovalOf(row: Thread): Contact { Contact(row.campaign, row.jurisdiction, row.contact, true) }

  /** The scan acts on this thread, and its snapshot is at the follow-up limit or was never replied to. */
  predicate Overtakes(s: State, k: nat, scan: ScanStep, t: nat) {
    k in s.scanners && s.scanners[k].thread == t && s.scanners[k].row.campaign in s.campaigns &&
    ((scan.ScanAct? && s.scanners[k].row.followups >= s.campaigns[s.scanners[k].row.campaign].maxFollowups) ||
     (scan.Reschedule? && s.scanners[k].row.status.RequestSent?))
  }

  /** In every reachable state with a thread waiting for its approved request, a scan step makes the sender drop that
      request exactly when it overtakes the thread. */
  lemma WhenAScanDropsAnApproval(s0: State, steps: seq<Step>, k: nat, scan: ScanStep, t: nat)
    requires Init(s0) && ValidRun(s0, steps) && ScanEnabled(Run(s0, steps), k, scan)
    requires var s := Run(s0, steps);
      t < |s.threads| && s.threads[t].status.PendingSend? && s.threads[t].campaign in s.active
    ensures var s := Run(s0, steps);
      var approval := ApprovalOf(s.threads[t]);
      !GateFor(s, approval, Some(t)).Drop? &&
      (GateFor(ApplyScan(s, k, scan), approval, Some(t)).Drop? <==> Overtakes(s, k, scan, t))
  {
    ReachableInv(s0, steps);
    var s := Run(s0, steps);
    assert s.threads[t].campaign in s.campaigns;
    ScanMovesOneRow(s, k, scan, t);
  }

  lemma ScanMovesOneRow(s: State, k: nat, scan: ScanStep, t: nat)
    requires ScanEnabled(s, k, scan) && ScannersPlaced(s.threads, s.scanners) && ThreadsPlaced(s.threads, s.campaigns)
    requires SnapshotsOpen(s.scanners) && t < |s.threads| && s.threads[t].status.PendingSend?
    ensures var s' := ApplyScan(s, k, scan);
      s'.campaigns == s.campaigns && s'.active == s.active && t < |s'.threads| &&
      (s'.threads[t].status.PendingSend? <==> !Overtakes(s, k, scan, t))
  {
  }

  /** A request is sent, ten days pass, a scan queues the follow-up; before it reschedules the thread, the thread is
      dead-lettered and a human approves a new request. */
  lemma ApprovedDuringScan() returns (steps: seq<Step>)
    ensures ValidRun(Start(), steps)
    ensures var s := Run(Start(), steps);
      s.threads == [Sent(0).(status := PendingSend, due := None)] && s.active == {0, 1} &&
        s.campaigns == Start().campaigns &&
      s.scanners == map[0 := Rescheduling(0, Sent(0))] && |s.emails| == 1
  {
    var s: State;
    steps := Requests([], 0);
    steps := ScanBegins(steps);
    steps, s := Then(Start(), steps, Env(DeadLetter(0)));
    assert s.threads == [Sent(0).(status := NeedsHuman, due := None)];
    steps, s := Then(Start(), steps, Env(Resolve(0, PendingSend)));
  }

  lemma ScanBegins(before: seq<Step>) returns (steps: seq<Step>)
    requires ValidRun(Start(), before)
    requires var s := Run(Start(), before); s == Start().(threads := [Sent(0)], emails := s.emails,
      contacted := s.contacted)
    ensures ValidRun(Start(), steps)
    ensures var s, s' := Run(Start(), before), Run(Start(), steps);
      s' == s.(now := 10 * DAY, jobs := {FollowUpJob(0, 0)}, scanners := map[0 := Rescheduling(0, Sent(0))])
  {
    var s: State;
    var s0 := Run(Start(), before);
    steps, s := Then(Start(), before, Env(Tick(10 * DAY)));
    steps, s := Then(Start(), steps, Follow(0, Scan(0)));
    assert s == s0.(now := 10 * DAY, scanners := map[0 := Holding(0, Sent(0))]);
    steps, s := Then(Start(), steps, Follow(0, ScanAct));
  }

  /** The reschedule then marks the thread as sent: the approved request, which would have been sent, is dropped. */
  lemma StaleScanSwallowsApproval() returns (steps: seq<Step>, after: State)
    ensures Init(Start()) && ValidRun(Start(), steps) && ScanEnabled(Run(Start(), steps), 0, Reschedule)
    ensures after == ApplyScan(Run(Start(), steps), 0, Reschedule)
    ensures var s := Run(Start(), steps);
      |s.threads| == 1 && s.threads[0].status.PendingSend? && !GateFor(s, ApprovalOf(s.threads[0]), Some(0)).Drop? &&
      GateFor(after, ApprovalOf(s.threads[0]), Some(0)).Drop? && after.threads[0].status.RequestSent? &&
      after.emails == s.emails
  {
    steps := ApprovedDuringScan();
    var s := Run(Start(), steps);
    after := ApplyScan(s, 0, Reschedule);
    WhenAScanDropsAnApproval(Start(), steps, 0, Reschedule, 0);
  }
}
