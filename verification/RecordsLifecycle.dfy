/** Which step may move a thread where, and what a thread keeps over a whole run. */
module RecordsLifecycle {
  import opened RecordsTables
  import opened RecordsProtocol
  import opened RecordsInvariant
  import opened RecordsFrames

  /** What any step but a human resolution may do to one row. */
  ghost predicate AutoRow(a: Thread, b: Thread) {
    b.campaign == a.campaign && b.jurisdiction == a.jurisdiction && b.token == a.token && a.followups <= b.followups &&
    MayMove(a.status, b.status) && (b.due.Some? ==> IsOpen(b.status) || b == a)
  }

  /** What a step may do to the table: rows move automatically, and at most one new row starts out as sent. */
  ghost predicate AutoStep(a: seq<Thread>, b: seq<Thread>) {
    |a| <= |b| <= |a| + 1 && (forall t :: 0 <= t < |a| ==> AutoRow(a[t], b[t])) &&
    (|b| > |a| ==> b[|a|].status.RequestSent? && b[|a|].followups == 0 && !TokenTaken(a, b[|a|].token))
  }

  lemma MailMoves(s: State, r: nat, step: MailStep)
    requires MailEnabled(s, r, step)
    ensures AutoStep(s.threads, ApplyMail(s, r, step).threads)
  {
  }

  lemma RequestMoves(s: State, step: RequestStep)
    requires RequestEnabled(s, step)
    ensures AutoStep(s.threads, ApplyRequest(s, step).threads)
  {
  }

  lemma ReplyMoves(s: State, step: ReplyStep)
    requires ReplyEnabled(s, step)
    ensures AutoStep(s.threads, ApplyReply(s, step).threads)
  {
  }

  lemma ScanMoves(s: State, k: nat, step: ScanStep)
    requires ScanEnabled(s, k, step) && SnapshotsOpen(s.scanners)
    ensures AutoStep(s.threads, ApplyScan(s, k, step).threads)
  {
  }

  /** Every step but a human resolution moves threads only along the state machine. */
  lemma StepMovesAutomatically(s: State, step: Step)
    requires Enabled(s, step) && SnapshotsOpen(s.scanners) && !(step.Env? && step.env.Resolve?)
    ensures AutoStep(s.threads, Apply(s, step).threads)
  {
    match step
    case Env(_) =>
    case Receive(r, m) => MailMoves(s, r, m);
    case Request(q) => RequestMoves(s, q);
    case Reply(p) => ReplyMoves(s, p);
    case Follow(k, c) => ScanMoves(s, k, c);
  }

  lemma AutoKeepsRows(a: seq<Thread>, b: seq<Thread>)
    requires AutoStep(a, b) && DueOnlyOpen(a) && UniqueTokens(a)
    ensures DueOnlyOpen(b) && UniqueTokens(b)
  {
    forall t | 0 <= t < |b| && b[t].due.Some? ensures IsOpen(b[t].status) {
      if t < |a| { assert AutoRow(a[t], b[t]); }
    }
    forall i, j | 0 <= i < j < |b| ensures b[i].token != b[j].token {
      assert AutoRow(a[i], b[i]);
      if j < |a| { assert AutoRow(a[j], b[j]); }
    }
  }

  lemma ScanKeepsSnapshots(s: State, k: nat, step: ScanStep)
    requires ScanEnabled(s, k, step) && SnapshotsOpen(s.scanners)
    ensures SnapshotsOpen(ApplyScan(s, k, step).scanners)
  {
  }

  lemma OnlyScansHoldSnapshots(s: State, step: Step)
    requires Enabled(s, step) && !step.Follow?
    ensures Apply(s, step).scanners == s.scanners
  {
    match step
    case Env(e) => EnvFrame(s, e);
    case Receive(r, m) => MailFrame(s, r, m);
    case Request(q) => RequestFrame(s, q);
    case Reply(p) => ReplyFrame(s, p);
    case Follow(_, _) =>
  }

  lemma StepKeepsRows(s: State, step: Step)
    requires Enabled(s, step) && RowsOk(s.threads, s.scanners)
    ensures RowsOk(Apply(s, step).threads, Apply(s, step).scanners)
  {
    var s' := Apply(s, step);
    if step.Follow? { ScanKeepsSnapshots(s, step.k, step.scan); } else { OnlyScansHoldSnapshots(s, step); }
    if step.Env? && step.env.Resolve? {
      assert UniqueTokens(s'.threads);
    } else {
      StepMovesAutomatically(s, step);
      AutoKeepsRows(s.threads, s'.threads);
    }
  }

  lemma {:induction false} RunKeepsRows(s: State, steps: seq<Step>)
    requires ValidRun(s, steps) && RowsOk(s.threads, s.scanners)
    ensures RowsOk(Run(s, steps).threads, Run(s, steps).scanners)
    decreases |steps|
  {
    if steps != [] {
      StepKeepsRows(s, steps[0]);
      RunKeepsRows(Apply(s, steps[0]), steps[1..]);
    }
  }

  // ---- over whole runs

  predicate IsFinal(status: Status) { status.Fulfilled? || status.Referred? || status.NeedsHuman? || status.Failed? }

  /** No human resolution of this thread. */
  predicate Untouched(steps: seq<Step>, t: nat) {
    forall i :: 0 <= i < |steps| && steps[i].Env? && steps[i].env.Resolve? ==> steps[i].env.thread != t
  }

  /** One step that is not a human resolution of this thread. */
  lemma StepMovesRow(s: State, step: Step, t: nat)
    requires Enabled(s, step) && SnapshotsOpen(s.scanners) && t < |s.threads|
    requires !(step.Env? && step.env.Resolve? && step.env.thread == t)
    ensures t < |Apply(s, step).threads| && AutoRow(s.threads[t], Apply(s, step).threads[t])
  {
    if !(step.Env? && step.env.Resolve?) { StepMovesAutomatically(s, step); }
  }

  /** A due time is only ever kept on a thread that waits for the office, human resolutions included. */
  lemma DueImpliesWaiting(s: State, steps: seq<Step>, t: nat)
    requires Init(s) && ValidRun(s, steps) && t < |Run(s, steps).threads| && Run(s, steps).threads[t].due.Some?
    ensures IsOpen(Run(s, steps).threads[t].status)
  {
    RunKeepsRows(s, steps);
  }

  /** Without a human, a fulfilled, referred, parked or failed thread never moves again, and none ever fails. */
  lemma {:induction false} FinalStays(s: State, steps: seq<Step>, t: nat)
    requires ValidRun(s, steps) && RowsOk(s.threads, s.scanners) && t < |s.threads| && Untouched(steps, t)
    ensures t < |Run(s, steps).threads|
    ensures IsFinal(s.threads[t].status) ==> Run(s, steps).threads[t].status == s.threads[t].status
    ensures Run(s, steps).threads[t].status.Failed? ==> s.threads[t].status.Failed?
    decreases |steps|
  {
    if steps != [] {
      assert !(steps[0].Env? && steps[0].env.Resolve? && steps[0].env.thread == t);
      StepMovesRow(s, steps[0], t);
      StepKeepsRows(s, steps[0]);
      FinalStays(Apply(s, steps[0]), steps[1..], t);
    }
  }
}
