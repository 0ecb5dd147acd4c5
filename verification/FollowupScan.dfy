/** The silence scan and the human resolution, as steps of the protocol. */
module FollowupScan {
  import opened Options
  import opened RecordsTables
  import opened RecordsProtocol
  import opened RecordsWorld

  predicate DueThread(t: Thread, now: Time) { IsOpen(t.status) && t.due.Some? && t.due.value <= now }

  /** The scan's order: due time, then id. */
  predicate Sooner(threads: seq<Thread>, a: nat, b: nat) {
    a < |threads| && b < |threads| && threads[a].due.Some? && threads[b].due.Some? &&
    (threads[a].due.value < threads[b].due.value || (threads[a].due.value == threads[b].due.value && a < b))
  }

  ghost predicate InOrder(threads: seq<Thread>, due: seq<nat>) {
    forall i, j :: 0 <= i < j < |due| ==> Sooner(threads, due[i], due[j])
  }

  /** `due` lists exactly the due ones of the first `n` threads, in the scan's order. */
  ghost predicate IsScanList(threads: seq<Thread>, n: nat, now: Time, due: seq<nat>)
    requires n <= |threads|
  {
    InOrder(threads, due) && (forall i :: 0 <= i < |due| ==> due[i] < n && DueThread(threads[due[i]], now)) &&
    forall t: nat :: t < n && DueThread(threads[t], now) ==> t in due
  }

  method Place(threads: seq<Thread>, due: seq<nat>, t: nat) returns (more: seq<nat>)
    requires t < |threads| && threads[t].due.Some? && InOrder(threads, due)
    requires forall i :: 0 <= i < |due| ==> due[i] < t && threads[due[i]].due.Some?
    ensures InOrder(threads, more) && forall x :: x in more <==> x in due || x == t
  {
    var i := |due|;
    while i > 0 && Sooner(threads, t, due[i - 1])
      invariant 0 <= i <= |due|
      invariant forall k :: i <= k < |due| ==> Sooner(threads, t, due[k])
    {
      i := i - 1;
    }
    PlacedInOrder(threads, due, t, i);
    more := due[..i] + [t] + due[i..];
  }

  lemma PlacedInOrder(threads: seq<Thread>, due: seq<nat>, t: nat, i: nat)
    requires InOrder(threads, due) && t < |threads| && threads[t].due.Some? && i <= |due|
    requires forall k :: 0 <= k < |due| ==> due[k] < t && threads[due[k]].due.Some?
    requires i > 0 ==> !Sooner(threads, t, due[i - 1])
    requires forall k :: i <= k < |due| ==> Sooner(threads, t, due[k])
    ensures var more := due[..i] + [t] + due[i..];
      InOrder(threads, more) && forall x :: x in more <==> x in due || x == t
  {
    var more := due[..i] + [t] + due[i..];
    forall k | 0 <= k < i ensures Sooner(threads, due[k], t) {
      if k < i - 1 { assert Sooner(threads, due[k], due[i - 1]); }
    }
    forall a, b | 0 <= a < b < |more| ensures Sooner(threads, more[a], more[b]) {
      var x, y := if a <= i then a else a - 1, if b <= i then b else b - 1;
      if a != i && b != i { assert more[a] == due[x] && more[b] == due[y] && Sooner(threads, due[x], due[y]); }
    }
    assert due == due[..i] + due[i..];
  }

  /** `due` holds due threads in the scan's order, at most `limit`; a due thread left out comes after a full batch. */
  ghost predicate IsScanBatch(threads: seq<Thread>, now: Time, limit: nat, due: seq<nat>) {
    InOrder(threads, due) && |due| <= limit &&
    (forall i :: 0 <= i < |due| ==> due[i] < |threads| && DueThread(threads[due[i]], now)) &&
    forall t: nat :: t < |threads| && DueThread(threads[t], now) && t !in due ==>
      |due| == limit && forall i :: 0 <= i < |due| ==> Sooner(threads, due[i], t)
  }

  lemma BatchOfScanList(threads: seq<Thread>, now: Time, limit: nat, all: seq<nat>)
    requires IsScanList(threads, |threads|, now, all)
    ensures IsScanBatch(threads, now, limit, if |all| <= limit then all else all[..limit])
  {
    var due := if |all| <= limit then all else all[..limit];
    forall t: nat | t < |threads| && DueThread(threads[t], now) && t !in due
      ensures |due| == limit && forall i :: 0 <= i < |due| ==> Sooner(threads, due[i], t)
    {
      var j :| 0 <= j < |all| && all[j] == t;
      assert forall i :: 0 <= i < |due| ==> due[i] == all[i] && due[i] in due;
      assert forall i :: 0 <= i < |due| ==> Sooner(threads, all[i], all[j]);
    }
  }

  method SelectDueFollowups(w: World, limit: nat) returns (due: seq<nat>, ghost all: seq<nat>)
    ensures IsScanList(w.threads, |w.threads|, w.now, all) && due == if |all| <= limit then all else all[..limit]
    ensures IsScanBatch(w.threads, w.now, limit, due)
  {
    due := [];
    for t := 0 to |w.threads|
      invariant IsScanList(w.threads, t, w.now, due)
    {
      if DueThread(w.threads[t], w.now) {
        var was := due;
        due := Place(w.threads, due, t);
        forall i | 0 <= i < |due| ensures due[i] < t + 1 &&
          DueThread(w.threads[due[i]], w.now) { assert due[i] in due; }
      }
    }
    all := due;
    BatchOfScanList(w.threads, w.now, limit, all);
    if |due| > limit { due := due[..limit]; }
  }

  /** What the scan does to one due thread: a follow-up is queued and the thread rescheduled, or a human takes over. */
  function Scanned(campaigns: map<nat, Campaign>, row: Thread, now: Time): Thread {
    if row.campaign !in campaigns then row
    else if row.followups >= campaigns[row.campaign].maxFollowups then row.(status := NeedsHuman, due := None)
    else row.(due := Some(NextAction(campaigns[row.campaign], now)))
  }

  predicate Queued(campaigns: map<nat, Campaign>, row: Thread) {
    row.campaign in campaigns && row.followups < campaigns[row.campaign].maxFollowups
  }

  predicate IsQueued(s: State, handled: seq<nat>, j: Job) {
    j.FollowUpJob? && j.thread in handled && j.thread < |s.threads| && Queued(s.campaigns, s.threads[j.thread]) &&
    j.index == s.threads[j.thread].followups
  }

  /** The table after the first `n` of the due threads were handled. */
  ghost predicate ScannedUpTo(s: State, s': State, due: seq<nat>, n: nat)
    requires n <= |due|
  {
    |s'.threads| == |s.threads| &&
    (forall t :: 0 <= t < |s.threads| ==>
      s'.threads[t] == if t in due[..n] then Scanned(s.campaigns, s.threads[t], s.now) else s.threads[t]) &&
    (forall j :: j in s'.jobs <==> j in s.jobs || IsQueued(s, due[..n], j)) &&
    s' == s.(threads := s'.threads, jobs := s'.jobs, scanners := s'.scanners)
  }

  /** Each snapshot still to be handled is held by its own scanner. */
  ghost predicate StillHeld(s: State, scanners: map<nat, Scanner>, due: seq<nat>, n: nat) {
    (forall k :: k in scanners <==> n <= k < |due|) &&
    forall k :: n <= k < |due| ==> due[k] < |s.threads| && scanners[k] == Holding(due[k], s.threads[due[k]])
  }

  ghost method TakeSnapshots(w: World, due: seq<nat>)
    requires w.Valid() && w.scanners == map[]
    requires forall i :: 0 <= i < |due| ==> due[i] < |w.threads| && DueThread(w.threads[due[i]], w.now)
    modifies w`trace, w`receivers, w`requester, w`replier, w`scanners, w`reactions
    ensures w.Valid() && old(w.trace) <= w.trace && w.View() == old(w.View()).(scanners := w.scanners)
    ensures StillHeld(w.View(), w.scanners, due, 0)
  {
    for i := 0 to |due|
      invariant w.Valid() && old(w.trace) <= w.trace && w.View() == old(w.View()).(scanners := w.scanners)
      invariant forall k :: k in w.scanners <==> 0 <= k < i
      invariant forall k :: 0 <= k < i ==> w.scanners[k] == Holding(due[k], w.threads[due[k]])
    {
      w.Record(w.View(), Follow(i, Scan(due[i])));
    }
  }

  /** One due thread: escalate it, or queue the follow-up and reschedule at once. */
  method ScanOne(w: World, ghost k: nat, t: nat)
    requires w.Valid() && k in w.scanners && t < |w.threads| && w.scanners[k] == Holding(t, w.threads[t])
    requires DueThread(w.threads[t], w.now)
    modifies w`threads, w`jobs, w`trace, w`receivers, w`requester, w`replier, w`scanners, w`reactions
    ensures w.Valid() && old(w.trace) <= w.trace
    ensures w.View() == old(w.View()).(scanners := old(w.scanners) - {k},
      threads := old(w.threads)[t := Scanned(w.campaigns, old(w.threads)[t], w.now)],
      jobs := old(w.jobs) + if Queued(w.campaigns, old(w.threads)[t]) then
        {FollowUpJob(t, old(w.threads)[t].followups)} else {})
  {
    var row := w.threads[t];
    if row.campaign !in w.campaigns {
      w.Record(w.View(), Follow(k, ScanAct));
    } else if row.followups >= w.campaigns[row.campaign].maxFollowups {
      HandOver(w, k, t, row);
    } else {
      QueueNext(w, k, t, row);
      Postpone(w, k, t, row);
    }
  }

  /** Out of follow-ups: a human takes over. */
  method HandOver(w: World, ghost k: nat, t: nat, row: Thread)
    requires w.Valid() && k in w.scanners && w.scanners[k] == Holding(t, row) && row.campaign in w.campaigns
    requires t < |w.threads| && w.threads[t] == row && IsOpen(row.status)
    requires row.followups >= w.campaigns[row.campaign].maxFollowups
    modifies w`threads, w`trace, w`receivers, w`requester, w`replier, w`scanners, w`reactions
    ensures w.Valid() && old(w.trace) <= w.trace
    ensures w.View() == old(w.View()).(scanners := old(w.scanners) - {k},
      threads := old(w.threads)[t := row.(status := NeedsHuman, due := None)])
  {
    ghost var before := w.View();
    var _ := w.SetThreadStatus(t, NeedsHuman, None, false);
    w.Record(before, Follow(k, ScanAct));
  }

  method QueueNext(w: World, ghost k: nat, t: nat, row: Thread)
    requires w.Valid() && k in w.scanners && w.scanners[k] == Holding(t, row) && Queued(w.campaigns, row)
    modifies w`jobs, w`trace, w`receivers, w`requester, w`replier, w`scanners, w`reactions
    ensures w.Valid() && old(w.trace) <= w.trace
    ensures w.View() == old(w.View()).(scanners := old(w.scanners)[k := Rescheduling(t, row)],
      jobs := old(w.jobs) + {FollowUpJob(t, row.followups)})
  {
    ghost var before := w.View();
    w.jobs := w.jobs + {FollowUpJob(t, row.followups)};
    w.Record(before, Follow(k, ScanAct));
  }

  method Postpone(w: World, ghost k: nat, t: nat, row: Thread)
    requires w.Valid() && k in w.scanners && w.scanners[k] == Rescheduling(t, row) && row.campaign in w.campaigns
    requires t < |w.threads| && w.threads[t] == row
    modifies w`threads, w`trace, w`receivers, w`requester, w`replier, w`scanners, w`reactions
    ensures w.Valid() && old(w.trace) <= w.trace
    ensures w.View() == old(w.View()).(scanners := old(w.scanners) - {k},
      threads := old(w.threads)[t := row.(due := Some(NextAction(w.campaigns[row.campaign], w.now)))])
  {
    ghost var before := w.View();
    var _ := w.SetThreadStatus(t, row.status, Some(NextAction(w.campaigns[row.campaign], w.now)), false);
    w.Record(before, Follow(k, Reschedule));
  }

  // ---- the same in fields

  /** The thread was sent a request or waits for a reply, and its next follow-up is due. */
  ghost predicate Silent(t: Thread, now: Time) {
    (t.status == RequestSent || t.status == AwaitingReply) && t.due.Some? && t.due.value <= now
  }

  /** The threads a pass handles: silent ones, earlier due times first and lower ids first among equals; one it leaves
      out comes after all of a full batch. */
  ghost predicate Chosen(threads: seq<Thread>, now: Time, limit: nat, due: seq<nat>) {
    |due| <= limit && (forall i :: 0 <= i < |due| ==> due[i] < |threads| && Silent(threads[due[i]], now)) &&
    (forall i, j :: 0 <= i < j < |due| ==> Earlier(threads, due[i], due[j])) &&
    forall t: nat :: t < |threads| && Silent(threads[t], now) && t !in due ==>
      |due| == limit && forall i :: 0 <= i < |due| ==> Earlier(threads, due[i], t)
  }

  ghost predicate Earlier(threads: seq<Thread>, a: nat, b: nat) {
    a < |threads| && b < |threads| && threads[a].due.Some? && threads[b].due.Some? &&
    threads[a].due.value <= threads[b].due.value && (threads[a].due.value == threads[b].due.value ==> a < b)
  }

  /** What a pass leaves of thread `row`: out of follow-ups, a human takes over; otherwise it is scheduled one interval
      from now. */
  ghost predicate Rescheduled(campaigns: map<nat, Campaign>, row: Thread, row': Thread, now: Time) {
    if row.campaign !in campaigns then row' == row
    else
      var c := campaigns[row.campaign];
      row' == if row.followups >= c.maxFollowups then row.(status := NeedsHuman, due := None)
              else row.(due := Some(now + 86400 * c.intervalDays))
  }

  /** A pass changes exactly the chosen threads, and queues one follow-up, under the thread's counter, for each that has
      some left. */
  ghost predicate Passed(s: State, s': State, due: seq<nat>) {
    |s'.threads| == |s.threads| &&
    (forall t :: 0 <= t < |s.threads| ==>
      if t in due then Rescheduled(s.campaigns, s.threads[t], s'.threads[t], s.now)
      else s'.threads[t] == s.threads[t]) &&
    (forall j :: j in s'.jobs <==> j in s.jobs || Ordered(s, due, j)) &&
    s' == s.(threads := s'.threads, jobs := s'.jobs, scanners := s'.scanners)
  }

  ghost predicate Ordered(s: State, due: seq<nat>, j: Job) {
    j.FollowUpJob? && j.thread in due && j.thread < |s.threads| &&
    var row := s.threads[j.thread];
    row.campaign in s.campaigns && row.followups < s.campaigns[row.campaign].maxFollowups && j.index == row.followups
  }

  lemma ScannedIsPassed(s: State, s': State, due: seq<nat>)
    requires ScannedUpTo(s, s', due, |due|)
    ensures Passed(s, s', due)
  {
    assert due[..|due|] == due;
    forall j ensures IsQueued(s, due, j) <==> Ordered(s, due, j) {}
  }

  lemma BatchIsChosen(threads: seq<Thread>, now: Time, limit: nat, due: seq<nat>)
    requires IsScanBatch(threads, now, limit, due)
    ensures Chosen(threads, now, limit, due)
  {
    forall t: nat | t < |threads| ensures Silent(threads[t], now) <==> DueThread(threads[t], now) {}
  }

  /** One pass: every due thread within the batch is followed up or escalated, and nothing else changes. */
  method ScanPass(w: World, limit: nat) returns (acted: nat, ghost due: seq<nat>, ghost all: seq<nat>)
    requires w.Valid() && w.scanners == map[]
    modifies w`threads, w`jobs, w`trace, w`receivers, w`requester, w`replier, w`scanners, w`reactions
    ensures w.Valid() && old(w.trace) <= w.trace && w.scanners == map[]
    ensures IsScanList(old(w.threads), |old(w.threads)|, w.now, all) &&
      due == if |all| <= limit then all else all[..limit]
    ensures ScannedUpTo(old(w.View()), w.View(), due, |due|) && acted == |due|
    ensures Chosen(old(w.threads), w.now, limit, due) && Passed(old(w.View()), w.View(), due)
  {
    var list, every := SelectDueFollowups(w, limit);
    due, all := list, every;
    BatchIsChosen(w.threads, w.now, limit, list);
    BatchIsDue(w.threads, w.now, every, list);
    HandleAll(w, list);
    ScannedIsPassed(old(w.View()), w.View(), list);
    acted := |list|;
  }

  lemma BatchIsDue(threads: seq<Thread>, now: Time, all: seq<nat>, due: seq<nat>)
    requires IsScanList(threads, |threads|, now, all) && due <= all
    ensures ListsDue(threads, now, due)
  {
    forall i, j | 0 <= i < j < |due| ensures Sooner(threads, due[i], due[j]) { assert Sooner(threads, all[i], all[j]); }
  }

  ghost predicate ListsDue(threads: seq<Thread>, now: Time, due: seq<nat>) {
    InOrder(threads, due) && forall i :: 0 <= i < |due| ==> due[i] < |threads| && DueThread(threads[due[i]], now)
  }

  method HandleAll(w: World, list: seq<nat>)
    requires w.Valid() && w.scanners == map[] && ListsDue(w.threads, w.now, list)
    modifies w`threads, w`jobs, w`trace, w`receivers, w`requester, w`replier, w`scanners, w`reactions
    ensures w.Valid() && old(w.trace) <= w.trace && w.scanners == map[]
    ensures ScannedUpTo(old(w.View()), w.View(), list, |list|)
  {
    ghost var s := w.View();
    TakeSnapshots(w, list);
    var n := 0;
    while n < |list|
      invariant n <= |list| && w.Valid() && old(w.trace) <= w.trace
      invariant ScannedUpTo(s, w.View(), list, n) && StillHeld(s, w.scanners, list, n)
    {
      HandleNext(w, s, list, n);
      n := n + 1;
    }
    assert w.scanners.Keys == {};
  }

  method HandleNext(w: World, ghost s: State, list: seq<nat>, n: nat)
    requires w.Valid() && n < |list| && ListsDue(s.threads, s.now, list)
    requires ScannedUpTo(s, w.View(), list, n) && StillHeld(s, w.scanners, list, n)
    modifies w`threads, w`jobs, w`trace, w`receivers, w`requester, w`replier, w`scanners, w`reactions
    ensures w.Valid() && old(w.trace) <= w.trace
    ensures ScannedUpTo(s, w.View(), list, n + 1) && StillHeld(s, w.scanners, list, n + 1)
  {
    ghost var before := w.View();
    NotYet(s, list, n);
    assert w.threads[list[n]] == s.threads[list[n]] && w.now == s.now;
    ScanOne(w, n, list[n]);
    OneMore(s, before, w.View(), list, n);
    assert w.scanners == before.scanners - {n};
  }

  /** A due thread is listed once. */
  lemma NotYet(s: State, due: seq<nat>, n: nat)
    requires n < |due| && InOrder(s.threads, due)
    ensures due[n] !in due[..n]
  {
    forall k | 0 <= k < n ensures due[k] != due[n] { assert Sooner(s.threads, due[k], due[n]); }
  }

  lemma OneMore(s: State, mid: State, s': State, due: seq<nat>, n: nat)
    requires n < |due| && due[n] !in due[..n] && due[n] < |s.threads| && ScannedUpTo(s, mid, due, n)
    requires s' == mid.(scanners := s'.scanners,
      threads := mid.threads[due[n] := Scanned(mid.campaigns, mid.threads[due[n]], mid.now)],
      jobs := mid.jobs + if Queued(mid.campaigns, mid.threads[due[n]]) then
        {FollowUpJob(due[n], mid.threads[due[n]].followups)} else {})
    ensures ScannedUpTo(s, s', due, n + 1)
  {
    assert due[..n + 1] == due[..n] + [due[n]];
  }

  // ---- the human step

  /** A human sets any status; putting a thread back to pending also approves a new request to its contact. */
  method ResolveEscalation(w: World, t: nat, status: Status) returns (approval: Option<Contact>)
    requires w.Valid() && t < |w.threads|
    modifies w`threads, w`trace, w`receivers, w`requester, w`replier, w`scanners, w`reactions
    ensures w.Valid() && old(w.trace) <= w.trace
    ensures w.View() == old(w.View()).(threads := old(w.threads)[t := old(w.threads)[t].(status := status,
      due := None)])
    ensures var row := old(w.threads)[t];
      approval == if status.PendingSend? then Some(Contact(row.campaign, row.jurisdiction, row.contact, true)) else None
  {
    ghost var before := w.View();
    var _ := w.SetThreadStatus(t, status, None, true);
    w.Record(before, Env(Resolve(t, status)));
    var row := w.threads[t];
    approval := if status.PendingSend? then Some(Contact(row.campaign, row.jurisdiction, row.contact, true)) else None;
  }
}
