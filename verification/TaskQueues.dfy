/** The message queue: visibility, redelivery and dead-lettering against the clock. */
module TaskQueues {
  import opened Options

  type Time = int

  /** A message's id is its position in the order of sending. */
  datatype Message<T> = Message(body: T, receives: nat, until: Option<Time>, deleted: bool)

  /** `log` and `changed` are bookkeeping: every delivery, and the messages whose visibility was ever changed. */
  datatype Queue<T> = Queue(messages: seq<Message<T>>, dlq: seq<nat>, log: seq<Delivery>, changed: set<nat>)

  datatype Delivery = Delivery(id: nat, at: Time)

  datatype Settings = Settings(visibility: nat, limit: nat)

  predicate Hidden<T>(m: Message<T>, now: Time) { m.until.Some? && m.until.value > now }

  /** What one receive call does at message `i`: skip it, deliver it, or dead-letter it. */
  function Visit<T>(q: Queue<T>, i: nat, now: Time, s: Settings): (Queue<T>, bool)
    requires i < |q.messages|
  {
    var m := q.messages[i];
    if m.deleted || Hidden(m, now) then (q, false)
    else if m.receives >= s.limit then (q.(messages := q.messages[i := m.(deleted := true)], dlq := q.dlq + [i]), false)
    else
      (q.(messages := q.messages[i := m.(receives := m.receives + 1, until := Some(now + s.visibility))],
          log := q.log + [Delivery(i, now)]), true)
  }

  /** The first `n` messages visited, until `max` are out. */
  function ReceiveFirst<T>(q: Queue<T>, n: nat, max: nat, now: Time, s: Settings): (r: (Queue<T>, seq<nat>))
    requires n <= |q.messages|
    ensures |r.0.messages| == |q.messages| && |r.1| <= max
  {
    if n == 0 then (q, [])
    else
      var (p, out) := ReceiveFirst(q, n - 1, max, now, s);
      if |out| >= max then (p, out)
      else
        var (p', delivered) := Visit(p, n - 1, now, s);
        (p', if delivered then out + [n - 1] else out)
  }

  function Send<T>(q: Queue<T>, body: T): Queue<T> {
    q.(messages := q.messages + [Message(body, 0, None, false)])
  }

  function Delete<T>(q: Queue<T>, id: nat): Queue<T> {
    if id < |q.messages| then q.(messages := q.messages[id := q.messages[id].(deleted := true)]) else q
  }

  function ChangeVisibility<T>(q: Queue<T>, id: nat, now: Time, timeout: nat): Queue<T> {
    if id < |q.messages| && !q.messages[id].deleted then
      q.(messages := q.messages[id := q.messages[id].(until := Some(now + timeout))], changed := q.changed + {id})
    else q
  }

  // ---- the same message by message

  /** What a receive call makes of a message it comes to, and whether it hands it out. A deleted or hidden one is
      skipped, one delivered as often as allowed is dead-lettered, any other is delivered and hidden for a while. */
  ghost predicate MessageVisited<T>(m: Message<T>, m': Message<T>, out: bool, dead: bool, now: Time, s: Settings) {
    if m.deleted || (m.until.Some? && m.until.value > now) then m' == m && !out && !dead
    else if m.receives >= s.limit then m' == m.(deleted := true) && !out && dead
    else m' == m.(receives := m.receives + 1, until := Some(now + s.visibility)) && out && !dead
  }

  ghost predicate Increasing(ids: seq<nat>) { forall i, j :: 0 <= i < j < |ids| ==> ids[i] < ids[j] }

  /** The first `v` messages were visited in order, the others not. */
  ghost predicate Visited<T>(q: Queue<T>, q': Queue<T>, out: seq<nat>, dead: seq<nat>, v: nat, now: Time, s: Settings) {
    v <= |q.messages| == |q'.messages| && Increasing(out) && Increasing(dead) && q'.dlq == q.dlq + dead &&
    (forall i :: i in out || i in dead ==> i < v) &&
    (forall i :: 0 <= i < v ==> MessageVisited(q.messages[i], q'.messages[i], i in out, i in dead, now, s)) &&
    forall i :: v <= i < |q.messages| ==> q'.messages[i] == q.messages[i]
  }

  /** A receive call visits messages in order until `max` are out or none is left. */
  ghost predicate Received<T>(q: Queue<T>, q': Queue<T>, out: seq<nat>, max: nat, now: Time, s: Settings) {
    |out| <= max &&
    exists v: nat, dead: seq<nat> :: Visited(q, q', out, dead, v, now, s) && (v < |q.messages| ==> |out| == max) &&
      (|out| == max && v > 0 ==> v - 1 in out)
  }

  lemma VisitOne<T>(q: Queue<T>, p: Queue<T>, out: seq<nat>, dead: seq<nat>, n: nat, now: Time, s: Settings)
      returns (out': seq<nat>, dead': seq<nat>)
    requires n < |q.messages| && Visited(q, p, out, dead, n, now, s)
    ensures var (p', delivered) := Visit(p, n, now, s);
      out' == (if delivered then out + [n] else out) && Visited(q, p', out', dead', n + 1, now, s)
  {
    var (p', delivered) := Visit(p, n, now, s);
    var m := p.messages[n];
    var buried := !m.deleted && !Hidden(m, now) && m.receives >= s.limit;
    assert m == q.messages[n];
    out', dead' := if delivered then out + [n] else out, if buried then dead + [n] else dead;
    assert p'.dlq == q.dlq + dead' by {
      assert q.dlq + dead + [n] == q.dlq + (dead + [n]);
    }
    OneMoreId(out, out', n);
    OneMoreId(dead, dead', n);
    forall i | 0 <= i < n ensures MessageVisited(q.messages[i], p'.messages[i], i in out', i in dead', now, s) {
      assert MessageVisited(q.messages[i], p.messages[i], i in out, i in dead, now, s);
      assert p'.messages[i] == p.messages[i];
    }
    assert MessageVisited(q.messages[n], p'.messages[n], n in out', n in dead', now, s);
  }

  lemma OneMoreId(ids: seq<nat>, ids': seq<nat>, n: nat)
    requires Increasing(ids) && (forall i :: i in ids ==> i < n) && (ids' == ids || ids' == ids + [n])
    ensures Increasing(ids') && n !in ids && (forall i :: i in ids' ==> i < n + 1)
    ensures forall i :: i in ids' <==> i in ids || (i == n && ids' != ids)
  {
    forall i, j | 0 <= i < j < |ids'| ensures ids'[i] < ids'[j] {
      if j == |ids| { assert ids[i] in ids; }
    }
  }

  lemma {:induction false} ReceiveVisits<T>(q: Queue<T>, n: nat, max: nat, now: Time, s: Settings)
      returns (v: nat, dead: seq<nat>)
    requires n <= |q.messages|
    ensures var (p, out) := ReceiveFirst(q, n, max, now, s);
      v <= n && Visited(q, p, out, dead, v, now, s) && (v < n ==> |out| == max) &&
      (|out| == max && v > 0 ==> v - 1 in out)
  {
    if n == 0 {
      v, dead := 0, [];
      assert q.dlq + [] == q.dlq;
    } else {
      v, dead := ReceiveVisits(q, n - 1, max, now, s);
      var (p, out) := ReceiveFirst(q, n - 1, max, now, s);
      if |out| < max {
        var out';
        out', dead := VisitOne(q, p, out, dead, n - 1, now, s);
        v := n;
      }
    }
  }

  class TaskQueue<T> {
    const settings: Settings
    var messages: seq<Message<T>>
    var dlq: seq<nat>
    ghost var log: seq<Delivery>
    ghost var changed: set<nat>

    ghost function View(): Queue<T>
      reads this
    {
      Queue(messages, dlq, log, changed)
    }

    constructor (settings: Settings)
      ensures this.settings == settings && View() == Queue([], [], [], {})
    {
      this.settings, messages, dlq := settings, [], [];
      log, changed := [], {};
    }

    method Add(body: T)
      modifies this
      ensures View() == Send(old(View()), body)
      ensures messages == old(messages) + [Message(body, 0, None, false)] && dlq == old(dlq)
    {
      messages := messages + [Message(body, 0, None, false)];
    }

    method Receive(max: nat, now: Time) returns (out: seq<nat>)
      modifies this
      ensures (View(), out) == ReceiveFirst(old(View()), |old(messages)|, max, now, settings)
      ensures Received(old(View()), View(), out, max, now, settings)
    {
      ghost var v, dead := ReceiveVisits(View(), |messages|, max, now, settings);
      ghost var q := View();
      out := [];
      var i := 0;
      while i < |messages| && |out| < max
        invariant i <= |messages| == |q.messages| && (View(), out) == ReceiveFirst(q, i, max, now, settings)
      {
        var m := messages[i];
        if !m.deleted && !Hidden(m, now) {
          if m.receives >= settings.limit {
            messages := messages[i := m.(deleted := true)];
            dlq := dlq + [i];
          } else {
            messages := messages[i := m.(receives := m.receives + 1, until := Some(now + settings.visibility))];
            log := log + [Delivery(i, now)];
            out := out + [i];
          }
        }
        i := i + 1;
      }
      if i < |messages| { FullStays(q, i, |messages|, max, now, settings); }
    }

    method Remove(id: nat)
      modifies this
      ensures View() == Delete(old(View()), id) && dlq == old(dlq)
      ensures messages ==
        if id < |old(messages)| then old(messages)[id := old(messages)[id].(deleted := true)] else old(messages)
    {
      if id < |messages| { messages := messages[id := messages[id].(deleted := true)]; }
    }

    method Extend(id: nat, now: Time, timeout: nat)
      modifies this
      ensures View() == ChangeVisibility(old(View()), id, now, timeout) && dlq == old(dlq)
      ensures messages == if id < |old(messages)| && !old(messages)[id].deleted
        then old(messages)[id := old(messages)[id].(until := Some(now + timeout))] else old(messages)
    {
      if id < |messages| && !messages[id].deleted {
        messages := messages[id := messages[id].(until := Some(now + timeout))];
        changed := changed + {id};
      }
    }
  }

  lemma {:induction false} FullStays<T>(q: Queue<T>, i: nat, n: nat, max: nat, now: Time, s: Settings)
    requires i <= n <= |q.messages| && |ReceiveFirst(q, i, max, now, s).1| >= max
    ensures ReceiveFirst(q, n, max, now, s) == ReceiveFirst(q, i, max, now, s)
    decreases n - i
  {
    if i < n { FullStays(q, i, n - 1, max, now, s); }
  }

  // ---- whole runs

  datatype Step<T> = Tick(dt: nat) | DoSend(body: T) | DoReceive(max: nat) | DoDelete(id: nat) | DoChange(id: nat,
    timeout: nat)

  datatype State<T> = State(queue: Queue<T>, now: Time)

  function Apply<T>(st: State<T>, step: Step<T>, s: Settings): State<T> {
    match step
    case Tick(dt) => st.(now := st.now + dt)
    case DoSend(body) => st.(queue := Send(st.queue, body))
    case DoReceive(max) => st.(queue := ReceiveFirst(st.queue, |st.queue.messages|, max, st.now, s).0)
    case DoDelete(id) => st.(queue := Delete(st.queue, id))
    case DoChange(id, timeout) => st.(queue := ChangeVisibility(st.queue, id, st.now, timeout))
  }

  function Run<T>(st: State<T>, steps: seq<Step<T>>, s: Settings): State<T>
    decreases |steps|
  {
    if steps == [] then st else Run(Apply(st, steps[0], s), steps[1..], s)
  }

  function Deliveries(log: seq<Delivery>, id: nat): nat {
    if log == [] then 0 else Deliveries(log[..|log| - 1], id) + if log[|log| - 1].id == id then 1 else 0
  }

  /** A message was delivered as often as it says, at most up to the limit; only then is it dead-lettered, once. */
  ghost predicate Counted<T>(q: Queue<T>, s: Settings, i: nat)
    requires i < |q.messages|
  {
    var m := q.messages[i];
    Deliveries(q.log, i) == m.receives && m.receives <= s.limit &&
    (i in q.dlq ==> m.deleted && m.receives == s.limit) && multiset(q.dlq)[i] <= 1
  }

  /** Deliveries of an untouched message are a visibility timeout apart, and it hides for one after each. */
  ghost predicate Spaced<T>(q: Queue<T>, now: Time, s: Settings) {
    (forall a :: 0 <= a < |q.log| ==> q.log[a].id < |q.messages| && q.log[a].at <= now) &&
    (forall a :: 0 <= a < |q.log| && q.log[a].id !in q.changed ==>
      q.messages[q.log[a].id].until.Some? && q.messages[q.log[a].id].until.value >= q.log[a].at + s.visibility) &&
    forall a, b :: 0 <= a < b < |q.log| && q.log[a].id == q.log[b].id && q.log[a].id !in q.changed ==>
      q.log[b].at >= q.log[a].at + s.visibility
  }

  ghost predicate Inv<T>(q: Queue<T>, now: Time, s: Settings) {
    (forall i :: 0 <= i < |q.messages| ==> Counted(q, s, i)) && Spaced(q, now, s) &&
      forall i :: i in q.dlq ==> i < |q.messages|
  }

  lemma OneMoreDelivery(log: seq<Delivery>, d: Delivery, id: nat)
    ensures Deliveries(log + [d], id) == Deliveries(log, id) + if d.id == id then 1 else 0
  {
    assert (log + [d])[..|log|] == log;
  }

  lemma VisitKeepsInv<T>(q: Queue<T>, i: nat, now: Time, s: Settings)
    requires Inv(q, now, s) && i < |q.messages|
    ensures Inv(Visit(q, i, now, s).0, now, s)
  {
    var q' := Visit(q, i, now, s).0;
    forall k | 0 <= k < |q'.messages| ensures Counted(q', s, k) {
      assert Counted(q, s, k);
      OneMoreDelivery(q.log, Delivery(i, now), k);
    }
  }

  lemma {:induction false} ReceiveKeepsInv<T>(q: Queue<T>, n: nat, max: nat, now: Time, s: Settings)
    requires Inv(q, now, s) && n <= |q.messages|
    ensures Inv(ReceiveFirst(q, n, max, now, s).0, now, s)
  {
    if n > 0 {
      var (p, out) := ReceiveFirst(q, n - 1, max, now, s);
      ReceiveKeepsInv(q, n - 1, max, now, s);
      if |out| < max { VisitKeepsInv(p, n - 1, now, s); }
    }
  }

  lemma {:induction false} NeverSent(log: seq<Delivery>, id: nat)
    requires forall a :: 0 <= a < |log| ==> log[a].id < id
    ensures Deliveries(log, id) == 0
    decreases |log|
  {
    if log != [] { NeverSent(log[..|log| - 1], id); }
  }

  lemma StepKeepsInv<T>(st: State<T>, step: Step<T>, s: Settings)
    requires Inv(st.queue, st.now, s)
    ensures Inv(Apply(st, step, s).queue, Apply(st, step, s).now, s)
  {
    var q, q' := st.queue, Apply(st, step, s).queue;
    if step.DoReceive? {
      ReceiveKeepsInv(q, |q.messages|, step.max, st.now, s);
    } else {
      forall k | 0 <= k < |q'.messages| ensures Counted(q', s, k) {
        if k < |q.messages| { assert Counted(q, s, k); } else { NeverSent(q.log, k); }
      }
    }
  }

  lemma {:induction false} RunKeepsInv<T>(st: State<T>, steps: seq<Step<T>>, s: Settings)
    requires Inv(st.queue, st.now, s)
    ensures Inv(Run(st, steps, s).queue, Run(st, steps, s).now, s)
    decreases |steps|
  {
    if steps != [] {
      StepKeepsInv(st, steps[0], s);
      RunKeepsInv(Apply(st, steps[0], s), steps[1..], s);
    }
  }

  /** In every run, a message is delivered at most `limit` times and dead-lettered at most once, exactly after
      `limit` deliveries; deliveries whose visibility nobody changed are a visibility timeout apart. */
  lemma DeliveriesAreBounded<T>(st: State<T>, steps: seq<Step<T>>, s: Settings, i: nat)
    requires st.queue == Queue([], [], [], {}) && i < |Run(st, steps, s).queue.messages|
    ensures var q := Run(st, steps, s).queue;
      Deliveries(q.log, i) <= s.limit && multiset(q.dlq)[i] <= 1 && (i in q.dlq ==> Deliveries(q.log, i) == s.limit) &&
      forall a, b :: 0 <= a < b < |q.log| && q.log[a].id == q.log[b].id == i && i !in q.changed ==>
        q.log[b].at >= q.log[a].at + s.visibility
  {
    RunKeepsInv(st, steps, s);
    assert Counted(Run(st, steps, s).queue, s, i);
  }

  /** A message leaves the queue for good: once deleted or dead-lettered it is never delivered again. */
  lemma {:induction false} DeletedStaysDeleted<T>(st: State<T>, steps: seq<Step<T>>, s: Settings, i: nat)
    requires i < |st.queue.messages| && st.queue.messages[i].deleted
    ensures var q := Run(st, steps, s).queue;
      i < |q.messages| && q.messages[i] == st.queue.messages[i] && Deliveries(q.log, i) == Deliveries(st.queue.log, i)
    decreases |steps|
  {
    if steps != [] {
      if steps[0].DoReceive? { ReceiveSkips(st.queue, |st.queue.messages|, steps[0].max, st.now, s, i); }
      DeletedStaysDeleted(Apply(st, steps[0], s), steps[1..], s, i);
    }
  }

  lemma {:induction false} ReceiveSkips<T>(q: Queue<T>, n: nat, max: nat, now: Time, s: Settings, i: nat)
    requires n <= |q.messages| && i < |q.messages| && q.messages[i].deleted
    ensures var p := ReceiveFirst(q, n, max, now, s).0;
      p.messages[i] == q.messages[i] && Deliveries(p.log, i) == Deliveries(q.log, i)
  {
    if n > 0 {
      ReceiveSkips(q, n - 1, max, now, s, i);
      OneMoreDelivery(ReceiveFirst(q, n - 1, max, now, s).0.log, Delivery(n - 1, now), i);
    }
  }
}
