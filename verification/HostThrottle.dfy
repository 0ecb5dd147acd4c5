/** The per-host throttle of the fetch workers. */
module HostThrottle {
  import opened Options

  /** What one look at the clock under the lock decides: grant now, or sleep until the host is allowed. */
  function Try(nextAllowed: map<string, int>, host: string, now: int, spacing: nat): Option<map<string, int>> {
    if host in nextAllowed && nextAllowed[host] > now then None
    else Some(nextAllowed[host := now + spacing])
  }

  // ---- any number of threads

  datatype Grant = Grant(host: string, at: int)

  /** `grants` records every grant in order. */
  datatype State = State(spacing: nat, now: int, nextAllowed: map<string, int>, grants: seq<Grant>)

  /** Time passes, or some thread looks under the lock and is granted or goes to sleep. */
  datatype Step = Tick(dt: nat) | Look(host: string)

  function Apply(s: State, step: Step): State {
    match step
    case Tick(dt) => s.(now := s.now + dt)
    case Look(host) =>
      match Try(s.nextAllowed, host, s.now, s.spacing)
      case None => s
      case Some(next) => s.(nextAllowed := next, grants := s.grants + [Grant(host, s.now)])
  }

  function Run(s: State, steps: seq<Step>): State
    decreases |steps|
  {
    if steps == [] then s else Run(Apply(s, steps[0]), steps[1..])
  }

  lemma {:induction false} RunStep(s: State, steps: seq<Step>, step: Step)
    ensures Run(s, steps + [step]) == Apply(Run(s, steps), step)
    decreases |steps|
  {
    if steps == [] {
      assert [step][1..] == [];
    } else {
      RunStep(Apply(s, steps[0]), steps[1..], step);
      assert (steps + [step])[1..] == steps[1..] + [step];
    }
  }

  ghost predicate Init(s: State) { s.nextAllowed == map[] && s.grants == [] }

  ghost predicate Inv(s: State) {
    (forall i :: 0 <= i < |s.grants| ==>
      s.grants[i].at <= s.now && s.grants[i].host in s.nextAllowed &&
      s.nextAllowed[s.grants[i].host] >= s.grants[i].at + s.spacing) &&
    (forall i, j :: 0 <= i < j < |s.grants| && s.grants[i].host == s.grants[j].host ==>
      s.grants[j].at >= s.grants[i].at + s.spacing)
  }

  lemma {:induction false} RunKeepsInv(s: State, steps: seq<Step>)
    requires Inv(s)
    ensures Inv(Run(s, steps)) && Run(s, steps).spacing == s.spacing
    decreases |steps|
  {
    if steps != [] { RunKeepsInv(Apply(s, steps[0]), steps[1..]); }
  }

  /** Whatever threads interleave, two grants to one host are at least the spacing apart. */
  lemma GrantsAreSpaced(s: State, steps: seq<Step>, i: nat, j: nat)
    requires Init(s) && i < j < |Run(s, steps).grants|
    requires Run(s, steps).grants[i].host == Run(s, steps).grants[j].host
    ensures Run(s, steps).grants[j].at >= Run(s, steps).grants[i].at + s.spacing
  {
    RunKeepsInv(s, steps);
  }

  predicate InWindow(g: Grant, host: string, from: int, w: nat) {
    g.host == host && from <= g.at <= from + w
  }

  /** The number of grants to the host in the window. */
  function GrantsIn(grants: seq<Grant>, host: string, from: int, w: nat): nat {
    if grants == [] then 0
    else GrantsIn(grants[..|grants| - 1], host, from, w) + if InWindow(grants[|grants| - 1], host, from, w) then
      1 else 0
  }

  ghost predicate Spaced(grants: seq<Grant>, host: string, spacing: nat) {
    forall i, j :: 0 <= i < j < |grants| && grants[i].host == host && grants[j].host == host ==>
      grants[j].at >= grants[i].at + spacing
  }

  /** `n + 1` grants in the window put the last of them `n` spacings past its start. */
  lemma {:induction false} LastInWindow(grants: seq<Grant>, host: string, from: int, w: nat, spacing: nat)
      returns (last: int)
    requires Spaced(grants, host, spacing) && GrantsIn(grants, host, from, w) > 0
    ensures 0 <= last < |grants| && InWindow(grants[last], host, from, w)
    ensures grants[last].at >= from + (GrantsIn(grants, host, from, w) - 1) * spacing
  {
    var n := |grants| - 1;
    var before := GrantsIn(grants[..n], host, from, w);
    if InWindow(grants[n], host, from, w) {
      last := n;
      if before > 0 {
        var p := LastInWindow(grants[..n], host, from, w, spacing);
        assert grants[n].at >= grants[p].at + spacing;
        assert (before - 1) * spacing + spacing == before * spacing;
      }
    } else {
      last := LastInWindow(grants[..n], host, from, w, spacing);
    }
  }

  /** Any window of length `w` holds at most `w / spacing + 1` grants to one host. */
  lemma WindowBound(s: State, steps: seq<Step>, host: string, from: int, w: nat)
    requires Init(s) && s.spacing > 0
    ensures GrantsIn(Run(s, steps).grants, host, from, w) <= w / s.spacing + 1
  {
    RunKeepsInv(s, steps);
    SpacedBound(Run(s, steps).grants, host, from, w, s.spacing);
  }

  lemma SpacedBound(grants: seq<Grant>, host: string, from: int, w: nat, spacing: nat)
    requires Spaced(grants, host, spacing) && spacing > 0
    ensures GrantsIn(grants, host, from, w) <= w / spacing + 1
  {
    var n := GrantsIn(grants, host, from, w);
    if n > 0 {
      var last := LastInWindow(grants, host, from, w, spacing);
      Quotient(n - 1, spacing, w);
    }
  }

  lemma Positive(x: int, d: nat)
    requires x * d > 0
    ensures x > 0
  {
  }

  lemma Quotient(n: nat, d: nat, w: nat)
    requires d > 0 && n * d <= w
    ensures n <= w / d
  {
    var q := w / d;
    assert w == q * d + w % d;
    assert (q + 1 - n) * d == q * d + d - n * d;
    Positive(q + 1 - n, d);
  }

  // ---- a lone caller

  /** A clock whose sleep lasts at least as long as asked. */
  class Clock {
    var now: int

    method Sleep(d: nat, extra: nat)
      modifies this
      ensures now == old(now) + d + extra
    {
      now := now + d + extra;
    }
  }

  class Throttle {
    const spacing: nat
    var nextAllowed: map<string, int>

    constructor (spacing: nat)
      ensures this.spacing == spacing && nextAllowed == map[]
    {
      this.spacing := spacing;
      nextAllowed := map[];
    }

    /** Sleeps until the host is allowed and takes the grant; `late` is how far the sleep overshoots. Whatever was
        granted before, each pass of the loop is a look under the lock, and a sleep is a tick. */
    method Wait(clock: Clock, host: string, late: nat, ghost grants: seq<Grant>)
        returns (at: int, ghost steps: seq<Step>)
      modifies this, clock
      ensures at == clock.now >= old(clock.now)
      ensures host in old(nextAllowed) ==> at >= old(nextAllowed[host])
      ensures at == old(clock.now) || (host in old(nextAllowed) && at == old(nextAllowed[host]) + late)
      ensures nextAllowed == old(nextAllowed)[host := at + spacing]
      ensures Run(State(spacing, old(clock.now), old(nextAllowed), grants), steps) ==
        State(spacing, clock.now, nextAllowed, grants + [Grant(host, at)])
    {
      steps := [];
      ghost var before := State(spacing, clock.now, nextAllowed, grants);
      while true
        invariant nextAllowed == old(nextAllowed)
        invariant clock.now >= old(clock.now)
        invariant clock.now == old(clock.now) ||
          (host in nextAllowed && clock.now == nextAllowed[host] + late)
        invariant Run(before, steps) == before.(now := clock.now)
        decreases if host in nextAllowed && nextAllowed[host] > clock.now then nextAllowed[host] - clock.now else 0
      {
        at := clock.now;
        RunStep(before, steps, Look(host));
        steps := steps + [Look(host)];
        if host !in nextAllowed || nextAllowed[host] <= at {
          nextAllowed := nextAllowed[host := at + spacing];
          return;
        }
        ghost var d := nextAllowed[host] - at + late;
        RunStep(before, steps, Tick(d));
        steps := steps + [Tick(d)];
        clock.Sleep(nextAllowed[host] - at, late);
      }
    }
  }
}
