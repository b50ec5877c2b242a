/** The initializer lock: several servers share one timestamp in Redis. Acquiring compares it with a
    clock that the server read earlier; releasing sets it to zero whoever holds it. */
module InitLock {
  import opened Wrappers
  import GasPool

  /** Trying: read the clock, and the acquire script has yet to run. Working: between a successful
      acquisition, which set the lock to lapse at that time, and the release. */
  datatype Server = Idle | Trying(now: nat) | Working(lapse: nat)

  datatype State = State(clock: nat, lock: Option<nat>, servers: seq<Server>)

  datatype Step = Tick(clock: nat) | ReadClock(server: nat) | Acquire(server: nat) | Release(server: nat)

  const DURATION: nat := 60 * 60 * 12

  predicate Enabled(s: State, step: Step)
  {
    match step
    case Tick(clock) => clock >= s.clock
    case ReadClock(i) => i < |s.servers| && s.servers[i].Idle?
    case Acquire(i) => i < |s.servers| && s.servers[i].Trying?
    case Release(i) => i < |s.servers| && s.servers[i].Working?
  }

  function Goto(s: State, i: nat, t: Server): State
    requires i < |s.servers|
  {
    s.(servers := s.servers[i := t])
  }

  function Apply(s: State, step: Step): State
    requires Enabled(s, step)
  {
    match step
    case Tick(clock) => s.(clock := clock)
    case ReadClock(i) => Goto(s, i, Trying(s.clock))
    case Acquire(i) =>
      var lock := GasPool.AcquireLock(s.lock, s.servers[i].now, DURATION);
      if lock.None? then Goto(s, i, Idle) else Goto(s, i, Working(lock.value)).(lock := lock)
    case Release(i) => Goto(s, i, Idle).(lock := Some(0))
  }

  predicate Init(s: State)
  {
    s.lock.None? && forall i :: 0 <= i < |s.servers| ==> s.servers[i].Idle?
  }

  predicate Runs(s: State, steps: seq<Step>)
    decreases steps, 0
  {
    steps == [] || (Runs(s, steps[..|steps| - 1]) && Enabled(After(s, steps[..|steps| - 1]), steps[|steps| - 1]))
  }

  function After(s: State, steps: seq<Step>): State
    requires Runs(s, steps)
    decreases steps, 1
  {
    if steps == [] then s else Apply(After(s, steps[..|steps| - 1]), steps[|steps| - 1])
  }

  /** No one is still working once its lock has lapsed. */
  predicate Timely(s: State)
  {
    forall i :: 0 <= i < |s.servers| && s.servers[i].Working? ==> s.clock <= s.servers[i].lapse
  }

  predicate AlwaysTimely(s: State, steps: seq<Step>)
    requires Runs(s, steps)
  {
    Timely(After(s, steps)) && (steps == [] || AlwaysTimely(s, steps[..|steps| - 1]))
  }

  predicate Exclusive(s: State)
  {
    forall i, j :: 0 <= i < j < |s.servers| ==> !s.servers[i].Working? || !s.servers[j].Working?
  }

  /** The lock is that of the one server that works; no reading is ahead of the clock. */
  predicate Inv(s: State)
  {
    && Exclusive(s)
    && (forall i :: 0 <= i < |s.servers| && s.servers[i].Working? ==> s.lock == Some(s.servers[i].lapse))
    && (forall i :: 0 <= i < |s.servers| && s.servers[i].Trying? ==> s.servers[i].now <= s.clock)
  }

  /** An acquire script runs with a clock reading past the lapse of a server that still works. */
  predicate Overtakes(s: State, step: Step)
    requires Enabled(s, step)
  {
    step.Acquire? && exists i :: 0 <= i < |s.servers| && s.servers[i].Working? && s.servers[step.server].now > s.servers[i].lapse
  }

  /** Exclusion is lost by exactly these steps; every other one keeps the invariant. */
  lemma OverlapExactlyAfterLapse(s: State, step: Step)
    requires Inv(s) && Enabled(s, step)
    ensures Exclusive(Apply(s, step)) <==> !Overtakes(s, step)
    ensures !Overtakes(s, step) ==> Inv(Apply(s, step))
  {
    var next := Apply(s, step);
    if Overtakes(s, step) {
      var i :| 0 <= i < |s.servers| && s.servers[i].Working? && s.servers[step.server].now > s.servers[i].lapse;
      assert i != step.server && next.servers[i].Working? && next.servers[step.server].Working?;
    }
  }

  predicate AlwaysExclusive(s: State, steps: seq<Step>)
    requires Runs(s, steps)
  {
    Exclusive(After(s, steps)) && (steps == [] || AlwaysExclusive(s, steps[..|steps| - 1]))
  }

  predicate NeverOvertaken(s: State, steps: seq<Step>)
    requires Runs(s, steps)
  {
    steps == [] ||
    var before := steps[..|steps| - 1];
    NeverOvertaken(s, before) && !Overtakes(After(s, before), steps[|steps| - 1])
  }

  /** Timed mutual exclusion, exactly: servers never overlap in a run if and only if no acquire script in
      it runs with a reading past the lapse of a server that still works. */
  lemma {:induction false} ExclusiveExactly(s: State, steps: seq<Step>)
    requires Init(s) && Runs(s, steps)
    ensures AlwaysExclusive(s, steps) <==> NeverOvertaken(s, steps)
    ensures NeverOvertaken(s, steps) ==> Inv(After(s, steps))
  {
    if steps != [] {
      var before := steps[..|steps| - 1];
      ExclusiveExactly(s, before);
      if NeverOvertaken(s, before) { OverlapExactlyAfterLapse(After(s, before), steps[|steps| - 1]); }
    }
  }

  /** In particular, if every holder finishes before its lock lapses, no two servers initialize at the
      same time, in any run. */
  lemma {:induction false} NoOverlap(s: State, steps: seq<Step>)
    requires Init(s) && Runs(s, steps) && AlwaysTimely(s, steps)
    ensures NeverOvertaken(s, steps) && Inv(After(s, steps)) && Exclusive(After(s, steps))
  {
    if steps != [] {
      NoOverlap(s, steps[..|steps| - 1]);
      ExclusiveExactly(s, steps);
      OverlapExactlyAfterLapse(After(s, steps[..|steps| - 1]), steps[|steps| - 1]);
    }
  }

  // ---------- The promise: nobody acquires until the lock lapses ----------

  /** The lock lasts as long as that of every server that works. */
  predicate Covered(s: State)
  {
    forall i :: 0 <= i < |s.servers| && s.servers[i].Working? ==> 0 < s.servers[i].lapse && s.lock.Some? && s.servers[i].lapse <= s.lock.value
  }

  /** A server releases while another one works. */
  predicate ReleasesAnothers(s: State, step: Step)
    requires Enabled(s, step)
  {
    step.Release? && exists i :: 0 <= i < |s.servers| && i != step.server && s.servers[i].Working?
  }

  /** An acquisition keeps the promise when it comes after the lapse of every server that works. */
  predicate KeepsPromise(s: State, step: Step)
    requires Enabled(s, step)
  {
    step.Acquire? && Apply(s, step).servers[step.server].Working? ==>
      forall i :: 0 <= i < |s.servers| && s.servers[i].Working? ==> s.servers[i].lapse < s.servers[step.server].now
  }

  lemma CoveredExactly(s: State, step: Step)
    requires Covered(s) && Enabled(s, step)
    ensures Covered(Apply(s, step)) <==> !ReleasesAnothers(s, step)
    ensures KeepsPromise(s, step)
  {
    var next := Apply(s, step);
    if ReleasesAnothers(s, step) {
      var i :| 0 <= i < |s.servers| && i != step.server && s.servers[i].Working?;
      assert next.servers[i].Working? && next.lock == Some(0);
    }
  }

  predicate AlwaysCovered(s: State, steps: seq<Step>)
    requires Runs(s, steps)
  {
    Covered(After(s, steps)) && (steps == [] || AlwaysCovered(s, steps[..|steps| - 1]))
  }

  predicate NoOtherReleases(s: State, steps: seq<Step>)
    requires Runs(s, steps)
  {
    steps == [] ||
    var before := steps[..|steps| - 1];
    NoOtherReleases(s, before) && !ReleasesAnothers(After(s, before), steps[|steps| - 1])
  }

  predicate AlwaysKept(s: State, steps: seq<Step>)
    requires Runs(s, steps)
  {
    steps == [] ||
    var before := steps[..|steps| - 1];
    AlwaysKept(s, before) && KeepsPromise(After(s, before), steps[|steps| - 1])
  }

  /** The lock covers every working server throughout a run if and only if nobody in it releases while
      another one works; and in such a run every acquisition keeps the promise. */
  lemma {:induction false} PromiseHoldsWithoutOtherReleases(s: State, steps: seq<Step>)
    requires Init(s) && Runs(s, steps)
    ensures AlwaysCovered(s, steps) <==> NoOtherReleases(s, steps)
    ensures NoOtherReleases(s, steps) ==> AlwaysKept(s, steps)
  {
    if steps != [] {
      var before := steps[..|steps| - 1];
      PromiseHoldsWithoutOtherReleases(s, before);
      if NoOtherReleases(s, before) { CoveredExactly(After(s, before), steps[|steps| - 1]); }
    }
  }

  /** In any state at all, a server gets in exactly when its reading is past the lock; so an acquisition
      breaks the promise exactly when the lock is older than the reading and a working server's lapse is not. */
  lemma PromiseBreaksExactly(s: State, j: nat)
    requires Enabled(s, Acquire(j))
    ensures !KeepsPromise(s, Acquire(j)) <==>
            && (s.lock.None? || s.lock.value < s.servers[j].now)
            && exists i :: 0 <= i < |s.servers| && s.servers[i].Working? && s.servers[j].now <= s.servers[i].lapse
  {
  }

  ghost predicate Reaches(s: State, t: State)
  {
    exists steps {:trigger After(s, steps)} :: Runs(s, steps) && After(s, steps) == t
  }

  lemma ReachesStart(s: State)
    ensures Reaches(s, s)
  {
    assert After(s, []) == s;
  }

  lemma ReachesNext(s: State, t: State, step: Step)
    requires Reaches(s, t) && Enabled(t, step)
    ensures Reaches(s, Apply(t, step))
  {
    var steps :| Runs(s, steps) && After(s, steps) == t;
    assert (steps + [step])[..|steps|] == steps;
    assert After(s, steps + [step]) == Apply(t, step);
  }

  /** Release does not check whose lock it is. A holder that overstays frees the lock of the one that
      came after it; the next acquisition breaks the promise, and two servers overlap that are both
      within their own time. */
  lemma LateReleaseFreesAnothersLock() returns (s: State, u: State, t: State)
    ensures Init(s) && Reaches(s, u) && Reaches(s, t) && !Exclusive(t) && Timely(t)
    ensures Enabled(u, Acquire(2)) && t == Apply(u, Acquire(2)) && !KeepsPromise(u, Acquire(2))
  {
    s := State(1, None, [Idle, Idle, Idle]);
    ReachesStart(s);
    u := Overstay(s);
    u, t := AcquireNext(s, u, 1);
    ReachesNext(s, t, Release(0));
    t := Apply(t, Release(0));
    u, t := AcquireNext(s, t, 2);
    assert u.servers[1].Working? && t.servers[1].Working? && t.servers[2].Working?;
  }

  /** Server 0 acquires at time 1 and is still working a second after its lock lapsed. */
  lemma Overstay(s: State) returns (t: State)
    requires s == State(1, None, [Idle, Idle, Idle])
    ensures Reaches(s, t) && t == State(2 + DURATION, Some(1 + DURATION), [Working(1 + DURATION), Idle, Idle])
  {
    ReachesStart(s);
    var read;
    read, t := AcquireNext(s, s, 0);
    ReachesNext(s, t, Tick(2 + DURATION));
    t := Apply(t, Tick(2 + DURATION));
  }

  /** An idle server reads the clock and acquires, when the lock is free or has lapsed. */
  lemma AcquireNext(s: State, t: State, i: nat) returns (read: State, u: State)
    requires Reaches(s, t) && i < |t.servers| && t.servers[i].Idle? && (t.lock.None? || t.lock.value < t.clock)
    ensures Reaches(s, read) && read == Goto(t, i, Trying(t.clock)) && Reaches(s, u) && u == Apply(read, Acquire(i))
    ensures u == State(t.clock, Some(t.clock + DURATION), t.servers[i := Working(t.clock + DURATION)])
  {
    ReachesNext(s, t, ReadClock(i));
    read := Apply(t, ReadClock(i));
    ReachesNext(s, read, Acquire(i));
    u := Apply(read, Acquire(i));
  }
}
