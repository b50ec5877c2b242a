/** The initializer's use of the lock, as code over the store. Every method is proved to take steps of
    InitLock, with anything the other servers and the clock may do in between. */
module InitServer {
  import opened Wrappers
  import opened InitLock
  import GasPool
  import Redis
  import Scripts
  import Text

  /** The state is where the trace leads. */
  ghost predicate Led(origin: State, trace: seq<Step>, state: State)
  {
    Init(origin) && Runs(origin, trace) && After(origin, trace) == state
  }

  lemma LedNext(origin: State, trace: seq<Step>, state: State, step: Step)
    requires Led(origin, trace, state) && Enabled(state, step)
    ensures Led(origin, trace + [step], Apply(state, step))
  {
    assert (trace + [step])[..|trace|] == trace;
  }

  class GasPoolInitializer {
    const store: Redis.Server
    const sponsor: Redis.Sponsor
    var clock: nat

    ghost var pool: GasPool.Pool
    ghost const origin: State
    ghost var state: State
    ghost var trace: seq<Step>

    ghost predicate Valid()
      reads this, store
    {
      && store.Valid() && Text.ColonFree(sponsor) && Redis.Represents(store.cells, sponsor, pool)
      && pool.initLock == state.lock && clock == state.clock && Led(origin, trace, state)
    }

    predicate Is(i: nat, s: Server, state: State) { i < |state.servers| && state.servers[i] == s }

    constructor (store: Redis.Server, sponsor: Redis.Sponsor, clock: nat, ghost pool: GasPool.Pool,
                 ghost origin: State, ghost trace: seq<Step>, ghost state: State)
      requires store.Valid() && Text.ColonFree(sponsor) && Redis.Represents(store.cells, sponsor, pool)
      requires pool.initLock == state.lock && clock == state.clock && Led(origin, trace, state)
      ensures Valid() && this.store == store && this.sponsor == sponsor && this.state == state && this.trace == trace
    {
      this.store, this.sponsor, this.clock, this.pool := store, sponsor, clock, pool;
      this.origin, this.trace, this.state := origin, trace, state;
    }

    ghost method Advance(step: Step)
      requires Led(origin, trace, state) && Enabled(state, step)
      modifies this`state, this`trace
      ensures Led(origin, trace, state) && state == Apply(old(state), step) && trace == old(trace) + [step]
    {
      ghost var next, longer := Apply(state, step), trace + [step];
      LedNext(origin, trace, state, step);
      state, trace := next, longer;
    }

    /** Any steps of the other servers, and of time; the pool is used meanwhile. */
    method Others(i: nat)
      requires Valid() && i < |state.servers|
      modifies this, store
      ensures Valid() && old(trace) <= trace && Is(i, old(state.servers[i]), state)
    {
    }

    method ReadNow(i: nat) returns (now: nat)
      requires Valid() && Is(i, Idle, state)
      modifies this
      ensures Valid() && trace == old(trace) + [ReadClock(i)] && Is(i, Trying(now), state) && now == old(state.clock)
    {
      now := clock;
      Advance(ReadClock(i));
    }

    method AcquireInitLock(i: nat) returns (acquired: bool)
      requires Valid() && Is(i, Idle, state)
      modifies this, store
      ensures Valid() && old(trace) + [ReadClock(i)] <= trace && i < |state.servers| && trace[|trace| - 1] == Acquire(i)
      ensures if acquired then state.servers[i].Working? else Is(i, Idle, state)
    {
      var now := ReadNow(i);
      Others(i);
      acquired := RunAcquire(i, now);
    }

    method RunAcquire(i: nat, now: nat) returns (acquired: bool)
      requires Valid() && Is(i, Trying(now), state)
      modifies this, store
      ensures Valid() && trace == old(trace) + [Acquire(i)] && i < |state.servers|
      ensures acquired <==> old(state).lock.None? || old(state).lock.value < now
      ensures state.servers[i] == if acquired then Working(now + 60 * 60 * 12) else Idle
    {
      acquired := Scripts.AcquireInitLock(store, sponsor, now, DURATION, pool);
      if acquired { pool := pool.(initLock := Some(now + DURATION)); }
      Advance(Acquire(i));
    }

    method ReleaseInitLock(i: nat)
      requires Valid() && i < |state.servers| && state.servers[i].Working?
      modifies this, store
      ensures Valid() && trace == old(trace) + [Release(i)] && Is(i, Idle, state) && state.lock == Some(0)
    {
      Scripts.ReleaseInitLock(store, sponsor, pool);
      pool := pool.(initLock := Some(0));
      Advance(Release(i));
    }

    /** A round: it does nothing when another server holds the lock, and otherwise gives it back after the
        initialization, during which time passes and anything else may happen. */
    method RunOnce(i: nat) returns (ran: bool)
      requires Valid() && Is(i, Idle, state)
      modifies this, store
      ensures Valid() && old(trace) + [ReadClock(i)] <= trace && Is(i, Idle, state)
      ensures trace[|trace| - 1] == if ran then Release(i) else Acquire(i)
    {
      ran := AcquireInitLock(i);
      if ran {
        Others(i);
        ReleaseInitLock(i);
      }
    }
  }
}
