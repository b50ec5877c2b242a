/** The initializer as code, with every split task running at the same time. Every method is proved to
    take steps of SplitRuns, with anything the other tasks may do in between. */
module Initializer {
  import opened Wrappers
  import opened Splitter
  import opened SplitRuns
  import CoinText
  import GasPool
  import Redis
  import Storage
  import Text

  const CHUNK: nat := 5000

  /** The coins that enqueue_task gives back. */
  function Kept(e: Env, balances: seq<nat>): seq<nat>
  {
    if balances == [] then []
    else Kept(e, balances[..|balances| - 1])
         + if balances[|balances| - 1] <= e.Threshold() then [balances[|balances| - 1]] else []
  }

  /** Exactly the coins up to the threshold are kept, each as often as it was there. */
  lemma {:induction false} KeptFacts(e: Env, balances: seq<nat>)
    ensures forall b :: multiset(Kept(e, balances))[b] == if b <= e.Threshold() then multiset(balances)[b] else 0
  {
    if balances != [] {
      var init, last := balances[..|balances| - 1], balances[|balances| - 1];
      KeptFacts(e, init);
      assert balances == init + [last];
    }
  }

  // ---------- Where a trace leads ----------

  ghost predicate Led(e: Env, coins: seq<nat>, trace: seq<Step>, state: State)
  {
    e.Valid() && Runs(e, coins, trace) && After(e, coins, trace) == state
  }

  lemma LedInv(e: Env, coins: seq<nat>, trace: seq<Step>, state: State)
    requires Led(e, coins, trace, state)
    ensures Inv(e, coins, state)
  {
    RunsKeepInv(e, coins, trace);
  }

  lemma LedNext(e: Env, coins: seq<nat>, trace: seq<Step>, state: State, step: Step)
    requires Led(e, coins, trace, state) && Enabled(e, state, step)
    ensures Led(e, coins, trace + [step], Apply(e, state, step))
  {
    assert (trace + [step])[..|trace|] == trace;
  }

  /** No trace is longer than this. */
  ghost function Longest(e: Env, coins: seq<nat>): nat
    requires e.Valid()
  {
    Weigh(e, Steps, coins) + 3
  }

  lemma LedIsBounded(e: Env, coins: seq<nat>, trace: seq<Step>, state: State)
    requires Led(e, coins, trace, state)
    ensures |trace| <= Longest(e, coins)
  {
    RunsKeepInv(e, coins, trace);
    PotentialIsNatural(e, coins, state);
  }

  /** Splits a coin on chain for some net usage within the budget; gives the balances the
      initializer computes for the coins it has afterwards. */
  method SplitTransaction(e: Env, coin: nat) returns (net: nat, coins: seq<nat>)
    requires e.Valid() && coin > e.Threshold()
    ensures EvenSplit(e, coin, net, coins) && SplitInto(e, coin, net, coins)
  {
    SplitBounds(e, coin);
    var splitCount := if coin / (e.gasCost + e.target) < MAX_SPLIT then coin / (e.gasCost + e.target) else MAX_SPLIT;
    assert splitCount == e.SplitCount(coin);
    var budget := e.gasCost * splitCount;
    assert budget == e.Budget(coin);
    net :| net <= budget;
    RemainingBounds(e, coin, net);
    var newCoinBalance := (coin - budget) / splitCount;
    assert newCoinBalance == e.NewCoinBalance(coin);
    var remaining := coin - newCoinBalance * (splitCount - 1) - net;
    coins := Repeat(splitCount - 1, newCoinBalance) + [remaining];
    SplitIntoIs(e, coin, net, coins);
  }

  class CoinSplitEnv {
    const env: Env
    var taskQueue: seq<nat>         // handles
    var runtime: seq<Actor>         // the initializer, then the spawned tasks, and how far each is

    ghost const coins: seq<nat>
    ghost var state: State
    ghost var trace: seq<Step>

    ghost predicate Valid()
      reads this
    {
      Led(env, coins, trace, state) && taskQueue == state.queue && runtime == state.actors
    }

    /** What an actor's code may rely on about itself. */
    predicate Is(i: nat, a: Actor)
      reads this
    {
      i < |runtime| && runtime[i] == a
    }

    constructor (env: Env, coins: seq<nat>)
      requires env.Valid()
      ensures Valid() && this.env == env && this.coins == coins && trace == [] && state == Start(coins)
    {
      this.env, this.coins := env, coins;
      taskQueue, runtime := [], [Handing(coins, [], None)];
      state, trace := Start(coins), [];
    }

    ghost method Advance(step: Step)
      requires Led(env, coins, trace, state) && Enabled(env, state, step)
      modifies this`state, this`trace
      ensures Led(env, coins, trace, state) && state == Apply(env, old(state), step) && trace == old(trace) + [step]
    {
      LedNext(env, coins, trace, state, step);
      state, trace := Apply(env, state, step), trace + [step];
    }

    /** Any steps of the other actors. What the drain loop is doing is actor 0's alone. */
    method Others(i: nat)
      requires Valid() && i < |runtime|
      modifies this
      ensures Valid() && old(trace) <= trace && Is(i, old(runtime[i]))
      ensures i == 0 ==> state.awaited == old(state).awaited && state.result == old(state).result && state.stopped == old(state).stopped
    {
    }

    // ---------- The steps of an actor ----------

    method Keep(i: nat, todo: seq<nat>, kept: seq<nat>)
      requires Valid() && Is(i, Handing(todo, kept, None)) && todo != [] && todo[0] <= env.Threshold()
      modifies this
      ensures Valid() && trace == old(trace) + [Take(i)] && Is(i, Handing(todo[1..], kept + [todo[0]], None))
      ensures taskQueue == old(taskQueue) && state == Apply(env, old(state), Take(i))
    {
      runtime := runtime[i := Handing(todo[1..], kept + [todo[0]], None)];
      Advance(Take(i));
    }

    method Spawn(i: nat, todo: seq<nat>, kept: seq<nat>) returns (task: nat)
      requires Valid() && Is(i, Handing(todo, kept, None)) && todo != [] && todo[0] > env.Threshold()
      modifies this
      ensures Valid() && trace == old(trace) + [Take(i)] && Is(i, Handing(todo[1..], kept, Some(task)))
      ensures Is(task, Splitting(todo[0])) && state == Apply(env, old(state), Take(i))
    {
      task := |runtime|;
      runtime := runtime[i := Handing(todo[1..], kept, Some(task))] + [Splitting(todo[0])];
      Advance(Take(i));
    }

    method PushBack(i: nat, todo: seq<nat>, kept: seq<nat>, task: nat)
      requires Valid() && Is(i, Handing(todo, kept, Some(task)))
      modifies this
      ensures Valid() && trace == old(trace) + [Push(i)] && Is(i, Handing(todo, kept, None))
      ensures taskQueue == old(taskQueue) + [task] && state == Apply(env, old(state), Push(i))
    {
      runtime := runtime[i := Handing(todo, kept, None)];
      taskQueue := taskQueue + [task];
      Advance(Push(i));
    }

    /** The transaction goes through. */
    method ExecuteSplit(i: nat, coin: nat) returns (children: seq<nat>, ghost net: nat)
      requires Valid() && Is(i, Splitting(coin))
      modifies this
      ensures Valid() && SplitInto(env, coin, net, children)
      ensures trace == old(trace) + [Split(i, net, children)] && Is(i, Handing(children, [], None))
      ensures state == Apply(env, old(state), Split(i, net, children))
    {
      OverThreshold(env, coins, trace, state, i);
      var charged;
      charged, children := SplitTransaction(env, coin);
      net := charged;
      runtime := runtime[i := Handing(children, [], None)];
      Advance(Split(i, net, children));
    }

    method Return(i: nat, kept: seq<nat>)
      requires Valid() && Is(i, Handing([], kept, None)) && i > 0
      modifies this
      ensures Valid() && trace == old(trace) + [Finish(i)] && Is(i, Done(kept)) && state == Apply(env, old(state), Finish(i))
    {
      runtime := runtime[i := Done(kept)];
      Advance(Finish(i));
    }

    // ---------- The code ----------

    method EnqueueTask(i: nat, todo: seq<nat>, kept: seq<nat>) returns (back: seq<nat>)
      requires Valid() && Is(i, Handing(todo, kept, None)) && todo != []
      modifies this
      ensures Valid() && old(trace) <= trace && Is(i, Handing(todo[1..], kept + back, None))
      ensures back == (if todo[0] <= env.Threshold() then [todo[0]] else [])
      ensures todo[0] > env.Threshold() ==> Push(i) in trace
      ensures i == 0 ==> state.awaited == old(state).awaited && state.result == old(state).result && state.stopped == old(state).stopped
    {
      if todo[0] <= env.Threshold() {
        Keep(i, todo, kept);
        return [todo[0]];
      }
      var task := Spawn(i, todo, kept);
      Others(i);
      PushBack(i, todo[1..], kept, task);
      assert Push(i) == trace[|trace| - 1];
      assert kept + [] == kept;
      return [];
    }

    /** Enqueues the coins one by one, and keeps what comes back. */
    method EnqueueAll(i: nat, balances: seq<nat>) returns (kept: seq<nat>)
      requires Valid() && Is(i, Handing(balances, [], None))
      modifies this
      ensures Valid() && old(trace) <= trace && kept == Kept(env, balances) && Is(i, Handing([], kept, None))
      ensures i == 0 ==> state.awaited == old(state).awaited && state.result == old(state).result && state.stopped == old(state).stopped
    {
      kept := [];
      assert balances[0..] == balances;
      for n := 0 to |balances|
        invariant Valid() && old(trace) <= trace && kept == Kept(env, balances[..n]) && Is(i, Handing(balances[n..], kept, None))
        invariant i == 0 ==> state.awaited == old(state).awaited && state.result == old(state).result && state.stopped == old(state).stopped
      {
        Others(i);
        assert balances[..n + 1][..n] == balances[..n] && balances[n..][1..] == balances[n + 1..];
        var back := EnqueueTask(i, balances[n..], kept);
        kept := kept + back;
      }
      assert balances[..|balances|] == balances && balances[|balances|..] == [];
    }

    /** A failed attempt leaves the coin on chain as it was. */
    method LatestGasObject(coin: nat) returns (latest: nat)
      ensures latest == coin
    {
      latest := coin;
    }

    /** The whole of a split task. */
    method SplitOneGasCoin(i: nat, original: nat) returns (result: seq<nat>, ghost net: nat, ghost children: seq<nat>)
      requires Valid() && Is(i, Splitting(original)) && i > 0
      modifies this
      ensures Valid() && old(trace) <= trace && Is(i, Done(result))
      ensures SplitInto(env, original, net, children) && Split(i, net, children) in trace && result == Kept(env, children)
    {
      var coin := original;
      var failures: nat := *;
      while failures > 0
        invariant coin == original
        modifies {}
      {
        coin := LatestGasObject(coin);
        failures := failures - 1;
      }
      Others(i);
      var balances;
      balances, net := ExecuteSplit(i, coin);
      children := balances;
      assert Split(i, net, children) == trace[|trace| - 1];
      result := EnqueueAll(i, balances);
      Others(i);
      Return(i, result);
    }

    /** The next step of a task, whatever it is. */
    method RunTask(i: nat)
      requires Valid() && i < |runtime| && i > 0 && !runtime[i].Done? && !runtime[i].Collected?
      modifies this
      ensures Valid() && old(trace) < trace && i < |runtime| && Is(0, old(runtime[0])) && !runtime[i].Collected?
      ensures state.awaited == old(state).awaited && state.result == old(state).result && state.stopped == old(state).stopped
    {
      match runtime[i]
      case Splitting(coin) => var _, _ := ExecuteSplit(i, coin);
      case Handing(todo, kept, handle) =>
        if handle.Some? {
          PushBack(i, todo, kept, handle.value);
        } else if todo == [] {
          Return(i, kept);
        } else if todo[0] <= env.Threshold() {
          Keep(i, todo, kept);
        } else {
          var _ := Spawn(i, todo, kept);
        }
    }

    /** The runtime runs the other tasks in any order, and the awaited one until it is done. */
    method AwaitTask(task: nat) returns (kept: seq<nat>)
      requires Valid() && Is(0, Collected) && state.awaited == Some(task)
      modifies this
      ensures Valid() && old(trace) <= trace && Is(0, Collected) && Is(task, Done(kept))
      ensures state.awaited == old(state).awaited && state.result == old(state).result && state.stopped == old(state).stopped
    {
      AwaitedIsAlive(env, coins, trace, state);
      while !runtime[task].Done?
        invariant Valid() && old(trace) <= trace && Is(0, Collected) && 0 < task < |runtime| && !runtime[task].Collected?
        invariant state.awaited == old(state).awaited && state.result == old(state).result && state.stopped == old(state).stopped
        decreases Longest(env, coins) - |trace|
      {
        LedIsBounded(env, coins, trace, state);
        RunTask(task);
        Others(0);
        LedIsBounded(env, coins, trace, state);
        AwaitedIsAlive(env, coins, trace, state);
      }
      kept := runtime[task].kept;
    }

    method BeginDrain(kept: seq<nat>)
      requires Valid() && Is(0, Handing([], kept, None))
      modifies this
      ensures Valid() && old(trace) <= trace && Is(0, Collected)
      ensures state.awaited.None? && state.result == kept && !state.stopped
    {
      LoadingState(env, coins, trace, state);
      runtime := runtime[0 := Collected];
      Advance(StartDrain);
    }

    method PopFront() returns (task: Option<nat>)
      requires Valid() && Is(0, Collected) && state.awaited.None? && !state.stopped
      modifies this
      ensures Valid() && Is(0, Collected) && state.result == old(state).result
      ensures match task
              case None => old(taskQueue) == [] && state.stopped && trace == old(trace) + [Stop]
              case Some(h) =>
                && old(taskQueue) == [h] + taskQueue
                && !state.stopped && state.awaited == Some(h) && trace == old(trace) + [Pop]
    {
      if taskQueue == [] {
        Advance(Stop);
        return None;
      }
      task := Some(taskQueue[0]);
      taskQueue := taskQueue[1..];
      Advance(Pop);
    }

    method CollectTask(task: nat, kept: seq<nat>)
      requires Valid() && Is(0, Collected) && Is(task, Done(kept)) && state.awaited == Some(task) && !state.stopped
      modifies this
      ensures Valid() && trace == old(trace) + [Collect] && Is(0, Collected)
      ensures state.awaited.None? && !state.stopped && state.result == old(state).result + kept
    {
      runtime := runtime[task := Collected];
      Advance(Collect);
    }

    /** Whatever the schedule: splitting stops with every task collected, conserves value, takes few
        splits, and leaves exactly the coins of the right size that were there or that a split left. */
    method SplitGasCoins() returns (result: seq<nat>)
      requires Valid() && trace == [] && state == Start(coins)
      modifies this
      ensures Valid() && state.stopped && result == state.result && AllCollected(state) && taskQueue == []
      ensures Total(result) == Total(coins) - NetIn(trace) <= Total(coins)
      ensures SplitsIn(trace) <= Total(coins) / env.target
      ensures forall b :: b in result ==> b <= env.Threshold() && (b >= env.target || b in coins)
      ensures forall b: nat :: multiset(result)[b] == if b <= env.Threshold() then multiset(coins)[b] + MadeIn(trace, b) else 0
    {
      result := LoadAndDrain();
      FinishedSplitting(env, coins, trace);
      LedInv(env, coins, trace, state);
    }

    method LoadAndDrain() returns (result: seq<nat>)
      requires Valid() && trace == [] && state == Start(coins)
      modifies this
      ensures Valid() && state.stopped && result == state.result
    {
      var initial := runtime[0].todo;
      result := EnqueueAll(0, initial);
      BeginDrain(result);
      var draining := true;
      while draining
        invariant Valid() && Is(0, Collected) && state.result == result && state.awaited.None?
        invariant draining == !state.stopped
        decreases Longest(env, coins) - |trace|, draining
      {
        LedIsBounded(env, coins, trace, state);
        Others(0);
        var task := PopFront();
        if task.None? {
          draining := false;
          LedStopped(env, coins, trace, state);
        } else {
          var kept := AwaitTask(task.value);
          CollectTask(task.value, kept);
          result := result + kept;
        }
        LedIsBounded(env, coins, trace, state);
      }
    }
  }

  lemma OverThreshold(e: Env, coins: seq<nat>, trace: seq<Step>, state: State, i: nat)
    requires Led(e, coins, trace, state) && i < |state.actors| && state.actors[i].Splitting?
    ensures state.actors[i].coin > e.Threshold()
  {
    LedInv(e, coins, trace, state);
    assert SoundActor(e, coins, state.actors[i]);
  }

  lemma AwaitedIsAlive(e: Env, coins: seq<nat>, trace: seq<Step>, state: State)
    requires Led(e, coins, trace, state) && state.awaited.Some?
    ensures Alive(state, state.awaited.value)
  {
    LedInv(e, coins, trace, state);
    CollectsASpawnedTask(e, state);
  }

  lemma LoadingState(e: Env, coins: seq<nat>, trace: seq<Step>, state: State)
    requires Led(e, coins, trace, state) && |state.actors| > 0 && !state.actors[0].Collected?
    ensures state.awaited.None? && !state.stopped && state.result == []
  {
    LedInv(e, coins, trace, state);
  }

  lemma LedStopped(e: Env, coins: seq<nat>, trace: seq<Step>, state: State)
    requires Led(e, coins, trace, state) && state.stopped
    ensures state.awaited.None?
  {
    LedInv(e, coins, trace, state);
  }

  // ---------- Handing the result to the store ----------

  lemma AddTwice(p: GasPool.Pool, a: seq<CoinText.GasCoin>, b: seq<CoinText.GasCoin>)
    requires p.StatsReady()
    ensures GasPool.AddCoins(GasPool.AddCoins(p, a), b) == GasPool.AddCoins(p, a + b)
    ensures GasPool.AddCoins(p, []) == p
  {
    CoinText.SumConcat(a, b);
    assert p.available + a + b == p.available + (a + b);
    assert p.available + [] == p.available;
  }

  lemma PartsFit(coins: seq<CoinText.GasCoin>, i: nat, j: nat)
    requires CoinText.AllFit(coins) && i <= j <= |coins|
    ensures CoinText.AllFit(coins[i..j])
  {
    forall k | 0 <= k < j - i ensures coins[i..j][k].Fits() { assert coins[i + k].Fits(); }
  }

  /** Adding the coins in chunks is adding them all. */
  method AddInChunks(r: Redis.Server, sponsor: Redis.Sponsor, coins: seq<CoinText.GasCoin>, ghost p: GasPool.Pool)
    requires r.Valid() && Text.ColonFree(sponsor) && Redis.Represents(r.cells, sponsor, p) && p.StatsReady() && CoinText.AllFit(coins)
    modifies r
    ensures r.Valid() && Redis.OnlyOwn(old(r.cells), r.cells, sponsor)
    ensures Redis.Represents(r.cells, sponsor, GasPool.AddCoins(p, coins))
  {
    var i := 0;
    AddTwice(p, [], []);
    while i < |coins|
      invariant i <= |coins| && r.Valid() && Redis.OnlyOwn(old(r.cells), r.cells, sponsor)
      invariant Redis.Represents(r.cells, sponsor, GasPool.AddCoins(p, coins[..i]))
    {
      var j := if i + CHUNK < |coins| then i + CHUNK else |coins|;
      PartsFit(coins, i, j);
      AddTwice(p, coins[..i], coins[i..j]);
      assert coins[..i] + coins[i..j] == coins[..j];
      AddChunk(r, sponsor, coins[i..j], old(r.cells), GasPool.AddCoins(p, coins[..i]));
      i := j;
    }
    assert coins[..|coins|] == coins;
  }

  method AddChunk(r: Redis.Server, sponsor: Redis.Sponsor, chunk: seq<CoinText.GasCoin>, ghost before: Redis.Cells, ghost p: GasPool.Pool)
    requires r.Valid() && Text.ColonFree(sponsor) && Redis.Represents(r.cells, sponsor, p) && p.StatsReady() && CoinText.AllFit(chunk)
    requires Redis.OnlyOwn(before, r.cells, sponsor)
    modifies r
    ensures r.Valid() && Redis.OnlyOwn(before, r.cells, sponsor)
    ensures Redis.Represents(r.cells, sponsor, GasPool.AddCoins(p, chunk))
  {
    Storage.AddNewCoins(r, sponsor, chunk, p);
  }
}
