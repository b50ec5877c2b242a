/** The methods of one gas pool server, as code over the store and the chain. Each is proved to take
    the steps of GasStation, with anything the other servers and tasks may do at every await. */
module GasPoolCore {
  import opened Wrappers
  import opened Text
  import opened CoinText
  import opened GasPool
  import opened GasStation
  import opened Custody
  import Redis
  import Scripts
  import Storage
  import Runs

  /** What a successful transaction reports. */
  datatype Effects = Effects(net: int, version: nat, digest: Digest)

  /** The world is where the trace leads. */
  ghost predicate Led(origin: World, trace: seq<Step>, world: World)
  {
    GasStation.Init(origin) && GasStation.Runs(origin, trace) && After(origin, trace) == world
  }

  lemma LedInv(origin: World, trace: seq<Step>, world: World)
    requires Led(origin, trace, world)
    ensures Inv(world)
  {
    ReachableWorldsKeepInv(origin, trace);
  }

  lemma LedNext(origin: World, trace: seq<Step>, world: World, step: Step)
    requires Led(origin, trace, world) && Enabled(world, step)
    ensures Led(origin, trace + [step], Apply(world, step))
  {
    assert (trace + [step])[..|trace|] == trace;
  }

  lemma ReachableIsPrintable(origin: World, trace: seq<Step>, world: World)
    requires Led(origin, trace, world) && world.pool.nextId < U64_MAX
    ensures Storage.Printable(world.pool)
    ensures forall x :: x in world.pool.live ==> world.pool.live[x] != []
  {
    LedInv(origin, trace, world);
    Runs.ReachablePoolsArePrintable(world);
  }

  lemma ReleasedCoinsFit(origin: World, trace: seq<Step>, world: World, t: nat)
    requires Led(origin, trace, world) && t < |world.tasks| && world.tasks[t].Releasing?
    ensures AllFit(world.tasks[t].coins)
  {
    LedInv(origin, trace, world);
    assert TaskAgrees(world, world.tasks[t]);
    var coins := world.tasks[t].coins;
    forall i | 0 <= i < |coins| ensures coins[i].Fits() { assert world.chain[coins[i].id].Fits(); }
  }

  /** A taken reservation's coins are all there and all different. */
  lemma TakenIsAlive(origin: World, trace: seq<Step>, world: World, t: nat)
    requires Led(origin, trace, world) && t < |world.tasks| && world.tasks[t].Taken?
    ensures Distinct(world.tasks[t].payment) && forall id :: id in world.tasks[t].payment ==> id in world.chain
    ensures GoodChain(world.chain)
  {
    LedInv(origin, trace, world);
    AllAlive(world, t, world.tasks[t].payment);
  }

  /** The coins' balances in whatever order the node's answer is gone through. */
  lemma TotalIsChainSum(chain: Chain, payment: seq<ObjectId>, coins: seq<GasCoin>)
    requires Distinct(payment) && forall id :: id in payment ==> id in chain
    requires Answer(chain, payment, coins)
    ensures Sum(coins) == ChainSum(chain, payment)
  {
    var all := set id | id in payment;
    ChainSumOfCoins(chain, coins);
    WorthOfList(chain, all, Ids(coins));
    WorthOfList(chain, all, payment);
    assert (set id | id in Ids(coins)) == all;
  }

  /** A node's answer: the listed objects that exist, each once, as the chain has them, in any order. */
  ghost predicate Answer(chain: Chain, ids: seq<ObjectId>, coins: seq<GasCoin>)
  {
    Distinct(Ids(coins)) && OnChain(chain, coins) && forall id :: id in Ids(coins) <==> id in ids && id in chain
  }

  /** A u64 sum. */
  method SumBalances(coins: seq<GasCoin>) returns (total: nat)
    ensures total == WrapU64(Sum(coins)) == Sum(coins) % 0x1_0000_0000_0000_0000
  {
    total := 0;
    for i := 0 to |coins|
      invariant total == WrapU64(Sum(coins[..i]))
    {
      assert coins[..i + 1][..i] == coins[..i];
      AddWraps(Sum(coins[..i]), coins[i].balance);
      total := WrapU64(total + coins[i].balance);
    }
    assert coins[..|coins|] == coins;
  }

  class GasPoolServer {
    const store: Redis.Server
    const sponsor: Redis.Sponsor
    var chain: Chain           // what the node would answer now
    var recorded: int          // net usage passed to update_usage, by all servers

    ghost const origin: World
    ghost var world: World
    ghost var trace: seq<Step>

    ghost predicate Valid()
      reads this, store
    {
      && store.Valid() && ColonFree(sponsor) && Redis.Represents(store.cells, sponsor, world.pool)
      && chain == world.chain && recorded == world.recorded
      && Led(origin, trace, world)
      && world.pool.StatsReady() && world.pool.nextId < U64_MAX
    }

    constructor (store: Redis.Server, sponsor: Redis.Sponsor, chain: Chain, recorded: int,
                 ghost origin: World, ghost trace: seq<Step>, ghost world: World)
      requires store.Valid() && ColonFree(sponsor) && Led(origin, trace, world)
      requires Redis.Represents(store.cells, sponsor, world.pool) && chain == world.chain && recorded == world.recorded
      requires world.pool.StatsReady() && world.pool.nextId < U64_MAX
      ensures Valid() && this.store == store && this.sponsor == sponsor && this.world == world && this.trace == trace
    {
      this.store, this.sponsor, this.chain, this.recorded := store, sponsor, chain, recorded;
      this.origin, this.trace, this.world := origin, trace, world;
    }

    /** What other tasks, other servers and other users of the chain do: any steps of the machine that
        leave the record of this task alone. */
    method Others(ghost t: nat)
      requires Valid() && t < |world.tasks|
      modifies this, store
      ensures Valid() && old(trace) <= trace
      ensures t < |world.tasks| && world.tasks[t] == old(world.tasks[t])
    {
    }

    method Await(ghost t: nat)
      requires Valid() && t < |world.tasks|
      modifies this, store
      ensures Valid() && old(trace) <= trace
      ensures t < |world.tasks| && world.tasks[t] == old(world.tasks[t])
      ensures old(world).smashed <= world.smashed && Own(t) == old(Own(t))
    {
      ghost var before, was := trace, world;
      Others(t);
      SmashedForGood(origin, before, was, trace, world);
      NoneMeanwhile(origin, before, was, trace, world, t);
    }

    /** The steps that a task has taken so far. */
    ghost function Own(t: nat): seq<Step>
      reads this`trace
    {
      Runs.OwnSteps(trace, t)
    }

    ghost method Advance(step: Step)
      requires Led(origin, trace, world) && Enabled(world, step)
      modifies this`world, this`trace
      ensures Led(origin, trace, world) && world == Apply(old(world), step) && trace == old(trace) + [step]
      ensures forall t: nat :: Own(t) == old(Own(t)) + if Runs.TaskOf(step) == Some(t) then [step] else []
    {
      forall t: nat { Runs.OwnStepsMore(trace, step, t); }
      LedNext(origin, trace, world, step);
      world, trace := Apply(world, step), trace + [step];
    }

    /** The usage cap first; the date on which it starts again at zero is the caller's. */
    method ReserveGas(budget: nat, deadline: nat, dailyUsage: int, dailyCap: nat) returns (r: Result<(nat, seq<GasCoin>), string>)
      requires Valid() && budget > 0 && world.pool.nextId + 1 < U64_MAX
      modifies this, store
      ensures Valid() && chain == old(chain) && recorded == old(recorded)
      ensures if dailyUsage >= WrapI64(dailyCap) then r.Err? && world == old(world) && trace == old(trace) && store.db == old(store.db)
              else trace == old(trace) + [Step.ReserveGas(budget, deadline)]
      ensures dailyUsage < WrapI64(dailyCap) ==>
                var grant := Reserve(old(world).pool, budget, deadline).1;
                if r.Ok? then grant == Some(Grant(r.value.0, r.value.1))
                else grant.None? && world == old(world) && store.db == old(store.db)
    {
      if dailyUsage >= WrapI64(dailyCap) { return Err("Gas usage exceeds daily cap"); }
      ReachableIsPrintable(origin, trace, world);
      r := Storage.ReserveGasCoins(store, sponsor, budget, deadline, world.pool);
      ReserveStep(world, budget, deadline);
      Advance(Step.ReserveGas(budget, deadline));
    }

    /** The initializer brings coins that the pool does not track. */
    method AddFunds(coins: seq<GasCoin>)
      requires Valid() && Enabled(world, Fund(coins))
      modifies this, store
      ensures Valid() && trace == old(trace) + [Fund(coins)]
      ensures world.pool.available == old(world).pool.available + coins && chain == old(chain)
    {
      LedInv(origin, trace, world);
      FundedCoinsFit(world, coins);
      Storage.AddNewCoins(store, sponsor, coins, world.pool);
      Advance(Fund(coins));
    }

    method TakeReservation(id: nat, payment: seq<ObjectId>) returns (ok: bool, ghost t: nat)
      requires Valid() && Enabled(world, Begin(id, payment))
      modifies this, store
      ensures Valid() && trace == old(trace) + [Begin(id, payment)]
      ensures ok <==> id in old(world).pool.live
      ensures if ok then t == |world.tasks| - 1 && t == |old(world).tasks| && world.tasks[t] == Taken(payment)
                        && id !in world.pool.live && id in world.taken && world.issued == old(world).issued && Own(t) == []
              else world == old(world)
    {
      Runs.NoStepsBefore(origin, trace, |world.tasks|);
      ok := Scripts.ReadyForExecution(store, sponsor, id, world.pool);
      t := |world.tasks|;
      BeginStep(world, id, payment);
      Advance(Begin(id, payment));
    }

    /** The coins among the objects that still exist, read from the node in any order. */
    method GetLatestGasObjects(ids: seq<ObjectId>) returns (coins: seq<GasCoin>)
      requires GoodChain(chain)
      ensures Answer(chain, ids, coins)
    {
      var pending := set id | id in ids && id in chain;
      coins := [];
      while pending != {}
        invariant forall id :: id in pending ==> id in ids && id in chain && id !in Ids(coins)
        invariant forall id :: id in ids && id in chain ==> id in pending || id in Ids(coins)
        invariant Distinct(Ids(coins)) && OnChain(chain, coins) && forall id :: id in Ids(coins) ==> id in ids && id in chain
        decreases |pending|
      {
        var id :| id in pending;
        IdsConcat(coins, [chain[id]]);
        assert Ids(coins + [chain[id]]) == Ids(coins) + [id];
        coins, pending := coins + [chain[id]], pending - {id};
      }
    }

    method GetTotalGasCoinBalance(ids: seq<ObjectId>, ghost t: nat) returns (total: nat)
      requires Valid() && t < |world.tasks| && world.tasks[t] == Taken(ids)
      ensures total == WrapU64(ChainSum(chain, ids))
    {
      TakenIsAlive(origin, trace, world, t);
      var coins := GetLatestGasObjects(ids);
      TotalIsChainSum(chain, ids, coins);
      total := SumBalances(coins);
    }

    method CountCoins(payment: seq<ObjectId>, ghost t: nat) returns (total: nat)
      requires Valid() && t < |world.tasks| && world.tasks[t] == Taken(payment)
      modifies this, store
      ensures Valid() && trace == old(trace) + [CountBalance(t)] && Own(t) == old(Own(t)) + [CountBalance(t)]
      ensures t < |world.tasks| && world.tasks[t] == Counted(payment, total)
    {
      total := GetTotalGasCoinBalance(payment, t);
      Advance(CountBalance(t));
    }

    /** The chain executes the transaction or not, and the node reports it or not. */
    method ExecuteOnChain(payment: seq<ObjectId>, ghost total: nat, ghost t: nat) returns (effects: Option<Effects>, ghost step: Step)
      requires Valid() && t < |world.tasks| && world.tasks[t] == Counted(payment, total)
      modifies this, store
      ensures Valid() && trace == old(trace) + [step] && t < |world.tasks| && Own(t) == old(Own(t)) + [step]
      ensures if effects.Some? then ReportedBy(step, effects.value, t) else Unreported(step, t)
      ensures match effects
              case None => world.tasks[t] == Rereading(payment)
              case Some(e) =>
                && payment != [] && world.tasks[t] == Executed(payment, total, e.net, payment[0], e.version, e.digest)
                && forall x :: x in payment[1..] ==> x in world.smashed
    {
      var net: int, version: nat, digest: Digest, executes: bool, reported: bool := *, *, *, *, *;
      var left := ChainSum(chain, payment) - net;
      if executes && payment != [] && left >= 0 && GasCoin(payment[0], version, digest, left).Fits() {
        step := Settle(t, net, version, digest, reported);
        SettleOnChain(payment, total, net, GasCoin(payment[0], version, digest, left), reported, t);
        effects := if reported then Some(Effects(net, version, digest)) else None;
      } else {
        step := Reject(t);
        Advance(step);
        effects := None;
      }
    }

    method SettleOnChain(payment: seq<ObjectId>, ghost total: nat, ghost net: int, coin: GasCoin, ghost reported: bool, ghost t: nat)
      requires Valid() && t < |world.tasks| && world.tasks[t] == Counted(payment, total) && payment != []
      requires coin.Fits() && coin.id == payment[0] && coin.balance == ChainSum(chain, payment) - net
      modifies this, store
      ensures Valid() && t < |world.tasks| && trace == old(trace) + [Settle(t, net, coin.version, coin.digest, reported)]
      ensures Own(t) == old(Own(t)) + [Settle(t, net, coin.version, coin.digest, reported)]
      ensures world.tasks[t] == if reported then Executed(payment, total, net, payment[0], coin.version, coin.digest) else Rereading(payment)
      ensures forall x :: x in payment[1..] ==> x in world.smashed
    {
      SettleStep(world, t, payment, total, net, coin, reported);
      chain := Smash(chain, payment, coin);
      Advance(Settle(t, net, coin.version, coin.digest, reported));
    }

    /** update_usage, with which the coin to release is settled too: the total read before is all it takes. */
    method UpdateUsage(payment: seq<ObjectId>, ghost total: nat, effects: Effects, ghost t: nat)
      requires Valid() && t < |world.tasks| && payment != []
      requires world.tasks[t] == Executed(payment, total, effects.net, payment[0], effects.version, effects.digest)
      modifies this, store
      ensures Valid() && trace == old(trace) + [Record(t)] && recorded == old(recorded) + effects.net
      ensures Own(t) == old(Own(t)) + [Record(t)]
      ensures t < |world.tasks| && world.tasks[t] == Releasing([DerivedCoin(payment[0], total, effects)])
      ensures world.smashed == old(world).smashed
    {
      recorded := recorded + effects.net;
      Advance(Record(t));
    }

    /** What follows the locks and signatures. Without effects in hand the chain may have executed the
        transaction or not; with them, the usage is recorded. */
    method ExecuteTransactionImpl(payment: seq<ObjectId>, ghost total: nat, ghost t: nat)
      returns (effects: Option<Effects>, ghost own: seq<Step>)
      requires Valid() && t < |world.tasks| && world.tasks[t] == Counted(payment, total)
      modifies this, store
      ensures Valid() && old(trace) <= trace && t < |world.tasks| && Own(t) == old(Own(t)) + own
      ensures match effects
              case None => |own| == 1 && Unreported(own[0], t) && world.tasks[t] == Rereading(payment)
              case Some(e) =>
                && |own| == 2 && ReportedBy(own[0], e, t) && own[1] == Record(t)
                && payment != [] && world.tasks[t] == Releasing([DerivedCoin(payment[0], total, e)])
                && forall x :: x in payment[1..] ==> x in world.smashed
    {
      Await(t);
      ghost var step;
      effects, step := ExecuteOnChain(payment, total, t);
      own := [step];
      if effects.Some? {
        Await(t);
        UpdateUsage(payment, total, effects.value, t);
        AppendTwice(old(Own(t)), own, Record(t));
        own := own + [Record(t)];
      }
    }

    /** Success: the coin derived from the total read before is the one on chain. */
    method GetCoinsAfterTx(payment: seq<ObjectId>, total: nat, effects: Effects, ghost t: nat) returns (coins: seq<GasCoin>)
      requires Valid() && t < |world.tasks| && payment != []
      requires world.tasks[t] == Releasing([DerivedCoin(payment[0], total, effects)])
      ensures coins == [DerivedCoin(payment[0], total, effects)] && OnChain(chain, coins)
    {
      LedInv(origin, trace, world);
      assert TaskAgrees(world, world.tasks[t]);
      coins := [GasCoin(payment[0], effects.version, effects.digest, DerivedBalance(total, effects.net))];
    }

    /** Failure or expiry: the coins are whatever the node still knows of. */
    method RereadCoins(ids: seq<ObjectId>, ghost t: nat) returns (coins: seq<GasCoin>)
      requires Valid() && t < |world.tasks| && world.tasks[t] == Rereading(ids)
      modifies this, store
      ensures Valid() && trace == old(trace) + [Reread(t, Ids(coins))] && |coins| <= |ids|
      ensures Own(t) == old(Own(t)) + [Reread(t, Ids(coins))]
      ensures t < |world.tasks| && world.tasks[t] == Releasing(coins)
      ensures Remaining(world, ids, coins)
    {
      LedInv(origin, trace, world);
      coins := GetLatestGasObjects(ids);
      RereadStep(world, t, coins);
      Advance(Reread(t, Ids(coins)));
    }

    method ReleaseGasCoins(coins: seq<GasCoin>, ghost t: nat)
      requires Valid() && t < |world.tasks| && world.tasks[t] == Releasing(coins)
      modifies this, store
      ensures Valid() && trace == old(trace) + [Release(t)] && Own(t) == old(Own(t)) + [Release(t)]
      ensures t < |world.tasks| && world.tasks[t] == Finished
      ensures world.pool.available == old(world).pool.available + coins && chain == old(chain)
    {
      ReleasedCoinsFit(origin, trace, world, t);
      Storage.AddNewCoins(store, sponsor, coins, world.pool);
      Advance(Release(t));
    }

    /** A whole execution. If the reservation was still live, then whatever happens in between:
        - it succeeds exactly when its transaction was executed and reported, and the usage recorded; its
          own steps are then these and no others, and else a reread instead;
        - exactly those payment coins that still exist end up at the end of the queue, as the chain has
          them: after a success, the first one only;
        - the count of smashed coins is that of the payment coins the chain no longer has;
        - the reservation is settled once and for all, and nothing is held any more. */
    method ExecuteTransaction(id: nat, payment: seq<ObjectId>)
      returns (ok: bool, smashed: nat, ghost t: nat, ghost released: seq<GasCoin>)
      requires Valid() && Enabled(world, Begin(id, payment))
      modifies this, store
      ensures Valid() && old(trace) + [Begin(id, payment)] <= trace
      ensures id !in old(world).pool.live ==> !ok && world == old(world)
      ensures id in old(world).pool.live ==>
        && (ok <==> Record(t) in trace) && (if ok then Succeeded(Own(t), t) else Failed(Own(t), t))
        && t < |world.tasks| && world.tasks[t] == Finished
        && Completed(world, payment, ok, smashed, released)
        && id !in world.pool.live && id in world.taken && id !in world.expired
    {
      LiveIsIssued(origin, trace, world);
      var ready;
      ready, t := TakeReservation(id, payment);
      if !ready { return false, 0, t, []; }
      ok, smashed, released := RunSettled(id, payment, t);
    }

    method RunSettled(ghost id: nat, payment: seq<ObjectId>, ghost t: nat) returns (ok: bool, smashed: nat, ghost released: seq<GasCoin>)
      requires Valid() && t < |world.tasks| && world.tasks[t] == Taken(payment) && Own(t) == []
      requires id in world.issued && id !in world.pool.live && id in world.taken
      modifies this, store
      ensures Valid() && old(trace) <= trace
      ensures (ok <==> Record(t) in trace) && (if ok then Succeeded(Own(t), t) else Failed(Own(t), t))
      ensures t < |world.tasks| && world.tasks[t] == Finished && Completed(world, payment, ok, smashed, released)
      ensures id !in world.pool.live && id in world.taken && id !in world.expired
    {
      ghost var begun, taken := trace, world;
      ok, smashed, released := RunTaken(payment, t);
      SettledForGood(origin, begun, taken, trace, world, id);
      OnlySuccessRecords(trace, ok, t);
    }

    method RunTaken(payment: seq<ObjectId>, ghost t: nat) returns (ok: bool, smashed: nat, ghost released: seq<GasCoin>)
      requires Valid() && t < |world.tasks| && world.tasks[t] == Taken(payment) && Own(t) == []
      modifies this, store
      ensures Valid() && old(trace) <= trace
      ensures t < |world.tasks| && world.tasks[t] == Finished && (if ok then Succeeded(Own(t), t) else Failed(Own(t), t))
      ensures Completed(world, payment, ok, smashed, released)
    {
      TakenIsAlive(origin, trace, world, t);
      var coins;
      ghost var own;
      ok, coins, own := Work(payment, t);
      smashed := |payment| - |coins|;
      GiveBack(payment, coins, t);
      released := coins;
      OwnStepsAre(ok, own, Own(t), t);
      MissingAreTheRest(origin, trace, world, payment, released);
    }

    method Work(payment: seq<ObjectId>, ghost t: nat) returns (ok: bool, coins: seq<GasCoin>, ghost own: seq<Step>)
      requires Valid() && t < |world.tasks| && world.tasks[t] == Taken(payment) && Own(t) == []
      modifies this, store
      ensures Valid() && old(trace) <= trace && |coins| <= |payment| && Own(t) == [CountBalance(t)] + own
      ensures PaidIn(ok, own, t) && (ok ==> |coins| == 1 && payment != [] && coins[0].id == payment[0])
      ensures t < |world.tasks| && world.tasks[t] == Releasing(coins) && Remaining(world, payment, coins)
    {
      Await(t);
      var total := CountCoins(payment, t);
      ok, coins, own := Pay(payment, total, t);
    }

    method GiveBack(ghost ids: seq<ObjectId>, coins: seq<GasCoin>, ghost t: nat)
      requires Valid() && t < |world.tasks| && world.tasks[t] == Releasing(coins) && Remaining(world, ids, coins)
      modifies this, store
      ensures Valid() && old(trace) <= trace && GivenBack(world, ids, coins)
      ensures t < |world.tasks| && world.tasks[t] == Finished && Own(t) == old(Own(t)) + [Release(t)] && Release(t) in trace
    {
      Await(t);
      RemainingAreAlive(origin, trace, world, t, ids, coins);
      ReleaseGasCoins(coins, t);
      assert Release(t) == trace[|trace| - 1];
    }

    method Pay(payment: seq<ObjectId>, total: nat, ghost t: nat) returns (ok: bool, coins: seq<GasCoin>, ghost own: seq<Step>)
      requires Valid() && t < |world.tasks| && world.tasks[t] == Counted(payment, total)
      modifies this, store
      ensures Valid() && old(trace) <= trace && |coins| <= |payment|
      ensures Own(t) == old(Own(t)) + own && PaidIn(ok, own, t)
      ensures ok ==> |coins| == 1 && payment != [] && coins[0].id == payment[0]
      ensures t < |world.tasks| && world.tasks[t] == Releasing(coins) && Remaining(world, payment, coins)
    {
      var effects;
      effects, own := ExecuteTransactionImpl(payment, total, t);
      Await(t);
      if effects.Some? {
        coins := GetCoinsAfterTx(payment, total, effects.value, t);
        assert payment == [payment[0]] + payment[1..] && coins[0].id == Ids(coins)[0];
      } else {
        coins := RereadCoins(payment, t);
        AppendTwice(old(Own(t)), own, Reread(t, Ids(coins)));
        own := own + [Reread(t, Ids(coins))];
      }
      ok := effects.Some?;
    }

    method TakeExpired(now: nat) returns (ids: seq<ObjectId>, ghost t: nat, ghost order: seq<nat>)
      requires Valid()
      modifies this, store
      ensures Valid() && trace == old(trace) + [ExpireReservations(now, order)] && world.issued == old(world).issued
      ensures Enumerates(order, Lapsed(old(world).pool, now))
      ensures world.pool == Expire(old(world).pool, now)
      ensures forall x :: x in ids <==> InLapsed(old(world).pool, now, x)
      ensures ids != [] <==> Lapsed(old(world).pool, now) != {}
      ensures if ids != [] then t < |world.tasks| && world.tasks[t] == Rereading(ids) else world.tasks == old(world).tasks
    {
      ReachableIsPrintable(origin, trace, world);
      var expired;
      expired, order := Storage.ExpireCoins(store, sponsor, now, world.pool);
      ids := expired.value;
      t := |world.tasks|;
      LapsedHaveCoins(world.pool, now, order);
      GatherMembers(world.pool.live, order);
      Advance(ExpireReservations(now, order));
    }

    /** One round of the unlock task: a sweep of exactly the reservations that have lapsed, which are then
        gone for good, and exactly those of their coins that still exist end up at the end of the queue,
        as the chain has them. */
    method UnlockExpired(now: nat) returns (ghost t: nat, ghost ids: seq<ObjectId>, ghost released: seq<GasCoin>, ghost order: seq<nat>)
      requires Valid()
      modifies this, store
      ensures Valid() && old(trace) + [ExpireReservations(now, order)] <= trace
      ensures Enumerates(order, Lapsed(old(world).pool, now))
      ensures forall x :: x in ids <==> InLapsed(old(world).pool, now, x)
      ensures Lapsed(old(world).pool, now) != {} ==>
        t < |world.tasks| && world.tasks[t] == Finished && Release(t) in trace && GivenBack(world, ids, released)
      ensures Lapsed(old(world).pool, now) == {} ==> world.tasks == old(world).tasks
      ensures forall r :: r in Lapsed(old(world).pool, now) ==> r !in world.pool.live
    {
      LapsedAreIssued(origin, trace, world, now);
      ghost var due := Lapsed(world.pool, now);
      var unlocked;
      unlocked, t, order := TakeExpired(now);
      ids, released := unlocked, [];
      ghost var swept, sweptWorld := trace, world;
      if unlocked != [] { released := Recover(unlocked, t); }
      AllSettledForGood(origin, swept, sweptWorld, trace, world, due);
    }

    /** The coins among the ids that still exist go back to the pool. */
    method Recover(ids: seq<ObjectId>, ghost t: nat) returns (ghost released: seq<GasCoin>)
      requires Valid() && t < |world.tasks| && world.tasks[t] == Rereading(ids)
      modifies this, store
      ensures Valid() && old(trace) <= trace && GivenBack(world, ids, released)
      ensures t < |world.tasks| && world.tasks[t] == Finished && Release(t) in trace
    {
      Await(t);
      var coins := RereadCoins(ids, t);
      GiveBack(ids, coins, t);
      released := coins;
    }
  }

  /** The chain executed the transaction and these effects were reported. */
  predicate ReportedBy(s: Step, e: Effects, t: nat)
  {
    s == Settle(t, e.net, e.version, e.digest, true)
  }

  /** The transaction was not executed, or that it was is not known. */
  predicate Unreported(s: Step, t: nat)
  {
    s == Reject(t) || (s.Settle? && s.t == t && !s.reported)
  }

  predicate PaidIn(ok: bool, own: seq<Step>, t: nat)
  {
    && |own| == 2
    && if ok then own[0].Settle? && own[0].t == t && own[0].reported && own[1] == Record(t)
       else Unreported(own[0], t) && own[1].Reread? && own[1].t == t
  }

  lemma AppendTwice(a: seq<Step>, b: seq<Step>, s: Step)
    ensures (a + b) + [s] == a + (b + [s])
  {
  }

  lemma OwnStepsAre(ok: bool, own: seq<Step>, all: seq<Step>, t: nat)
    requires PaidIn(ok, own, t) && all == [CountBalance(t)] + own + [Release(t)]
    ensures if ok then Succeeded(all, t) else Failed(all, t)
  {
  }

  lemma OnlySuccessRecords(trace: seq<Step>, ok: bool, t: nat)
    requires if ok then Succeeded(Runs.OwnSteps(trace, t), t) else Failed(Runs.OwnSteps(trace, t), t)
    ensures ok <==> Record(t) in trace
  {
    Runs.OwnStepsMembers(trace, Record(t), t);
  }

  lemma LiveIsIssued(origin: World, trace: seq<Step>, world: World)
    requires Led(origin, trace, world)
    ensures forall r :: r in world.pool.live ==> r in world.issued
  {
    LedInv(origin, trace, world);
  }

  /** What a call leaves of a payment. */
  ghost predicate Completed(w: World, payment: seq<ObjectId>, ok: bool, smashed: int, released: seq<GasCoin>)
  {
    && GivenBack(w, payment, released) && smashed == |Missing(w.chain, payment)|
    && (ok ==> |released| == 1 && payment != [] && released[0].id == payment[0] && smashed == |payment| - 1)
  }

  predicate Succeeded(own: seq<Step>, t: nat)
  {
    && |own| == 4 && own[0] == CountBalance(t) && own[1].Settle? && own[1].t == t && own[1].reported
    && own[2] == Record(t) && own[3] == Release(t)
  }

  predicate Failed(own: seq<Step>, t: nat)
  {
    && |own| == 4 && own[0] == CountBalance(t) && Unreported(own[1], t)
    && own[2].Reread? && own[2].t == t && own[3] == Release(t)
  }

  /** Those of the ids that the chain no longer has. */
  function Missing(chain: Chain, ids: seq<ObjectId>): set<ObjectId> { set x | x in ids && x !in chain }

  lemma MissingAreTheRest(origin: World, trace: seq<Step>, world: World, ids: seq<ObjectId>, coins: seq<GasCoin>)
    requires Led(origin, trace, world) && Distinct(ids) && GivenBack(world, ids, coins)
    ensures |Missing(world.chain, ids)| == |ids| - |coins|
  {
    LedInv(origin, trace, world);
    QueueIsDistinct(world);
    SuffixIsDistinct(world.pool.available, coins);
    CountMissing(world.chain, ids, Ids(coins));
  }

  lemma CountMissing(chain: Chain, ids: seq<ObjectId>, left: seq<ObjectId>)
    requires Distinct(ids) && Distinct(left) && forall x :: x in left <==> x in ids && x in chain
    ensures |Missing(chain, ids)| == |ids| - |left|
  {
    Runs.DistinctCardinality(ids);
    Runs.DistinctCardinality(left);
    var there := set x | x in left;
    assert (set x | x in ids) == there + Missing(chain, ids) && there !! Missing(chain, ids);
  }

  lemma QueueIsDistinct(w: World)
    requires InCustody(w)
    ensures Distinct(Ids(w.pool.available))
  {
    forall x ensures multiset(Ids(w.pool.available))[x] <= 1 { assert Places(w, x) <= 1; }
    DistinctCounts(Ids(w.pool.available));
  }

  lemma SuffixIsDistinct(queue: seq<GasCoin>, coins: seq<GasCoin>)
    requires Distinct(Ids(queue)) && |coins| <= |queue| && queue[|queue| - |coins|..] == coins
    ensures Distinct(Ids(coins))
  {
    var k := |queue| - |coins|;
    forall i, j | 0 <= i < j < |coins| ensures Ids(coins)[i] != Ids(coins)[j] {
      assert Ids(queue)[k + i] != Ids(queue)[k + j];
      assert coins[i] == queue[k + i] && coins[j] == queue[k + j];
    }
  }

  lemma NoneMeanwhile(origin: World, trace: seq<Step>, world: World, longer: seq<Step>, later: World, t: nat)
    requires Led(origin, trace, world) && Led(origin, longer, later) && trace <= longer
    requires t < |world.tasks| && t < |later.tasks| && later.tasks[t] == world.tasks[t]
    ensures Runs.OwnSteps(longer, t) == Runs.OwnSteps(trace, t)
  {
    assert longer[..|trace|] == trace;
    Runs.NoStepsMeanwhile(origin, longer, |trace|, t);
  }

  lemma FundedCoinsFit(w: World, coins: seq<GasCoin>)
    requires GoodChain(w.chain) && Enabled(w, Fund(coins))
    ensures AllFit(coins)
  {
    forall i | 0 <= i < |coins| ensures coins[i].Fits() { assert coins[i] in coins; }
  }

  function DerivedCoin(gas: ObjectId, total: nat, effects: Effects): GasCoin
  {
    GasCoin(gas, effects.version, effects.digest, DerivedBalance(total, effects.net))
  }

  /** What a task is about to release of these ids; the others have been smashed. */
  ghost predicate Remaining(w: World, ids: seq<ObjectId>, coins: seq<GasCoin>)
  {
    && (forall x :: x in Ids(coins) ==> x in ids)
    && (forall x :: x in ids ==> x in Ids(coins) || x in w.smashed)
  }

  /** The coins at the end of the queue are exactly those of the ids that exist, as the chain has them. */
  ghost predicate GivenBack(w: World, ids: seq<ObjectId>, coins: seq<GasCoin>)
  {
    && |coins| <= |w.pool.available| && w.pool.available[|w.pool.available| - |coins|..] == coins
    && OnChain(w.chain, coins) && forall x :: x in Ids(coins) <==> x in ids && x in w.chain
  }

  lemma RemainingAreAlive(origin: World, trace: seq<Step>, world: World, t: nat, ids: seq<ObjectId>, coins: seq<GasCoin>)
    requires Led(origin, trace, world) && t < |world.tasks| && world.tasks[t] == Releasing(coins) && Remaining(world, ids, coins)
    ensures OnChain(world.chain, coins) && forall x :: x in Ids(coins) <==> x in ids && x in world.chain
  {
    LedInv(origin, trace, world);
    assert TaskAgrees(world, world.tasks[t]);
  }

  lemma StepSmashes(w: World, s: Step)
    requires Enabled(w, s)
    ensures w.smashed <= Apply(w, s).smashed
  {
  }

  lemma {:induction false} SmashedGrows(origin: World, steps: seq<Step>, i: nat)
    requires GasStation.Init(origin) && GasStation.Runs(origin, steps) && i <= |steps| && GasStation.Runs(origin, steps[..i])
    ensures After(origin, steps[..i]).smashed <= After(origin, steps).smashed
    decreases |steps|
  {
    if i == |steps| {
      assert steps[..i] == steps;
    } else {
      var n := |steps| - 1;
      assert steps[..n][..i] == steps[..i];
      SmashedGrows(origin, steps[..n], i);
      StepSmashes(After(origin, steps[..n]), steps[n]);
    }
  }

  lemma SmashedForGood(origin: World, trace: seq<Step>, world: World, longer: seq<Step>, later: World)
    requires Led(origin, trace, world) && Led(origin, longer, later) && trace <= longer
    ensures world.smashed <= later.smashed
  {
    assert longer[..|trace|] == trace;
    SmashedGrows(origin, longer, |trace|);
  }

  /** The id is one of a reservation that has lapsed by now. */
  ghost predicate InLapsed(p: Pool, now: nat, x: ObjectId)
  {
    exists r :: r in Lapsed(p, now) && x in p.live[r]
  }

  lemma {:induction false} GatherMembers(live: map<nat, seq<ObjectId>>, order: seq<nat>)
    requires forall r :: r in order ==> r in live
    ensures forall x :: x in Gather(live, order) <==> exists r :: r in order && x in live[r]
  {
    if order != [] {
      GatherMembers(live, order[1..]);
      assert forall r :: r in order <==> r == order[0] || r in order[1..];
    }
  }

  lemma LapsedHaveCoins(p: Pool, now: nat, order: seq<nat>)
    requires Enumerates(order, Lapsed(p, now)) && forall x :: x in p.live ==> p.live[x] != []
    ensures Gather(p.live, order) != [] <==> Lapsed(p, now) != {}
  {
    if order != [] { assert order[0] in order; }
    if Lapsed(p, now) != {} {
      var r :| r in Lapsed(p, now);
      assert r in order;
    }
  }

  lemma RereadStep(w: World, t: nat, coins: seq<GasCoin>)
    requires Inv(w) && t < |w.tasks| && w.tasks[t].Rereading? && Answer(w.chain, w.tasks[t].ids, coins)
    ensures Enabled(w, Reread(t, Ids(coins))) && |coins| <= |w.tasks[t].ids|
    ensures Apply(w, Reread(t, Ids(coins))) == Goto(w, t, Releasing(coins))
    ensures Remaining(w, w.tasks[t].ids, coins)
  {
    assert TaskAgrees(w, w.tasks[t]);
    RereadFindsHeld(w, t, Ids(coins));
    RereadTask(w, t, Ids(coins));
    assert Apply(w, Reread(t, Ids(coins))).tasks[t].coins == coins;
  }

  /** A reservation settled at one point of a run is settled in the same way at every later one. */
  lemma SettledForGood(origin: World, trace: seq<Step>, world: World, longer: seq<Step>, later: World, r: nat)
    requires Led(origin, trace, world) && Led(origin, longer, later) && trace <= longer
    requires r in world.issued && r !in world.pool.live
    ensures Runs.SettledAlike(world, later, r)
  {
    assert longer[..|trace|] == trace;
    Runs.SettledAtMostOnce(origin, longer, |trace|, r);
  }

  lemma AllSettledForGood(origin: World, trace: seq<Step>, world: World, longer: seq<Step>, later: World, due: set<nat>)
    requires Led(origin, trace, world) && Led(origin, longer, later) && trace <= longer
    requires forall r :: r in due ==> r in world.issued && r !in world.pool.live
    ensures forall r :: r in due ==> r !in later.pool.live
  {
    forall r | r in due ensures r !in later.pool.live { SettledForGood(origin, trace, world, longer, later, r); }
  }

  lemma LapsedAreIssued(origin: World, trace: seq<Step>, world: World, now: nat)
    requires Led(origin, trace, world)
    ensures forall r :: r in Lapsed(world.pool, now) ==> r in world.issued
  {
    LedInv(origin, trace, world);
  }

  lemma AddWraps(a: nat, b: nat)
    ensures WrapU64(WrapU64(a) + b) == WrapU64(a + b)
  {
    var q := a / TWO_64;
    assert a == q * TWO_64 + a % TWO_64;
    assert a + b == (a % TWO_64 + b) + q * TWO_64;
  }

  lemma ReserveStep(w: World, budget: nat, deadline: nat)
    requires Enabled(w, Step.ReserveGas(budget, deadline))
    ensures var next := Apply(w, Step.ReserveGas(budget, deadline));
            && next.pool == Reserve(w.pool, budget, deadline).0 && next.chain == w.chain && next.recorded == w.recorded
            && next.pool.StatsReady() && next.pool.nextId <= w.pool.nextId + 1
            && (Reserve(w.pool, budget, deadline).1.None? ==> next == w)
  {
    ReservationIsExact(w.pool, budget, deadline);
  }

  lemma BeginStep(w: World, id: nat, payment: seq<ObjectId>)
    requires Enabled(w, Begin(id, payment))
    ensures var next := Apply(w, Begin(id, payment));
            if id in w.pool.live then
              && next.pool == Ready(w.pool, id).value && next.chain == w.chain && next.recorded == w.recorded
              && next.tasks == w.tasks + [Taken(payment)] && next.pool.nextId == w.pool.nextId
              && id !in next.pool.live && id in next.taken && next.issued == w.issued
              && next.pool.count == w.pool.count && next.pool.total == w.pool.total
            else next == w
  {
  }

  lemma SettleStep(w: World, t: nat, payment: seq<ObjectId>, total: nat, net: int, coin: GasCoin, reported: bool)
    requires t < |w.tasks| && w.tasks[t] == Counted(payment, total) && payment != []
    requires coin.Fits() && coin.id == payment[0] && coin.balance == ChainSum(w.chain, payment) - net
    ensures Enabled(w, Settle(t, net, coin.version, coin.digest, reported))
    ensures var next := Apply(w, Settle(t, net, coin.version, coin.digest, reported));
            && next.chain == Smash(w.chain, payment, coin) && next.pool == w.pool && next.recorded == w.recorded
            && (forall x :: x in payment[1..] ==> x in next.smashed)
            && next.tasks == w.tasks[t := if reported then Executed(payment, total, net, payment[0], coin.version, coin.digest)
                                          else Rereading(payment)]
  {
    assert coin == GasCoin(payment[0], coin.version, coin.digest, ChainSum(w.chain, payment) - net);
  }
}
