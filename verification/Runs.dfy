/** What a user of the gas station may rely on, over whole runs. */
module Runs {
  import opened Wrappers
  import opened Text
  import opened CoinText
  import opened GasPool
  import opened GasStation
  import opened Custody
  import Storage

  /** In every reachable world each tracked coin is in exactly one place, every queue entry is the coin
      as the chain has it, and the statistics are those of the queue. */
  lemma CustodyPartition(w0: World, steps: seq<Step>)
    requires Init(w0) && Runs(w0, steps)
    ensures var w := After(w0, steps);
            && (forall id :: Places(w, id) == if id in w.tracked then 1 else 0)
            && OnChain(w.chain, w.pool.available)
            && w.pool.StatsAgree()
  {
    ReachableWorldsKeepInv(w0, steps);
  }

  // ---------- What the steps of a run add up to ----------

  /** Balance of the coins given to the pool. */
  function Funded(steps: seq<Step>): int
  {
    if steps == [] then 0 else Funded(steps[..|steps| - 1]) + FundedBy(steps[|steps| - 1])
  }

  function FundedBy(s: Step): int { if s.Fund? then Sum(s.coins) else 0 }

  /** Net usage charged on chain, for the executions that are reported or for the others. */
  function Charged(steps: seq<Step>, reported: bool): int
  {
    if steps == [] then 0 else Charged(steps[..|steps| - 1], reported) + ChargedBy(steps[|steps| - 1], reported)
  }

  function ChargedBy(s: Step, reported: bool): int { if s.Settle? && s.reported == reported then s.net else 0 }

  function FundedIds(steps: seq<Step>): set<ObjectId>
  {
    if steps == [] then {}
    else FundedIds(steps[..|steps| - 1]) + NewIds(steps[|steps| - 1])
  }

  function NewIds(s: Step): set<ObjectId> { if s.Fund? then set id | id in Ids(s.coins) else {} }

  lemma PendingMore(tasks: seq<Task>, task: Task)
    ensures Pending(tasks + [task]) == Pending(tasks) + NetOf(task)
  {
    assert (tasks + [task])[..|tasks|] == tasks;
  }

  /** How one step moves the counters. */
  lemma StepCounts(w: World, s: Step)
    requires Enabled(w, s)
    ensures Apply(w, s).added == w.added + FundedBy(s)
    ensures Apply(w, s).unrecorded == w.unrecorded + ChargedBy(s, false)
    ensures Apply(w, s).recorded + Pending(Apply(w, s).tasks) == w.recorded + Pending(w.tasks) + ChargedBy(s, true)
  {
    var next := Apply(w, s);
    match s
    case Begin(id, payment) => PendingMore(w.tasks, Taken(payment));
    case ExpireReservations(now, batch) => PendingMore(w.tasks, Rereading(Gather(w.pool.live, batch)));
    case CountBalance(t) => PendingUpdate(w.tasks, t, next.tasks[t]);
    case Reject(t) => PendingUpdate(w.tasks, t, next.tasks[t]);
    case Settle(t, net, version, digest, reported) =>
      SettleShape(w, t, net, version, digest, reported);
      PendingUpdate(w.tasks, t, next.tasks[t]);
    case Record(t) => PendingUpdate(w.tasks, t, next.tasks[t]);
    case Reread(t, order) => PendingUpdate(w.tasks, t, next.tasks[t]);
    case Release(t) => PendingUpdate(w.tasks, t, next.tasks[t]);
    case _ =>
  }

  /** The counters are sums over the steps of the run. */
  lemma {:induction false} CountersAddUp(w0: World, steps: seq<Step>)
    requires Init(w0) && Runs(w0, steps)
    ensures var w := After(w0, steps);
            && w.added == Funded(steps) && w.unrecorded == Charged(steps, false)
            && w.recorded + Pending(w.tasks) == Charged(steps, true)
  {
    if steps != [] {
      var n := |steps| - 1;
      CountersAddUp(w0, steps[..n]);
      StepCounts(After(w0, steps[..n]), steps[n]);
    }
  }

  lemma SettleTracks(w: World, s: Step)
    requires Inv(w) && Enabled(w, s) && s.Settle? && w.tracked !! w.smashed
    ensures Apply(w, s).tracked !! Apply(w, s).smashed
    ensures Apply(w, s).tracked + Apply(w, s).smashed == w.tracked + w.smashed
  {
    SettleShape(w, s.t, s.net, s.version, s.digest, s.reported);
    SettlePays(w, s.t);
    var gone := Gone(w.tasks[s.t].payment);
    assert gone <= w.tracked;
    assert Apply(w, s).tracked == w.tracked - gone && Apply(w, s).smashed == w.smashed + gone;
  }

  lemma FundTracks(w: World, s: Step)
    requires Inv(w) && Enabled(w, s) && s.Fund? && w.tracked !! w.smashed
    ensures Apply(w, s).tracked !! Apply(w, s).smashed
    ensures Apply(w, s).tracked + Apply(w, s).smashed == w.tracked + w.smashed + NewIds(s)
  {
    forall id | id in Ids(s.coins) ensures id !in w.smashed {
      var i :| 0 <= i < |s.coins| && s.coins[i].id == id;
      assert s.coins[i] in s.coins;
    }
  }

  lemma OthersTrack(w: World, s: Step)
    requires Enabled(w, s) && !s.Settle? && !s.Fund?
    ensures Apply(w, s).tracked == w.tracked && Apply(w, s).smashed == w.smashed
  {
  }

  lemma StepTracks(w: World, s: Step)
    requires Inv(w) && Enabled(w, s) && w.tracked !! w.smashed
    ensures Apply(w, s).tracked !! Apply(w, s).smashed
    ensures Apply(w, s).tracked + Apply(w, s).smashed == w.tracked + w.smashed + NewIds(s)
  {
    if s.Settle? { SettleTracks(w, s); } else if s.Fund? { FundTracks(w, s); } else { OthersTrack(w, s); }
  }

  /** Every coin ever given to the pool, and no other, is either in custody, where the chain has it, or
      has been merged away, and then the chain never has it again. */
  lemma {:induction false} NoCoinIsForgotten(w0: World, steps: seq<Step>)
    requires Init(w0) && Runs(w0, steps)
    ensures var w := After(w0, steps);
            && w.tracked + w.smashed == FundedIds(steps) && w.tracked !! w.smashed
            && w.tracked <= w.chain.Keys && w.smashed !! w.chain.Keys
  {
    ReachableWorldsKeepInv(w0, steps);
    if steps != [] {
      var n := |steps| - 1;
      NoCoinIsForgotten(w0, steps[..n]);
      ReachableWorldsKeepInv(w0, steps[..n]);
      StepTracks(After(w0, steps[..n]), steps[n]);
    }
  }

  /** Money is conserved: the coins in custody are worth what was given to the pool less all that the
      chain charged; and what was charged in reported executions has been passed to `update_usage`,
      but for those executions that are between the chain and that call. */
  lemma LedgerConservation(w0: World, steps: seq<Step>)
    requires Init(w0) && Runs(w0, steps)
    ensures var w := After(w0, steps);
            && Worth(w.chain, w.tracked) == Funded(steps) - Charged(steps, true) - Charged(steps, false)
            && w.recorded == Charged(steps, true) - Pending(w.tasks)
            && ((forall t :: 0 <= t < |w.tasks| ==> !w.tasks[t].Executed?) ==>
                  Worth(w.chain, w.tracked) == Funded(steps) - w.recorded - Charged(steps, false))
  {
    ReachableWorldsKeepInv(w0, steps);
    CountersAddUp(w0, steps);
    var w := After(w0, steps);
    if forall t :: 0 <= t < |w.tasks| ==> !w.tasks[t].Executed? { NothingPending(w.tasks); }
  }

  lemma {:induction false} NothingPending(tasks: seq<Task>)
    requires forall t :: 0 <= t < |tasks| ==> !tasks[t].Executed?
    ensures Pending(tasks) == 0
  {
    if tasks != [] { NothingPending(tasks[..|tasks| - 1]); }
  }

  /** Nothing is charged unrecorded in a run in which no failed call has touched the chain; then custody
      is worth what was given less what was recorded, once nothing is between the chain and the record. */
  lemma NothingUnrecorded(w0: World, steps: seq<Step>)
    requires Init(w0) && Runs(w0, steps)
    requires forall i :: 0 <= i < |steps| ==> (steps[i].Settle? ==> steps[i].reported)
    ensures var w := After(w0, steps);
            && w.unrecorded == Charged(steps, false) == 0
            && Worth(w.chain, w.tracked) == Funded(steps) - w.recorded - Pending(w.tasks)
  {
    NoneUnreported(steps);
    CountersAddUp(w0, steps);
    LedgerConservation(w0, steps);
  }

  lemma {:induction false} NoneUnreported(steps: seq<Step>)
    requires forall i :: 0 <= i < |steps| ==> (steps[i].Settle? ==> steps[i].reported)
    ensures Charged(steps, false) == 0
  {
    if steps != [] {
      var n := |steps| - 1;
      NoneUnreported(steps[..n]);
      assert steps[n].Settle? ==> steps[n].reported;
    }
  }

  /** Whether a step puts a coin into the queue. */
  ghost predicate AddsACoin(w: World, s: Step)
    requires Enabled(w, s)
  {
    (s.Fund? && s.coins != []) || (s.Release? && w.tasks[s.t].coins != [])
  }

  ghost predicate EverAdded(w0: World, steps: seq<Step>)
    requires Runs(w0, steps)
  {
    steps != [] && (EverAdded(w0, steps[..|steps| - 1]) || AddsACoin(After(w0, steps[..|steps| - 1]), steps[|steps| - 1]))
  }

  lemma StepMarks(w: World, s: Step)
    requires Enabled(w, s)
    ensures Apply(w, s).pool.initialized <==> w.pool.initialized || AddsACoin(w, s)
    ensures Apply(w, s).pool.initLock == w.pool.initLock
  {
    if s.ReserveGas? { ReservationRecords(w.pool, s.budget, s.deadline); }
  }

  /** The pool is marked initialized exactly when some step of the run has put a coin into the queue. */
  lemma {:induction false} InitializedExactly(w0: World, steps: seq<Step>)
    requires Init(w0) && Runs(w0, steps)
    ensures After(w0, steps).pool.initialized <==> EverAdded(w0, steps)
    ensures After(w0, steps).pool.initLock.None?
  {
    if steps != [] {
      var n := |steps| - 1;
      InitializedExactly(w0, steps[..n]);
      StepMarks(After(w0, steps[..n]), steps[n]);
    }
  }

  /** A coin leaves custody only by being merged into another payment coin on chain. */
  lemma LeavesOnlyBySmashing(w: World, s: Step, id: ObjectId)
    requires Inv(w) && Enabled(w, s)
    requires id in w.tracked && id !in Apply(w, s).tracked
    ensures s.Settle? && id in Gone(w.tasks[s.t].payment) && id !in Apply(w, s).chain
  {
    if s.Settle? {
      var payment := w.tasks[s.t].payment;
      SettleShape(w, s.t, s.net, s.version, s.digest, s.reported);
      SettlePays(w, s.t);
      SmashMembers(w.chain, payment, SettledCoin(w, s.t, s.net, s.version, s.digest));
    }
  }

  /** The ids that the chain no longer has. */
  function Dead(chain: Chain, ids: seq<ObjectId>): seq<ObjectId>
  {
    if ids == [] then []
    else (if ids[0] in chain then [] else [ids[0]]) + Dead(chain, ids[1..])
  }

  lemma {:induction false} AliveAndDead(chain: Chain, ids: seq<ObjectId>)
    ensures |Alive(chain, ids)| + |Dead(chain, ids)| == |ids|
    ensures forall id :: id in Dead(chain, ids) <==> id in ids && id !in chain
  {
    if ids != [] {
      AliveAndDead(chain, ids[1..]);
      assert forall id :: id in ids <==> id == ids[0] || id in ids[1..];
    }
  }

  /** The coins that a step gives a task to release. */
  ghost function UpdatedCoins(w: World, s: Step): seq<GasCoin>
    requires Enabled(w, s) && (s.Record? || s.Reread?)
  {
    if s.Record? then
      var Executed(_, total, net, gas, version, digest) := w.tasks[s.t];
      [GasCoin(gas, version, digest, DerivedBalance(total, net))]
    else
      assert s.Reread?;
      seq(|s.order|, i requires 0 <= i < |s.order| => assert s.order[i] in s.order; w.chain[s.order[i]])
  }

  /** `payment_count - updated_coins.len()` never underflows, on either branch, and counts the coins merged
      away: after a success all but the first, after a failure those that the chain no longer has. */
  lemma SmashedCount(w: World, s: Step)
    requires Inv(w) && Enabled(w, s) && (s.Record? || s.Reread?)
    ensures Apply(w, s).tasks[s.t] == Releasing(UpdatedCoins(w, s))
    ensures s.Record? ==> |w.tasks[s.t].payment| - |UpdatedCoins(w, s)| == |w.tasks[s.t].payment[1..]| >= 0
    ensures s.Reread? ==>
              && |w.tasks[s.t].ids| - |UpdatedCoins(w, s)| == |Dead(w.chain, w.tasks[s.t].ids)| >= 0
              && forall id :: id in Dead(w.chain, w.tasks[s.t].ids) ==> id in w.smashed
  {
    assert TaskAgrees(w, w.tasks[s.t]);
    if s.Reread? {
      var ids := w.tasks[s.t].ids;
      RereadFindsHeld(w, s.t, s.order);
      AliveAndDead(w.chain, ids);
      assert |s.order| == |multiset(s.order)| && |Alive(w.chain, ids)| == |multiset(Alive(w.chain, ids))|;
    }
  }

  /** A settlement merges all coins but the first, each of them a different one. */
  lemma SettlementSmashesAllButOne(w: World, t: nat)
    requires Inv(w) && t < |w.tasks| && w.tasks[t].Counted?
    ensures |w.tasks[t].payment| - 1 == |Gone(w.tasks[t].payment)| >= 0
  {
    SettlePays(w, t);
    var payment := w.tasks[t].payment;
    assert forall i :: 0 <= i < |payment[1..]| ==> payment[1..][i] == payment[i + 1];
    DistinctCardinality(payment[1..]);
  }

  lemma {:induction false} DistinctCardinality(ids: seq<ObjectId>)
    requires Distinct(ids)
    ensures |set id | id in ids| == |ids|
  {
    if ids != [] {
      DistinctCardinality(ids[1..]);
      assert forall i :: 0 < i < |ids| ==> ids[1..][i - 1] == ids[i];
      assert (set id | id in ids) == {ids[0]} + set id | id in ids[1..];
      assert ids[0] !in ids[1..];
    }
  }

  /** The storage never hands one coin to two callers. */
  lemma NeverReservedTwice(w: World, r: nat, s: nat, id: ObjectId)
    requires Inv(w) && r in w.pool.live && s in w.pool.live && r != s
    ensures !(id in w.pool.live[r] && id in w.pool.live[s])
    ensures id in w.pool.live[r] ==> id !in Ids(w.pool.available)
  {
    LiveIdsRemove(w.pool.live, r, w.pool.nextId);
    LiveIdsRemove(w.pool.live - {r}, s, w.pool.nextId);
    assert Places(w, id) <= 1;
    assert id in w.pool.live[r] <==> multiset(w.pool.live[r])[id] > 0;
    assert id in w.pool.live[s] <==> multiset(w.pool.live[s])[id] > 0;
    assert id in Ids(w.pool.available) <==> multiset(Ids(w.pool.available))[id] > 0;
  }

  /** Nothing checks that a transaction pays with the coins of its reservation. Custody survives
      exactly when it does. */
  lemma PaymentMustBeTheReservation(w: World, id: nat, payment: seq<ObjectId>)
    requires Inv(w) && id in w.pool.live
    ensures InCustody(BeginWith(w, id, payment)) <==> multiset(payment) == multiset(w.pool.live[id])
  {
    var next := BeginWith(w, id, payment);
    LiveIdsRemove(w.pool.live, id, w.pool.nextId);
    forall x ensures Places(next, x) == Places(w, x) - multiset(w.pool.live[id])[x] + multiset(payment)[x] {
      HeldBySnoc(w.chain, w.tasks, Taken(payment), x);
    }
    if InCustody(next) {
      forall x ensures multiset(payment)[x] == multiset(w.pool.live[id])[x] {
        assert Places(next, x) == Places(w, x);
      }
    }
    if multiset(payment) == multiset(w.pool.live[id]) { SamePlaces(w, next); }
  }

  // ---------- Settlement of reservations ----------

  /** The reservation a step makes, with the deadline asked for. */
  ghost function Issues(before: Pool, s: Step, after: Pool): map<nat, nat>
  {
    if s.ReserveGas? && after.live != before.live then map[after.nextId := s.deadline] else map[]
  }

  /** The reservation a step takes for execution: the one it names, when it is live. */
  ghost function Takes(before: Pool, s: Step): set<nat>
  {
    if s.Begin? && s.id in before.live then {s.id} else {}
  }

  /** The reservations a sweep removes. */
  ghost function Sweeps(before: Pool, s: Step, after: Pool): set<nat>
  {
    if s.ExpireReservations? then before.live.Keys - after.live.Keys else {}
  }

  ghost function IssuedIn(w0: World, steps: seq<Step>): map<nat, nat>
    requires Runs(w0, steps)
  {
    if steps == [] then map[] else
      var n := |steps| - 1;
      IssuedIn(w0, steps[..n]) + Issues(After(w0, steps[..n]).pool, steps[n], After(w0, steps).pool)
  }

  ghost function TakenIn(w0: World, steps: seq<Step>): set<nat>
    requires Runs(w0, steps)
  {
    if steps == [] then {} else
      var n := |steps| - 1;
      TakenIn(w0, steps[..n]) + Takes(After(w0, steps[..n]).pool, steps[n])
  }

  ghost function ExpiredIn(w0: World, steps: seq<Step>): set<nat>
    requires Runs(w0, steps)
  {
    if steps == [] then {} else
      var n := |steps| - 1;
      ExpiredIn(w0, steps[..n]) + Sweeps(After(w0, steps[..n]).pool, steps[n], After(w0, steps).pool)
  }

  /** The step adds to each record what it does, and nothing else. */
  ghost predicate Remembers(w: World, s: Step, next: World)
  {
    && next.issued == w.issued + Issues(w.pool, s, next.pool)
    && next.taken == w.taken + Takes(w.pool, s)
    && next.expired == w.expired + Sweeps(w.pool, s, next.pool)
  }

  lemma ReserveRemembers(w: World, s: Step)
    requires Numbered(w.pool) && Enabled(w, s) && s.ReserveGas?
    ensures Remembers(w, s, Apply(w, s))
  {
    GrantIsNew(w.pool, s.budget, s.deadline);
  }

  lemma SweepRemembers(w: World, s: Step)
    requires Enabled(w, s) && s.ExpireReservations?
    ensures Remembers(w, s, Apply(w, s))
  {
    assert w.pool.live.Keys - Expire(w.pool, s.now).live.Keys == Lapsed(w.pool, s.now);
  }

  lemma OthersRemember(w: World, s: Step)
    requires Enabled(w, s) && !s.ReserveGas? && !s.ExpireReservations?
    ensures Remembers(w, s, Apply(w, s))
  {
    var next := Apply(w, s);
    assert next.issued == w.issued && next.expired == w.expired;
    assert next.taken == w.taken + Takes(w.pool, s);
    assert w.issued + map[] == w.issued;
  }

  lemma StepRemembers(w: World, s: Step)
    requires Numbered(w.pool) && Enabled(w, s)
    ensures Remembers(w, s, Apply(w, s))
  {
    if s.ReserveGas? { ReserveRemembers(w, s); } else if s.ExpireReservations? { SweepRemembers(w, s); } else { OthersRemember(w, s); }
  }

  lemma GrantIsNew(p: Pool, budget: nat, deadline: nat)
    requires p.StatsReady() && Numbered(p)
    ensures var (q, grant) := Reserve(p, budget, deadline);
            if grant.None? then q == p else grant.value.id == q.nextId && q.live != p.live
  {
    ReservationIsExact(p, budget, deadline);
    var (q, grant) := Reserve(p, budget, deadline);
    if grant.Some? { assert q.nextId in q.live && q.nextId !in p.live; }
  }

  /** The records of a world are what the run has done. */
  lemma {:induction false} RecordsAreTheSteps(w0: World, steps: seq<Step>)
    requires Init(w0) && Runs(w0, steps)
    ensures var w := After(w0, steps);
            w.issued == IssuedIn(w0, steps) && w.taken == TakenIn(w0, steps) && w.expired == ExpiredIn(w0, steps)
  {
    if steps != [] {
      var n := |steps| - 1;
      RecordsAreTheSteps(w0, steps[..n]);
      ReachableWorldsKeepInv(w0, steps[..n]);
      StepRemembers(After(w0, steps[..n]), steps[n]);
    }
  }

  /** A settled reservation stays settled, in the way it was, whatever happens next. */
  lemma StaysSettled(w: World, s: Step, r: nat)
    requires Inv(w) && Enabled(w, s) && r in w.issued
    ensures r in Apply(w, s).issued && Apply(w, s).issued[r] == w.issued[r]
    ensures r !in w.pool.live ==> r !in Apply(w, s).pool.live
    ensures r in w.taken ==> r in Apply(w, s).taken
    ensures r in w.expired ==> r in Apply(w, s).expired
  {
    if s.ReserveGas? { GrantsSomething(w.pool, s.budget, s.deadline); }
  }

  /** At `later` the reservation is settled just as it was at `earlier`. */
  ghost predicate SettledAlike(earlier: World, later: World, r: nat)
  {
    && r in earlier.issued && r in later.issued && later.issued[r] == earlier.issued[r]
    && r !in earlier.pool.live && r !in later.pool.live
    && (r in earlier.taken <==> r in later.taken) && (r in earlier.expired <==> r in later.expired)
    && (r in later.taken <==> r !in later.expired)
  }

  lemma SettledAlikeStep(earlier: World, w: World, s: Step, r: nat)
    requires Inv(w) && Enabled(w, s) && SettledAlike(earlier, w, r)
    ensures SettledAlike(earlier, Apply(w, s), r)
  {
    StepKeepsInv(w, s);
    StaysSettled(w, s, r);
  }

  /** Reservation ids are never reused, and each is settled at most once: a reservation that is no
      longer live at some point of a run is not live at any later one, and it has been taken for
      execution or expired, never both. */
  lemma {:induction false} SettledAtMostOnce(w0: World, steps: seq<Step>, i: nat, r: nat)
    requires Init(w0) && Runs(w0, steps) && i <= |steps| && Runs(w0, steps[..i])
    requires r in After(w0, steps[..i]).issued && r !in After(w0, steps[..i]).pool.live
    ensures SettledAlike(After(w0, steps[..i]), After(w0, steps), r)
    decreases |steps|
  {
    if i == |steps| {
      ReachableWorldsKeepInv(w0, steps);
      assert steps[..i] == steps;
    } else {
      var n := |steps| - 1;
      assert steps[..n][..i] == steps[..i];
      SettledAtMostOnce(w0, steps[..n], i, r);
      ReachableWorldsKeepInv(w0, steps[..n]);
      SettledAlikeStep(After(w0, steps[..i]), After(w0, steps[..n]), steps[n], r);
    }
  }

  /** A live reservation expires with the first sweep at or after the deadline it was given, no sooner. */
  lemma ExpiresOnTime(w: World, now: nat, batch: seq<nat>, r: nat)
    requires Inv(w) && Enabled(w, ExpireReservations(now, batch)) && r in w.pool.live
    ensures var next := Apply(w, ExpireReservations(now, batch));
            && r in w.issued
            && (r in next.pool.live <==> w.issued[r] > now)
            && (r in next.expired <==> w.issued[r] <= now)
  {
    assert r in w.pool.expiry && w.pool.expiry[r] == w.issued[r];
  }

  /** In every reachable world the text formats can carry the pool, so the storage calls are defined. */
  lemma ReachablePoolsArePrintable(w: World)
    requires Inv(w) && w.pool.nextId < U64_MAX
    ensures Storage.Printable(w.pool)
  {
    forall i | 0 <= i < |w.pool.available| ensures w.pool.available[i].Fits() {
      var c := w.pool.available[i];
      assert w.chain[c.id].Fits();
    }
    forall r | r in w.pool.live ensures Storage.PrintableIds(w.pool.live[r]) {
      forall i | 0 <= i < |w.pool.live[r]| ensures w.pool.live[r][i] != [] && CommaFree(w.pool.live[r][i]) {
        var id := w.pool.live[r][i];
        LiveIdsRemove(w.pool.live, r, w.pool.nextId);
        assert id in multiset(w.pool.live[r]);
        assert Places(w, id) > 0;
        assert w.chain[id].id == id && w.chain[id].Fits();
      }
    }
  }

  // ---------- The steps of one task ----------

  function TaskOf(s: Step): Option<nat>
  {
    match s
    case CountBalance(t) => Some(t)
    case Reject(t) => Some(t)
    case Settle(t, _, _, _, _) => Some(t)
    case Record(t) => Some(t)
    case Reread(t, _) => Some(t)
    case Release(t) => Some(t)
    case _ => None
  }

  function OwnSteps(steps: seq<Step>, t: nat): seq<Step>
  {
    if steps == [] then []
    else OwnSteps(steps[..|steps| - 1], t) + if TaskOf(steps[|steps| - 1]) == Some(t) then [steps[|steps| - 1]] else []
  }

  lemma OwnStepsMore(steps: seq<Step>, s: Step, t: nat)
    ensures OwnSteps(steps + [s], t) == OwnSteps(steps, t) + if TaskOf(s) == Some(t) then [s] else []
  {
    assert (steps + [s])[..|steps|] == steps;
  }

  lemma {:induction false} OwnStepsMembers(steps: seq<Step>, s: Step, t: nat)
    requires TaskOf(s) == Some(t)
    ensures s in steps <==> s in OwnSteps(steps, t)
  {
    if steps != [] {
      OwnStepsMembers(steps[..|steps| - 1], s, t);
      assert steps == steps[..|steps| - 1] + [steps[|steps| - 1]];
    }
  }

  /** How far a task is. */
  function Rank(task: Task): nat
  {
    match task
    case Taken(_) => 0
    case Counted(_, _) => 1
    case Executed(_, _, _, _, _, _) => 2
    case Rereading(_) => 2
    case Releasing(_) => 3
    case Finished => 4
  }

  /** A step brings its own task one further, and leaves the records of the others alone. */
  lemma StepRanks(w: World, s: Step, t: nat)
    requires Enabled(w, s) && t < |w.tasks|
    ensures t < |Apply(w, s).tasks|
    ensures TaskOf(s) == Some(t) ==> Rank(Apply(w, s).tasks[t]) == Rank(w.tasks[t]) + 1
    ensures TaskOf(s) != Some(t) ==> Apply(w, s).tasks[t] == w.tasks[t]
  {
  }

  lemma {:induction false} OwnStepsRank(w0: World, steps: seq<Step>, i: nat, t: nat)
    requires Init(w0) && Runs(w0, steps) && i <= |steps| && Runs(w0, steps[..i]) && t < |After(w0, steps[..i]).tasks|
    ensures t < |After(w0, steps).tasks| && OwnSteps(steps[..i], t) <= OwnSteps(steps, t)
    ensures Rank(After(w0, steps).tasks[t])
            == Rank(After(w0, steps[..i]).tasks[t]) + |OwnSteps(steps, t)| - |OwnSteps(steps[..i], t)|
    decreases |steps|
  {
    if i == |steps| {
      assert steps[..i] == steps;
    } else {
      var n := |steps| - 1;
      assert steps[..n][..i] == steps[..i];
      OwnStepsRank(w0, steps[..n], i, t);
      StepRanks(After(w0, steps[..n]), steps[n], t);
    }
  }

  /** While the record of a task stays as it is, the task takes no step. */
  lemma NoStepsMeanwhile(w0: World, steps: seq<Step>, i: nat, t: nat)
    requires Init(w0) && Runs(w0, steps) && i <= |steps| && Runs(w0, steps[..i]) && t < |After(w0, steps[..i]).tasks|
    requires t < |After(w0, steps).tasks| && After(w0, steps).tasks[t] == After(w0, steps[..i]).tasks[t]
    ensures OwnSteps(steps, t) == OwnSteps(steps[..i], t)
  {
    OwnStepsRank(w0, steps, i, t);
  }

  lemma {:induction false} NoStepsBefore(w0: World, steps: seq<Step>, t: nat)
    requires Init(w0) && Runs(w0, steps) && t >= |After(w0, steps).tasks|
    ensures OwnSteps(steps, t) == []
  {
    if steps != [] {
      var n := |steps| - 1;
      TasksStay(After(w0, steps[..n]), steps[n]);
      NoStepsBefore(w0, steps[..n], t);
    }
  }

  lemma TasksStay(w: World, s: Step)
    requires Enabled(w, s)
    ensures |w.tasks| <= |Apply(w, s).tasks| && (TaskOf(s).Some? ==> TaskOf(s).value < |w.tasks|)
  {
  }
}
