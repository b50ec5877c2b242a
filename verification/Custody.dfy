/** What every reachable world of the gas station satisfies: custody, agreement with the chain,
    conservation, and the settlement of reservations. */
module Custody {
  import opened Wrappers
  import opened Text
  import opened CoinText
  import opened GasPool
  import opened GasStation

  // ---------- Custody ----------

  /** The coins a task answers for. */
  function Held(chain: Chain, task: Task): multiset<ObjectId>
  {
    match task
    case Taken(payment) => multiset(payment)
    case Counted(payment, _) => multiset(payment)
    case Executed(_, _, _, gas, _, _) => multiset{gas}
    case Rereading(ids) => multiset(Alive(chain, ids))
    case Releasing(coins) => multiset(Ids(coins))
    case Finished => multiset{}
  }

  /** For each task, how often it answers for this coin. */
  function Counts(chain: Chain, tasks: seq<Task>, id: ObjectId): (counts: seq<nat>)
    ensures |counts| == |tasks|
  {
    seq(|tasks|, i requires 0 <= i < |tasks| => Held(chain, tasks[i])[id])
  }

  function Add(counts: seq<nat>): nat
  {
    if counts == [] then 0 else Add(counts[..|counts| - 1]) + counts[|counts| - 1]
  }

  /** How many of the tasks answer for this coin. */
  function HeldBy(chain: Chain, tasks: seq<Task>, id: ObjectId): nat
  {
    Add(Counts(chain, tasks, id))
  }

  lemma {:induction false} AddUpdate(counts: seq<nat>, t: nat, n: nat)
    requires t < |counts|
    ensures Add(counts[t := n]) + counts[t] == Add(counts) + n
    ensures Add(counts) >= counts[t]
  {
    var last := |counts| - 1;
    if t == last {
      assert counts[t := n][..last] == counts[..last];
    } else {
      AddUpdate(counts[..last], t, n);
      assert counts[t := n][..last] == counts[..last][t := n];
    }
  }

  /** In how many places of the system the coin is. */
  function Places(w: World, id: ObjectId): nat
  {
    multiset(Ids(w.pool.available))[id] + LiveIds(w.pool.live, w.pool.nextId)[id] + HeldBy(w.chain, w.tasks, id)
  }

  /** Each tracked coin is in exactly one place, and no other coin is in any. */
  ghost predicate InCustody(w: World)
  {
    forall id {:trigger Places(w, id)} {:trigger id in w.tracked} :: Places(w, id) == if id in w.tracked then 1 else 0
  }

  lemma HeldBySnoc(chain: Chain, tasks: seq<Task>, task: Task, id: ObjectId)
    ensures HeldBy(chain, tasks + [task], id) == HeldBy(chain, tasks, id) + Held(chain, task)[id]
  {
    var counts := Counts(chain, tasks, id);
    assert Counts(chain, tasks + [task], id) == counts + [Held(chain, task)[id]];
    assert (counts + [Held(chain, task)[id]])[..|counts|] == counts;
  }

  lemma HeldByUpdate(chain: Chain, tasks: seq<Task>, t: nat, task: Task, id: ObjectId)
    requires t < |tasks|
    ensures HeldBy(chain, tasks[t := task], id) + Held(chain, tasks[t])[id] == HeldBy(chain, tasks, id) + Held(chain, task)[id]
  {
    AddUpdate(Counts(chain, tasks, id), t, Held(chain, task)[id]);
    assert Counts(chain, tasks[t := task], id) == Counts(chain, tasks, id)[t := Held(chain, task)[id]];
  }

  lemma HeldByFrame(a: Chain, b: Chain, tasks: seq<Task>, id: ObjectId)
    requires forall t :: 0 <= t < |tasks| ==> Held(a, tasks[t]) == Held(b, tasks[t])
    ensures HeldBy(a, tasks, id) == HeldBy(b, tasks, id)
  {
    assert Counts(a, tasks, id) == Counts(b, tasks, id);
  }

  lemma HeldByAtLeast(chain: Chain, tasks: seq<Task>, t: nat, id: ObjectId)
    requires t < |tasks|
    ensures HeldBy(chain, tasks, id) >= Held(chain, tasks[t])[id]
  {
    AddUpdate(Counts(chain, tasks, id), t, 0);
  }

  lemma HeldByBoth(chain: Chain, tasks: seq<Task>, t: nat, u: nat, id: ObjectId)
    requires t < |tasks| && u < |tasks| && t != u
    ensures HeldBy(chain, tasks, id) >= Held(chain, tasks[t])[id] + Held(chain, tasks[u])[id]
  {
    HeldByUpdate(chain, tasks, t, Finished, id);
    HeldByAtLeast(chain, tasks[t := Finished], u, id);
  }

  /** A coin that a task answers for is tracked, and it is nowhere else. */
  lemma HeldExclusively(w: World, t: nat, id: ObjectId)
    requires InCustody(w) && t < |w.tasks| && id in Held(w.chain, w.tasks[t])
    ensures id in w.tracked && Held(w.chain, w.tasks[t])[id] == 1
    ensures id !in Ids(w.pool.available)
    ensures forall u :: 0 <= u < |w.tasks| && u != t ==> id !in Held(w.chain, w.tasks[u])
  {
    HeldByAtLeast(w.chain, w.tasks, t, id);
    assert Places(w, id) == if id in w.tracked then 1 else 0;
    assert id in Ids(w.pool.available) <==> multiset(Ids(w.pool.available))[id] > 0;
    forall u | 0 <= u < |w.tasks| && u != t ensures id !in Held(w.chain, w.tasks[u]) {
      HeldByBoth(w.chain, w.tasks, t, u, id);
    }
  }

  // ---------- Sequences of distinct ids ----------

  lemma {:induction false} AliveMembers(chain: Chain, ids: seq<ObjectId>)
    ensures forall id :: id in Alive(chain, ids) <==> id in ids && id in chain
    ensures |Alive(chain, ids)| <= |ids|
  {
    if ids != [] {
      AliveMembers(chain, ids[1..]);
      assert forall id :: id in ids <==> id == ids[0] || id in ids[1..];
    }
  }

  lemma {:induction false} AllPresent(chain: Chain, ids: seq<ObjectId>)
    requires forall id :: id in ids ==> id in chain
    ensures Alive(chain, ids) == ids
  {
    if ids != [] { AllPresent(chain, ids[1..]); }
  }

  lemma {:induction false} AliveFrame(a: Chain, b: Chain, ids: seq<ObjectId>)
    requires forall id :: id in ids ==> (id in a <==> id in b)
    ensures Alive(a, ids) == Alive(b, ids)
  {
    if ids != [] { AliveFrame(a, b, ids[1..]); }
  }

  /** A list whose multiplicities are at most one is distinct, and conversely. */
  lemma {:induction false} DistinctCounts(ids: seq<ObjectId>)
    ensures Distinct(ids) <==> forall id :: multiset(ids)[id] <= 1
    ensures Distinct(ids) ==> forall id :: multiset(ids)[id] == if id in ids then 1 else 0
  {
    if ids != [] {
      var last, init := ids[|ids| - 1], ids[..|ids| - 1];
      DistinctCounts(init);
      assert ids == init + [last];
      assert multiset(ids)[last] == multiset(init)[last] + 1;
      assert forall id :: id != last ==> multiset(ids)[id] == multiset(init)[id];
      if !Distinct(ids) && Distinct(init) {
        var i, j :| 0 <= i < j < |ids| && ids[i] == ids[j];
        assert init[i] == last;
        assert multiset(init)[last] >= 1;
      }
      assert Distinct(ids) ==> last !in init;
    }
  }

  // ---------- The invariant ----------

  predicate ChainHolds(w: World)
  {
    GoodChain(w.chain) && w.tracked <= w.chain.Keys && w.smashed !! w.chain.Keys
  }

  predicate OnChain(chain: Chain, coins: seq<GasCoin>)
  {
    forall i :: 0 <= i < |coins| ==> coins[i].id in chain && chain[coins[i].id] == coins[i]
  }

  /** What each task knows is still true of the chain. */
  predicate TaskAgrees(w: World, task: Task)
  {
    match task
    case Taken(payment) => payment != []
    case Counted(payment, total) => payment != [] && total == WrapU64(ChainSum(w.chain, payment))
    case Executed(payment, total, net, gas, version, digest) =>
      && payment != [] && gas in w.chain
      && w.chain[gas] == GasCoin(gas, version, digest, DerivedBalance(total, net))
    case Rereading(ids) => forall i :: 0 <= i < |ids| ==> ids[i] in w.tracked || ids[i] in w.smashed
    case Releasing(coins) => OnChain(w.chain, coins)
    case Finished => true
  }

  predicate TasksAgree(w: World) { forall t :: 0 <= t < |w.tasks| ==> TaskAgrees(w, w.tasks[t]) }

  predicate PoolHolds(w: World)
  {
    && Numbered(w.pool) && w.pool.StatsAgree()
    && (forall r :: r in w.pool.live ==> w.pool.live[r] != [])
    // Every live reservation has the deadline it was given in the expiration set.
    && (forall r :: r in w.pool.live ==> r in w.pool.expiry)
    && (forall r :: r in w.pool.expiry ==> r in w.issued && w.pool.expiry[r] == w.issued[r])
  }

  /** Every reservation ever issued is live, taken or expired, and only one of these. */
  ghost predicate Settlements(w: World)
  {
    && (forall r :: r in w.issued <==> 0 < r <= w.pool.nextId)
    && (forall r :: r in w.issued <==> r in w.pool.live || r in w.taken || r in w.expired)
    && w.pool.live.Keys !! w.taken && w.pool.live.Keys !! w.expired && w.taken !! w.expired
  }

  ghost function Worth(chain: Chain, ids: set<ObjectId>): int
  {
    if ids == {} then 0 else
      var id :| id in ids;
      (if id in chain then chain[id].balance else 0) + Worth(chain, ids - {id})
  }

  function NetOf(task: Task): int { if task.Executed? then task.net else 0 }

  /** Net usage that the chain has charged and that is about to be recorded. */
  function Pending(tasks: seq<Task>): int
  {
    if tasks == [] then 0 else Pending(tasks[..|tasks| - 1]) + NetOf(tasks[|tasks| - 1])
  }

  ghost predicate Ledger(w: World)
  {
    Worth(w.chain, w.tracked) == w.added - w.recorded - w.unrecorded - Pending(w.tasks)
  }

  ghost predicate Inv(w: World)
  {
    && InCustody(w) && ChainHolds(w) && OnChain(w.chain, w.pool.available) && TasksAgree(w)
    && PoolHolds(w) && Settlements(w) && Ledger(w)
  }

  // ---------- Sums over the chain ----------

  lemma {:induction false} WorthRemove(chain: Chain, ids: set<ObjectId>, id: ObjectId)
    requires id in ids
    ensures Worth(chain, ids) == (if id in chain then chain[id].balance else 0) + Worth(chain, ids - {id})
  {
    var x :| x in ids && Worth(chain, ids) == (if x in chain then chain[x].balance else 0) + Worth(chain, ids - {x});
    if x != id {
      WorthRemove(chain, ids - {x}, id);
      WorthRemove(chain, ids - {id}, x);
      assert ids - {x} - {id} == ids - {id} - {x};
    }
  }

  lemma {:induction false} WorthFrame(a: Chain, b: Chain, ids: set<ObjectId>)
    requires forall id :: id in ids ==> id in a && id in b && a[id].balance == b[id].balance
    ensures Worth(a, ids) == Worth(b, ids)
  {
    if ids != {} {
      var id :| id in ids;
      WorthRemove(a, ids, id);
      WorthRemove(b, ids, id);
      WorthFrame(a, b, ids - {id});
    }
  }

  lemma {:induction false} WorthOfList(chain: Chain, ids: set<ObjectId>, listed: seq<ObjectId>)
    requires Distinct(listed) && forall id :: id in listed ==> id in ids
    ensures Worth(chain, ids) == ChainSum(chain, listed) + Worth(chain, ids - set id | id in listed)
  {
    if listed == [] {
      assert ids - (set id | id in listed) == ids;
    } else {
      var id, rest := listed[0], listed[1..];
      assert forall x :: x in listed <==> x == id || x in rest;
      WorthRemove(chain, ids, id);
      WorthOfList(chain, ids - {id}, rest);
      assert ids - {id} - (set x | x in rest) == ids - set x | x in listed;
    }
  }

  lemma {:induction false} ChainSumFrame(a: Chain, b: Chain, ids: seq<ObjectId>)
    requires forall id :: id in ids ==> (id in a <==> id in b) && (id in a ==> a[id] == b[id])
    ensures ChainSum(a, ids) == ChainSum(b, ids)
  {
    if ids != [] { ChainSumFrame(a, b, ids[1..]); }
  }

  lemma {:induction false} ChainSumOfCoins(chain: Chain, coins: seq<GasCoin>)
    requires OnChain(chain, coins)
    ensures ChainSum(chain, Ids(coins)) == Sum(coins)
  {
    if coins != [] {
      ChainSumOfCoins(chain, coins[1..]);
      assert Ids(coins)[1..] == Ids(coins[1..]);
      SumConcat([coins[0]], coins[1..]);
      assert coins == [coins[0]] + coins[1..];
      assert [coins[0]][..0] == [];
    }
  }

  lemma {:induction false} PendingUpdate(tasks: seq<Task>, t: nat, task: Task)
    requires t < |tasks|
    ensures Pending(tasks[t := task]) == Pending(tasks) - NetOf(tasks[t]) + NetOf(task)
  {
    var n := |tasks| - 1;
    if t == n {
      assert tasks[t := task][..n] == tasks[..n];
    } else {
      PendingUpdate(tasks[..n], t, task);
      assert tasks[t := task][..n] == tasks[..n][t := task];
    }
  }

  // ---------- Steps of one task that leave the chain alone ----------

  lemma MoveTask(w: World, t: nat, task: Task)
    requires InCustody(w) && t < |w.tasks|
    requires Held(w.chain, task) == Held(w.chain, w.tasks[t])
    ensures InCustody(Goto(w, t, task))
  {
    var next := Goto(w, t, task);
    forall id ensures Places(next, id) == if id in next.tracked then 1 else 0 {
      HeldByUpdate(w.chain, w.tasks, t, task, id);
      assert Places(w, id) == if id in w.tracked then 1 else 0;
    }
  }

  lemma AllAlive(w: World, t: nat, ids: seq<ObjectId>)
    requires InCustody(w) && ChainHolds(w) && t < |w.tasks| && Held(w.chain, w.tasks[t]) == multiset(ids)
    ensures Alive(w.chain, ids) == ids && Distinct(ids)
    ensures forall id :: id in ids ==> id in w.tracked && id in w.chain
  {
    forall id | id in ids ensures id in w.tracked && id in w.chain && multiset(ids)[id] == 1 {
      assert id in multiset(ids);
      HeldExclusively(w, t, id);
    }
    AllPresent(w.chain, ids);
    DistinctCounts(ids);
  }

  lemma CountBalanceKeepsInv(w: World, t: nat)
    requires Inv(w) && Enabled(w, CountBalance(t))
    ensures Inv(Apply(w, CountBalance(t)))
  {
    var payment := w.tasks[t].payment;
    assert TaskAgrees(w, w.tasks[t]);
    var task := Counted(payment, WrapU64(ChainSum(w.chain, payment)));
    MoveTask(w, t, task);
    PendingUpdate(w.tasks, t, task);
    OneTaskAgrees(w, t, task);
  }

  lemma OneTaskAgrees(w: World, t: nat, task: Task)
    requires TasksAgree(w) && t < |w.tasks| && TaskAgrees(w, task)
    ensures TasksAgree(Goto(w, t, task))
  {
    var next := Goto(w, t, task);
    forall u | 0 <= u < |next.tasks| ensures TaskAgrees(next, next.tasks[u]) {
      assert TaskAgrees(w, w.tasks[u]);
    }
  }

  lemma RejectAgrees(w: World, t: nat)
    requires InCustody(w) && ChainHolds(w) && Enabled(w, Reject(t))
    ensures TaskAgrees(w, Rereading(w.tasks[t].payment))
    ensures Held(w.chain, Rereading(w.tasks[t].payment)) == Held(w.chain, w.tasks[t])
  {
    AllAlive(w, t, w.tasks[t].payment);
  }

  lemma RejectKeepsInv(w: World, t: nat)
    requires Inv(w) && Enabled(w, Reject(t))
    ensures Inv(Apply(w, Reject(t)))
  {
    var payment := w.tasks[t].payment;
    RejectAgrees(w, t);
    MoveTask(w, t, Rereading(payment));
    PendingUpdate(w.tasks, t, Rereading(payment));
    OneTaskAgrees(w, t, Rereading(payment));
  }

  lemma RecordKeepsInv(w: World, t: nat)
    requires Inv(w) && Enabled(w, Record(t))
    ensures Inv(Apply(w, Record(t)))
  {
    var Executed(_, total, net, gas, version, digest) := w.tasks[t];
    var task := Releasing([GasCoin(gas, version, digest, DerivedBalance(total, net))]);
    assert TaskAgrees(w, w.tasks[t]);
    assert Ids(task.coins) == [gas];
    MoveTask(w, t, task);
    PendingUpdate(w.tasks, t, task);
    OneTaskAgrees(w, t, task);
  }

  /** Whatever order the chain's answer comes in, it lists the coins the task answers for. */
  lemma RereadFindsHeld(w: World, t: nat, order: seq<ObjectId>)
    requires InCustody(w) && Enabled(w, Reread(t, order))
    ensures multiset(order) == Held(w.chain, w.tasks[t])
    ensures |order| <= |w.tasks[t].ids|
  {
    var alive := Alive(w.chain, w.tasks[t].ids);
    AliveMembers(w.chain, w.tasks[t].ids);
    DistinctCounts(order);
    forall id ensures multiset(order)[id] == multiset(alive)[id] {
      assert id in multiset(alive) <==> id in alive;
      if id in alive { HeldExclusively(w, t, id); }
    }
    assert |order| == |multiset(order)| && |alive| == |multiset(alive)|;
  }

  lemma RereadTask(w: World, t: nat, order: seq<ObjectId>)
    requires GoodChain(w.chain) && Enabled(w, Reread(t, order))
    ensures var next := Apply(w, Reread(t, order));
            && t < |next.tasks| && next == Goto(w, t, next.tasks[t]) && next.tasks[t].Releasing?
            && Ids(next.tasks[t].coins) == order && OnChain(w.chain, next.tasks[t].coins)
  {
    var task := Apply(w, Reread(t, order)).tasks[t];
    forall i | 0 <= i < |order| ensures task.coins[i].id == order[i] && order[i] in w.chain && task.coins[i] == w.chain[order[i]] {
      assert order[i] in order;
    }
    assert Ids(task.coins) == order;
  }

  lemma RereadKeepsInv(w: World, t: nat, order: seq<ObjectId>)
    requires Inv(w) && Enabled(w, Reread(t, order))
    ensures Inv(Apply(w, Reread(t, order)))
  {
    RereadTask(w, t, order);
    var task := Apply(w, Reread(t, order)).tasks[t];
    RereadFindsHeld(w, t, order);
    MoveTask(w, t, task);
    PendingUpdate(w.tasks, t, task);
    OneTaskAgrees(w, t, task);
  }

  // ---------- Steps on the store ----------

  /** A step that only moves coins between places keeps custody. */
  lemma SamePlaces(w: World, next: World)
    requires InCustody(w) && next.tracked == w.tracked
    requires forall id {:trigger Places(next, id)} :: Places(next, id) == Places(w, id)
    ensures InCustody(next)
  {
  }

  lemma InitializeStatsKeepsInv(w: World)
    requires Inv(w)
    ensures Inv(Apply(w, InitializeStats))
  {
    var next := Apply(w, InitializeStats);
    SamePlaces(w, next);
    OthersAgree(w, next);
  }

  /** Tasks know nothing of the pool. */
  lemma OthersAgree(w: World, next: World)
    requires TasksAgree(w) && next.tasks == w.tasks && next.chain == w.chain && w.tracked <= next.tracked && next.smashed == w.smashed
    ensures TasksAgree(next)
  {
    forall t | 0 <= t < |next.tasks| ensures TaskAgrees(next, next.tasks[t]) { assert TaskAgrees(w, w.tasks[t]); }
  }

  lemma ReservePlaces(w: World, budget: nat, deadline: nat, id: ObjectId)
    requires w.pool.StatsReady()
    ensures Places(w.(pool := Reserve(w.pool, budget, deadline).0), id) == Places(w, id)
  {
    ReservationMovesIds(w.pool, budget, deadline);
  }

  lemma ReserveKeepsPool(w: World, budget: nat, deadline: nat)
    requires PoolHolds(w) && Enabled(w, ReserveGas(budget, deadline))
    ensures PoolHolds(Apply(w, ReserveGas(budget, deadline)))
  {
    StatsStayTrue(w.pool, budget, deadline, 0, 0, []);
    GrantsSomething(w.pool, budget, deadline);
  }

  lemma ReserveKeepsSettlements(w: World, budget: nat, deadline: nat)
    requires Numbered(w.pool) && Settlements(w) && Enabled(w, ReserveGas(budget, deadline))
    ensures Settlements(Apply(w, ReserveGas(budget, deadline)))
  {
    GrantsSomething(w.pool, budget, deadline);
  }

  lemma GrantsSomething(p: Pool, budget: nat, deadline: nat)
    requires p.StatsReady() && budget > 0
    ensures var (q, grant) := Reserve(p, budget, deadline);
            if grant.None? then q == p else grant.value.id == q.nextId == p.nextId + 1 && q.live[q.nextId] != []
  {
    ReservationIsExact(p, budget, deadline);
  }

  lemma OnChainPart(chain: Chain, a: seq<GasCoin>, b: seq<GasCoin>)
    ensures OnChain(chain, a + b) <==> OnChain(chain, a) && OnChain(chain, b)
  {
    if OnChain(chain, a + b) {
      forall i | 0 <= i < |a| ensures a[i].id in chain && chain[a[i].id] == a[i] { assert (a + b)[i] == a[i]; }
      forall i | 0 <= i < |b| ensures b[i].id in chain && chain[b[i].id] == b[i] { assert (a + b)[|a| + i] == b[i]; }
    }
  }

  lemma ReserveKeepsInv(w: World, budget: nat, deadline: nat)
    requires Inv(w) && Enabled(w, ReserveGas(budget, deadline))
    ensures Inv(Apply(w, ReserveGas(budget, deadline)))
  {
    var (q, grant) := Reserve(w.pool, budget, deadline);
    var next := Apply(w, ReserveGas(budget, deadline));
    forall id ensures Places(next, id) == Places(w, id) {
      ReservePlaces(w, budget, deadline, id);
      assert Places(next, id) == Places(w.(pool := q), id);
    }
    SamePlaces(w, next);
    ReserveKeepsPool(w, budget, deadline);
    ReserveKeepsSettlements(w, budget, deadline);
    ReservationIsExact(w.pool, budget, deadline);
    OthersAgree(w, next);
    if grant.Some? { OnChainPart(w.chain, grant.value.coins, q.available); }
  }

  lemma BeginPlaces(w: World, id: nat, payment: seq<ObjectId>, x: ObjectId)
    requires Numbered(w.pool) && id in w.pool.live && multiset(payment) == multiset(w.pool.live[id])
    ensures Places(BeginWith(w, id, payment), x) == Places(w, x)
  {
    LiveIdsRemove(w.pool.live, id, w.pool.nextId);
    HeldBySnoc(w.chain, w.tasks, Taken(payment), x);
  }

  lemma BeginKeepsPool(w: World, id: nat, payment: seq<ObjectId>)
    requires PoolHolds(w) && Settlements(w)
    ensures PoolHolds(BeginWith(w, id, payment)) && Settlements(BeginWith(w, id, payment))
  {
  }

  lemma PaysSomething(a: seq<ObjectId>, b: seq<ObjectId>)
    requires multiset(a) == multiset(b) && b != []
    ensures a != []
  {
    assert b[0] in multiset(a);
  }

  lemma BeginKeepsInv(w: World, id: nat, payment: seq<ObjectId>)
    requires Inv(w) && Enabled(w, Begin(id, payment))
    ensures Inv(Apply(w, Begin(id, payment)))
  {
    if id in w.pool.live {
      var next := BeginWith(w, id, payment);
      forall x ensures Places(next, x) == Places(w, x) { BeginPlaces(w, id, payment, x); }
      SamePlaces(w, next);
      BeginKeepsPool(w, id, payment);
      PaysSomething(payment, w.pool.live[id]);
      AppendAgrees(w, next, Taken(payment));
    }
  }

  lemma AddKeepsPool(w: World, coins: seq<GasCoin>)
    requires PoolHolds(w) && Settlements(w) && w.pool.StatsReady()
    ensures var next := w.(pool := AddCoins(w.pool, coins)); PoolHolds(next) && Settlements(next)
  {
    StatsStayTrue(w.pool, 0, 0, 0, 0, coins);
  }

  lemma ReleasePlaces(w: World, t: nat, id: ObjectId)
    requires Enabled(w, Release(t))
    ensures Places(Apply(w, Release(t)), id) == Places(w, id)
  {
    HeldByUpdate(w.chain, w.tasks, t, Finished, id);
    IdsConcat(w.pool.available, w.tasks[t].coins);
  }

  lemma ReleaseKeepsInv(w: World, t: nat)
    requires Inv(w) && Enabled(w, Release(t))
    ensures Inv(Apply(w, Release(t)))
  {
    var next := Apply(w, Release(t));
    var coins := w.tasks[t].coins;
    assert TaskAgrees(w, w.tasks[t]);
    forall id ensures Places(next, id) == Places(w, id) { ReleasePlaces(w, t, id); }
    SamePlaces(w, next);
    AddKeepsPool(w, coins);
    OnChainPart(w.chain, w.pool.available, coins);
    PendingUpdate(w.tasks, t, Finished);
    OneTaskAgrees(w, t, Finished);
    OthersAgree(Goto(w, t, Finished), next);
  }

  lemma LiveIsTracked(w: World, now: nat, batch: seq<nat>)
    requires InCustody(w) && PoolHolds(w) && Enumerates(batch, Lapsed(w.pool, now))
    ensures forall id :: id in Gather(w.pool.live, batch) ==> id in w.tracked
  {
    var ids := Gather(w.pool.live, batch);
    ExpiryIsExact(w.pool, now, batch);
    forall id | id in ids ensures id in w.tracked {
      assert id in multiset(ids);
      assert Places(w, id) > 0;
    }
  }

  lemma HeldByExpiry(chain: Chain, tasks: seq<Task>, ids: seq<ObjectId>, id: ObjectId)
    requires forall x :: x in ids ==> x in chain
    ensures HeldBy(chain, if ids == [] then tasks else tasks + [Rereading(ids)], id)
            == HeldBy(chain, tasks, id) + multiset(ids)[id]
  {
    if ids != [] {
      AllPresent(chain, ids);
      HeldBySnoc(chain, tasks, Rereading(ids), id);
    }
  }

  lemma ExpirePlaces(w: World, now: nat, batch: seq<nat>, id: ObjectId)
    requires PoolHolds(w) && Enabled(w, ExpireReservations(now, batch))
    requires forall x :: x in Gather(w.pool.live, batch) ==> x in w.chain
    ensures Places(Apply(w, ExpireReservations(now, batch)), id) == Places(w, id)
  {
    ExpiryMovesIds(w.pool, now, batch);
    HeldByExpiry(w.chain, w.tasks, Gather(w.pool.live, batch), id);
  }

  lemma ExpireKeepsPool(w: World, now: nat, batch: seq<nat>)
    requires PoolHolds(w) && Settlements(w) && Enabled(w, ExpireReservations(now, batch))
    ensures var next := Apply(w, ExpireReservations(now, batch)); PoolHolds(next) && Settlements(next)
  {
  }

  lemma ExpireKeepsInv(w: World, now: nat, batch: seq<nat>)
    requires Inv(w) && Enabled(w, ExpireReservations(now, batch))
    ensures Inv(Apply(w, ExpireReservations(now, batch)))
  {
    var next := Apply(w, ExpireReservations(now, batch));
    LiveIsTracked(w, now, batch);
    forall id ensures Places(next, id) == Places(w, id) { ExpirePlaces(w, now, batch, id); }
    SamePlaces(w, next);
    ExpireKeepsPool(w, now, batch);
    var ids := Gather(w.pool.live, batch);
    if ids != [] {
      assert TaskAgrees(w, Rereading(ids));
      AppendAgrees(w, next, Rereading(ids));
    } else {
      OthersAgree(w, next);
    }
  }

  lemma AppendAgrees(w: World, next: World, task: Task)
    requires TasksAgree(w) && next.tasks == w.tasks + [task] && TaskAgrees(w, task)
    requires next.chain == w.chain && next.tracked == w.tracked && next.smashed == w.smashed
    ensures TasksAgree(next) && Pending(next.tasks) == Pending(w.tasks) + NetOf(task)
  {
    assert next.tasks[..|w.tasks|] == w.tasks;
    forall t | 0 <= t < |next.tasks| ensures TaskAgrees(next, next.tasks[t]) {
      if t < |w.tasks| { assert TaskAgrees(w, w.tasks[t]); }
    }
  }

  lemma FundCustody(w: World, coins: seq<GasCoin>)
    requires InCustody(w) && Enabled(w, Fund(coins))
    ensures InCustody(Apply(w, Fund(coins)))
  {
    var next := Apply(w, Fund(coins));
    var ids := Ids(coins);
    forall i | 0 <= i < |coins| ensures ids[i] !in w.tracked { assert coins[i] in coins; }
    IdsConcat(w.pool.available, coins);
    DistinctCounts(ids);
    forall id ensures Places(next, id) == if id in next.tracked then 1 else 0 {
      assert Places(next, id) == Places(w, id) + multiset(ids)[id];
    }
  }

  lemma FundKeepsInv(w: World, coins: seq<GasCoin>)
    requires Inv(w) && Enabled(w, Fund(coins))
    ensures Inv(Apply(w, Fund(coins)))
  {
    var next := Apply(w, Fund(coins));
    var ids := Ids(coins);
    forall i | 0 <= i < |coins| ensures coins[i].id in w.chain && w.chain[coins[i].id] == coins[i] && ids[i] !in w.tracked {
      assert coins[i] in coins;
    }
    FundCustody(w, coins);
    AddKeepsPool(w, coins);
    OnChainPart(w.chain, w.pool.available, coins);
    OthersAgree(w, next);
    WorthOfList(w.chain, next.tracked, ids);
    ChainSumOfCoins(w.chain, coins);
    assert next.tracked - (set id | id in ids) == w.tracked;
  }

  // ---------- Steps on the chain ----------

  lemma EnvironmentKeepsInv(w: World, chain: Chain)
    requires Inv(w) && Enabled(w, Environment(chain))
    ensures Inv(Apply(w, Environment(chain)))
  {
    var next := Apply(w, Environment(chain));
    forall t | 0 <= t < |w.tasks| ensures Held(w.chain, w.tasks[t]) == Held(chain, w.tasks[t]) {
      assert TaskAgrees(w, w.tasks[t]);
      if w.tasks[t].Rereading? { AliveFrame(w.chain, chain, w.tasks[t].ids); }
    }
    forall id ensures Places(next, id) == Places(w, id) { HeldByFrame(w.chain, chain, w.tasks, id); }
    SamePlaces(w, next);
    WorthFrame(w.chain, chain, w.tracked);
    forall i | 0 <= i < |w.pool.available|
      ensures w.pool.available[i].id in chain && chain[w.pool.available[i].id] == w.pool.available[i]
    {
      AvailableIsTracked(w, i);
    }
    forall t | 0 <= t < |w.tasks| ensures TaskAgrees(next, next.tasks[t]) {
      forall id | id in Held(w.chain, w.tasks[t]) ensures id in chain && id in w.chain && chain[id] == w.chain[id] {
        HeldExclusively(w, t, id);
      }
      HeldStaysTrue(w, next, t);
    }
  }

  lemma AvailableIsTracked(w: World, i: nat)
    requires InCustody(w) && i < |w.pool.available|
    ensures w.pool.available[i].id in w.tracked
  {
    var id := w.pool.available[i].id;
    assert Ids(w.pool.available)[i] == id;
    assert id in multiset(Ids(w.pool.available));
    assert Places(w, id) > 0;
  }

  /** A task keeps agreeing with the chain as long as the coins it answers for are left alone. */
  lemma HeldStaysTrue(w: World, next: World, t: nat)
    requires InCustody(w) && ChainHolds(w) && t < |w.tasks| && TaskAgrees(w, w.tasks[t])
    requires w.tracked + w.smashed <= next.tracked + next.smashed
    requires forall id :: id in Held(w.chain, w.tasks[t]) ==> id in next.chain && id in w.chain && next.chain[id] == w.chain[id]
    ensures TaskAgrees(next, w.tasks[t])
  {
    match w.tasks[t]
    case Taken(_) =>
    case Counted(payment, _) =>
      AllAlive(w, t, payment);
      assert forall id :: id in payment ==> id in multiset(payment);
      ChainSumFrame(w.chain, next.chain, payment);
    case Executed(_, _, _, _, _, _) =>
    case Rereading(_) =>
    case Releasing(coins) =>
      forall i | 0 <= i < |coins| ensures coins[i].id in next.chain && next.chain[coins[i].id] == coins[i] {
        assert Ids(coins)[i] == coins[i].id;
        assert coins[i].id in multiset(Ids(coins));
      }
    case Finished =>
  }

  // ---------- Settlement on chain ----------

  /** The coins a settlement merges away. */
  function Gone(payment: seq<ObjectId>): set<ObjectId>
    requires payment != []
  {
    set id | id in payment[1..]
  }

  lemma SmashMembers(chain: Chain, payment: seq<ObjectId>, coin: GasCoin)
    requires Distinct(payment) && payment != [] && forall id :: id in payment ==> id in chain
    ensures var after := Smash(chain, payment, coin);
            && (forall id :: id in after <==> id in chain && id !in Gone(payment))
            && (forall id :: id in after && id !in payment ==> after[id] == chain[id])
            && payment[0] !in Gone(payment) && after[payment[0]] == coin
  {
    assert payment[0] !in payment[1..];
  }

  lemma {:induction false} NoneAlive(chain: Chain, ids: seq<ObjectId>)
    requires forall id :: id in ids ==> id !in chain
    ensures Alive(chain, ids) == []
  {
    if ids != [] { NoneAlive(chain, ids[1..]); }
  }

  lemma SettlePayment(chain: Chain, payment: seq<ObjectId>, coin: GasCoin)
    requires Distinct(payment) && payment != [] && forall id :: id in payment ==> id in chain
    ensures Alive(Smash(chain, payment, coin), payment) == [payment[0]]
  {
    SmashMembers(chain, payment, coin);
    NoneAlive(Smash(chain, payment, coin), payment[1..]);
  }

  lemma HeldApart(w: World, t: nat, u: nat, payment: seq<ObjectId>)
    requires InCustody(w) && t < |w.tasks| && u < |w.tasks| && u != t && Held(w.chain, w.tasks[t]) == multiset(payment)
    ensures forall id :: id in payment ==> id !in Held(w.chain, w.tasks[u])
  {
    forall id | id in payment ensures id !in Held(w.chain, w.tasks[u]) {
      assert id in multiset(payment);
      HeldExclusively(w, t, id);
    }
  }

  lemma SettleLeavesAlive(chain: Chain, payment: seq<ObjectId>, coin: GasCoin, ids: seq<ObjectId>)
    requires Distinct(payment) && payment != [] && forall id :: id in payment ==> id in chain
    requires forall id :: id in payment ==> id !in multiset(Alive(chain, ids))
    ensures Alive(Smash(chain, payment, coin), ids) == Alive(chain, ids)
  {
    SmashMembers(chain, payment, coin);
    AliveMembers(chain, ids);
    assert forall id :: id in multiset(Alive(chain, ids)) <==> id in Alive(chain, ids);
    assert forall id :: id in ids ==> (id in Smash(chain, payment, coin) <==> id in chain);
    AliveFrame(Smash(chain, payment, coin), chain, ids);
  }

  lemma SettleHeld(w: World, t: nat, u: nat, payment: seq<ObjectId>, coin: GasCoin)
    requires InCustody(w) && t < |w.tasks| && u < |w.tasks| && u != t && Held(w.chain, w.tasks[t]) == multiset(payment)
    requires Distinct(payment) && payment != [] && forall id :: id in payment ==> id in w.chain
    ensures Held(Smash(w.chain, payment, coin), w.tasks[u]) == Held(w.chain, w.tasks[u])
  {
    if w.tasks[u].Rereading? {
      HeldApart(w, t, u, payment);
      SettleLeavesAlive(w.chain, payment, coin, w.tasks[u].ids);
    }
  }

  lemma SettlePlaces(w: World, next: World, t: nat, payment: seq<ObjectId>, coin: GasCoin, id: ObjectId)
    requires InCustody(w) && t < |w.tasks| && Held(w.chain, w.tasks[t]) == multiset(payment)
    requires Distinct(payment) && payment != [] && forall x :: x in payment ==> x in w.chain
    requires next.pool == w.pool && next.chain == Smash(w.chain, payment, coin)
    requires t < |next.tasks| && next.tasks == w.tasks[t := next.tasks[t]]
    requires Held(next.chain, next.tasks[t]) == multiset{payment[0]}
    ensures Places(next, id) + multiset(payment[1..])[id] == Places(w, id)
  {
    var others := w.tasks[t := Finished];
    forall u | 0 <= u < |others| ensures Held(w.chain, others[u]) == Held(next.chain, others[u]) {
      if u != t { SettleHeld(w, t, u, payment, coin); }
    }
    HeldByFrame(w.chain, next.chain, others, id);
    HeldByUpdate(w.chain, w.tasks, t, Finished, id);
    HeldByUpdate(next.chain, others, t, next.tasks[t], id);
    assert others[t := next.tasks[t]] == next.tasks;
    FirstAndRest(payment);
  }

  lemma FirstAndRest(payment: seq<ObjectId>)
    requires payment != []
    ensures multiset(payment) == multiset{payment[0]} + multiset(payment[1..])
  {
    assert payment == [payment[0]] + payment[1..];
  }

  lemma SettledSets(tracked: set<ObjectId>, payment: seq<ObjectId>)
    requires Distinct(payment) && payment != [] && payment[0] in tracked
    ensures payment[0] in tracked - Gone(payment)
    ensures tracked - Gone(payment) - {payment[0]} == tracked - set id | id in payment
  {
    assert payment == [payment[0]] + payment[1..];
    forall i | 0 <= i < |payment[1..]| ensures payment[1..][i] != payment[0] { assert payment[1..][i] == payment[i + 1]; }
  }

  /** The tracked coins are worth exactly the net usage less. */
  lemma SettleWorth(w: World, payment: seq<ObjectId>, coin: GasCoin, net: int)
    requires Distinct(payment) && payment != [] && forall id :: id in payment ==> id in w.chain && id in w.tracked
    requires coin.balance == ChainSum(w.chain, payment) - net && w.tracked <= w.chain.Keys
    ensures Worth(Smash(w.chain, payment, coin), w.tracked - Gone(payment)) == Worth(w.chain, w.tracked) - net
  {
    var chain := Smash(w.chain, payment, coin);
    var left := w.tracked - set id | id in payment;
    SmashMembers(w.chain, payment, coin);
    WorthOfList(w.chain, w.tracked, payment);
    SettledSets(w.tracked, payment);
    WorthRemove(chain, w.tracked - Gone(payment), payment[0]);
    WorthFrame(w.chain, chain, left);
  }

  lemma SettleAgrees(w: World, next: World, t: nat, task: Task, payment: seq<ObjectId>, coin: GasCoin)
    requires InCustody(w) && ChainHolds(w) && TasksAgree(w)
    requires t < |w.tasks| && Held(w.chain, w.tasks[t]) == multiset(payment)
    requires Distinct(payment) && payment != [] && forall id :: id in payment ==> id in w.chain
    requires next.chain == Smash(w.chain, payment, coin) && next.tasks == w.tasks[t := task]
    requires next.tracked == w.tracked - Gone(payment) && next.smashed == w.smashed + Gone(payment)
    requires TaskAgrees(next, task)
    ensures TasksAgree(next)
  {
    SmashMembers(w.chain, payment, coin);
    forall u | 0 <= u < |next.tasks| ensures TaskAgrees(next, next.tasks[u]) {
      if u != t {
        HeldApart(w, t, u, payment);
        forall id | id in Held(w.chain, w.tasks[u]) ensures id in next.chain && id in w.chain && next.chain[id] == w.chain[id] {
          HeldExclusively(w, u, id);
        }
        HeldStaysTrue(w, next, u);
      }
    }
  }

  lemma SettleQueue(w: World, t: nat, payment: seq<ObjectId>, coin: GasCoin)
    requires InCustody(w) && OnChain(w.chain, w.pool.available)
    requires t < |w.tasks| && Held(w.chain, w.tasks[t]) == multiset(payment)
    requires Distinct(payment) && payment != [] && forall id :: id in payment ==> id in w.chain
    ensures OnChain(Smash(w.chain, payment, coin), w.pool.available)
  {
    SmashMembers(w.chain, payment, coin);
    forall i | 0 <= i < |w.pool.available| ensures w.pool.available[i].id !in payment {
      var id := w.pool.available[i].id;
      assert Ids(w.pool.available)[i] == id;
      if id in payment {
        assert id in multiset(payment);
        HeldExclusively(w, t, id);
      }
    }
  }

  lemma SettleCustody(w: World, next: World, payment: seq<ObjectId>)
    requires InCustody(w) && payment != [] && Distinct(payment) && forall id :: id in payment ==> id in w.tracked
    requires next.tracked == w.tracked - Gone(payment)
    requires forall id {:trigger Places(next, id)} :: Places(next, id) + multiset(payment[1..])[id] == Places(w, id)
    ensures InCustody(next)
  {
    assert forall i :: 0 <= i < |payment[1..]| ==> payment[1..][i] == payment[i + 1];
    DistinctCounts(payment[1..]);
  }

  function SettledCoin(w: World, t: nat, net: int, version: nat, digest: Digest): GasCoin
    requires t < |w.tasks| && w.tasks[t].Counted? && w.tasks[t].payment != []
    requires ChainSum(w.chain, w.tasks[t].payment) - net >= 0
  {
    GasCoin(w.tasks[t].payment[0], version, digest, ChainSum(w.chain, w.tasks[t].payment) - net)
  }

  lemma SettlePays(w: World, t: nat)
    requires Inv(w) && t < |w.tasks| && w.tasks[t].Counted?
    ensures var payment := w.tasks[t].payment;
            && payment != [] && w.tasks[t].total == WrapU64(ChainSum(w.chain, payment))
            && Distinct(payment) && (forall id :: id in payment ==> id in w.tracked && id in w.chain)
            && Held(w.chain, w.tasks[t]) == multiset(payment)
  {
    assert TaskAgrees(w, w.tasks[t]);
    AllAlive(w, t, w.tasks[t].payment);
  }

  lemma SettleShape(w: World, t: nat, net: int, version: nat, digest: Digest, reported: bool)
    requires Enabled(w, Settle(t, net, version, digest, reported))
    ensures var next := Apply(w, Settle(t, net, version, digest, reported));
            var Counted(payment, total) := w.tasks[t];
            && next.chain == Smash(w.chain, payment, SettledCoin(w, t, net, version, digest))
            && next.tasks == w.tasks[t := if reported then Executed(payment, total, net, payment[0], version, digest)
                                          else Rereading(payment)]
            && next.tracked == w.tracked - Gone(payment) && next.smashed == w.smashed + Gone(payment)
  {
  }

  /** A reported execution leaves the task with what it needs to derive the coin's balance on chain. */
  lemma ReportedAgrees(w: World, next: World, payment: seq<ObjectId>, total: nat, net: int, coin: GasCoin)
    requires payment != [] && coin.id == payment[0] && total == WrapU64(ChainSum(w.chain, payment))
    requires coin.balance == ChainSum(w.chain, payment) - net && coin.balance <= U64_MAX
    requires next.chain == Smash(w.chain, payment, coin)
    ensures TaskAgrees(next, Executed(payment, total, net, payment[0], coin.version, coin.digest))
  {
    DerivedBalanceIsExact(ChainSum(w.chain, payment), net);
  }

  lemma UnreportedAgrees(w: World, next: World, payment: seq<ObjectId>, coin: GasCoin)
    requires payment != [] && Distinct(payment) && forall id :: id in payment ==> id in w.tracked && id in w.chain
    requires next.chain == Smash(w.chain, payment, coin) && next.tracked == w.tracked - Gone(payment)
    requires next.smashed == w.smashed + Gone(payment)
    ensures TaskAgrees(next, Rereading(payment))
    ensures Held(next.chain, Rereading(payment)) == multiset{payment[0]}
  {
    SettlePayment(w.chain, payment, coin);
    assert forall i :: 0 < i < |payment| ==> payment[i] == payment[1..][i - 1];
  }

  lemma SettleTask(w: World, t: nat, net: int, version: nat, digest: Digest, reported: bool)
    requires Inv(w) && Enabled(w, Settle(t, net, version, digest, reported))
    ensures var next := Apply(w, Settle(t, net, version, digest, reported));
            && TaskAgrees(next, next.tasks[t])
            && Held(next.chain, next.tasks[t]) == multiset{w.tasks[t].payment[0]}
  {
    var Counted(payment, total) := w.tasks[t];
    var coin := SettledCoin(w, t, net, version, digest);
    var next := Apply(w, Settle(t, net, version, digest, reported));
    SettleShape(w, t, net, version, digest, reported);
    SettlePays(w, t);
    if reported {
      ReportedAgrees(w, next, payment, total, net, coin);
    } else {
      UnreportedAgrees(w, next, payment, coin);
    }
  }

  lemma SettleLedger(w: World, t: nat, net: int, version: nat, digest: Digest, reported: bool)
    requires Inv(w) && Enabled(w, Settle(t, net, version, digest, reported))
    ensures Ledger(Apply(w, Settle(t, net, version, digest, reported)))
  {
    var next := Apply(w, Settle(t, net, version, digest, reported));
    SettleShape(w, t, net, version, digest, reported);
    SettlePays(w, t);
    SettleWorth(w, w.tasks[t].payment, SettledCoin(w, t, net, version, digest), net);
    PendingUpdate(w.tasks, t, next.tasks[t]);
  }

  lemma SettleChain(w: World, payment: seq<ObjectId>, coin: GasCoin)
    requires ChainHolds(w) && coin.Fits() && payment != [] && coin.id == payment[0]
    requires Distinct(payment) && forall id :: id in payment ==> id in w.chain
    ensures ChainHolds(w.(chain := Smash(w.chain, payment, coin), tracked := w.tracked - Gone(payment),
                          smashed := w.smashed + Gone(payment)))
  {
    SmashMembers(w.chain, payment, coin);
  }

  lemma SettleKeepsInv(w: World, t: nat, net: int, version: nat, digest: Digest, reported: bool)
    requires Inv(w) && Enabled(w, Settle(t, net, version, digest, reported))
    ensures Inv(Apply(w, Settle(t, net, version, digest, reported)))
  {
    var next := Apply(w, Settle(t, net, version, digest, reported));
    var payment, coin := w.tasks[t].payment, SettledCoin(w, t, net, version, digest);
    SettleShape(w, t, net, version, digest, reported);
    SettlePays(w, t);
    SettleTask(w, t, net, version, digest, reported);
    forall id ensures Places(next, id) + multiset(payment[1..])[id] == Places(w, id) {
      SettlePlaces(w, next, t, payment, coin, id);
    }
    SettleCustody(w, next, payment);
    SettleChain(w, payment, coin);
    SettleAgrees(w, next, t, next.tasks[t], payment, coin);
    SettleQueue(w, t, payment, coin);
    SettleLedger(w, t, net, version, digest, reported);
  }

  // ---------- Main results ----------

  lemma StepKeepsInv(w: World, s: Step)
    requires Inv(w) && Enabled(w, s)
    ensures Inv(Apply(w, s))
  {
    match s
    case InitializeStats => InitializeStatsKeepsInv(w);
    case ReserveGas(budget, deadline) => ReserveKeepsInv(w, budget, deadline);
    case Begin(id, payment) => BeginKeepsInv(w, id, payment);
    case CountBalance(t) => CountBalanceKeepsInv(w, t);
    case Reject(t) => RejectKeepsInv(w, t);
    case Settle(t, net, version, digest, reported) => SettleKeepsInv(w, t, net, version, digest, reported);
    case Record(t) => RecordKeepsInv(w, t);
    case Reread(t, order) => RereadKeepsInv(w, t, order);
    case Release(t) => ReleaseKeepsInv(w, t);
    case ExpireReservations(now, batch) => ExpireKeepsInv(w, now, batch);
    case Fund(coins) => FundKeepsInv(w, coins);
    case Environment(chain) => EnvironmentKeepsInv(w, chain);
  }

  /** The invariant holds in every world that any interleaving of any number of servers can reach. */
  lemma {:induction false} ReachableWorldsKeepInv(w: World, steps: seq<Step>)
    requires Init(w) && Runs(w, steps)
    ensures Inv(After(w, steps))
  {
    if steps != [] {
      ReachableWorldsKeepInv(w, steps[..|steps| - 1]);
      StepKeepsInv(After(w, steps[..|steps| - 1]), steps[|steps| - 1]);
    }
  }
}
