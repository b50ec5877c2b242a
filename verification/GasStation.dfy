/** Any number of gas pool servers over one store and one chain. Each step is what a server does
    between two awaits, one atomic script, or a change that others make to the chain. */
module GasStation {
  import opened Wrappers
  import opened Text
  import opened CoinText
  import opened GasPool

  // ---------- Machine integers ----------

  const TWO_64: int := 0x1_0000_0000_0000_0000
  const I64_MAX: int := 0x7FFF_FFFF_FFFF_FFFF

  function WrapU64(x: int): nat { x % TWO_64 }

  function WrapI64(x: int): int
  {
    if x % TWO_64 <= I64_MAX then x % TWO_64 else x % TWO_64 - TWO_64
  }

  /** `(total as i64 - net) as u64`. */
  function DerivedBalance(total: nat, net: int): nat { WrapU64(WrapI64(WrapI64(total) - net)) }

  /** Whatever wraps on the way, the derived balance is the chain's whenever that one is a u64. */
  lemma DerivedBalanceIsExact(sum: nat, net: int)
    requires 0 <= sum - net <= U64_MAX
    ensures DerivedBalance(WrapU64(sum), net) == sum - net
  {
    var a := WrapI64(WrapU64(sum));
    var b := WrapI64(a - net);
    WrapI64IsCongruent(WrapU64(sum));
    WrapI64IsCongruent(a - net);
    var i := sum / TWO_64;
    assert sum == WrapU64(sum) + i * TWO_64;
    var j :| WrapI64(WrapU64(sum)) == WrapU64(sum) + j * TWO_64;
    var k :| WrapI64(a - net) == (a - net) + k * TWO_64;
    assert b == (sum - net) + (j + k - i) * TWO_64;
    ModAddsMultiples(sum - net, j + k - i);
  }

  lemma WrapI64IsCongruent(x: int)
    ensures exists k :: WrapI64(x) == x + k * TWO_64
  {
    var q := x / TWO_64;
    assert x == q * TWO_64 + x % TWO_64;
    assert WrapI64(x) == x + (-q) * TWO_64 || WrapI64(x) == x + (-q - 1) * TWO_64;
  }

  lemma ModAddsMultiples(x: int, k: int)
    requires 0 <= x < TWO_64
    ensures (x + k * TWO_64) % TWO_64 == x
  {
  }

  /** No operation of the derivation overflows exactly when both the total and the result are i64. */
  lemma NoOverflowInDerivation(total: nat, net: int)
    requires total <= U64_MAX && 0 <= total - net
    ensures WrapI64(total) == total && WrapI64(total - net) == total - net
            <==> total < 0x8000_0000_0000_0000 && total - net < 0x8000_0000_0000_0000
  {
  }

  // ---------- The chain ----------

  type Chain = map<ObjectId, GasCoin>

  /** The balance on chain of the listed coins; coins that are gone count for nothing. */
  function ChainSum(chain: Chain, ids: seq<ObjectId>): nat
  {
    if ids == [] then 0
    else (if ids[0] in chain then chain[ids[0]].balance else 0) + ChainSum(chain, ids[1..])
  }

  /** Gas smashing: the first payment coin receives everything but the net usage, the others go. */
  function Smash(chain: Chain, payment: seq<ObjectId>, coin: GasCoin): Chain
    requires payment != []
  {
    (chain - set id | id in payment[1..])[payment[0] := coin]
  }

  function Alive(chain: Chain, ids: seq<ObjectId>): seq<ObjectId>
  {
    if ids == [] then []
    else (if ids[0] in chain then [ids[0]] else []) + Alive(chain, ids[1..])
  }

  // ---------- Worlds and steps ----------

  datatype Task =
    | Taken(payment: seq<ObjectId>)                      // ready_for_execution succeeded
    | Counted(payment: seq<ObjectId>, total: nat)        // balance prior to execution was read
    | Executed(payment: seq<ObjectId>, total: nat, net: int, gas: ObjectId, version: nat, digest: Digest)  // effects in hand
    | Rereading(ids: seq<ObjectId>)                      // failed execution or expiry: ask the chain
    | Releasing(coins: seq<GasCoin>)                     // about to call add_new_coins
    | Finished

  datatype World = World(
    pool: Pool,
    chain: Chain,
    tasks: seq<Task>,
    tracked: set<ObjectId>,     // coins the pool has been given and that have not been smashed
    smashed: set<ObjectId>,
    added: int,                 // balance given to the pool
    recorded: int,              // net usage passed to update_usage
    unrecorded: int,            // net usage of executions reported as errors
    issued: map<nat, nat>,      // deadline of every reservation ever made
    taken: set<nat>,            // reservations settled by ready_for_execution
    expired: set<nat>)          // reservations settled by expire_coins

  datatype Step =
    | InitializeStats
    | ReserveGas(budget: nat, deadline: nat)
    | Begin(id: nat, payment: seq<ObjectId>)
    | CountBalance(t: nat)
    | Reject(t: nat)
    | Settle(t: nat, net: int, version: nat, digest: Digest, reported: bool)
    | Record(t: nat)
    | Reread(t: nat, order: seq<ObjectId>)
    | Release(t: nat)
    | ExpireReservations(now: nat, batch: seq<nat>)
    | Fund(coins: seq<GasCoin>)
    | Environment(next: Chain)

  predicate Distinct(ids: seq<ObjectId>) { forall i, j :: 0 <= i < j < |ids| ==> ids[i] != ids[j] }

  predicate GoodChain(chain: Chain) { forall id :: id in chain ==> chain[id].id == id && chain[id].Fits() }

  ghost predicate Enabled(w: World, s: Step)
  {
    match s
    case InitializeStats => true
    case ReserveGas(budget, _) => w.pool.StatsReady() && budget > 0
    // The transaction pays with exactly the coins of its reservation.
    case Begin(id, payment) => id in w.pool.live ==> multiset(payment) == multiset(w.pool.live[id])
    case CountBalance(t) => t < |w.tasks| && w.tasks[t].Taken?
    case Reject(t) => t < |w.tasks| && w.tasks[t].Counted?
    case Settle(t, net, version, digest, _) =>
      && t < |w.tasks| && w.tasks[t].Counted? && w.tasks[t].payment != []
      && ChainSum(w.chain, w.tasks[t].payment) - net >= 0
      && GasCoin(w.tasks[t].payment[0], version, digest, ChainSum(w.chain, w.tasks[t].payment) - net).Fits()
    case Record(t) => t < |w.tasks| && w.tasks[t].Executed?
    case Reread(t, order) =>
      && t < |w.tasks| && w.tasks[t].Rereading?
      && Distinct(order) && forall id :: id in order <==> id in w.tasks[t].ids && id in w.chain
    case Release(t) => t < |w.tasks| && w.tasks[t].Releasing? && w.pool.StatsReady()
    case ExpireReservations(now, batch) => Enumerates(batch, Lapsed(w.pool, now))
    // The initializer brings coins that the pool does not track, as they are on chain.
    case Fund(coins) =>
      && w.pool.StatsReady() && Distinct(Ids(coins))
      && forall c :: c in coins ==> c.id !in w.tracked && c.id in w.chain && w.chain[c.id] == c
    // The address is dedicated: nobody else touches tracked coins, and object ids are never reused.
    case Environment(next) =>
      && GoodChain(next) && w.smashed !! next.Keys
      && forall id :: id in w.tracked && id in w.chain ==> id in next && next[id] == w.chain[id]
  }

  function Goto(w: World, t: nat, task: Task): World
    requires t < |w.tasks|
  {
    w.(tasks := w.tasks[t := task])
  }

  /** ready_for_execution, and the task that goes on with whatever payment its transaction names. */
  function BeginWith(w: World, id: nat, payment: seq<ObjectId>): World
  {
    var q := Ready(w.pool, id);
    if q.None? then w
    else w.(pool := q.value, tasks := w.tasks + [Taken(payment)], taken := w.taken + {id})
  }

  ghost function Apply(w: World, s: Step): World
    requires Enabled(w, s)
  {
    match s
    case InitializeStats => w.(pool := InitStats(w.pool))
    case ReserveGas(budget, deadline) =>
      var (q, grant) := Reserve(w.pool, budget, deadline);
      if grant.None? then w.(pool := q) else w.(pool := q, issued := w.issued[grant.value.id := deadline])
    case Begin(id, payment) => BeginWith(w, id, payment)
    case CountBalance(t) =>
      var payment := w.tasks[t].payment;
      Goto(w, t, Counted(payment, WrapU64(ChainSum(w.chain, payment))))
    case Reject(t) => Goto(w, t, Rereading(w.tasks[t].payment))
    case Settle(t, net, version, digest, reported) =>
      var Counted(payment, total) := w.tasks[t];
      var gone := set id | id in payment[1..];
      var coin := GasCoin(payment[0], version, digest, ChainSum(w.chain, payment) - net);
      var next := w.(chain := Smash(w.chain, payment, coin), tracked := w.tracked - gone, smashed := w.smashed + gone);
      if reported then Goto(next, t, Executed(payment, total, net, payment[0], version, digest))
      else Goto(next, t, Rereading(payment)).(unrecorded := w.unrecorded + net)
    case Record(t) =>
      var Executed(_, total, net, gas, version, digest) := w.tasks[t];
      Goto(w, t, Releasing([GasCoin(gas, version, digest, DerivedBalance(total, net))]))
        .(recorded := w.recorded + net)
    case Reread(t, order) =>
      Goto(w, t, Releasing(seq(|order|, i requires 0 <= i < |order| => assert order[i] in order; w.chain[order[i]])))
    case Release(t) => Goto(w, t, Finished).(pool := AddCoins(w.pool, w.tasks[t].coins))
    case ExpireReservations(now, batch) =>
      var ids := Gather(w.pool.live, batch);
      w.(pool := Expire(w.pool, now), expired := w.expired + Lapsed(w.pool, now),
         tasks := if ids == [] then w.tasks else w.tasks + [Rereading(ids)])
    case Fund(coins) =>
      w.(pool := AddCoins(w.pool, coins), tracked := w.tracked + (set id | id in Ids(coins)), added := w.added + Sum(coins))
    case Environment(next) => w.(chain := next)
  }

  ghost predicate Init(w: World)
  {
    && w.pool == EMPTY_POOL && w.tasks == [] && w.tracked == {} && w.smashed == {} && GoodChain(w.chain)
    && w.added == w.recorded == w.unrecorded == 0
    && w.issued == map[] && w.taken == {} && w.expired == {}
  }

  /** A run is a list of steps, each enabled in the world the steps before it lead to. */
  ghost predicate Runs(w: World, steps: seq<Step>)
    decreases steps, 0
  {
    steps == [] || (Runs(w, steps[..|steps| - 1]) && Enabled(After(w, steps[..|steps| - 1]), steps[|steps| - 1]))
  }

  ghost function After(w: World, steps: seq<Step>): World
    requires Runs(w, steps)
    decreases steps, 1
  {
    if steps == [] then w else Apply(After(w, steps[..|steps| - 1]), steps[|steps| - 1])
  }
}
