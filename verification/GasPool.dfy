/** The per-sponsor record that the Lua scripts keep in Redis, and what each script does to it. */
module GasPool {
  import opened Wrappers
  import opened CoinText

  const MAX_GAS_PER_QUERY: nat := 256

  datatype Pool = Pool(
    available: seq<GasCoin>,          // first in, first out
    live: map<nat, seq<ObjectId>>,    // reservations that are neither taken nor expired
    expiry: map<nat, nat>,            // the scored expiration set
    nextId: nat,
    count: Option<int>,               // cached statistics, absent until the first start
    total: Option<int>,
    initialized: bool,
    initLock: Option<nat>)
  {
    predicate StatsReady() { count.Some? && total.Some? }

    /** The cached statistics, when present, are those of the list. */
    predicate StatsAgree()
    {
      && (count.Some? ==> count.value == |available|)
      && (total.Some? ==> total.value == Sum(available))
    }
  }

  const EMPTY_POOL: Pool := Pool([], map[], map[], 0, None, None, false, None)

  datatype Grant = Grant(id: nat, coins: seq<GasCoin>)

  function Cap(n: nat): nat { if n < MAX_GAS_PER_QUERY then n else MAX_GAS_PER_QUERY }

  /** The first j coins are not worth the budget. */
  predicate Falls(coins: seq<GasCoin>, budget: nat, j: nat)
    requires j <= |coins|
  {
    Sum(coins[..j]) < budget
  }

  /** The length of the shortest prefix, of at most `limit` coins, worth the budget. */
  function Shortest(coins: seq<GasCoin>, budget: nat, limit: nat): (r: Option<nat>)
    requires limit <= |coins|
    ensures r.Some? ==> r.value <= limit
  {
    var r := if limit == 0 then None else Shortest(coins, budget, limit - 1);
    if r.Some? || Falls(coins, budget, limit) then r else Some(limit)
  }

  lemma {:induction false} ShortestIsShortest(coins: seq<GasCoin>, budget: nat, limit: nat)
    requires limit <= |coins|
    ensures var r := Shortest(coins, budget, limit);
            && (r.Some? ==> !Falls(coins, budget, r.value) && forall j :: 0 <= j < r.value ==> Falls(coins, budget, j))
            && (r.None? ==> forall j :: 0 <= j <= limit ==> Falls(coins, budget, j))
  {
    if limit > 0 { ShortestIsShortest(coins, budget, limit - 1); }
  }

  function Reserve(p: Pool, budget: nat, deadline: nat): (Pool, Option<Grant>)
    requires p.StatsReady()
  {
    match Shortest(p.available, budget, Cap(|p.available|))
    case None => (p, None)
    case Some(k) =>
      var taken := p.available[..k];
      var id := p.nextId + 1;
      (p.(available := p.available[k..],
          total := Some(p.total.value - Sum(taken)),
          count := Some(p.count.value - k),
          nextId := id,
          live := p.live[id := Ids(taken)],
          expiry := p.expiry[id := deadline]),
       Some(Grant(id, taken)))
  }

  /** None is the error "Reservation no longer exist". */
  function Ready(p: Pool, id: nat): Option<Pool>
  {
    if id in p.live then Some(p.(live := p.live - {id})) else None
  }

  function AddCoins(p: Pool, coins: seq<GasCoin>): Pool
    requires p.StatsReady()
  {
    p.(available := p.available + coins,
       initialized := p.initialized || coins != [],
       total := Some(p.total.value + Sum(coins)),
       count := Some(p.count.value + |coins|))
  }

  function Lapsed(p: Pool, now: nat): set<nat> { set r | r in p.live && r in p.expiry && p.expiry[r] <= now }

  function Later(expiry: map<nat, nat>, now: nat): map<nat, nat>
  {
    map r | r in expiry && expiry[r] > now :: expiry[r]
  }

  function Expire(p: Pool, now: nat): Pool
  {
    p.(live := p.live - Lapsed(p, now), expiry := Later(p.expiry, now))
  }

  function InitStats(p: Pool): Pool
  {
    p.(count := if p.count.Some? then p.count else Some(|p.available|),
       total := if p.total.Some? then p.total else Some(Sum(p.available)))
  }

  /** The new lock value, or None when another holder's lock has not lapsed. */
  function AcquireLock(lock: Option<nat>, now: nat, duration: nat): Option<nat>
  {
    if lock.None? || lock.value < now then Some(now + duration) else None
  }

  // ---------- Reservation ----------

  lemma SumPrefix(coins: seq<GasCoin>, i: nat, j: nat)
    requires i <= j <= |coins|
    ensures Sum(coins[..i]) <= Sum(coins[..j])
  {
    SumConcat(coins[..i], coins[i..j]);
    assert coins[..j] == coins[..i] + coins[i..j];
  }

  /** The prefix that a grant takes. */
  lemma TakenPrefix(available: seq<GasCoin>, budget: nat)
    ensures var k := Shortest(available, budget, Cap(|available|));
            && (k.Some? <==> Sum(available[..Cap(|available|)]) >= budget)
            && (k.Some? ==>
                  && k.value <= Cap(|available|) && Sum(available[..k.value]) >= budget
                  && (forall j :: 0 <= j < k.value ==> Sum(available[..j]) < budget)
                  && (budget > 0 <==> k.value != 0))
  {
    var n := Cap(|available|);
    ShortestIsShortest(available, budget, n);
    match Shortest(available, budget, n)
    case None => assert Falls(available, budget, n);
    case Some(k) =>
      SumPrefix(available, k, n);
      forall j | 0 <= j < k ensures Sum(available[..j]) < budget { assert Falls(available, budget, j); }
      assert Falls(available, budget, 0) <==> budget > 0;
  }

  lemma PrefixOfPrefix(coins: seq<GasCoin>, k: nat)
    requires k <= |coins|
    ensures coins[..k] + coins[k..] == coins
    ensures forall j :: 0 <= j <= k ==> coins[..k][..j] == coins[..j]
  {
  }

  /** A reservation succeeds exactly when the first 256 coins are worth the budget; it takes the
      shortest prefix that is, in order, and a failed one changes nothing. */
  lemma ReservationIsExact(p: Pool, budget: nat, deadline: nat)
    requires p.StatsReady()
    ensures var (q, grant) := Reserve(p, budget, deadline);
            && (grant.Some? <==> Sum(p.available[..if |p.available| < 256 then |p.available| else 256]) >= budget)
            && (grant.None? ==> q == p)
            && (grant.Some? ==>
                  var coins := grant.value.coins;
                  && coins + q.available == p.available
                  && |coins| <= 256
                  && Sum(coins) >= budget
                  && (forall j :: 0 <= j < |coins| ==> Sum(coins[..j]) < budget)
                  && (budget > 0 <==> coins != []))
  {
    TakenPrefix(p.available, budget);
    var k := Shortest(p.available, budget, Cap(|p.available|));
    if k.Some? { PrefixOfPrefix(p.available, k.value); }
  }

  /** A budget can be granted exactly when some prefix of at most 256 coins is worth it. */
  lemma GrantedWithin256(p: Pool, budget: nat, deadline: nat)
    requires p.StatsReady()
    ensures Reserve(p, budget, deadline).1.Some?
            <==> exists k :: 0 <= k <= 256 && k <= |p.available| && Sum(p.available[..k]) >= budget
  {
    ReservationIsExact(p, budget, deadline);
    var n := if |p.available| < 256 then |p.available| else 256;
    if k :| 0 <= k <= 256 && k <= |p.available| && Sum(p.available[..k]) >= budget { SumPrefix(p.available, k, n); }
  }

  /** What a grant writes besides: a record with the next number, its ids and its deadline, and statistics
      less by what was taken. The flag and the lock are left alone. */
  lemma ReservationRecords(p: Pool, budget: nat, deadline: nat)
    requires p.StatsReady()
    ensures var (q, grant) := Reserve(p, budget, deadline);
            && q.initialized == p.initialized && q.initLock == p.initLock && q.StatsReady()
            && (grant.Some? ==>
                  var Grant(id, coins) := grant.value;
                  && id == q.nextId == p.nextId + 1
                  && q.live == p.live[id := Ids(coins)] && q.expiry == p.expiry[id := deadline]
                  && q.total.value == p.total.value - Sum(coins) && q.count.value == p.count.value - |coins|)
  {
    ReservationIsExact(p, budget, deadline);
  }

  /** Taking a reservation needs it live, and touches nothing else, its deadline included. */
  lemma ReadyIsExact(p: Pool, id: nat)
    ensures match Ready(p, id)
            case None => id !in p.live
            case Some(q) =>
              && id in p.live && id !in q.live && (forall r :: r != id ==> (r in q.live <==> r in p.live))
              && (forall r :: r in q.live ==> q.live[r] == p.live[r])
              && q.available == p.available && q.expiry == p.expiry && q.nextId == p.nextId
              && q.count == p.count && q.total == p.total && q.initialized == p.initialized && q.initLock == p.initLock
  {
  }

  /** Missing statistics are those of the list; present ones, and all else, stay. */
  lemma InitStatsIsExact(p: Pool)
    ensures var q := InitStats(p);
            && q.StatsReady() && (p.StatsAgree() ==> q.StatsAgree())
            && (p.count.None? ==> q.count.value == |p.available|) && (p.total.None? ==> q.total.value == Sum(p.available))
            && (p.count.Some? ==> q.count == p.count) && (p.total.Some? ==> q.total == p.total)
            && q.available == p.available && q.live == p.live && q.expiry == p.expiry && q.nextId == p.nextId
            && q.initialized == p.initialized && q.initLock == p.initLock
  {
  }

  /** Every script keeps the cached statistics equal to those of the list. */
  lemma StatsStayTrue(p: Pool, budget: nat, deadline: nat, id: nat, now: nat, coins: seq<GasCoin>)
    requires p.StatsReady() && p.StatsAgree()
    ensures Reserve(p, budget, deadline).0.StatsAgree()
    ensures AddCoins(p, coins).StatsAgree()
    ensures Ready(p, id).Some? ==> Ready(p, id).value.StatsAgree()
    ensures Expire(p, now).StatsAgree()
    ensures InitStats(p) == p
  {
    ReservationIsExact(p, budget, deadline);
    var (q, grant) := Reserve(p, budget, deadline);
    if grant.Some? { SumConcat(grant.value.coins, q.available); }
    SumConcat(p.available, coins);
  }

  // ---------- The ids held by live reservations ----------

  /** All ids held by the reservations numbered up to n, with multiplicity. */
  function LiveIds(live: map<nat, seq<ObjectId>>, n: nat): multiset<ObjectId>
  {
    if n == 0 then multiset{}
    else LiveIds(live, n - 1) + if n in live then multiset(live[n]) else multiset{}
  }

  /** Reservation numbers start at 1 and never exceed the counter. */
  predicate Numbered(p: Pool) { forall r :: r in p.live ==> 0 < r <= p.nextId }

  lemma {:induction false} LiveIdsFrame(a: map<nat, seq<ObjectId>>, b: map<nat, seq<ObjectId>>, n: nat)
    requires forall r :: 0 < r <= n ==> (r in a <==> r in b) && (r in a ==> a[r] == b[r])
    ensures LiveIds(a, n) == LiveIds(b, n)
  {
    if n > 0 { LiveIdsFrame(a, b, n - 1); }
  }

  lemma {:induction false} LiveIdsRemove(live: map<nat, seq<ObjectId>>, id: nat, n: nat)
    requires 0 < id <= n && id in live
    ensures LiveIds(live, n) == LiveIds(live - {id}, n) + multiset(live[id])
  {
    if id == n {
      LiveIdsFrame(live, live - {id}, n - 1);
    } else {
      LiveIdsRemove(live, id, n - 1);
    }
  }

  lemma LiveIdsAdd(live: map<nat, seq<ObjectId>>, ids: seq<ObjectId>, n: nat)
    ensures LiveIds(live[n + 1 := ids], n + 1) == LiveIds(live, n) + multiset(ids)
  {
    LiveIdsFrame(live, live[n + 1 := ids], n);
  }

  /** A granted reservation moves the ids it takes from the list to the live reservations. */
  lemma ReservationMovesIds(p: Pool, budget: nat, deadline: nat)
    requires p.StatsReady()
    ensures var (q, grant) := Reserve(p, budget, deadline);
            if grant.None? then q == p
            else
              var moved := multiset(Ids(grant.value.coins));
              && multiset(Ids(p.available)) == multiset(Ids(q.available)) + moved
              && LiveIds(q.live, q.nextId) == LiveIds(p.live, p.nextId) + moved
  {
    var (q, grant) := Reserve(p, budget, deadline);
    if grant.Some? {
      var coins := grant.value.coins;
      assert p.available == coins + q.available;
      IdsConcat(coins, q.available);
      LiveIdsAdd(p.live, Ids(coins), p.nextId);
    }
  }

  // ---------- Expiry ----------

  /** `order` lists the members of s, each once. */
  ghost predicate Enumerates(order: seq<nat>, s: set<nat>)
  {
    && (forall r :: r in order <==> r in s)
    && forall i, j :: 0 <= i < j < |order| ==> order[i] != order[j]
  }

  /** The ids of the listed reservations, one reservation after the other. */
  function Gather(live: map<nat, seq<ObjectId>>, order: seq<nat>): seq<ObjectId>
    requires forall r :: r in order ==> r in live
  {
    if order == [] then [] else live[order[0]] + Gather(live, order[1..])
  }

  lemma {:induction false} LiveIdsGather(live: map<nat, seq<ObjectId>>, order: seq<nat>, s: set<nat>, n: nat)
    requires Enumerates(order, s)
    requires forall r :: r in s ==> r in live && 0 < r <= n
    ensures LiveIds(live, n) == LiveIds(live - s, n) + multiset(Gather(live, order))
    decreases |order|
  {
    if order == [] {
      assert live - s == live;
    } else {
      var r, rest := order[0], live - {order[0]};
      assert forall x :: x in order <==> x == r || x in order[1..];
      assert order[0] in s;
      LiveIdsRemove(live, r, n);
      LiveIdsGather(rest, order[1..], s - {r}, n);
      assert rest - (s - {r}) == live - s;
      GatherFrame(live, rest, order[1..]);
      assert multiset(Gather(live, order)) == multiset(live[r]) + multiset(Gather(live, order[1..]));
    }
  }

  lemma {:induction false} GatherFrame(a: map<nat, seq<ObjectId>>, b: map<nat, seq<ObjectId>>, order: seq<nat>)
    requires forall r :: r in order ==> r in a && r in b && a[r] == b[r]
    ensures Gather(a, order) == Gather(b, order)
  {
    if order != [] { GatherFrame(a, b, order[1..]); }
  }

  lemma ExpiryMovesIds(p: Pool, now: nat, order: seq<nat>)
    requires Numbered(p) && Enumerates(order, Lapsed(p, now))
    ensures LiveIds(p.live, p.nextId) == LiveIds(Expire(p, now).live, p.nextId) + multiset(Gather(p.live, order))
  {
    LiveIdsGather(p.live, order, Lapsed(p, now), p.nextId);
  }

  /** Expiry takes exactly the lapsed reservations: every id they held is returned exactly once, no
      lapsed reservation stays live, and every other one is untouched and keeps its deadline. */
  lemma ExpiryIsExact(p: Pool, now: nat, order: seq<nat>)
    requires Numbered(p) && p.live.Keys <= p.expiry.Keys
    requires Enumerates(order, Lapsed(p, now))
    ensures var q := Expire(p, now);
            && LiveIds(p.live, p.nextId) == LiveIds(q.live, p.nextId) + multiset(Gather(p.live, order))
            && (forall r :: r in q.live <==> r in p.live && p.expiry[r] > now)
            && (forall r :: r in q.live ==> q.live[r] == p.live[r] && r in q.expiry && q.expiry[r] == p.expiry[r])
            && (forall r :: r in q.expiry <==> r in p.expiry && p.expiry[r] > now)
            && q.available == p.available && q.nextId == p.nextId && q.count == p.count && q.total == p.total
            && q.initialized == p.initialized && q.initLock == p.initLock
  {
    ExpiryMovesIds(p, now, order);
  }

  /** The expiration entry that `ready_for_execution` leaves behind has no effect on any later expiry. */
  lemma StaleEntriesHaveNoEffect(p: Pool, stale: set<nat>, now: nat)
    requires stale !! p.live.Keys
    ensures var clean := p.(expiry := p.expiry - stale);
            && Lapsed(clean, now) == Lapsed(p, now)
            && Expire(clean, now) == Expire(p, now).(expiry := Expire(p, now).expiry - stale)
  {
    var clean := p.(expiry := p.expiry - stale);
    assert Lapsed(clean, now) == Lapsed(p, now);
    assert Expire(clean, now).expiry == Expire(p, now).expiry - stale;
  }
}
