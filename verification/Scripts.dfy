/** The Lua scripts. Each runs atomically on the server and refines a step on the sponsor's pool. */
module Scripts {
  import opened Wrappers
  import opened Text
  import opened CoinText
  import opened GasPool
  import opened Redis

  // ---------- reserve_gas_coins ----------

  /** The line carries the coin's balance and id where the scripts look for them. */
  ghost predicate Carries(line: string, c: GasCoin)
  {
    && ScanFirst(line).Some? && ToNumber(ScanFirst(line).value) == Some(c.balance)
    && ScanSecond(line) == Some(c.id)
  }

  ghost predicate AllCarry(lines: seq<string>, queue: seq<GasCoin>)
  {
    |lines| == |queue| && forall i {:trigger Carries(lines[i], queue[i])} :: 0 <= i < |lines| ==> Carries(lines[i], queue[i])
  }

  lemma EncodedCoinsCarry(queue: seq<GasCoin>)
    requires AllFit(queue)
    ensures AllCarry(EncodeCoins(queue), queue)
  {
    forall i | 0 <= i < |queue| ensures Carries(EncodeCoins(queue)[i], queue[i]) {
      assert queue[i].Fits();
      EncodeAt(queue, i);
      CoinRoundTrip(queue[i]);
    }
  }

  method ReadCoin(line: string, ghost k: nat, ghost lines: seq<string>, ghost queue: seq<GasCoin>)
    returns (balance: int, objectId: ObjectId)
    requires AllCarry(lines, queue) && k < |lines| && line == lines[k]
    ensures balance == queue[k].balance && objectId == queue[k].id
  {
    assert Carries(lines[k], queue[k]);
    balance := ToNumber(ScanFirst(line).value).value;
    objectId := ScanSecond(line).value;
  }

  lemma ShortestIs(coins: seq<GasCoin>, budget: nat, k: nat)
    requires k <= Cap(|coins|) && forall j :: 0 <= j < k ==> Falls(coins, budget, j)
    requires !Falls(coins, budget, k) || k == Cap(|coins|)
    ensures Shortest(coins, budget, Cap(|coins|)) == if !Falls(coins, budget, k) then Some(k) else None
  {
    ShortestIsShortest(coins, budget, Cap(|coins|));
  }

  /** LPOP, and what the scan finds in the coin popped after k others. */
  method PopOne(r: Server, sponsor: Sponsor, ghost k: nat, ghost lines: seq<string>, ghost queue: seq<GasCoin>, ghost before: Cells)
    returns (coin: Option<string>, balance: nat, objectId: ObjectId)
    requires r.Valid() && ColonFree(sponsor) && AllCarry(lines, queue) && k <= |lines|
    requires r.cells == With(before, sponsor, Available, ListValue(lines[k..]))
    modifies r
    ensures r.Valid() && (coin.None? <==> k == |lines|)
    ensures coin.Some? ==> coin.value == lines[k] && balance == queue[k].balance && objectId == queue[k].id
    ensures r.cells == With(before, sponsor, Available, ListValue(if coin.Some? then lines[k + 1..] else lines[k..]))
  {
    balance, objectId := 0, "";
    coin := r.LPop(sponsor, Available, lines[k..]);
    if coin.Some? {
      WithLast(before, sponsor, Available, ListValue(lines[k..]), ListValue(lines[k + 1..]));
      balance, objectId := ReadCoin(coin.value, k, lines, queue);
    }
  }

  /** The LPOP loop: pops the shortest prefix worth the budget, or as many coins as it may. */
  method PopCoins(r: Server, sponsor: Sponsor, targetBudget: nat, ghost lines: seq<string>, ghost queue: seq<GasCoin>)
    returns (totalBalance: nat, coins: seq<string>, objectIds: seq<ObjectId>)
    requires r.Valid() && ColonFree(sponsor) && At(r.cells, sponsor, Available) == ListValue(lines) && AllCarry(lines, queue)
    modifies r
    ensures |coins| <= |queue| && r.Valid() && r.cells == With(old(r.cells), sponsor, Available, ListValue(lines[|coins|..]))
    ensures coins == lines[..|coins|] && objectIds == Ids(queue[..|coins|])
    ensures totalBalance == Sum(queue[..|coins|])
    ensures Shortest(queue, targetBudget, Cap(|queue|))
            == if totalBalance >= targetBudget then Some(|coins|) else None
  {
    totalBalance, coins, objectIds := 0, [], [];
    WithLast(r.cells, sponsor, Available, None, None);
    while totalBalance < targetBudget && |coins| < MAX_GAS_PER_QUERY
      invariant Popped(lines, queue, targetBudget, totalBalance, coins, objectIds)
      invariant r.Valid() && r.cells == With(old(r.cells), sponsor, Available, ListValue(lines[|coins|..]))
      decreases MAX_GAS_PER_QUERY - |coins|
    {
      var coin, balance, objectId := PopOne(r, sponsor, |coins|, lines, queue, old(r.cells));
      if coin.None? { break; }
      PoppedOne(lines, queue, targetBudget, totalBalance, coins, objectIds);
      totalBalance := totalBalance + balance;
      coins := coins + [coin.value];
      objectIds := objectIds + [objectId];
    }
    ShortestIs(queue, targetBudget, |coins|);
  }

  /** What the pop loop has so far: the first coins of the list, every shorter prefix of them too small. */
  ghost predicate Popped(lines: seq<string>, queue: seq<GasCoin>, budget: nat, total: nat, coins: seq<string>, ids: seq<ObjectId>)
  {
    && |lines| == |queue| && |coins| <= Cap(|queue|)
    && coins == lines[..|coins|] && ids == Ids(queue[..|coins|]) && total == Sum(queue[..|coins|])
    && forall j :: 0 <= j < |coins| ==> Falls(queue, budget, j)
  }

  lemma PoppedOne(lines: seq<string>, queue: seq<GasCoin>, budget: nat, total: nat, coins: seq<string>, ids: seq<ObjectId>)
    requires Popped(lines, queue, budget, total, coins, ids)
    requires total < budget && |coins| < Cap(|queue|)
    ensures var k := |coins|;
            Popped(lines, queue, budget, total + queue[k].balance, coins + [lines[k]], ids + [queue[k].id])
  {
    var k := |coins|;
    assert queue[..k + 1][..k] == queue[..k];
    assert Ids(queue[..k + 1]) == ids + [queue[k].id];
  }

  /** The LPUSH loop that undoes the pops. */
  method PushBack(r: Server, sponsor: Sponsor, coins: seq<string>, ghost rest: seq<string>)
    requires r.Valid() && ColonFree(sponsor) && At(r.cells, sponsor, Available) == ListValue(rest)
    modifies r
    ensures r.Valid() && r.cells == With(old(r.cells), sponsor, Available, ListValue(coins + rest))
  {
    assert coins[|coins|..] + rest == rest;
    WithLast(r.cells, sponsor, Available, None, None);
    for i := |coins| downto 0
      invariant r.Valid() && r.cells == With(old(r.cells), sponsor, Available, ListValue(coins[i..] + rest))
    {
      assert coins[i..] + rest == [coins[i]] + (coins[i + 1..] + rest);
      WithLast(old(r.cells), sponsor, Available, ListValue(coins[i + 1..] + rest), ListValue(coins[i..] + rest));
      r.LPush(sponsor, Available, coins[i], coins[i + 1..] + rest);
    }
    assert coins[0..] == coins;
  }

  lemma EncodeHalves(queue: seq<GasCoin>, a: seq<GasCoin>, b: seq<GasCoin>)
    requires queue == a + b
    ensures EncodeCoins(queue)[..|a|] == EncodeCoins(a)
    ensures EncodeCoins(queue)[|a|..] == EncodeCoins(b)
  {
    EncodeConcat(a, b);
    var x, y := EncodeCoins(a), EncodeCoins(b);
    assert (x + y)[..|x|] == x && (x + y)[|x|..] == y;
  }

  /** The pops, undone when they do not reach the budget. */
  method TakeCoins(r: Server, sponsor: Sponsor, targetBudget: nat, ghost queue: seq<GasCoin>)
    returns (totalBalance: nat, coins: seq<string>, objectIds: seq<ObjectId>)
    requires r.Valid() && ColonFree(sponsor) && At(r.cells, sponsor, Available) == ListValue(EncodeCoins(queue)) && AllFit(queue)
    modifies r
    ensures r.Valid()
    ensures var k := Shortest(queue, targetBudget, Cap(|queue|));
            && (k.None? ==> totalBalance < targetBudget && r.db == old(r.db) && r.cells == old(r.cells))
            && (k.Some? ==> && totalBalance >= targetBudget
                            && totalBalance == Sum(queue[..k.value])
                            && coins == EncodeCoins(queue[..k.value]) && objectIds == Ids(queue[..k.value])
                            && r.cells == With(old(r.cells), sponsor, Available, ListValue(EncodeCoins(queue[k.value..]))))
  {
    ghost var lines := EncodeCoins(queue);
    EncodedCoinsCarry(queue);
    totalBalance, coins, objectIds := PopCoins(r, sponsor, targetBudget, lines, queue);
    ghost var rest := lines[|coins|..];
    assert coins + rest == lines;
    if totalBalance < targetBudget {
      PushBack(r, sponsor, coins, rest);
      WithLast(old(r.cells), sponsor, Available, ListValue(rest), ListValue(lines));
      CellsDetermineKeyspace(old(r.db), r.db, r.cells);
    } else {
      EncodeHalves(queue, queue[..|coins|], queue[|coins|..]);
    }
  }

  /** GET a statistic, add to it, SET it. */
  method Adjust(r: Server, sponsor: Sponsor, f: Field, delta: int, ghost current: int) returns (n: int)
    requires r.Valid() && ColonFree(sponsor) && At(r.cells, sponsor, f) == Some(Str(IntText(current)))
    modifies r
    ensures r.Valid() && n == current + delta
    ensures r.cells == old(r.cells)[Slot(sponsor, f) := Str(IntText(n))]
  {
    NumberRoundTrip(current);
    var text := r.Get(sponsor, f);
    n := ToNumber(text.value).value + delta;
    r.Set(sponsor, f, IntText(n));
  }

  ghost function StatWrites(cells: Cells, s: Sponsor, total: int, count: int): Cells
  {
    cells[Slot(s, TotalBalance) := Str(IntText(total))][Slot(s, Count) := Str(IntText(count))]
  }

  method AdjustStats(r: Server, sponsor: Sponsor, total: int, count: int, ghost p: Pool) returns (newTotal: int, newCount: int)
    requires r.Valid() && ColonFree(sponsor) && p.StatsReady()
    requires At(r.cells, sponsor, TotalBalance) == CellOf(p, TotalBalance)
    requires At(r.cells, sponsor, Count) == CellOf(p, Count)
    modifies r
    ensures r.Valid() && newTotal == p.total.value + total && newCount == p.count.value + count
    ensures r.cells == StatWrites(old(r.cells), sponsor, newTotal, newCount)
  {
    newTotal := Adjust(r, sponsor, TotalBalance, total, p.total.value);
    newCount := Adjust(r, sponsor, Count, count, p.count.value);
  }

  lemma ScoresAdd(expiry: map<nat, nat>, id: nat, score: nat)
    ensures EncodeScores(expiry[id := score]) == EncodeScores(expiry)[Dec(id) := score] != map[]
  {
    var a, b := EncodeScores(expiry[id := score]), EncodeScores(expiry)[Dec(id) := score];
    ScoreMembers(expiry);
    ScoreMembers(expiry[id := score]);
    assert Dec(id) in b;
  }

  /** What a granted reservation writes after the statistics. */
  ghost function GrantWrites(cells: Cells, s: Sponsor, q: Pool, ids: seq<ObjectId>): Cells
  {
    cells[Slot(s, NextId) := Str(Dec(q.nextId))]
         [Slot(s, Reservation(q.nextId)) := Str(Join(ids))]
         [Slot(s, Expiration) := ZSet(EncodeScores(q.expiry))]
  }

  /** What a grant of these ids, up to this deadline, makes of a pool. */
  ghost predicate Granted(p: Pool, q: Pool, ids: seq<ObjectId>, deadline: nat, totalBalance: int, count: int)
  {
    && p.StatsReady() && q.StatsReady()
    && q.total.value == p.total.value - totalBalance && q.count.value == p.count.value - count
    && q.nextId == p.nextId + 1 && q.live == p.live[q.nextId := ids] && q.expiry == p.expiry[q.nextId := deadline]
    && q.initialized == p.initialized && q.initLock == p.initLock
  }

  /** All that the script writes. */
  ghost function GrantedCells(before: Cells, s: Sponsor, q: Pool, ids: seq<ObjectId>): Cells
    requires q.StatsReady()
  {
    GrantWrites(StatWrites(With(before, s, Available, ListValue(EncodeCoins(q.available))), s, q.total.value, q.count.value), s, q, ids)
  }

  lemma GrantIsOwn(before: Cells, s: Sponsor, q: Pool, ids: seq<ObjectId>)
    requires q.StatsReady()
    ensures OnlyOwn(before, GrantedCells(before, s, q, ids), s)
  {
  }

  lemma SomeScores(expiry: map<nat, nat>, r: nat)
    requires r in expiry
    ensures EncodeScores(expiry) != map[]
  {
    ScoreMembers(expiry);
    assert Dec(r) in EncodeScores(expiry);
  }

  lemma GrantRepresents(before: Cells, s: Sponsor, p: Pool, q: Pool, ids: seq<ObjectId>, deadline: nat, totalBalance: int, count: int)
    requires Represents(before, s, p) && Granted(p, q, ids, deadline, totalBalance, count)
    ensures Represents(GrantedCells(before, s, q, ids), s, q)
  {
    var after := GrantedCells(before, s, q, ids);
    SomeScores(q.expiry, q.nextId);
    forall f ensures At(after, s, f) == CellOf(q, f) {
      assert At(before, s, f) == CellOf(p, f);
      match f
      case Available =>
      case Expiration =>
      case NextId =>
      case TotalBalance =>
      case Count =>
      case Initialized =>
      case InitLock =>
      case Reservation(id) =>
    }
  }

  /** INCR and GET of the counter, SET of the reservation, ZADD of its deadline. */
  method RecordReservation(r: Server, sponsor: Sponsor, objectIds: seq<ObjectId>, expirationTime: nat, ghost p: Pool, ghost q: Pool)
    returns (reservationId: string)
    requires r.Valid() && ColonFree(sponsor)
    requires At(r.cells, sponsor, NextId) == CellOf(p, NextId)
    requires At(r.cells, sponsor, Expiration) == CellOf(p, Expiration)
    requires q.nextId == p.nextId + 1 && q.expiry == p.expiry[q.nextId := expirationTime]
    modifies r
    ensures r.Valid() && reservationId == Dec(q.nextId)
    ensures r.cells == GrantWrites(old(r.cells), sponsor, q, objectIds)
  {
    r.Incr(sponsor, NextId, p.nextId);
    var text := r.Get(sponsor, NextId);
    reservationId := text.value;
    DecReadsBack(q.nextId);
    r.Set(sponsor, Reservation(DigitsValue(reservationId)), Join(objectIds));
    ScoresAdd(p.expiry, p.nextId + 1, expirationTime);
    r.ZAdd(sponsor, Expiration, expirationTime, reservationId, EncodeScores(p.expiry));
  }

  /** The statistics, then the reservation. */
  method WriteGrant(r: Server, sponsor: Sponsor, totalBalance: nat, count: nat, objectIds: seq<ObjectId>,
                    expirationTime: nat, ghost p: Pool, ghost q: Pool)
    returns (reservationId: string, newTotal: int, newCount: int)
    requires r.Valid() && ColonFree(sponsor) && Granted(p, q, objectIds, expirationTime, totalBalance, count)
    requires At(r.cells, sponsor, TotalBalance) == CellOf(p, TotalBalance) && At(r.cells, sponsor, Count) == CellOf(p, Count)
    requires At(r.cells, sponsor, NextId) == CellOf(p, NextId) && At(r.cells, sponsor, Expiration) == CellOf(p, Expiration)
    modifies r
    ensures r.Valid() && r.cells == GrantWrites(StatWrites(old(r.cells), sponsor, newTotal, newCount), sponsor, q, objectIds)
    ensures reservationId == Dec(q.nextId) && newTotal == q.total.value && newCount == q.count.value
  {
    newTotal, newCount := AdjustStats(r, sponsor, 0 - totalBalance, 0 - count, p);
    reservationId := RecordReservation(r, sponsor, objectIds, expirationTime, p, q);
  }

  /** Everything the script writes once the coins are popped. */
  method RecordGrant(r: Server, sponsor: Sponsor, totalBalance: nat, count: nat, objectIds: seq<ObjectId>,
                     expirationTime: nat, ghost before: Cells, ghost p: Pool, ghost q: Pool)
    returns (reservationId: string, newTotal: int, newCount: int)
    requires r.Valid() && ColonFree(sponsor) && Represents(before, sponsor, p)
    requires r.cells == With(before, sponsor, Available, ListValue(EncodeCoins(q.available)))
    requires Granted(p, q, objectIds, expirationTime, totalBalance, count)
    modifies r
    ensures r.Valid() && OnlyOwn(before, r.cells, sponsor) && Represents(r.cells, sponsor, q)
    ensures reservationId == Dec(q.nextId) && newTotal == q.total.value && newCount == q.count.value
  {
    PoolCells(before, sponsor, p);
    GrantIsOwn(before, sponsor, q, objectIds);
    GrantRepresents(before, sponsor, p, q, objectIds, expirationTime, totalBalance, count);
    reservationId, newTotal, newCount := WriteGrant(r, sponsor, totalBalance, count, objectIds, expirationTime, p, q);
  }

  lemma ReserveGrants(p: Pool, budget: nat, deadline: nat)
    requires p.StatsReady() && Shortest(p.available, budget, Cap(|p.available|)).Some?
    ensures var k := Shortest(p.available, budget, Cap(|p.available|)).value;
            var (q, grant) := Reserve(p, budget, deadline);
            && k <= |p.available| && q.available == p.available[k..]
            && Granted(p, q, Ids(p.available[..k]), deadline, Sum(p.available[..k]), k)
            && grant == Some(Grant(q.nextId, p.available[..k])) && |EncodeCoins(p.available[..k])| == k
  {
  }

  method ReserveGasCoins(r: Server, sponsor: Sponsor, targetBudget: nat, expirationTime: nat, ghost p: Pool)
    returns (reservationId: string, coins: seq<string>, newTotal: int, newCount: int)
    requires r.Valid() && ColonFree(sponsor) && Represents(r.cells, sponsor, p) && p.StatsReady() && AllFit(p.available)
    modifies r
    ensures r.Valid() && OnlyOwn(old(r.cells), r.cells, sponsor)
    ensures Represents(r.cells, sponsor, Reserve(p, targetBudget, expirationTime).0)
    ensures var (q, grant) := Reserve(p, targetBudget, expirationTime);
            if grant.None? then
              r.db == old(r.db) && reservationId == "0" && coins == [] && newTotal == newCount == 0
            else
              reservationId == Dec(grant.value.id) && coins == EncodeCoins(grant.value.coins)
              && q.StatsReady() && newTotal == q.total.value && newCount == q.count.value
  {
    PoolCells(r.cells, sponsor, p);
    var totalBalance, objectIds;
    totalBalance, coins, objectIds := TakeCoins(r, sponsor, targetBudget, p.available);
    if totalBalance < targetBudget {
      return "0", [], 0, 0;
    }
    ghost var q := Reserve(p, targetBudget, expirationTime).0;
    ReserveGrants(p, targetBudget, expirationTime);
    reservationId, newTotal, newCount :=
      RecordGrant(r, sponsor, totalBalance, |coins|, objectIds, expirationTime, old(r.cells), p, q);
  }

  lemma PoolCells(cells: Cells, s: Sponsor, p: Pool)
    requires Represents(cells, s, p)
    ensures At(cells, s, Available) == ListValue(EncodeCoins(p.available))
    ensures At(cells, s, NextId) == CellOf(p, NextId)
    ensures At(cells, s, Expiration) == CellOf(p, Expiration)
    ensures At(cells, s, Count) == CellOf(p, Count)
    ensures At(cells, s, TotalBalance) == CellOf(p, TotalBalance)
  {
  }

  /** A script that changes one field. */
  lemma OneCell(cells: Cells, s: Sponsor, p: Pool, q: Pool, f: Field)
    requires Represents(cells, s, p)
    requires forall g {:trigger CellOf(q, g)} :: g != f ==> CellOf(q, g) == CellOf(p, g)
    ensures var after := With(cells, s, f, CellOf(q, f));
            Represents(after, s, q) && OnlyOwn(cells, after, s)
  {
    var after := With(cells, s, f, CellOf(q, f));
    forall g ensures At(after, s, g) == CellOf(q, g) {
      assert At(cells, s, g) == CellOf(p, g);
    }
  }

  // ---------- ready_for_execution ----------

  method ReadyForExecution(r: Server, sponsor: Sponsor, reservationId: nat, ghost p: Pool) returns (ok: bool)
    requires r.Valid() && ColonFree(sponsor) && Represents(r.cells, sponsor, p)
    modifies r
    ensures r.Valid() && OnlyOwn(old(r.cells), r.cells, sponsor)
    ensures ok <==> Ready(p, reservationId).Some?
    ensures Represents(r.cells, sponsor, if ok then Ready(p, reservationId).value else p)
    ensures !ok ==> r.db == old(r.db)
  {
    assert At(r.cells, sponsor, Reservation(reservationId)) == CellOf(p, Reservation(reservationId));
    var exists_ := r.Fetch(sponsor, Reservation(reservationId));
    if exists_.None? { return false; }
    OneCell(r.cells, sponsor, p, Ready(p, reservationId).value, Reservation(reservationId));
    r.Del(sponsor, Reservation(reservationId));
    return true;
  }

  // ---------- expire_coins ----------

  ghost function Without(p: Pool, done: set<nat>): Pool { p.(live := p.live - done) }

  /** GET and DEL of one reservation, when it is still there. */
  method TakeReservation(r: Server, sponsor: Sponsor, id: nat, ghost p: Pool) returns (text: Option<string>)
    requires r.Valid() && ColonFree(sponsor) && Represents(r.cells, sponsor, p)
    modifies r
    ensures r.Valid() && OnlyOwn(old(r.cells), r.cells, sponsor)
    ensures Represents(r.cells, sponsor, Without(p, {id}))
    ensures text == if id in p.live then Some(Join(p.live[id])) else None
  {
    assert At(r.cells, sponsor, Reservation(id)) == CellOf(p, Reservation(id));
    text := r.Get(sponsor, Reservation(id));
    OneCell(r.cells, sponsor, p, Without(p, {id}), Reservation(id));
    if text.Some? {
      r.Del(sponsor, Reservation(id));
    } else {
      assert Without(p, {id}) == p;
    }
  }

  lemma ScoresKeep(expiry: map<nat, nat>, now: nat)
    ensures EncodeScores(Later(expiry, now)) == Above(EncodeScores(expiry), now)
  {
    var a, b := EncodeScores(Later(expiry, now)), Above(EncodeScores(expiry), now);
    ScoreMembers(expiry);
    ScoreMembers(Later(expiry, now));
    forall m ensures (m in a <==> m in b) && (m in a ==> a[m] == b[m]) {
      if m in a || m in b { assert m == Dec(DigitsValue(m)); }
    }
  }

  /** Reads members of the expiration set as numbers. */
  method ReadMembers(members: seq<string>, ghost expiry: map<nat, nat>) returns (ids: seq<nat>)
    requires forall m :: m in members ==> m in EncodeScores(expiry)
    requires forall i, j :: 0 <= i < j < |members| ==> members[i] != members[j]
    ensures forall r :: r in ids <==> r in expiry && Dec(r) in members
    ensures forall i, j :: 0 <= i < j < |ids| ==> ids[i] != ids[j]
  {
    ScoreMembers(expiry);
    assert forall i {:trigger members[i]} :: 0 <= i < |members| ==> members[i] in EncodeScores(expiry);
    ids := seq(|members|, i requires 0 <= i < |members| => DigitsValue(members[i]));
    forall r ensures r in ids <==> r in expiry && Dec(r) in members {
      if r in expiry && Dec(r) in members {
        var i :| 0 <= i < |members| && members[i] == Dec(r);
        DecReadsBack(r);
        assert ids[i] == r;
      }
    }
  }

  method LapsedMembers(r: Server, sponsor: Sponsor, now: nat, ghost p: Pool) returns (ids: seq<nat>)
    requires r.Valid() && ColonFree(sponsor) && Represents(r.cells, sponsor, p)
    ensures forall x :: x in ids <==> x in p.expiry && p.expiry[x] <= now
    ensures forall i, j :: 0 <= i < j < |ids| ==> ids[i] != ids[j]
  {
    ScoreMembers(p.expiry);
    PoolCells(r.cells, sponsor, p);
    var members := r.ZRangeByScore(sponsor, Expiration, now, EncodeScores(p.expiry));
    ids := ReadMembers(members, p.expiry);
  }

  /** The groups are the joined ids of the live reservations among the elements, each once. */
  ghost predicate Collected(p: Pool, elements: seq<nat>, groups: seq<string>, order: seq<nat>)
  {
    && |groups| == |order|
    && (forall i :: 0 <= i < |order| ==> order[i] in p.live && groups[i] == Join(p.live[order[i]]))
    && (forall x :: x in order <==> x in p.live && x in elements)
    && (forall i, j :: 0 <= i < j < |order| ==> order[i] != order[j])
  }

  lemma CollectOne(p: Pool, elements: seq<nat>, groups: seq<string>, order: seq<nat>, id: nat)
    requires Collected(p, elements, groups, order) && id !in elements
    ensures if id in p.live then Collected(p, elements + [id], groups + [Join(p.live[id])], order + [id])
            else Collected(p, elements + [id], groups, order)
  {
  }

  lemma WithoutMore(p: Pool, done: set<nat>, id: nat)
    ensures Without(Without(p, done), {id}) == Without(p, done + {id})
    ensures id !in p.live ==> Without(p, done + {id}) == Without(p, done)
  {
  }

  method CollectExpired(r: Server, sponsor: Sponsor, elements: seq<nat>, ghost p: Pool)
    returns (groups: seq<string>, ghost order: seq<nat>)
    requires r.Valid() && ColonFree(sponsor) && Represents(r.cells, sponsor, p)
    requires forall i, j :: 0 <= i < j < |elements| ==> elements[i] != elements[j]
    modifies r
    ensures r.Valid() && OnlyOwn(old(r.cells), r.cells, sponsor)
    ensures Represents(r.cells, sponsor, Without(p, set x | x in order))
    ensures Collected(p, elements, groups, order)
  {
    groups, order := [], [];
    ghost var done: set<nat> := {};
    assert Without(p, {}) == p;
    for i := 0 to |elements|
      invariant r.Valid() && OnlyOwn(old(r.cells), r.cells, sponsor)
      invariant Represents(r.cells, sponsor, Without(p, done)) && done == set x | x in order
      invariant Collected(p, elements[..i], groups, order)
    {
      var id := elements[i];
      assert elements[..i + 1] == elements[..i] + [id];
      CollectOne(p, elements[..i], groups, order, id);
      WithoutMore(p, done, id);
      var text := TakeReservation(r, sponsor, id, Without(p, done));
      if text.Some? {
        groups := groups + [text.value];
        order := order + [id];
        done := done + {id};
      }
    }
    assert elements[..|elements|] == elements;
  }

  method DropMembers(r: Server, sponsor: Sponsor, now: nat, ghost p: Pool)
    requires r.Valid() && ColonFree(sponsor) && Represents(r.cells, sponsor, p)
    modifies r
    ensures r.Valid() && OnlyOwn(old(r.cells), r.cells, sponsor)
    ensures Represents(r.cells, sponsor, p.(expiry := Later(p.expiry, now)))
  {
    ghost var q := p.(expiry := Later(p.expiry, now));
    ScoresKeep(p.expiry, now);
    PoolCells(r.cells, sponsor, p);
    OneCell(r.cells, sponsor, p, q, Expiration);
    r.ZRemRangeByScore(sponsor, Expiration, now, EncodeScores(p.expiry));
  }

  /** Returns the joined ids of the lapsed reservations, in some order. */
  method ExpireCoins(r: Server, sponsor: Sponsor, now: nat, ghost p: Pool)
    returns (groups: seq<string>, ghost order: seq<nat>)
    requires r.Valid() && ColonFree(sponsor) && Represents(r.cells, sponsor, p)
    modifies r
    ensures r.Valid() && OnlyOwn(old(r.cells), r.cells, sponsor)
    ensures Represents(r.cells, sponsor, Expire(p, now))
    ensures Enumerates(order, Lapsed(p, now)) && |groups| == |order|
    ensures forall i :: 0 <= i < |order| ==> order[i] in p.live && groups[i] == Join(p.live[order[i]])
  {
    var elements := LapsedMembers(r, sponsor, now, p);
    groups, order := CollectExpired(r, sponsor, elements, p);
    ExpireIs(p, now, elements, order);
    if |elements| > 0 {
      DropMembers(r, sponsor, now, Without(p, set x | x in order));
    }
  }

  lemma ExpireIs(p: Pool, now: nat, elements: seq<nat>, order: seq<nat>)
    requires forall x :: x in elements <==> x in p.expiry && p.expiry[x] <= now
    requires forall x :: x in order <==> x in p.live && x in elements
    ensures (set x | x in order) == Lapsed(p, now)
    ensures var q := Without(p, set x | x in order);
            Expire(p, now) == if |elements| > 0 then q.(expiry := Later(q.expiry, now)) else q
  {
    if |elements| == 0 {
      forall x | x in p.expiry ensures p.expiry[x] > now { assert x !in elements; }
      assert Later(p.expiry, now) == p.expiry;
    }
  }

  // ---------- add_new_coins ----------

  /** The scan of a balance, and RPUSH. */
  method PushOne(r: Server, sponsor: Sponsor, coin: string, ghost i: nat, ghost lines: seq<string>, ghost newCoins: seq<string>,
                 ghost added: seq<GasCoin>, ghost before: Cells) returns (balance: nat)
    requires r.Valid() && ColonFree(sponsor) && AllCarry(newCoins, added) && i < |newCoins| && coin == newCoins[i]
    requires r.cells == With(before, sponsor, Available, ListValue(lines + newCoins[..i]))
    modifies r
    ensures r.Valid() && balance == added[i].balance
    ensures r.cells == With(before, sponsor, Available, ListValue(lines + newCoins[..i + 1]))
  {
    ghost var pushed := lines + newCoins[..i];
    assert pushed + [coin] == lines + newCoins[..i + 1];
    var read, _ := ReadCoin(coin, i, newCoins, added);
    balance := read;
    WithLast(before, sponsor, Available, ListValue(pushed), ListValue(pushed + [coin]));
    r.RPush(sponsor, Available, coin, pushed);
  }

  /** The RPUSH loop with its running total. */
  method PushCoins(r: Server, sponsor: Sponsor, newCoins: seq<string>, ghost lines: seq<string>, ghost added: seq<GasCoin>)
    returns (totalBalance: nat)
    requires r.Valid() && ColonFree(sponsor) && At(r.cells, sponsor, Available) == ListValue(lines)
    requires AllCarry(newCoins, added)
    modifies r
    ensures r.Valid() && totalBalance == Sum(added)
    ensures r.cells == With(old(r.cells), sponsor, Available, ListValue(lines + newCoins))
  {
    totalBalance := 0;
    WithLast(r.cells, sponsor, Available, None, None);
    assert lines + newCoins[..0] == lines;
    for i := 0 to |newCoins|
      invariant r.Valid() && totalBalance == Sum(added[..i])
      invariant r.cells == With(old(r.cells), sponsor, Available, ListValue(lines + newCoins[..i]))
    {
      assert added[..i + 1][..i] == added[..i];
      var balance := PushOne(r, sponsor, newCoins[i], i, lines, newCoins, added, old(r.cells));
      totalBalance := totalBalance + balance;
    }
    assert newCoins[..|newCoins|] == newCoins && added[..|added|] == added;
  }

  /** What an addition makes of a pool, apart from its list. */
  ghost predicate Added(p: Pool, q: Pool, totalBalance: int, count: int)
  {
    && p.StatsReady() && q.StatsReady()
    && q.total.value == p.total.value + totalBalance && q.count.value == p.count.value + count
    && q.live == p.live && q.expiry == p.expiry && q.nextId == p.nextId && q.initLock == p.initLock
    && q.initialized == (p.initialized || count > 0)
  }

  ghost function Flagged(cells: Cells, s: Sponsor, flag: bool): Cells
  {
    if flag then cells[Slot(s, Initialized) := Str("1")] else cells
  }

  /** All that the script writes. */
  ghost function AddedCells(before: Cells, s: Sponsor, q: Pool, flag: bool): Cells
    requires q.StatsReady()
  {
    StatWrites(Flagged(With(before, s, Available, ListValue(EncodeCoins(q.available))), s, flag), s, q.total.value, q.count.value)
  }

  lemma AddIsOwn(before: Cells, s: Sponsor, q: Pool, flag: bool)
    requires q.StatsReady()
    ensures OnlyOwn(before, AddedCells(before, s, q, flag), s)
  {
  }

  lemma AddRepresents(before: Cells, s: Sponsor, p: Pool, q: Pool, totalBalance: int, count: int)
    requires Represents(before, s, p) && Added(p, q, totalBalance, count)
    ensures Represents(AddedCells(before, s, q, count > 0), s, q)
  {
    var after := AddedCells(before, s, q, count > 0);
    forall f ensures At(after, s, f) == CellOf(q, f) {
      assert At(before, s, f) == CellOf(p, f);
      match f
      case Available =>
      case Expiration =>
      case NextId =>
      case TotalBalance =>
      case Count =>
      case Initialized =>
      case InitLock =>
      case Reservation(id) =>
    }
  }

  method WriteAdded(r: Server, sponsor: Sponsor, totalBalance: nat, count: nat, ghost p: Pool, ghost q: Pool)
    returns (newTotal: int, newCount: int)
    requires r.Valid() && ColonFree(sponsor) && Added(p, q, totalBalance, count)
    requires At(r.cells, sponsor, TotalBalance) == CellOf(p, TotalBalance) && At(r.cells, sponsor, Count) == CellOf(p, Count)
    modifies r
    ensures r.Valid() && r.cells == StatWrites(Flagged(old(r.cells), sponsor, count > 0), sponsor, newTotal, newCount)
    ensures newTotal == q.total.value && newCount == q.count.value
  {
    if count > 0 {
      r.Set(sponsor, Initialized, "1");
    }
    newTotal, newCount := AdjustStats(r, sponsor, totalBalance, count, p);
  }

  /** The flag and the statistics, once the coins are pushed. */
  method RecordAdded(r: Server, sponsor: Sponsor, totalBalance: nat, count: nat, ghost before: Cells, ghost p: Pool, ghost q: Pool)
    returns (newTotal: int, newCount: int)
    requires r.Valid() && ColonFree(sponsor) && Represents(before, sponsor, p)
    requires r.cells == With(before, sponsor, Available, ListValue(EncodeCoins(q.available)))
    requires Added(p, q, totalBalance, count)
    modifies r
    ensures r.Valid() && OnlyOwn(before, r.cells, sponsor) && Represents(r.cells, sponsor, q)
    ensures newTotal == q.total.value && newCount == q.count.value
    ensures r.cells == StatWrites(Flagged(old(r.cells), sponsor, count > 0), sponsor, newTotal, newCount)
  {
    PoolCells(before, sponsor, p);
    AddIsOwn(before, sponsor, q, count > 0);
    AddRepresents(before, sponsor, p, q, totalBalance, count);
    newTotal, newCount := WriteAdded(r, sponsor, totalBalance, count, p, q);
  }

  method AddNewCoins(r: Server, sponsor: Sponsor, newCoins: seq<string>, ghost p: Pool, ghost added: seq<GasCoin>)
    returns (newTotal: int, newCount: int)
    requires r.Valid() && ColonFree(sponsor) && Represents(r.cells, sponsor, p) && p.StatsReady()
    requires newCoins == EncodeCoins(added) && AllFit(added)
    modifies r
    ensures r.Valid() && OnlyOwn(old(r.cells), r.cells, sponsor)
    ensures var q := AddCoins(p, added);
            Represents(r.cells, sponsor, q) && newTotal == q.total.value && newCount == q.count.value
    ensures newTotal == p.total.value + Sum(added) && newCount == p.count.value + |newCoins|
    ensures Appended(old(r.cells), r.cells, sponsor, EncodeCoins(p.available), newCoins, newTotal, newCount)
  {
    EncodedCoinsCarry(added);
    PoolCells(r.cells, sponsor, p);
    EncodeConcat(p.available, added);
    var totalBalance := PushCoins(r, sponsor, newCoins, EncodeCoins(p.available), added);
    newTotal, newCount := RecordAdded(r, sponsor, totalBalance, |newCoins|, old(r.cells), p, AddCoins(p, added));
    AppendedIs(old(r.cells), sponsor, EncodeCoins(p.available), newCoins, newTotal, newCount);
  }

  /** Cell by cell: the lines at the end of the list, both statistics, the flag when there are lines, and
      nothing else. */
  ghost predicate Appended(before: Cells, after: Cells, s: Sponsor, list: seq<string>, lines: seq<string>, newTotal: int, newCount: int)
  {
    && At(after, s, Available) == ListValue(list + lines)
    && At(after, s, TotalBalance) == Some(Str(IntText(newTotal)))
    && At(after, s, Count) == Some(Str(IntText(newCount)))
    && At(after, s, Initialized) == (if lines == [] then At(before, s, Initialized) else Some(Str("1")))
    && forall f {:trigger At(after, s, f)} ::
         f !in {Available, TotalBalance, Count, Initialized} ==> At(after, s, f) == At(before, s, f)
  }

  lemma AppendedIs(before: Cells, s: Sponsor, list: seq<string>, lines: seq<string>, newTotal: int, newCount: int)
    ensures Appended(before, StatWrites(Flagged(With(before, s, Available, ListValue(list + lines)), s, lines != []), s, newTotal, newCount),
                     s, list, lines, newTotal, newCount)
  {
  }

  // ---------- init_coin_stats_at_startup ----------

  method SumLines(lines: seq<string>, ghost queue: seq<GasCoin>) returns (totalBalance: nat)
    requires AllCarry(lines, queue)
    ensures totalBalance == Sum(queue)
  {
    totalBalance := 0;
    for i := 0 to |lines|
      invariant totalBalance == Sum(queue[..i])
    {
      var balance, _ := ReadCoin(lines[i], i, lines, queue);
      assert queue[..i + 1] == queue[..i] + [queue[i]];
      totalBalance := totalBalance + balance;
    }
    assert queue[..|queue|] == queue;
  }

  method InitStat(r: Server, sponsor: Sponsor, f: Field, fresh_: int, ghost p: Pool, ghost q: Pool, ghost current: Option<int>)
    returns (n: int)
    requires r.Valid() && ColonFree(sponsor) && Represents(r.cells, sponsor, p)
    requires CellOf(p, f) == if current.None? then None else Some(Str(IntText(current.value)))
    requires CellOf(q, f) == Some(Str(IntText(if current.None? then fresh_ else current.value)))
    requires forall g {:trigger CellOf(q, g)} :: g != f ==> CellOf(q, g) == CellOf(p, g)
    modifies r
    ensures r.Valid() && OnlyOwn(old(r.cells), r.cells, sponsor) && Represents(r.cells, sponsor, q)
    ensures n == if current.None? then fresh_ else current.value
    ensures current.Some? ==> r.db == old(r.db)
  {
    assert At(r.cells, sponsor, f) == CellOf(p, f);
    OneCell(r.cells, sponsor, p, q, f);
    var text := r.Get(sponsor, f);
    if text.None? {
      n := fresh_;
      r.Set(sponsor, f, IntText(n));
    } else {
      NumberRoundTrip(current.value);
      n := ToNumber(text.value).value;
      WithLast(r.cells, sponsor, f, None, None);
    }
  }

  method SumListed(r: Server, sponsor: Sponsor, ghost p: Pool) returns (length: nat, sum: nat)
    requires r.Valid() && ColonFree(sponsor) && Represents(r.cells, sponsor, p) && AllFit(p.available)
    ensures length == |p.available| && sum == Sum(p.available)
  {
    EncodedCoinsCarry(p.available);
    PoolCells(r.cells, sponsor, p);
    var elements := r.LRange(sponsor, Available, EncodeCoins(p.available));
    length := |elements|;
    sum := SumLines(elements, p.available);
  }

  method InitCoinStatsAtStartup(r: Server, sponsor: Sponsor, ghost p: Pool) returns (coinCount: int, totalBalance: int)
    requires r.Valid() && ColonFree(sponsor) && Represents(r.cells, sponsor, p) && AllFit(p.available)
    modifies r
    ensures r.Valid() && OnlyOwn(old(r.cells), r.cells, sponsor)
    ensures Represents(r.cells, sponsor, InitStats(p))
    ensures coinCount == InitStats(p).count.value && totalBalance == InitStats(p).total.value
    ensures p.StatsReady() ==> r.db == old(r.db)
  {
    var length, sum := SumListed(r, sponsor, p);
    ghost var counted := p.(count := InitStats(p).count);
    coinCount := InitStat(r, sponsor, Count, length, p, counted, p.count);
    totalBalance := InitStat(r, sponsor, TotalBalance, sum, counted, InitStats(p), p.total);
  }

  // ---------- get_reserved_coin_count ----------

  ghost function Empties(live: map<nat, seq<ObjectId>>): set<nat> { set x | x in live && live[x] == [] }

  /** Every id of a live reservation, and one for a reservation that has none. */
  ghost function Counted(live: map<nat, seq<ObjectId>>, n: nat): nat { |LiveIds(live, n)| + |Empties(live)| }

  lemma CountedRemove(live: map<nat, seq<ObjectId>>, id: nat, n: nat)
    requires 0 < id <= n && id in live
    requires forall i :: 0 <= i < |live[id]| ==> CommaFree(live[id][i])
    ensures Counted(live, n) == Counted(live - {id}, n) + Commas(Join(live[id])) + 1
  {
    LiveIdsRemove(live, id, n);
    CommasCountFields(live[id]);
    if live[id] == [] {
      assert Empties(live) == Empties(live - {id}) + {id};
    } else {
      assert Empties(live) == Empties(live - {id});
    }
  }

  method CountReserved(r: Server, sponsor: Sponsor, elements: seq<nat>, ghost p: Pool, ghost n: nat) returns (total: nat)
    requires r.Valid() && ColonFree(sponsor) && Represents(r.cells, sponsor, p)
    requires forall i, j :: 0 <= i < j < |elements| ==> elements[i] != elements[j]
    requires forall x :: x in p.live ==> x in elements && 0 < x <= n
    requires forall x, i :: x in p.live && 0 <= i < |p.live[x]| ==> CommaFree(p.live[x][i])
    ensures total == Counted(p.live, n)
  {
    total := 0;
    ghost var rest := p.live;
    for i := 0 to |elements|
      invariant rest.Keys <= p.live.Keys && forall x :: x in rest ==> rest[x] == p.live[x]
      invariant forall x :: x in rest <==> x in p.live && x !in elements[..i]
      invariant total + Counted(rest, n) == Counted(p.live, n)
    {
      var id := elements[i];
      assert elements[..i + 1] == elements[..i] + [id];
      assert At(r.cells, sponsor, Reservation(id)) == CellOf(p, Reservation(id));
      var objectIds := r.Get(sponsor, Reservation(id));
      if objectIds.Some? {
        CountedRemove(rest, id, n);
        total := total + Commas(objectIds.value) + 1;
        rest := rest - {id};
      }
    }
    assert rest == map[];
    NoLiveIds(n);
    assert Empties(map[]) == {};
  }

  lemma {:induction false} NoLiveIds(n: nat)
    ensures LiveIds(map[], n) == multiset{}
  {
    if n > 0 { NoLiveIds(n - 1); }
  }

  /** The count is the number of reserved coins exactly when no live reservation is empty; each empty
      one counts for one coin more. */
  method GetReservedCoinCount(r: Server, sponsor: Sponsor, ghost p: Pool) returns (total: nat)
    requires r.Valid() && ColonFree(sponsor) && Represents(r.cells, sponsor, p)
    requires Numbered(p) && p.live.Keys <= p.expiry.Keys
    requires forall x, i :: x in p.live && 0 <= i < |p.live[x]| ==> CommaFree(p.live[x][i])
    ensures total == |LiveIds(p.live, p.nextId)| + |Empties(p.live)|
    ensures total == |LiveIds(p.live, p.nextId)| <==> forall x :: x in p.live ==> p.live[x] != []
  {
    assert |Empties(p.live)| == 0 <==> forall x :: x in p.live ==> x !in Empties(p.live);
    PoolCells(r.cells, sponsor, p);
    ScoreMembers(p.expiry);
    var members := r.ZRange(sponsor, Expiration, EncodeScores(p.expiry));
    var elements := ReadMembers(members, p.expiry);
    forall x | x in p.live ensures x in elements { assert x in p.expiry && Dec(x) in members; }
    total := CountReserved(r, sponsor, elements, p, p.nextId);
  }

  // ---------- acquire_init_lock, release_init_lock ----------

  method AcquireInitLock(r: Server, sponsor: Sponsor, currentTime: nat, lockDuration: nat, ghost p: Pool) returns (acquired: bool)
    requires r.Valid() && ColonFree(sponsor) && Represents(r.cells, sponsor, p)
    modifies r
    ensures r.Valid() && OnlyOwn(old(r.cells), r.cells, sponsor)
    ensures acquired <==> p.initLock.None? || p.initLock.value < currentTime
    ensures AcquireLock(p.initLock, currentTime, lockDuration) == if acquired then Some(currentTime + lockDuration) else None
    ensures Represents(r.cells, sponsor, if acquired then p.(initLock := Some(currentTime + lockDuration)) else p)
  {
    assert At(r.cells, sponsor, InitLock) == CellOf(p, InitLock);
    var locked := r.Get(sponsor, InitLock);
    if p.initLock.Some? { NumberRoundTrip(p.initLock.value); }
    acquired := locked.None? || ToNumber(locked.value).value < currentTime;
    if acquired {
      OneCell(r.cells, sponsor, p, p.(initLock := Some(currentTime + lockDuration)), InitLock);
      r.Set(sponsor, InitLock, Dec(currentTime + lockDuration));
    }
  }

  method ReleaseInitLock(r: Server, sponsor: Sponsor, ghost p: Pool)
    requires r.Valid() && ColonFree(sponsor) && Represents(r.cells, sponsor, p)
    modifies r
    ensures r.Valid() && OnlyOwn(old(r.cells), r.cells, sponsor)
    ensures Represents(r.cells, sponsor, p.(initLock := Some(0)))
  {
    OneCell(r.cells, sponsor, p, p.(initLock := Some(0)), InitLock);
    r.Set(sponsor, InitLock, Dec(0));
  }
}
