/** The Rust side of the storage: it formats what it sends to the scripts and parses what they return. */
module Storage {
  import opened Wrappers
  import opened Text
  import opened CoinText
  import opened GasPool
  import opened Redis
  import Scripts

  /** None is the panic on a line that does not parse. */
  function DecodeCoins(lines: seq<string>): Option<seq<GasCoin>>
  {
    if lines == [] then Some([]) else
      match (DecodeCoins(lines[..|lines| - 1]), DecodeCoin(lines[|lines| - 1]))
      case (Some(coins), Some(c)) => Some(coins + [c])
      case _ => None
  }

  lemma DecodeLast(lines: seq<string>, line: string, coins: seq<GasCoin>, c: GasCoin)
    requires DecodeCoins(lines) == Some(coins) && DecodeCoin(line) == Some(c)
    ensures DecodeCoins(lines + [line]) == Some(coins + [c])
  {
    var all := lines + [line];
    assert all[..|all| - 1] == lines;
  }

  lemma EncodeLast(coins: seq<GasCoin>) returns (line: string)
    requires coins != []
    ensures EncodeCoins(coins) == EncodeCoins(coins[..|coins| - 1]) + [line]
    ensures coins[|coins| - 1].Fits() ==> DecodeCoin(line) == Some(coins[|coins| - 1])
  {
    line := EncodeCoin(coins[|coins| - 1]);
    if coins[|coins| - 1].Fits() { CoinRoundTrip(coins[|coins| - 1]); }
  }

  /** Everything the storage writes it can read back, in order. */
  lemma {:induction false} DecodeOfEncode(coins: seq<GasCoin>)
    requires AllFit(coins)
    ensures DecodeCoins(EncodeCoins(coins)) == Some(coins)
  {
    if coins != [] {
      var init, last := coins[..|coins| - 1], coins[|coins| - 1];
      FitsApart(coins);
      DecodeOfEncode(init);
      var line := EncodeLast(coins);
      DecodeLast(EncodeCoins(init), line, init, last);
      assert coins == init + [last];
    }
  }

  lemma FitsApart(coins: seq<GasCoin>)
    requires AllFit(coins) && coins != []
    ensures AllFit(coins[..|coins| - 1]) && coins[|coins| - 1].Fits()
  {
    var init := coins[..|coins| - 1];
    forall i | 0 <= i < |init| ensures init[i].Fits() { assert coins[i].Fits(); }
  }

  /** The id parser rejects the empty text. */
  predicate AllIds(ids: seq<string>) { forall i :: 0 <= i < |ids| ==> ids[i] != [] }

  /** `flat_map(split)` over the groups; None is the panic on a text that is not an id. */
  function ExpiredIds(groups: seq<string>): Option<seq<ObjectId>>
  {
    if groups == [] then Some([]) else
      var rest := ExpiredIds(groups[1..]);
      if rest.None? || !AllIds(Split(groups[0])) then None else Some(Split(groups[0]) + rest.value)
  }

  predicate PrintableIds(ids: seq<ObjectId>) { forall i :: 0 <= i < |ids| ==> ids[i] != [] && CommaFree(ids[i]) }

  /** The ids come back as they were stored exactly when no listed reservation is empty. */
  lemma {:induction false} ExpiredIdsAreGathered(live: map<nat, seq<ObjectId>>, order: seq<nat>, groups: seq<string>)
    requires |groups| == |order|
    requires forall i :: 0 <= i < |order| ==> order[i] in live && groups[i] == Join(live[order[i]])
    requires forall r :: r in live ==> PrintableIds(live[r])
    ensures if forall r :: r in order ==> live[r] != [] then ExpiredIds(groups) == Some(Gather(live, order))
            else ExpiredIds(groups) == None
  {
    if order != [] {
      ExpiredIdsAreGathered(live, order[1..], groups[1..]);
      assert forall r :: r in order <==> r == order[0] || r in order[1..];
      var ids := live[order[0]];
      assert PrintableIds(ids);
      if ids == [] {
        SplitWhole("");
        assert Split("")[0] == "";
      } else {
        SplitOfJoin(ids);
      }
    }
  }

  /** What the text formats need of a pool. */
  ghost predicate Printable(p: Pool)
  {
    && AllFit(p.available)
    && (forall r :: r in p.live ==> PrintableIds(p.live[r]))
    && p.nextId < U64_MAX
  }

  method ReserveGasCoins(r: Server, sponsor: Sponsor, targetBudget: nat, expirationTime: nat, ghost p: Pool)
    returns (result: Result<(nat, seq<GasCoin>), string>)
    requires r.Valid() && ColonFree(sponsor) && Represents(r.cells, sponsor, p) && p.StatsReady() && Printable(p)
    modifies r
    ensures r.Valid() && OnlyOwn(old(r.cells), r.cells, sponsor)
    ensures Represents(r.cells, sponsor, Reserve(p, targetBudget, expirationTime).0)
    ensures var grant := Reserve(p, targetBudget, expirationTime).1;
            && (result.Ok? <==> grant.Some? && targetBudget > 0)
            && (result.Ok? ==> result.value == (grant.value.id, grant.value.coins))
    ensures result.Err? && targetBudget > 0 ==> r.db == old(r.db)
  {
    ReservationIsExact(p, targetBudget, expirationTime);
    var id, coins, _, _ := Scripts.ReserveGasCoins(r, sponsor, targetBudget, expirationTime, p);
    if coins == [] {
      return Err("Unable to reserve gas coins for the given budget.");
    }
    ghost var grant := Reserve(p, targetBudget, expirationTime).1.value;
    GrantFits(p, grant.coins);
    DecodeOfEncode(grant.coins);
    NumberRoundTrip(grant.id);
    var gasCoins := DecodeCoins(coins);
    var reservationId := ParseU64(id);
    return Ok((reservationId.value, gasCoins.value));
  }

  lemma GrantFits(p: Pool, coins: seq<GasCoin>)
    requires AllFit(p.available) && coins <= p.available
    ensures AllFit(coins)
  {
    forall i | 0 <= i < |coins| ensures coins[i].Fits() { assert p.available[i].Fits(); }
  }

  method AddNewCoins(r: Server, sponsor: Sponsor, newCoins: seq<GasCoin>, ghost p: Pool)
    requires r.Valid() && ColonFree(sponsor) && Represents(r.cells, sponsor, p) && p.StatsReady() && AllFit(newCoins)
    modifies r
    ensures r.Valid() && OnlyOwn(old(r.cells), r.cells, sponsor)
    ensures Represents(r.cells, sponsor, AddCoins(p, newCoins))
    ensures Scripts.Appended(old(r.cells), r.cells, sponsor, EncodeCoins(p.available), EncodeCoins(newCoins),
                             p.total.value + Sum(newCoins), p.count.value + |newCoins|)
  {
    var _, _ := Scripts.AddNewCoins(r, sponsor, EncodeCoins(newCoins), p, newCoins);
  }

  /** None is the panic on the ids of an empty reservation; the script has run all the same. */
  method ExpireCoins(r: Server, sponsor: Sponsor, now: nat, ghost p: Pool)
    returns (ids: Option<seq<ObjectId>>, ghost order: seq<nat>)
    requires r.Valid() && ColonFree(sponsor) && Represents(r.cells, sponsor, p)
    requires forall x :: x in p.live ==> PrintableIds(p.live[x])
    modifies r
    ensures r.Valid() && OnlyOwn(old(r.cells), r.cells, sponsor)
    ensures Represents(r.cells, sponsor, Expire(p, now))
    ensures Enumerates(order, Lapsed(p, now))
    ensures ids == if forall x :: x in Lapsed(p, now) ==> p.live[x] != [] then Some(Gather(p.live, order)) else None
  {
    var groups;
    groups, order := Scripts.ExpireCoins(r, sponsor, now, p);
    ExpiredIdsAreGathered(p.live, order, groups);
    ids := ExpiredIds(groups);
  }

  // ---------- A budget of zero ----------

  /** A budget of zero is granted: an empty reservation is recorded, and the storage reports an error. */
  lemma ZeroBudgetRecordsNothingReserved(p: Pool, deadline: nat)
    requires p.StatsReady()
    ensures var (q, grant) := Reserve(p, 0, deadline);
            && grant == Some(Grant(p.nextId + 1, [])) && q.available == p.available
            && q.live == p.live[p.nextId + 1 := []] && q.expiry == p.expiry[p.nextId + 1 := deadline]
  {
    ReservationIsExact(p, 0, deadline);
    assert p.available[0..] == p.available;
  }

  /** The expiry that finds an empty reservation returns nothing, and loses every reservation of its
      batch: they are no longer live, and their ids are in no answer. Other expiries do return. */
  lemma EmptyReservationLosesItsBatch(p: Pool, now: nat, order: seq<nat>, groups: seq<string>, empty: nat)
    requires (forall x :: x in p.live ==> PrintableIds(p.live[x])) && empty in p.live && p.live[empty] == []
    requires Enumerates(order, Lapsed(p, now)) && |groups| == |order|
    requires forall i :: 0 <= i < |order| ==> order[i] in p.live && groups[i] == Join(p.live[order[i]])
    ensures empty in Lapsed(p, now) ==>
              ExpiredIds(groups) == None && forall x :: x in order ==> x in p.live && x !in Expire(p, now).live
    ensures (forall x :: x in Lapsed(p, now) ==> p.live[x] != []) ==> ExpiredIds(groups).Some?
  {
    ExpiredIdsAreGathered(p.live, order, groups);
  }

  /** So a zero-budget request, when nothing settles it, ruins the first expiry after its deadline. */
  lemma ZeroBudgetRuinsAnExpiry(p: Pool, deadline: nat, now: nat, order: seq<nat>, groups: seq<string>)
    requires p.StatsReady() && deadline <= now && forall x :: x in p.live ==> PrintableIds(p.live[x])
    requires var q := Reserve(p, 0, deadline).0;
             && Enumerates(order, Lapsed(q, now)) && |groups| == |order|
             && forall i :: 0 <= i < |order| ==> order[i] in q.live && groups[i] == Join(q.live[order[i]])
    ensures ExpiredIds(groups) == None
    ensures forall x :: x in p.live && x in p.expiry && p.expiry[x] <= now && x <= p.nextId ==>
              x in order && x !in Expire(Reserve(p, 0, deadline).0, now).live
  {
    ZeroBudgetRecordsNothingReserved(p, deadline);
    EmptyReservationLosesItsBatch(Reserve(p, 0, deadline).0, now, order, groups, p.nextId + 1);
  }
}
