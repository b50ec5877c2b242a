/** The Redis keyspace as one map from strings, and how a sponsor's pool is laid out in it. */
module Redis {
  import opened Wrappers
  import opened Text
  import opened CoinText
  import opened GasPool

  /** A sponsor address as printed. Addresses are hexadecimal, so they have no colon. */
  type Sponsor = string

  datatype Field =
    | Available | Expiration | NextId | TotalBalance | Count | Initialized | InitLock
    | Reservation(id: nat)

  function Suffix(f: Field): string
  {
    match f
    case Available => "available_gas_coins"
    case Expiration => "expiration_queue"
    case NextId => "next_reservation_id"
    case TotalBalance => "available_coin_total_balance"
    case Count => "available_coin_count"
    case Initialized => "initialized"
    case InitLock => "init_lock"
    case Reservation(id) => Dec(id)
  }

  datatype Slot = Slot(owner: Sponsor, field: Field)

  function Key(slot: Slot): string { slot.owner + ":" + Suffix(slot.field) }

  datatype Value = Str(text: string) | List(items: seq<string>) | ZSet(scores: map<string, nat>)

  type Db = map<string, Value>

  /** The keyspace by owner and field instead of by string. */
  type Cells = map<Slot, Value>

  function At(cells: Cells, s: Sponsor, f: Field): Option<Value>
  {
    if Slot(s, f) in cells then Some(cells[Slot(s, f)]) else None
  }

  function With(cells: Cells, s: Sponsor, f: Field, v: Option<Value>): Cells
  {
    match v
    case None => cells - {Slot(s, f)}
    case Some(x) => cells[Slot(s, f) := x]
  }

  lemma WithLast(cells: Cells, s: Sponsor, f: Field, v: Option<Value>, w: Option<Value>)
    ensures With(With(cells, s, f, v), s, f, w) == With(cells, s, f, w)
    ensures With(cells, s, f, At(cells, s, f)) == cells
  {
  }

  // Redis drops a key whose list or sorted set becomes empty.
  function ListValue(items: seq<string>): Option<Value> { if items == [] then None else Some(List(items)) }

  function ZValue(scores: map<string, nat>): Option<Value> { if scores == map[] then None else Some(ZSet(scores)) }

  function Above(scores: map<string, nat>, max: nat): map<string, nat>
  {
    map m | m in scores && scores[m] > max :: scores[m]
  }

  // ---------- Keys ----------

  lemma SuffixesDiffer(f: Field, g: Field)
    ensures Suffix(f) == Suffix(g) ==> f == g
  {
    if Suffix(f) == Suffix(g) {
      if f.Reservation? { DecReadsBack(f.id); DigitsEverywhere(Suffix(f)); assert IsDigit(Suffix(f)[0]); }
      if g.Reservation? { DecReadsBack(g.id); DigitsEverywhere(Suffix(g)); assert IsDigit(Suffix(g)[0]); }
      assert Suffix(f)[0] == Suffix(g)[0] && |Suffix(f)| == |Suffix(g)|;
      if f.Reservation? && g.Reservation? {
        assert DigitsValue(Suffix(f)) == DigitsValue(Suffix(g));
      }
    }
  }

  /** The part of a key before its first colon. */
  function Owner(k: string): string
  {
    if k == [] || k[0] == ':' then [] else [k[0]] + Owner(k[1..])
  }

  lemma {:induction false} OwnerOfKey(s: string, suffix: string)
    requires ColonFree(s)
    ensures Owner(s + ":" + suffix) == s
  {
    if s != [] {
      OwnerOfKey(s[1..], suffix);
      assert (s + ":" + suffix)[1..] == s[1..] + ":" + suffix;
    }
  }

  /** No two keys of any sponsors collide, named or numbered. */
  lemma KeysNeverCollide(a: Slot, b: Slot)
    requires ColonFree(a.owner) && ColonFree(b.owner)
    ensures Key(a) == Key(b) ==> a == b
  {
    if Key(a) == Key(b) {
      OwnerOfKey(a.owner, Suffix(a.field));
      OwnerOfKey(b.owner, Suffix(b.field));
      assert Suffix(a.field) == Key(a)[|a.owner| + 1..];
      assert Suffix(b.field) == Key(b)[|b.owner| + 1..];
      SuffixesDiffer(a.field, b.field);
    }
  }

  /** The string keyspace holds exactly the given cells. */
  ghost predicate Mirrors(db: Db, cells: Cells)
  {
    && (forall slot: Slot {:trigger Key(slot)} :: ColonFree(slot.owner) ==> (slot in cells <==> Key(slot) in db))
    && (forall slot: Slot {:trigger Key(slot)} :: ColonFree(slot.owner) && slot in cells ==> cells[slot] == db[Key(slot)])
    && (forall k {:trigger k in db} :: k in db ==> exists slot: Slot :: ColonFree(slot.owner) && k == Key(slot))
  }

  /** Writing one key writes one cell and no other. */
  lemma WriteMirrors(db: Db, cells: Cells, slot: Slot, v: Value)
    requires Mirrors(db, cells) && ColonFree(slot.owner)
    ensures Mirrors(db[Key(slot) := v], cells[slot := v])
    ensures Mirrors(db - {Key(slot)}, cells - {slot})
  {
    forall other: Slot {:trigger Key(other)} | ColonFree(other.owner) ensures Key(other) == Key(slot) ==> other == slot {
      KeysNeverCollide(other, slot);
    }
  }

  /** Equal cells mean an equal keyspace, string for string. */
  lemma CellsDetermineKeyspace(a: Db, b: Db, cells: Cells)
    requires Mirrors(a, cells) && Mirrors(b, cells)
    ensures a == b
  {
    forall k ensures k in a <==> k in b {
      if k in a || k in b {
        var slot: Slot :| ColonFree(slot.owner) && k == Key(slot);
      }
    }
    forall k | k in a ensures a[k] == b[k] {
      var slot: Slot :| ColonFree(slot.owner) && k == Key(slot);
    }
  }

  // ---------- A pool in the keyspace ----------

  /** The expiration set as Redis keeps it: members are numerals. */
  ghost function EncodeScores(expiry: map<nat, nat>): map<string, nat>
  {
    if expiry == map[] then map[] else
      var r :| r in expiry;
      EncodeScores(expiry - {r})[Dec(r) := expiry[r]]
  }

  lemma {:induction false} ScoreMembers(expiry: map<nat, nat>)
    ensures forall r: nat {:trigger Dec(r)} :: Dec(r) in EncodeScores(expiry) <==> r in expiry
    ensures forall r {:trigger Dec(r)} :: r in expiry ==> EncodeScores(expiry)[Dec(r)] == expiry[r]
    ensures forall m {:trigger m in EncodeScores(expiry)} :: m in EncodeScores(expiry) ==>
              AllDigits(m) && m == Dec(DigitsValue(m)) && DigitsValue(m) in expiry
  {
    forall r: nat {:trigger Dec(r)} ensures AllDigits(Dec(r)) && DigitsValue(Dec(r)) == r { DecReadsBack(r); }
    if expiry != map[] {
      var r :| r in expiry && EncodeScores(expiry) == EncodeScores(expiry - {r})[Dec(r) := expiry[r]];
      ScoreMembers(expiry - {r});
    }
  }

  ghost function CellOf(p: Pool, f: Field): Option<Value>
  {
    match f
    case Available => ListValue(EncodeCoins(p.available))
    case Expiration => ZValue(EncodeScores(p.expiry))
    case NextId => if p.nextId == 0 then None else Some(Str(Dec(p.nextId)))
    case TotalBalance => if p.total.None? then None else Some(Str(IntText(p.total.value)))
    case Count => if p.count.None? then None else Some(Str(IntText(p.count.value)))
    case Initialized => if p.initialized then Some(Str("1")) else None
    case InitLock => if p.initLock.None? then None else Some(Str(Dec(p.initLock.value)))
    case Reservation(id) => if id in p.live then Some(Str(Join(p.live[id]))) else None
  }

  ghost predicate Represents(cells: Cells, s: Sponsor, p: Pool)
  {
    forall f :: At(cells, s, f) == CellOf(p, f)
  }

  /** Nothing outside the sponsor's own cells changed. */
  ghost predicate OnlyOwn(before: Cells, after: Cells, s: Sponsor)
  {
    forall t, f :: t != s ==> At(after, t, f) == At(before, t, f)
  }

  /** A script that writes only its sponsor's cells leaves the pool of every other sponsor as it was. */
  lemma OtherSponsorsUnaffected(before: Cells, after: Cells, s: Sponsor, t: Sponsor, p: Pool)
    requires OnlyOwn(before, after, s) && s != t
    requires Represents(before, t, p)
    ensures Represents(after, t, p)
  {
    forall f ensures At(after, t, f) == CellOf(p, f) {
      assert At(before, t, f) == CellOf(p, f);
    }
  }

  // ---------- Commands ----------

  class Server {
    var db: Db
    ghost var cells: Cells

    ghost predicate Valid()
      reads this
    {
      Mirrors(db, cells)
    }

    constructor ()
      ensures Valid() && cells == map[]
    {
      db := map[];
      cells := map[];
    }

    /** The only two ways in which a command changes the keyspace. */
    method Store(s: Sponsor, f: Field, v: Value)
      requires Valid() && ColonFree(s)
      modifies this
      ensures Valid() && cells == old(cells)[Slot(s, f) := v]
    {
      WriteMirrors(db, cells, Slot(s, f), v);
      db := db[Key(Slot(s, f)) := v];
      cells := cells[Slot(s, f) := v];
    }

    method Del(s: Sponsor, f: Field)
      requires Valid() && ColonFree(s)
      modifies this
      ensures Valid() && cells == With(old(cells), s, f, None)
    {
      WriteMirrors(db, cells, Slot(s, f), Str(""));
      db := db - {Key(Slot(s, f))};
      cells := cells - {Slot(s, f)};
    }

    method Fetch(s: Sponsor, f: Field) returns (v: Option<Value>)
      requires Valid() && ColonFree(s)
      ensures v == At(cells, s, f)
    {
      var k := Key(Slot(s, f));
      v := if k in db then Some(db[k]) else None;
    }

    method Get(s: Sponsor, f: Field) returns (text: Option<string>)
      requires Valid() && ColonFree(s) && (At(cells, s, f).Some? ==> At(cells, s, f).value.Str?)
      ensures At(cells, s, f) == if text.Some? then Some(Str(text.value)) else None
    {
      var v := Fetch(s, f);
      text := if v.Some? then Some(v.value.text) else None;
    }

    method Set(s: Sponsor, f: Field, text: string)
      requires Valid() && ColonFree(s)
      modifies this
      ensures Valid() && cells == With(old(cells), s, f, Some(Str(text)))
    {
      Store(s, f, Str(text));
    }

    /** LRANGE 0 -1. */
    method LRange(s: Sponsor, f: Field, ghost items: seq<string>) returns (all: seq<string>)
      requires Valid() && ColonFree(s) && At(cells, s, f) == ListValue(items)
      ensures all == items
    {
      var v := Fetch(s, f);
      all := if v.Some? then v.value.items else [];
    }

    method LPop(s: Sponsor, f: Field, ghost items: seq<string>) returns (r: Option<string>)
      requires Valid() && ColonFree(s) && At(cells, s, f) == ListValue(items)
      modifies this
      ensures Valid()
      ensures items == [] ==> r == None && cells == old(cells)
      ensures items != [] ==> r == Some(items[0]) && cells == With(old(cells), s, f, ListValue(items[1..]))
    {
      var all := LRange(s, f, items);
      if all == [] { return None; }
      r := Some(all[0]);
      if |all| == 1 { Del(s, f); } else { Store(s, f, List(all[1..])); }
    }

    method LPush(s: Sponsor, f: Field, item: string, ghost items: seq<string>)
      requires Valid() && ColonFree(s) && At(cells, s, f) == ListValue(items)
      modifies this
      ensures Valid() && cells == With(old(cells), s, f, ListValue([item] + items))
    {
      var all := LRange(s, f, items);
      Store(s, f, List([item] + all));
    }

    method RPush(s: Sponsor, f: Field, item: string, ghost items: seq<string>)
      requires Valid() && ColonFree(s) && At(cells, s, f) == ListValue(items)
      modifies this
      ensures Valid() && cells == With(old(cells), s, f, ListValue(items + [item]))
    {
      var all := LRange(s, f, items);
      Store(s, f, List(all + [item]));
    }

    method Incr(s: Sponsor, f: Field, ghost n: nat)
      requires Valid() && ColonFree(s) && At(cells, s, f) == if n == 0 then None else Some(Str(Dec(n)))
      modifies this
      ensures Valid() && cells == With(old(cells), s, f, Some(Str(Dec(n + 1))))
    {
      NumberRoundTrip(n);
      var text := Get(s, f);
      var value := if text.Some? then ToNumber(text.value) else Some(0);
      Store(s, f, Str(Dec(value.value + 1)));
    }

    method Scores(s: Sponsor, f: Field, ghost scores: map<string, nat>) returns (all: map<string, nat>)
      requires Valid() && ColonFree(s) && At(cells, s, f) == ZValue(scores)
      ensures all == scores
    {
      var v := Fetch(s, f);
      all := if v.Some? then v.value.scores else map[];
    }

    method ZAdd(s: Sponsor, f: Field, score: nat, member: string, ghost scores: map<string, nat>)
      requires Valid() && ColonFree(s) && At(cells, s, f) == ZValue(scores)
      modifies this
      ensures Valid() && cells == With(old(cells), s, f, ZValue(scores[member := score]))
    {
      var all := Scores(s, f, scores);
      assert member in scores[member := score];
      Store(s, f, ZSet(all[member := score]));
    }

    /** The members of the set, each once. Redis orders them by score; the order is left open here. */
    method Listing(members: set<string>) returns (order: seq<string>)
      ensures forall m :: m in order <==> m in members
      ensures forall i, j :: 0 <= i < j < |order| ==> order[i] != order[j]
    {
      order := [];
      var todo := members;
      while todo != {}
        invariant todo <= members
        invariant forall m :: m in order <==> m in members && m !in todo
        invariant forall i, j :: 0 <= i < j < |order| ==> order[i] != order[j]
        decreases todo
      {
        var m :| m in todo;
        todo := todo - {m};
        order := order + [m];
      }
    }

    /** ZRANGE 0 -1. */
    method ZRange(s: Sponsor, f: Field, ghost scores: map<string, nat>) returns (members: seq<string>)
      requires Valid() && ColonFree(s) && At(cells, s, f) == ZValue(scores)
      ensures forall m :: m in members <==> m in scores
      ensures forall i, j :: 0 <= i < j < |members| ==> members[i] != members[j]
    {
      var all := Scores(s, f, scores);
      members := Listing(all.Keys);
    }

    method ZRangeByScore(s: Sponsor, f: Field, max: nat, ghost scores: map<string, nat>) returns (members: seq<string>)
      requires Valid() && ColonFree(s) && At(cells, s, f) == ZValue(scores)
      ensures forall m :: m in members <==> m in scores && scores[m] <= max
      ensures forall i, j :: 0 <= i < j < |members| ==> members[i] != members[j]
    {
      var all := Scores(s, f, scores);
      members := Listing(set m | m in all && all[m] <= max);
    }

    method ZRemRangeByScore(s: Sponsor, f: Field, max: nat, ghost scores: map<string, nat>)
      requires Valid() && ColonFree(s) && At(cells, s, f) == ZValue(scores)
      modifies this
      ensures Valid() && cells == With(old(cells), s, f, ZValue(Above(scores, max)))
    {
      var all := Scores(s, f, scores);
      var kept := Above(all, max);
      if kept == map[] { Del(s, f); } else { Store(s, f, ZSet(kept)); }
    }
  }
}
