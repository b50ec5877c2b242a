/** Gas coins and the text in which they are kept in Redis. */
module CoinText {
  import opened Wrappers
  import opened Text

  type ObjectId = string
  type Digest = string

  datatype GasCoin = GasCoin(id: ObjectId, version: nat, digest: Digest, balance: nat)
  {
    /** Version and balance are u64 in the source; ids and digests print without a comma. */
    predicate Fits()
    {
      && version <= U64_MAX && balance <= U64_MAX
      && id != [] && CommaFree(id) && digest != [] && CommaFree(digest)
    }
  }

  function Sum(coins: seq<GasCoin>): nat
  {
    if coins == [] then 0 else Sum(coins[..|coins| - 1]) + coins[|coins| - 1].balance
  }

  function Ids(coins: seq<GasCoin>): (ids: seq<ObjectId>)
    ensures |ids| == |coins|
    ensures forall i :: 0 <= i < |ids| ==> ids[i] == coins[i].id
  {
    seq(|coins|, i requires 0 <= i < |coins| => coins[i].id)
  }

  predicate AllFit(coins: seq<GasCoin>) { forall i {:trigger coins[i].Fits()} :: 0 <= i < |coins| ==> coins[i].Fits() }

  lemma {:induction false} SumConcat(a: seq<GasCoin>, b: seq<GasCoin>)
    ensures Sum(a + b) == Sum(a) + Sum(b)
  {
    if b == [] {
      assert a + b == a;
    } else {
      SumConcat(a, b[..|b| - 1]);
      assert (a + b)[..|a + b| - 1] == a + b[..|b| - 1];
    }
  }

  lemma IdsConcat(a: seq<GasCoin>, b: seq<GasCoin>)
    ensures Ids(a + b) == Ids(a) + Ids(b)
    ensures multiset(Ids(a + b)) == multiset(Ids(a)) + multiset(Ids(b))
  {
    assert Ids(a + b) == Ids(a) + Ids(b);
  }

  /** The four fields `{},{},{},{}`. */
  function EncodeCoin(c: GasCoin): string
  {
    Join([Dec(c.balance), c.id, Dec(c.version), c.digest])
  }

  /** None stands for the panic of an `unwrap` in the source. */
  function DecodeCoin(s: string): Option<GasCoin>
  {
    var splits := Split(s);
    if |splits| < 4 || splits[1] == [] || splits[3] == [] then None else
      match (ParseU64(splits[0]), ParseU64(splits[2]))
      case (Some(balance), Some(version)) => Some(GasCoin(splits[1], version, splits[3], balance))
      case _ => None
  }

  function EncodeCoins(coins: seq<GasCoin>): (lines: seq<string>)
    ensures |lines| == |coins|
  {
    if coins == [] then [] else EncodeCoins(coins[..|coins| - 1]) + [EncodeCoin(coins[|coins| - 1])]
  }

  lemma {:induction false} EncodeAt(coins: seq<GasCoin>, i: nat)
    requires i < |coins|
    ensures EncodeCoins(coins)[i] == EncodeCoin(coins[i])
  {
    if i < |coins| - 1 { EncodeAt(coins[..|coins| - 1], i); }
  }

  lemma {:induction false} EncodeConcat(a: seq<GasCoin>, b: seq<GasCoin>)
    ensures EncodeCoins(a + b) == EncodeCoins(a) + EncodeCoins(b)
  {
    if b == [] {
      assert a + b == a;
    } else {
      EncodeConcat(a, b[..|b| - 1]);
      assert (a + b)[..|a + b| - 1] == a + b[..|b| - 1];
    }
  }

  lemma DigitsAreCommaFree(s: string)
    requires AllDigits(s)
    ensures CommaFree(s)
  {
    DigitsEverywhere(s);
    AvoidsEverywhere(s, ',');
  }

  lemma EncodedFields(c: GasCoin)
    requires CommaFree(c.id) && CommaFree(c.digest)
    ensures Split(EncodeCoin(c)) == [Dec(c.balance), c.id, Dec(c.version), c.digest]
  {
    DecReadsBack(c.balance);
    DecReadsBack(c.version);
    DigitsAreCommaFree(Dec(c.balance));
    DigitsAreCommaFree(Dec(c.version));
    SplitOfJoin([Dec(c.balance), c.id, Dec(c.version), c.digest]);
  }

  /** A stored coin reads back as itself, and the scripts cut the same balance and id out of it. */
  lemma CoinRoundTrip(c: GasCoin)
    requires CommaFree(c.id) && CommaFree(c.digest)
    ensures c.Fits() <==> DecodeCoin(EncodeCoin(c)) == Some(c)
    ensures ScanFirst(EncodeCoin(c)) == Some(Dec(c.balance))
    ensures ToNumber(Dec(c.balance)) == Some(c.balance)
    ensures ScanSecond(EncodeCoin(c)) == Some(c.id)
  {
    EncodedFields(c);
    ScanMatchesSplit(EncodeCoin(c));
    NumberRoundTrip(c.balance);
    NumberRoundTrip(c.version);
  }
}
