/** The coin splitter: the arithmetic of one split, and the initializer's worklist. */
module Splitter {

  const MAX_SPLIT: nat := 2000
  const I64: int := 0x8000_0000_0000_0000

  function Total(balances: seq<nat>): nat
  {
    if balances == [] then 0 else Total(balances[..|balances| - 1]) + balances[|balances| - 1]
  }

  lemma {:induction false} TotalConcat(a: seq<nat>, b: seq<nat>)
    ensures Total(a + b) == Total(a) + Total(b)
  {
    if b == [] {
      assert a + b == a;
    } else {
      TotalConcat(a, b[..|b| - 1]);
      assert (a + b)[..|a + b| - 1] == a + b[..|b| - 1];
    }
  }

  datatype Env = Env(target: nat, gasCost: nat)
  {
    predicate Valid() { target >= 1 }

    /** A coin up to this balance is not split. */
    function Threshold(): nat { (gasCost + target) * 2 }

    function SplitCount(balance: nat): nat
      requires Valid()
    {
      var n := balance / (gasCost + target);
      if n < MAX_SPLIT then n else MAX_SPLIT
    }

    function Budget(balance: nat): nat
      requires Valid()
    {
      gasCost * SplitCount(balance)
    }

    function NewCoinBalance(balance: nat): int
      requires Valid() && SplitCount(balance) > 0
    {
      (balance - Budget(balance)) / SplitCount(balance)
    }

    function RemainingBalance(balance: nat, net: int): int
      requires Valid() && SplitCount(balance) > 0
    {
      balance - NewCoinBalance(balance) * (SplitCount(balance) - 1) - net
    }
  }

  /** The threshold's addition and doubling, each in u64, give the threshold exactly when gas cost and
      target together are below 2^63. */
  lemma ThresholdWrapsExactly(e: Env)
    ensures var sum := (e.gasCost + e.target) % 0x1_0000_0000_0000_0000;
            sum == e.gasCost + e.target && (sum * 2) % 0x1_0000_0000_0000_0000 == e.Threshold()
            <==> e.gasCost + e.target < 0x8000_0000_0000_0000
  {
  }

  function Repeat(n: nat, balance: nat): (balances: seq<nat>)
    ensures |balances| == n
    ensures forall i :: 0 <= i < n ==> balances[i] == balance
  {
    if n == 0 then [] else Repeat(n - 1, balance) + [balance]
  }

  lemma {:induction false} TotalOfRepeat(n: nat, balance: nat)
    ensures Total(Repeat(n, balance)) == n * balance
  {
    if n > 0 {
      TotalOfRepeat(n - 1, balance);
      assert Repeat(n, balance)[..n - 1] == Repeat(n - 1, balance);
      assert n * balance == (n - 1) * balance + balance;
    }
  }

  /** The arithmetic facts of a split: with k children, d = gas cost plus target, b the balance. */
  lemma SplitBounds(e: Env, b: nat)
    requires e.Valid() && b > e.Threshold()
    ensures var k := e.SplitCount(b);
            && 2 <= k <= MAX_SPLIT && k * (e.gasCost + e.target) <= b
            && e.Budget(b) <= b && e.NewCoinBalance(b) >= e.target
            && e.NewCoinBalance(b) * k <= b - e.Budget(b)
  {
    var d, k := e.gasCost + e.target, e.SplitCount(b);
    var q := b / d;
    QuotientBounds(b, d);
    assert q >= 2 by { if q < 2 { MulMono(d, q, 1); assert false; } }
    MulMono(d, k, q);
    assert d * k == k * d;
    assert k * d == k * e.gasCost + k * e.target;
    assert e.Budget(b) == k * e.gasCost;
    var rest := b - e.Budget(b);
    assert rest >= k * e.target;
    QuotientBounds(rest, k);
    if rest / k < e.target {
      MulMono(k, rest / k + 1, e.target);
      assert false;
    }
  }

  lemma QuotientBounds(x: nat, d: nat)
    requires d > 0
    ensures (x / d) * d <= x < (x / d) * d + d
    ensures d * (x / d) <= x < d * (x / d + 1)
  {
    assert x == (x / d) * d + x % d;
    assert d * (x / d + 1) == d * (x / d) + d;
  }

  lemma MulMono(d: nat, a: int, b: int)
    requires a <= b
    ensures d * a <= d * b
  {
    assert d * b - d * a == d * (b - a);
    MulNat(d, b - a);
  }

  lemma MulNat(a: nat, b: nat)
    ensures a * b >= 0
  {
  }

  /** The coins after a split: the created ones, then the original one with what is left. */
  function Children(e: Env, b: nat, net: int): seq<nat>
    requires e.Valid() && b > e.Threshold() && 0 <= net <= e.Budget(b)
  {
    SplitBounds(e, b);
    RemainingBounds(e, b, net);
    Repeat(e.SplitCount(b) - 1, e.NewCoinBalance(b)) + [e.RemainingBalance(b, net)]
  }

  lemma RemainingBounds(e: Env, b: nat, net: int)
    requires e.Valid() && b > e.Threshold() && 0 <= net <= e.Budget(b)
    ensures e.SplitCount(b) >= 2
    ensures e.target <= e.RemainingBalance(b, net) < b
    ensures 0 <= e.NewCoinBalance(b) * (e.SplitCount(b) - 1) <= b
  {
    SplitBounds(e, b);
    var k, new_ := e.SplitCount(b), e.NewCoinBalance(b);
    assert new_ * k == new_ * (k - 1) + new_;
    MulMono(new_, 1, k - 1);
  }

  lemma ChildrenTotal(e: Env, b: nat, net: int)
    requires e.Valid() && b > e.Threshold() && 0 <= net <= e.Budget(b)
    ensures Total(Children(e, b, net)) == b - net
  {
    RemainingBounds(e, b, net);
    SplitBounds(e, b);
    var n, new_, last := e.SplitCount(b) - 1, e.NewCoinBalance(b), e.RemainingBalance(b, net);
    TotalOfRepeat(n, new_);
    TotalConcat(Repeat(n, new_), [last]);
    assert [last][..0] == [];
    assert n * new_ == new_ * n;
  }

  /** A split makes at least two coins, each worth the target and less than the parent; together
      they are the parent less the net gas usage. */
  lemma SplitIsSound(e: Env, b: nat, net: int)
    requires e.Valid() && b > e.Threshold() && 0 <= net <= e.Budget(b)
    ensures var children := Children(e, b, net);
            && 2 <= |children| == e.SplitCount(b) <= MAX_SPLIT
            && Total(children) == b - net
            && (forall i :: 0 <= i < |children| ==> e.target <= children[i] < b)
  {
    SplitBounds(e, b);
    RemainingBounds(e, b, net);
    ChildrenTotal(e, b, net);
    CreatedBelowParent(e, b);
  }

  lemma CreatedBelowParent(e: Env, b: nat)
    requires e.Valid() && b > e.Threshold()
    ensures e.SplitCount(b) > 0 && e.NewCoinBalance(b) < b
  {
    SplitBounds(e, b);
    var k, new_ := e.SplitCount(b), e.NewCoinBalance(b);
    MulMono(new_, 2, k);
    assert new_ * 2 == new_ + new_;
  }

  // ---------- Three measures of a coin ----------

  /** Value: what it is worth. Splits: how many splits it can lead to. Steps: how many steps of the
      worklist it can lead to. */
  datatype Meter = Value | Splits | Steps

  function Weight(e: Env, m: Meter, b: nat): nat
    requires e.Valid()
  {
    match m
    case Value => b
    case Splits => if Whole(b, e.target) == 0 then 0 else Whole(b, e.target) - 1
    case Steps => if Whole(b, e.target) == 0 then 1 else 7 * Whole(b, e.target) - 6
  }

  /** How many whole targets fit. */
  function Whole(b: nat, target: nat): nat
    requires target > 0
  {
    b / target
  }

  function Weigh(e: Env, m: Meter, balances: seq<nat>): nat
    requires e.Valid()
  {
    if balances == [] then 0
    else Weigh(e, m, balances[..|balances| - 1]) + Weight(e, m, balances[|balances| - 1])
  }

  lemma {:induction false} WeighConcat(e: Env, m: Meter, a: seq<nat>, b: seq<nat>)
    requires e.Valid()
    ensures Weigh(e, m, a + b) == Weigh(e, m, a) + Weigh(e, m, b)
  {
    if b == [] {
      assert a + b == a;
    } else {
      WeighConcat(e, m, a, b[..|b| - 1]);
      assert (a + b)[..|a + b| - 1] == a + b[..|b| - 1];
    }
  }

  lemma WeighLast(e: Env, m: Meter, balances: seq<nat>, b: nat)
    requires e.Valid()
    ensures Weigh(e, m, balances + [b]) == Weigh(e, m, balances) + Weight(e, m, b)
    ensures Weigh(e, m, balances + []) == Weigh(e, m, balances)
  {
    assert (balances + [b])[..|balances|] == balances;
    assert balances + [] == balances;
  }

  lemma WeighFirst(e: Env, m: Meter, balances: seq<nat>)
    requires e.Valid() && balances != []
    ensures Weigh(e, m, balances) == Weight(e, m, balances[0]) + Weigh(e, m, balances[1..])
  {
    WeighConcat(e, m, [balances[0]], balances[1..]);
    WeighLast(e, m, [], balances[0]);
    assert balances == [balances[0]] + balances[1..];
    assert [] + [balances[0]] == [balances[0]];
  }

  function Wholes(balances: seq<nat>, target: nat): nat
    requires target > 0
  {
    if balances == [] then 0
    else Wholes(balances[..|balances| - 1], target) + Whole(balances[|balances| - 1], target)
  }

  /** Whole targets never come from nothing. */
  lemma {:induction false} WholesBound(balances: seq<nat>, target: nat)
    requires target > 0
    ensures Wholes(balances, target) * target <= Total(balances)
  {
    if balances != [] {
      var n := |balances| - 1;
      WholesBound(balances[..n], target);
      QuotientBounds(balances[n], target);
      assert Wholes(balances, target) * target
             == Wholes(balances[..n], target) * target + Whole(balances[n], target) * target;
    }
  }

  lemma WholePositive(b: nat, target: nat)
    requires 0 < target <= b
    ensures Whole(b, target) >= 1
  {
    QuotientBounds(b, target);
  }

  lemma {:induction false} WeighByWholes(e: Env, balances: seq<nat>)
    requires e.Valid() && forall i :: 0 <= i < |balances| ==> balances[i] >= e.target
    ensures Weigh(e, Splits, balances) == Wholes(balances, e.target) - |balances|
    ensures Weigh(e, Steps, balances) == 7 * Wholes(balances, e.target) - 6 * |balances|
  {
    if balances != [] {
      WeighByWholes(e, balances[..|balances| - 1]);
      WholePositive(balances[|balances| - 1], e.target);
    }
  }

  lemma {:induction false} WeighValue(e: Env, balances: seq<nat>)
    requires e.Valid()
    ensures Weigh(e, Value, balances) == Total(balances)
  {
    if balances != [] { WeighValue(e, balances[..|balances| - 1]); }
  }

  /** What a split does to the three measures. */
  lemma SplitWeighs(e: Env, b: nat, net: int)
    requires e.Valid() && b > e.Threshold() && 0 <= net <= e.Budget(b)
    ensures Weigh(e, Value, Children(e, b, net)) == b - net
    ensures Weigh(e, Splits, Children(e, b, net)) + 1 <= Weight(e, Splits, b)
    ensures Weigh(e, Steps, Children(e, b, net)) + 6 <= Weight(e, Steps, b)
  {
    var children := Children(e, b, net);
    SplitIsSound(e, b, net);
    WeighValue(e, children);
    WeighByWholes(e, children);
    WholesBound(children, e.target);
    QuotientBounds(b, e.target);
    WholePositive(b, e.target);
    var n, q := Wholes(children, e.target), Whole(b, e.target);
    if n > q {
      MulMono(e.target, q + 1, n);
      assert false;
    }
  }

  // ---------- A split as a relation ----------

  /** The coins a split must leave of one worth b, charged the net usage: as many as whole shares of
      gas cost and target fit, but no more than 2000; all but the last, which is what is left, hold an
      even share of the balance less the budget, rounded down. */
  ghost predicate EvenSplit(e: Env, b: nat, net: int, children: seq<nat>)
  {
    var k := |children|;
    && e.target >= 1 && b > 2 * (e.gasCost + e.target)
    && 2 <= k <= 2000 && k * (e.gasCost + e.target) <= b
    && (k == 2000 || (k + 1) * (e.gasCost + e.target) > b)
    && 0 <= net <= e.gasCost * k
    && (forall i :: 0 <= i < k - 1 ==> k * children[i] <= b - e.gasCost * k < k * (children[i] + 1))
    && Total(children) == b - net
  }

  lemma QuotientIs(x: nat, d: nat, q: nat)
    requires d > 0 && d * q <= x < d * (q + 1)
    ensures x / d == q
  {
    QuotientBounds(x, d);
    if x / d < q {
      MulMono(d, x / d + 1, q);
      assert false;
    }
    if x / d > q {
      MulMono(d, q + 1, x / d);
      assert false;
    }
  }

  /** The number of children is determined. */
  lemma CountIsDetermined(e: Env, b: nat, k: nat)
    requires e.Valid()
    requires 2 <= k <= 2000 && k * (e.gasCost + e.target) <= b && (k == 2000 || (k + 1) * (e.gasCost + e.target) > b)
    ensures e.SplitCount(b) == k
  {
    var d := e.gasCost + e.target;
    assert d * k == k * d && d * (k + 1) == (k + 1) * d;
    if k < 2000 {
      QuotientIs(b, d, k);
    } else {
      QuotientBounds(b, d);
      if b / d < 2000 {
        MulMono(d, b / d + 1, 2000);
        assert false;
      }
    }
  }

  lemma {:induction false} TotalOfEqual(balances: seq<nat>, n: nat, balance: nat)
    requires |balances| == n && forall i :: 0 <= i < n ==> balances[i] == balance
    ensures balances == Repeat(n, balance)
  {
  }

  /** So are their balances. */
  lemma EvenIsChildren(e: Env, b: nat, net: int, children: seq<nat>)
    requires EvenSplit(e, b, net, children)
    ensures b > e.Threshold() && 0 <= net <= e.Budget(b) && children == Children(e, b, net)
  {
    var k := |children|;
    CountIsDetermined(e, b, k);
    SplitBounds(e, b);
    ChildrenTotal(e, b, net);
    var init := children[..k - 1];
    forall i | 0 <= i < k - 1 ensures init[i] == e.NewCoinBalance(b) {
      QuotientIs(b - e.gasCost * k, k, children[i]);
    }
    TotalOfEqual(init, k - 1, e.NewCoinBalance(b));
    assert Children(e, b, net)[..k - 1] == init;
  }

  lemma ChildrenAreEven(e: Env, b: nat, net: int)
    requires e.Valid() && b > e.Threshold() && 0 <= net <= e.Budget(b)
    ensures EvenSplit(e, b, net, Children(e, b, net))
  {
    SplitBounds(e, b);
    ChildrenTotal(e, b, net);
    CountIsLargest(e, b);
    var k := e.SplitCount(b);
    QuotientBounds(b - e.Budget(b), k);
  }

  lemma CountIsLargest(e: Env, b: nat)
    requires e.Valid()
    ensures e.SplitCount(b) == 2000 || (e.SplitCount(b) + 1) * (e.gasCost + e.target) > b
  {
    QuotientBounds(b, e.gasCost + e.target);
    var d, q := e.gasCost + e.target, b / (e.gasCost + e.target);
    assert d * (q + 1) == (q + 1) * d;
  }

  predicate Worked(coin: nat) { true }

  /** A split of the coin, charged the net usage, leaves these coins. The trigger keeps the
      arithmetic out of proofs that do not ask for it. */
  ghost predicate SplitInto(e: Env, coin: nat, net: int, children: seq<nat>)
  {
    forall b: nat {:trigger Worked(b)} :: Worked(b) && b == coin ==> EvenSplit(e, b, net, children)
  }

  /** What the initializer computes is the one even split there is. */
  lemma SplitIntoIs(e: Env, coin: nat, net: int, children: seq<nat>)
    ensures SplitInto(e, coin, net, children) <==> EvenSplit(e, coin, net, children)
    ensures SplitInto(e, coin, net, children) <==>
            e.Valid() && coin > e.Threshold() && 0 <= net <= e.Budget(coin) && children == Children(e, coin, net)
  {
    assert Worked(coin);
    if EvenSplit(e, coin, net, children) { EvenIsChildren(e, coin, net, children); }
    if e.Valid() && coin > e.Threshold() && 0 <= net <= e.Budget(coin) { ChildrenAreEven(e, coin, net); }
  }

  lemma SplitIntoWeighs(e: Env, coin: nat, net: int, children: seq<nat>)
    requires SplitInto(e, coin, net, children)
    ensures e.Valid() && net >= 0
    ensures Weigh(e, Value, children) == coin - net
    ensures Weigh(e, Splits, children) + 1 <= Weight(e, Splits, coin)
    ensures Weigh(e, Steps, children) + 6 <= Weight(e, Steps, coin)
  {
    SplitIntoIs(e, coin, net, children);
    SplitWeighs(e, coin, net);
  }

  lemma SplitIntoSizes(e: Env, coin: nat, net: int, children: seq<nat>)
    requires SplitInto(e, coin, net, children)
    ensures e.Valid() && |children| >= 2
    ensures forall b :: b in children ==> e.target <= b < coin
  {
    SplitIntoIs(e, coin, net, children);
    SplitIsSound(e, coin, net);
  }

  /** No run needs more splits than the total balance has targets. */
  lemma {:induction false} SplitsBound(e: Env, balances: seq<nat>)
    requires e.Valid()
    ensures Weigh(e, Splits, balances) <= Total(balances) / e.target
  {
    SplitsAtMostWholes(e, balances);
    WholesBound(balances, e.target);
    QuotientBounds(Total(balances), e.target);
    var n, q := Wholes(balances, e.target), Total(balances) / e.target;
    if n > q {
      MulMono(e.target, q + 1, n);
      assert false;
    }
  }

  lemma {:induction false} SplitsAtMostWholes(e: Env, balances: seq<nat>)
    requires e.Valid()
    ensures Weigh(e, Splits, balances) <= Wholes(balances, e.target)
  {
    if balances != [] { SplitsAtMostWholes(e, balances[..|balances| - 1]); }
  }
}
