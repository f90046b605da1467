/** The key-value store of balances and the transfer rule. */
module Accounts {
  import opened Messages

  type Balances = map<string, int>

  datatype Applied = Applied(balances: Balances, ok: bool)

  /** Reading an absent account creates it with balance 0. */
  function Touch(b: Balances, name: string): Balances {
    if name in b then b else b[name := 0]
  }

  function Apply(b: Balances, t: Transfer): Applied {
    var b1 := Touch(b, t.sender);
    if b1[t.sender] >= t.amount then
      var b2 := b1[t.sender := b1[t.sender] - t.amount];
      var b3 := Touch(b2, t.receiver);
      Applied(b3[t.receiver := b3[t.receiver] + t.amount], true)
    else
      Applied(b1, false)
  }

  /** The balances after a list of transfers. */
  function Fold(initial: Balances, ts: seq<Transfer>): Balances {
    if ts == [] then initial
    else Apply(Fold(initial, ts[..|ts| - 1]), ts[|ts| - 1]).balances
  }

  ghost function Total(b: Balances): int
    decreases |b|
  {
    if b.Keys == {} then 0
    else
      var k :| k in b;
      assert |b.Keys - {k}| < |b.Keys|;
      b[k] + Total(b - {k})
  }

  lemma Smaller(b: Balances, k: string)
    requires k in b
    ensures |b - {k}| < |b|
  {
    assert (b - {k}).Keys == b.Keys - {k};
    assert |b - {k}| == |(b - {k}).Keys| && |b| == |b.Keys|;
  }

  lemma {:induction false} TotalSplit(b: Balances, k: string)
    requires k in b
    ensures Total(b) == b[k] + Total(b - {k})
    decreases |b|
  {
    var j :| j in b && Total(b) == b[j] + Total(b - {j});
    if j != k {
      Smaller(b, j);
      Smaller(b, k);
      TotalSplit(b - {j}, k);
      TotalSplit(b - {k}, j);
      assert b - {j} - {k} == b - {k} - {j};
    }
  }

  lemma TotalUpdate(b: Balances, k: string, x: int)
    ensures Total(b[k := x]) == Total(b) - (if k in b then b[k] else 0) + x
  {
    var c := b[k := x];
    TotalSplit(c, k);
    if k in b {
      TotalSplit(b, k);
      assert c - {k} == b - {k};
    } else {
      assert c - {k} == b;
    }
  }

  lemma {:induction false} TotalConstant(b: Balances, x: int)
    requires forall a | a in b :: b[a] == x
    ensures Total(b) == x * |b.Keys|
    decreases |b.Keys|
  {
    hide Total;
    if b.Keys == {} {
      TotalEmpty(b);
    } else {
      var k :| k in b;
      var rest := b - {k};
      TotalSplit(b, k);
      assert rest.Keys == b.Keys - {k};
      TotalConstant(rest, x);
      OneMore(x, |rest.Keys|);
    }
  }

  lemma TotalEmpty(b: Balances)
    requires b.Keys == {}
    ensures Total(b) == 0
  {
  }

  lemma OneMore(x: int, n: nat)
    ensures x * (n + 1) == x * n + x
  {
  }

  lemma TouchConserves(b: Balances, name: string)
    ensures Total(Touch(b, name)) == Total(b) && name in Touch(b, name)
  {
    hide Total;
    TotalUpdate(b, name, 0);
  }

  /** A transfer moves money, or refuses; it never makes or loses any. */
  lemma ApplyConserves(b: Balances, t: Transfer)
    ensures Total(Apply(b, t).balances) == Total(b)
  {
    hide Total, Touch;
    var b1 := Touch(b, t.sender);
    TouchConserves(b, t.sender);
    if b1[t.sender] >= t.amount {
      var b2 := b1[t.sender := b1[t.sender] - t.amount];
      TotalUpdate(b1, t.sender, b1[t.sender] - t.amount);
      var b3 := Touch(b2, t.receiver);
      TouchConserves(b2, t.receiver);
      TotalUpdate(b3, t.receiver, b3[t.receiver] + t.amount);
    }
  }

  lemma {:induction false} FoldConserves(initial: Balances, ts: seq<Transfer>)
    ensures Total(Fold(initial, ts)) == Total(initial)
  {
    if ts != [] {
      FoldConserves(initial, ts[..|ts| - 1]);
      ApplyConserves(Fold(initial, ts[..|ts| - 1]), ts[|ts| - 1]);
    }
  }

  ghost predicate NonNegative(b: Balances) {
    forall a | a in b :: 0 <= b[a]
  }

  function BalanceOf(b: Balances, name: string): int {
    if name in b then b[name] else 0
  }

  /** Exactly when one transfer keeps every balance non-negative: the amount is not negative, or
      the sender pays itself, or the receiver can cover the negative amount. */
  lemma ApplyNonNegative(b: Balances, t: Transfer)
    requires NonNegative(b)
    ensures NonNegative(Apply(b, t).balances) <==>
            (0 <= t.amount || t.sender == t.receiver || 0 <= BalanceOf(b, t.receiver) + t.amount)
  {
    var after := Apply(b, t).balances;
    if t.amount < 0 && t.sender != t.receiver {
      assert t.receiver in after && after[t.receiver] == BalanceOf(b, t.receiver) + t.amount;
    }
  }

  lemma {:induction false} NonNegativeBound(b: Balances)
    requires NonNegative(b)
    ensures 0 <= Total(b) && forall a | a in b :: b[a] <= Total(b)
    decreases |b|
  {
    forall a | a in b
      ensures b[a] <= Total(b)
    {
      TotalSplit(b, a);
      assert (b - {a}).Keys == b.Keys - {a} && |b.Keys - {a}| < |b.Keys|;
      NonNegativeBound(b - {a});
    }
    if b.Keys != {} {
      var a :| a in b;
      assert 0 <= b[a];
    }
  }

  /** When no amount is negative, every balance stays between 0 and the initial total: an int32
      that can hold the initial total is never overflowed. */
  lemma {:induction false} FoldBounded(initial: Balances, ts: seq<Transfer>)
    requires NonNegative(initial)
    requires forall t | t in ts :: 0 <= t.amount
    ensures NonNegative(Fold(initial, ts))
    ensures forall a | a in Fold(initial, ts) :: 0 <= Fold(initial, ts)[a] <= Total(initial)
  {
    if ts != [] {
      var front := ts[..|ts| - 1];
      FoldBounded(initial, front);
      ApplyNonNegative(Fold(initial, front), ts[|ts| - 1]);
    }
    FoldConserves(initial, ts);
    NonNegativeBound(Fold(initial, ts));
  }

  /** The bound is lost with a negative amount: the receiver is driven below zero. */
  lemma NegativeAmountOverdraws()
    ensures var t := Transfer("A", "B", -11, 0);
            NonNegative(map["A" := 10, "B" := 10]) && !NonNegative(Apply(map["A" := 10, "B" := 10], t).balances)
  {
    var t := Transfer("A", "B", -11, 0);
    assert BalanceOf(map["A" := 10, "B" := 10], "B") == 10;
    ApplyNonNegative(map["A" := 10, "B" := 10], t);
  }
}
