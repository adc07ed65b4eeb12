/** Decimal digits of natural numbers, shared by every printer in the model. */
module Decimal {
  type Digit = d: nat | d < 10

  /** The digits of `n`, most significant first; zero has one digit. */
  function Digits(n: nat): (ds: seq<Digit>)
    ensures |ds| > 0
    ensures |ds| > 1 ==> ds[0] != 0
  {
    if n < 10 then [n] else Digits(n / 10) + [n % 10]
  }

  function Value(ds: seq<Digit>): nat {
    if ds == [] then 0 else 10 * Value(ds[..|ds| - 1]) + ds[|ds| - 1]
  }

  function Zeros(n: nat): (ds: seq<Digit>)
    ensures |ds| == n && forall i :: 0 <= i < n ==> ds[i] == 0
  {
    seq(n, _ => 0)
  }

  lemma {:induction false} ValueOfDigits(n: nat)
    ensures Value(Digits(n)) == n
  {
    if n >= 10 {
      ValueOfDigits(n / 10);
      assert Digits(n)[..|Digits(n)| - 1] == Digits(n / 10);
    } else {
      assert Digits(n)[..0] == [];
      assert Value([]) == 0;
    }
  }

  /** Leading zeros add nothing. */
  lemma {:induction false} ValueIgnoresZeros(k: nat, ds: seq<Digit>)
    ensures Value(Zeros(k) + ds) == Value(ds)
  {
    if ds != [] {
      assert (Zeros(k) + ds)[..k + |ds| - 1] == Zeros(k) + ds[..|ds| - 1];
      ValueIgnoresZeros(k, ds[..|ds| - 1]);
    } else if k > 0 {
      assert Zeros(k) + ds == Zeros(k - 1) + [0];
      assert (Zeros(k) + ds)[..k - 1] == Zeros(k - 1) + [];
      ValueIgnoresZeros(k - 1, []);
    }
  }

  /** A numeral without a leading zero is the numeral of its value. */
  lemma {:induction false} DigitsOfValue(ds: seq<Digit>)
    requires |ds| > 0 && (|ds| > 1 ==> ds[0] != 0)
    ensures Digits(Value(ds)) == ds
    ensures |ds| > 1 ==> Value(ds) >= 10
  {
    var front, last := ds[..|ds| - 1], ds[|ds| - 1];
    if |ds| > 1 {
      DigitsOfValue(front);
      if |front| == 1 {
        assert front == [front[0]] && Value(front) == front[0] by { assert front[..0] == []; assert Value([]) == 0; }
      }
      assert Value(ds) / 10 == Value(front) && Value(ds) % 10 == last;
    } else {
      assert front == [] && Value(front) == 0;
    }
  }

  lemma OneMoreZero(ds: seq<Digit>, k: nat)
    requires ds != [] && ds[0] == 0 && k < |ds[1..]| && ds[1..] == Zeros(k) + ds[1..][k..]
    ensures ds[1..][k..] == ds[k + 1..]
    ensures ds == Zeros(k + 1) + ds[k + 1..]
  {
    assert Zeros(k + 1) == [0] + Zeros(k);
    assert ds == [0] + ds[1..];
  }

  lemma NoZeros(ds: seq<Digit>)
    ensures ds[0..] == ds && ds == Zeros(0) + ds
  {
  }

  lemma LeadingZeroAddsNothing(ds: seq<Digit>)
    requires ds != [] && ds[0] == 0
    ensures Value(ds) == Value(ds[1..])
  {
    assert Zeros(1) + ds[1..] == ds;
    ValueIgnoresZeros(1, ds[1..]);
  }

  /** The numeral of a value is what is left of a numeral without its leading zeros. */
  lemma {:induction false} DigitsDropZeros(ds: seq<Digit>) returns (k: nat)
    requires ds != []
    ensures k < |ds| && ds == Zeros(k) + ds[k..] && Digits(Value(ds)) == ds[k..]
    ensures |ds[k..]| > 1 ==> ds[k] != 0
    ensures k == 0 <==> |ds| == 1 || ds[0] != 0
  {
    if |ds| > 1 && ds[0] == 0 {
      k := DigitsDropZeros(ds[1..]);
      LeadingZeroAddsNothing(ds);
      OneMoreZero(ds, k);
      k := k + 1;
    } else {
      k := 0;
      NoZeros(ds);
      DigitsOfValue(ds);
    }
  }
}
