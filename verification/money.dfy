/** Fixed-point money (`src/shared/money.rs`): an amount is
    `units + nanos * 10^-9` of a currency, with `units` an `i64` and `nanos`
    an `i32`. Arithmetic that overflows either width panics in the source;
    here it yields `Failure(Overflow)`, and every other panic of the source
    (adding different currencies) yields `Failure(CurrencyMismatch(..))`. */
module Monetary {
  import opened FixedWidth
  import opened Results

  const NANOS_PER_UNIT: int := 1_000_000_000

  /** Nanos in one cent, the factor `from_usd` applies to its cents. */
  const NANOS_PER_CENT: int := 10_000_000

  datatype Money = Money(currencyCode: string, units: int64, nanos: int32)

  datatype MoneyError =
    | CurrencyMismatch(left: string, right: string)
    | Overflow

  /** The amount in nanos, the quantity every operation must preserve. */
  function Value(m: Money): int {
    m.units * NANOS_PER_UNIT + m.nanos
  }

  /** What `normalize` establishes. The signs of `units` and `nanos` are
      not made to agree. */
  predicate IsNormalized(m: Money) {
    -NANOS_PER_UNIT < m.nanos < NANOS_PER_UNIT
  }

  /** Whole units carried out of the nanos field by `normalize`. */
  function Carry(nanos: int32): int {
    TDiv(nanos, NANOS_PER_UNIT)
  }

  /** Moves whole units out of `nanos` with truncating `/` and `%`, so the
      remaining nanos keep the sign they had. */
  function Normalize(m: Money): (r: Result<Money, MoneyError>)
    ensures r.Success? <==> InInt64(m.units + Carry(m.nanos))
    ensures r.Failure? ==> r.error == Overflow
    ensures r.Success? ==>
              && r.value.currencyCode == m.currencyCode
              && Value(r.value) == Value(m)
              && IsNormalized(r.value)
    ensures r.Success? && m.nanos >= 0 ==> r.value.nanos >= 0
    ensures r.Success? && m.nanos <= 0 ==> r.value.nanos <= 0
    ensures INT64_MIN + 2 <= m.units <= INT64_MAX - 2 ==> r.Success?
    ensures IsNormalized(m) ==> r == Success(m)
  {
    var units := m.units + Carry(m.nanos);
    if InInt64(units) then
      Success(Money(m.currencyCode, units, TMod(m.nanos, NANOS_PER_UNIT)))
    else
      Failure(Overflow)
  }

  /** Normalizing twice is normalizing once. */
  lemma NormalizeIdempotent(m: Money)
    requires Normalize(m).Success?
    ensures Normalize(Normalize(m).value) == Normalize(m)
  {
  }

  /** `Money::from_usd`: `cents * 10_000_000` is computed in `i32`, so only
      `|cents| <= 214` can succeed. */
  function FromUsd(dollars: int64, cents: int32): (r: Result<Money, MoneyError>)
    ensures r.Success? ==>
              && r.value.currencyCode == "USD"
              && Value(r.value) == dollars * NANOS_PER_UNIT + cents * NANOS_PER_CENT
              && IsNormalized(r.value)
    ensures r.Success? ==> -214 <= cents <= 214
    ensures -214 <= cents <= 214 && INT64_MIN + 2 <= dollars <= INT64_MAX - 2 ==> r.Success?
  {
    var nanos := cents * NANOS_PER_CENT;
    if InInt32(nanos) then Normalize(Money("USD", dollars, nanos)) else Failure(Overflow)
  }

  /** `Money::default()`, also the sum of no amounts. */
  function Default(): (r: Money)
    ensures r.currencyCode == "USD" && Value(r) == 0 && IsNormalized(r)
  {
    Money("USD", 0, 0)
  }

  /** `impl Add for Money`: panics on differing currencies, otherwise adds
      both fields in their own widths and normalizes. */
  function Add(a: Money, b: Money): (r: Result<Money, MoneyError>)
    ensures (r.Failure? && r.error.CurrencyMismatch?) <==> a.currencyCode != b.currencyCode
    ensures a.currencyCode != b.currencyCode ==>
              r == Failure(CurrencyMismatch(a.currencyCode, b.currencyCode))
    ensures r.Success? ==>
              && r.value.currencyCode == a.currencyCode
              && Value(r.value) == Value(a) + Value(b)
              && IsNormalized(r.value)
  {
    if a.currencyCode != b.currencyCode then
      Failure(CurrencyMismatch(a.currencyCode, b.currencyCode))
    else if !InInt64(a.units + b.units) || !InInt32(a.nanos + b.nanos) then
      Failure(Overflow)
    else
      Normalize(Money(a.currencyCode, a.units + b.units, a.nanos + b.nanos))
  }

  /** For normalized operands the `i32` nanos sum cannot overflow, so `add`
      succeeds whenever the units sum leaves room for one carried unit. */
  lemma AddNormalizedSucceeds(a: Money, b: Money)
    requires a.currencyCode == b.currencyCode
    requires IsNormalized(a) && IsNormalized(b)
    requires INT64_MIN + 1 <= a.units + b.units <= INT64_MAX - 1
    ensures InInt32(a.nanos + b.nanos)
    ensures Add(a, b).Success?
  {
    var s := a.nanos + b.nanos;
    assert -2 * NANOS_PER_UNIT < s < 2 * NANOS_PER_UNIT;
    assert -1 <= Carry(s) <= 1;
  }

  /** `add` is commutative field for field, not only on the value. */
  lemma AddCommutative(a: Money, b: Money)
    requires a.currencyCode == b.currencyCode
    ensures Add(a, b) == Add(b, a)
  {
  }

  /** Whenever both groupings succeed they denote the same amount in the
      same currency. */
  lemma AddAssociativeOnValue(a: Money, b: Money, c: Money)
    requires Add(a, b).Success? && Add(Add(a, b).value, c).Success?
    requires Add(b, c).Success? && Add(a, Add(b, c).value).Success?
    ensures Add(Add(a, b).value, c).value.currencyCode == Add(a, Add(b, c).value).value.currencyCode
    ensures Value(Add(Add(a, b).value, c).value) == Value(Add(a, Add(b, c).value).value)
  {
  }

  /** The two groupings can differ field for field: with nanos 9e8, 9e8 and
      -9e8 one gives (1 unit, -1e8 nanos) and the other (0, 9e8). */
  lemma AddNotFieldwiseAssociative()
    ensures var a, b, c := Money("USD", 0, 900_000_000), Money("USD", 0, 900_000_000),
                           Money("USD", 0, -900_000_000);
            && Add(Add(a, b).value, c) == Success(Money("USD", 1, -100_000_000))
            && Add(a, Add(b, c).value) == Success(Money("USD", 0, 900_000_000))
  {
    var a, b, c := Money("USD", 0, 900_000_000), Money("USD", 0, 900_000_000),
                   Money("USD", 0, -900_000_000);
    var ab, bc := Money("USD", 1, 800_000_000), Money("USD", 0, 0);
    assert Add(a, b) == Success(ab) by {
      assert TDiv(1_800_000_000, NANOS_PER_UNIT) == 1;
    }
    assert Add(ab, c) == Success(Money("USD", 1, -100_000_000)) by {
      assert TDiv(-100_000_000, NANOS_PER_UNIT) == 0;
    }
    assert Add(b, c) == Success(bc) by {
      assert TDiv(0, NANOS_PER_UNIT) == 0;
    }
    assert Add(a, bc) == Success(a) by {
      assert TDiv(900_000_000, NANOS_PER_UNIT) == 0;
    }
  }

  /** Sum of the values of a sequence of amounts, currencies ignored. */
  function TotalValue(ms: seq<Money>): int {
    if |ms| == 0 then 0 else Value(ms[0]) + TotalValue(ms[1..])
  }

  /** The loop of `impl Sum for Money`: `tot = tot + x` for each remaining
      amount, stopping at the first panic. */
  function SumFrom(acc: Money, rest: seq<Money>): (r: Result<Money, MoneyError>)
    decreases |rest|
    ensures r.Success? ==>
              && r.value.currencyCode == acc.currencyCode
              && Value(r.value) == Value(acc) + TotalValue(rest)
              && (forall i :: 0 <= i < |rest| ==> rest[i].currencyCode == acc.currencyCode)
  {
    if |rest| == 0 then
      Success(acc)
    else
      match Add(acc, rest[0])
      case Failure(e) => Failure(e)
      case Success(t) => SumFrom(t, rest[1..])
  }

  /** `impl Sum for Money`: no amounts give `Default()` (zero US dollars);
      otherwise a left fold of `add` seeded with the first amount, which is
      returned as it is, normalized or not, when it is alone. */
  function Sum(ms: seq<Money>): (r: Result<Money, MoneyError>)
    ensures |ms| == 0 ==> r == Success(Default())
    ensures |ms| == 1 ==> r == Success(ms[0])
    ensures |ms| > 0 && r.Success? ==>
              && r.value.currencyCode == ms[0].currencyCode
              && Value(r.value) == TotalValue(ms)
              && (forall i :: 0 <= i < |ms| ==> ms[i].currencyCode == ms[0].currencyCode)
    ensures (exists i :: 0 <= i < |ms| && ms[i].currencyCode != ms[0].currencyCode) ==> r.Failure?
  {
    if |ms| == 0 then Success(Default()) else SumFrom(ms[0], ms[1..])
  }

  /** Sum of the absolute units of a sequence of amounts. */
  function AbsUnits(ms: seq<Money>): nat {
    if |ms| == 0 then 0 else Abs(ms[0].units) + AbsUnits(ms[1..])
  }

  /** Each `add` of normalized amounts carries at most one unit, so the fold
      cannot overflow while the absolute units plus the number of additions
      stay within `i64`. */
  lemma {:induction false} SumFromSucceeds(acc: Money, rest: seq<Money>)
    requires IsNormalized(acc)
    requires forall i :: 0 <= i < |rest| ==>
               rest[i].currencyCode == acc.currencyCode && IsNormalized(rest[i])
    requires Abs(acc.units) + AbsUnits(rest) + |rest| <= INT64_MAX
    ensures SumFrom(acc, rest).Success?
    decreases |rest|
  {
    if |rest| > 0 {
      var x := rest[0];
      assert Abs(acc.units) + Abs(x.units) + AbsUnits(rest[1..]) + |rest| <= INT64_MAX;
      AddNormalizedSucceeds(acc, x);
      var t := Add(acc, x).value;
      assert Abs(t.units) <= Abs(acc.units) + Abs(x.units) + 1 by {
        var s := acc.nanos + x.nanos;
        assert -2 * NANOS_PER_UNIT < s < 2 * NANOS_PER_UNIT;
        assert Normalize(Money(acc.currencyCode, acc.units + x.units, s)) == Add(acc, x);
        assert t.units == acc.units + x.units + Carry(s);
      }
      SumFromSucceeds(t, rest[1..]);
    }
  }

  /** A currency-homogeneous sequence of normalized amounts sums without
      panicking when its absolute units and additions fit in `i64`. */
  lemma SumSucceeds(ms: seq<Money>)
    requires |ms| > 0
    requires forall i :: 0 <= i < |ms| ==>
               ms[i].currencyCode == ms[0].currencyCode && IsNormalized(ms[i])
    requires AbsUnits(ms) + |ms| <= INT64_MAX
    ensures Sum(ms).Success?
  {
    SumFromSucceeds(ms[0], ms[1..]);
  }

  /** `impl Mul<Money> for u32`: the units product is taken in `i64`, but the
      nanos product in `i32` after the wrapping cast `n as i32`. */
  function Mul(n: uint32, m: Money): (r: Result<Money, MoneyError>)
    ensures r.Failure? ==> r.error == Overflow
    ensures r.Success? ==> r.value.currencyCode == m.currencyCode && IsNormalized(r.value)
    ensures r.Success? && n <= INT32_MAX ==> Value(r.value) == n * Value(m)
    ensures n <= INT32_MAX && InInt32(n * m.nanos) && INT64_MIN + 2 <= n * m.units <= INT64_MAX - 2
            ==> r.Success?
  {
    var units := n * m.units;
    var nanos := AsInt32(n) * m.nanos;
    if !InInt64(units) || !InInt32(nanos) then
      Failure(Overflow)
    else
      var r := Normalize(Money(m.currencyCode, units, nanos));
      ScaleValue(n, m.units, m.nanos);
      r
  }

  /** Scaling an amount scales its units and nanos separately. */
  lemma ScaleValue(n: int, units: int, nanos: int)
    ensures n * (units * NANOS_PER_UNIT + nanos) == (n * units) * NANOS_PER_UNIT + n * nanos
  {
  }

  /** Zero times any amount is zero in that amount's currency. */
  lemma MulZero(m: Money)
    ensures Mul(0, m) == Success(Money(m.currencyCode, 0, 0))
  {
  }

  /** One times an amount is that amount, normalized. */
  lemma MulOne(m: Money)
    ensures Mul(1, m) == Normalize(m)
  {
  }

  /** The `i32` nanos product overflows although the amount is representable:
      3 * 0.9 = 2.7 panics. */
  lemma MulNanosOverflow()
    ensures Mul(3, Money("USD", 0, 900_000_000)) == Failure(Overflow)
    ensures FromUsd(2, 70) == Success(Money("USD", 2, 700_000_000))
  {
    assert !InInt32(2_700_000_000);
  }

  /** A count above `i32::MAX` wraps in `n as i32` and the product silently
      comes out wrong: (2^32 - 1) * 1 nano gives -1 nano. */
  lemma MulWrapsAboveInt32Max()
    ensures Mul(0xFFFF_FFFF, Money("USD", 0, 1)) == Success(Money("USD", 0, -1))
    ensures Value(Money("USD", 0, -1)) != 0xFFFF_FFFF * Value(Money("USD", 0, 1))
  {
    assert AsInt32(0xFFFF_FFFF) == -1;
  }
}
