/**
 * Money: an amount of cents tagged with a currency code (backend/domain/value/money.go).
 * The Go type keeps its fields private and every value is built by NewMoney, so the
 * invariant "amount >= 0 and currency non-empty" is carried here by the field types.
 */
module MoneyValue {
  import opened Outcomes

  type Currency = c: string | c != "" witness "USD"

  datatype Money = Money(amount: nat, currency: Currency)

  /** The validating constructor. */
  function NewMoney(amount: int, currency: string): (r: Result<Money>)
    ensures r.Ok? <==> amount >= 0 && currency != ""
    ensures r.Ok? ==> r.value.amount == amount && r.value.currency == currency
    ensures amount < 0 ==> r == Err(NegativeAmount)
    ensures amount >= 0 && currency == "" ==> r == Err(EmptyCurrency)
  {
    if amount < 0 then Err(NegativeAmount)
    else if currency == "" then Err(EmptyCurrency)
    else Ok(Money(amount, currency))
  }

  /** Every Money value is exactly what NewMoney builds from its own fields. */
  lemma NewMoneyRecoversEveryValue(m: Money)
    ensures NewMoney(m.amount, m.currency) == Ok(m)
  {
  }

  /** Sum of two amounts of one currency; a currency mismatch is an error. */
  function Add(m: Money, other: Money): (r: Result<Money>)
    ensures r.Ok? <==> m.currency == other.currency
    ensures r.Ok? ==> r.value.amount == m.amount + other.amount && r.value.currency == m.currency
    ensures r.Err? ==> r.error == CurrencyMismatch
  {
    if m.currency != other.currency then Err(CurrencyMismatch)
    else NewMoney(m.amount + other.amount, m.currency)
  }

  lemma AddCommutative(a: Money, b: Money)
    requires a.currency == b.currency
    ensures Add(a, b) == Add(b, a)
  {
  }

  lemma AddAssociative(a: Money, b: Money, c: Money)
    requires a.currency == b.currency == c.currency
    ensures Add(a, b).Ok? && Add(b, c).Ok?
    ensures Add(Add(a, b).value, c) == Add(a, Add(b, c).value)
  {
  }

  /** Scaling by a count of units; a negative count is an error. */
  function Multiply(m: Money, quantity: int): (r: Result<Money>)
    ensures r.Ok? <==> quantity >= 0
    ensures r.Ok? ==> r.value.amount == m.amount * quantity && r.value.currency == m.currency
    ensures r.Err? ==> r.error == NegativeMultiplier
  {
    if quantity < 0 then Err(NegativeMultiplier)
    else NewMoney(m.amount * quantity, m.currency)
  }

  lemma MultiplyByZero(m: Money)
    ensures Multiply(m, 0) == Ok(Money(0, m.currency))
  {
  }

  /** Zero in m's currency with m added n times, one Add at a time. */
  function RepeatedAdd(m: Money, n: nat): Result<Money>
  {
    if n == 0 then NewMoney(0, m.currency)
    else match RepeatedAdd(m, n - 1)
      case Ok(acc) => Add(acc, m)
      case Err(e) => Err(e)
  }

  /** Multiplying by n is adding n times. */
  lemma {:induction false} MultiplyIsRepeatedAddition(m: Money, n: nat)
    ensures Multiply(m, n) == RepeatedAdd(m, n)
  {
    if n > 0 {
      MultiplyIsRepeatedAddition(m, n - 1);
      assert m.amount * (n - 1) + m.amount == m.amount * n;
    }
  }

  /** Structural equality on amount and currency. */
  function Equals(m: Money, other: Money): (r: bool)
    ensures r <==> m == other
  {
    m.amount == other.amount && m.currency == other.currency
  }

  // ---- Rendering as "<currency> <dollars>.<two-digit cents>" ----

  predicate IsDigit(c: char) {
    '0' <= c <= '9'
  }

  predicate AllDigits(s: string) {
    forall i :: 0 <= i < |s| ==> IsDigit(s[i])
  }

  function DigitChar(d: nat): (c: char)
    requires d < 10
    ensures IsDigit(c)
  {
    ('0' as int + d) as char
  }

  function DigitValue(c: char): (d: nat)
    requires IsDigit(c)
    ensures d < 10
  {
    c as int - '0' as int
  }

  /** Decimal notation of a natural number, without leading zeros (Go's %d). */
  function Decimal(n: nat): (s: string)
    ensures |s| > 0 && AllDigits(s)
    ensures s[0] == '0' <==> n == 0
    ensures n == 0 ==> s == "0"
  {
    if n < 10 then [DigitChar(n)] else Decimal(n / 10) + [DigitChar(n % 10)]
  }

  /** Exactly two digits, zero-padded (Go's %02d). */
  function TwoDigits(c: nat): (s: string)
    requires c < 100
    ensures |s| == 2 && AllDigits(s)
  {
    [DigitChar(c / 10), DigitChar(c % 10)]
  }

  /**
   * The display form of an amount, e.g. "USD 12.05" for 1205 cents: the currency, a space,
   * the whole units in decimal, a point and exactly two digits of cents.
   */
  function ToString(m: Money): (r: string)
    ensures |r| >= |m.currency| + 5
    ensures r[..|m.currency|] == m.currency && r[|m.currency|] == ' ' && r[|r| - 3] == '.'
    ensures var whole, cents := r[|m.currency| + 1..|r| - 3], r[|r| - 2..];
      && AllDigits(whole) && AllDigits(cents) && DigitsValue(cents) < 100
      && (|whole| == 1 || whole[0] != '0')
      && 100 * DigitsValue(whole) + DigitsValue(cents) == m.amount
  {
    var d, c := m.amount / 100, m.amount % 100;
    var t := Decimal(d) + "." + TwoDigits(c);
    NumberRoundTrip(d, c);
    var r := m.currency + " " + t;
    assert r[|m.currency| + 1..|r| - 3] == Decimal(d);
    assert r[|r| - 2..] == TwoDigits(c);
    r
  }

  /** The number a string of digits denotes. */
  function DigitsValue(s: string): nat
    requires AllDigits(s)
  {
    if s == [] then 0 else 10 * DigitsValue(s[..|s| - 1]) + DigitValue(s[|s| - 1])
  }

  lemma {:induction false} DecimalRoundTrip(n: nat)
    ensures DigitsValue(Decimal(n)) == n
  {
    if n >= 10 {
      var s := Decimal(n);
      assert s[..|s| - 1] == Decimal(n / 10);
      DecimalRoundTrip(n / 10);
    }
  }

  /** Index of the last space of s, or -1. */
  function LastSpace(s: string): (k: int)
    ensures -1 <= k < |s|
    ensures k >= 0 ==> s[k] == ' '
    ensures forall j :: k < j < |s| ==> s[j] != ' '
  {
    if s == [] then -1
    else if s[|s| - 1] == ' ' then |s| - 1
    else LastSpace(s[..|s| - 1])
  }

  /** Reads back a rendered amount: the currency is everything before the last space. */
  function ParseMoney(s: string): Option<Money>
  {
    var k := LastSpace(s);
    if k <= 0 then None
    else
      var num := s[k + 1..];
      if |num| < 4 || num[|num| - 3] != '.' then None
      else
        var whole, cents := num[..|num| - 3], num[|num| - 2..];
        if AllDigits(whole) && AllDigits(cents)
        then Some(Money(100 * DigitsValue(whole) + DigitsValue(cents), s[..k]))
        else None
  }

  /** The number part of a rendering, "<dollars>.<two-digit cents>", contains no space. */
  lemma NumberHasNoSpace(d: nat, c: nat)
    requires c < 100
    ensures var t := Decimal(d) + "." + TwoDigits(c);
      forall j :: 0 <= j < |t| ==> t[j] != ' '
  {
    var t := Decimal(d) + "." + TwoDigits(c);
    forall j | 0 <= j < |t| ensures t[j] != ' ' {
      if j < |Decimal(d)| {
        assert t[j] == Decimal(d)[j];
      } else if j > |Decimal(d)| {
        assert t[j] == TwoDigits(c)[j - |Decimal(d)| - 1];
      }
    }
  }

  /** The separating space is the last one when nothing after it is a space. */
  lemma LastSpaceIsSeparator(a: string, t: string)
    requires forall j :: 0 <= j < |t| ==> t[j] != ' '
    ensures LastSpace(a + " " + t) == |a|
  {
    var s := a + " " + t;
    var k := LastSpace(s);
    assert s[|a|] == ' ';
  }

  /** Reading back the number part gives dollars and cents. */
  lemma NumberRoundTrip(d: nat, c: nat)
    requires c < 100
    ensures var t := Decimal(d) + "." + TwoDigits(c);
      && |t| >= 4 && t[|t| - 3] == '.'
      && t[..|t| - 3] == Decimal(d) && t[|t| - 2..] == TwoDigits(c)
      && DigitsValue(Decimal(d)) == d && DigitsValue(TwoDigits(c)) == c
  {
    var t := Decimal(d) + "." + TwoDigits(c);
    assert t[..|t| - 3] == Decimal(d);
    assert t[|t| - 2..] == TwoDigits(c);
    DecimalRoundTrip(d);
    assert DigitsValue(TwoDigits(c)[..1]) == c / 10;
  }

  /** The rendering loses nothing: amount == 100 * dollars + cents, and the currency is kept. */
  lemma ToStringRoundTrip(m: Money)
    ensures ParseMoney(ToString(m)) == Some(m)
  {
    var d, c := m.amount / 100, m.amount % 100;
    var tail := Decimal(d) + "." + TwoDigits(c);
    var s := ToString(m);
    assert s == m.currency + " " + tail;
    NumberHasNoSpace(d, c);
    LastSpaceIsSeparator(m.currency, tail);
    assert s[|m.currency| + 1..] == tail;
    assert s[..|m.currency|] == m.currency;
    NumberRoundTrip(d, c);
  }
}
