/** Currency amounts in integer cents: the business constants of the ledger,
    the validation and rounding of a user-supplied amount, and the two-decimal
    rendering of a balance (`formatBalance`, i.e. `toFixed(2)`). */
module Money {
  import opened Wrappers

  /** 999999.99, the largest balance a credit may produce (PIC 9(6)V99). */
  const MaxBalance: int := 99999999
  /** 1000.00, the balance of a fresh store. */
  const InitialBalance: int := 100000

  /** The ledger invariant 0.00 <= balance <= 999999.99. */
  predicate InRange(balance: int) {
    0 <= balance <= MaxBalance
  }

  /** What `parseFloat` makes of the text the user typed: `NaN`, or a number. */
  datatype Parsed = NaN | Number(value: real)

  /** The amount check and rounding of `promptForAmount`: `NaN` and negative
      numbers are rejected; anything else is rounded to whole cents the way
      `Math.round(amount * 100)` does, i.e. to the nearest cent with halves
      going up. */
  function ValidateAmount(input: Parsed): (r: Option<nat>)
    ensures r.None? <==> input.NaN? || input.value < 0.0
    ensures r.Some? ==>
      r.value as real - 0.5 <= input.value * 100.0 < r.value as real + 0.5
  {
    match input
    case NaN => None
    case Number(v) => if v < 0.0 then None else Some((v * 100.0 + 0.5).Floor)
  }

  /** An amount typed with at most two decimals is kept exactly. */
  lemma ExactCentsKept(k: nat)
    ensures ValidateAmount(Number(k as real / 100.0)) == Some(k)
  {
    var v := k as real / 100.0;
    assert v * 100.0 + 0.5 == k as real + 0.5;
  }

  /** An exact half cent is rounded up: 0.125 becomes 0.13. */
  lemma HalfCentRoundsUp(k: nat)
    ensures ValidateAmount(Number((2 * k + 1) as real / 200.0)) == Some(k + 1)
  {
    var v := (2 * k + 1) as real / 200.0;
    assert v * 100.0 + 0.5 == (k + 1) as real;
  }

  // ---- decimal digits ----

  predicate IsDigit(c: char) {
    '0' <= c <= '9'
  }

  function DigitChar(d: nat): (c: char)
    requires d < 10
    ensures IsDigit(c) && c as int - '0' as int == d
  {
    ('0' as int + d) as char
  }

  function DigitValue(c: char): nat
    requires IsDigit(c)
  {
    c as int - '0' as int
  }

  predicate AllDigits(s: string) {
    forall i :: 0 <= i < |s| ==> IsDigit(s[i])
  }

  /** The decimal numeral of `n`, without leading zeros. */
  function Decimal(n: nat): (s: string)
    ensures |s| >= 1 && AllDigits(s)
    ensures s[0] == '0' ==> n == 0
  {
    if n < 10 then [DigitChar(n)] else Decimal(n / 10) + [DigitChar(n % 10)]
  }

  /** The value of a string of decimal digits (an independent reading of a numeral). */
  function DigitsValue(s: string): nat
    requires AllDigits(s)
  {
    if s == [] then 0 else DigitsValue(s[..|s| - 1]) * 10 + DigitValue(s[|s| - 1])
  }

  lemma {:induction false} DecimalRoundTrip(n: nat)
    ensures DigitsValue(Decimal(n)) == n
  {
    if n >= 10 {
      var s := Decimal(n);
      assert s[..|s| - 1] == Decimal(n / 10);
      DecimalRoundTrip(n / 10);
    }
  }

  // ---- formatBalance ----

  /** `toFixed(2)` of a non-negative amount of cents: whole units, a point, two digits. */
  function FormatCents(c: nat): (s: string)
    ensures |s| >= 4 && s[|s| - 3] == '.'
    ensures AllDigits(s[..|s| - 3]) && IsDigit(s[|s| - 2]) && IsDigit(s[|s| - 1])
  {
    Decimal(c / 100) + "." + [DigitChar(c % 100 / 10), DigitChar(c % 10)]
  }

  /** `formatBalance`: `toFixed(2)` of a balance held in cents; a negative
      balance (which only an unchecked store write can produce) gets a minus sign. */
  function FormatBalance(balance: int): (s: string)
    ensures |s| >= 4 && s[|s| - 3] == '.' && IsDigit(s[|s| - 2]) && IsDigit(s[|s| - 1])
    ensures balance < 0 <==> s[0] == '-'
  {
    FormatCentsRoundTrip(if balance < 0 then -balance else balance);
    if balance < 0 then "-" + FormatCents(-balance) else FormatCents(balance)
  }

  /** Reads back a "d.dd" numeral into cents. */
  function ParseCents(s: string): Option<nat>
  {
    if |s| >= 4 && s[|s| - 3] == '.' && AllDigits(s[..|s| - 3])
       && IsDigit(s[|s| - 2]) && IsDigit(s[|s| - 1])
    then Some(DigitsValue(s[..|s| - 3]) * 100 + DigitValue(s[|s| - 2]) * 10 + DigitValue(s[|s| - 1]))
    else None
  }

  /** Reads back a balance rendered by `FormatBalance`, with an optional minus sign. */
  function ParseBalance(s: string): Option<int>
  {
    if |s| >= 1 && s[0] == '-' then
      match ParseCents(s[1..])
      case Some(c) => Some(-(c as int))
      case None => None
    else
      match ParseCents(s)
      case Some(c) => Some(c as int)
      case None => None
  }

  lemma FormatCentsRoundTrip(c: nat)
    ensures ParseCents(FormatCents(c)) == Some(c)
    ensures FormatCents(c)[0] != '-'
  {
    var s := FormatCents(c);
    var whole := Decimal(c / 100);
    assert s[..|s| - 3] == whole;
    DecimalRoundTrip(c / 100);
    assert s[0] == whole[0];
  }

  /** Every balance can be read back from its rendering. */
  lemma FormatBalanceRoundTrip(balance: int)
    ensures ParseBalance(FormatBalance(balance)) == Some(balance)
  {
    if balance < 0 {
      FormatCentsRoundTrip(-balance);
      assert FormatBalance(balance)[1..] == FormatCents(-balance);
    } else {
      FormatCentsRoundTrip(balance);
    }
  }

  /** Two different balances never render alike. */
  lemma FormatBalanceInjective(a: int, b: int)
    requires FormatBalance(a) == FormatBalance(b)
    ensures a == b
  {
    FormatBalanceRoundTrip(a);
    FormatBalanceRoundTrip(b);
  }

  /** 1050.00, 0.00 and 999999.99 render as the source's test fixtures expect. */
  lemma FormatExamples()
    ensures FormatBalance(105000) == "1050.00"
    ensures FormatBalance(0) == "0.00"
    ensures FormatBalance(MaxBalance) == "999999.99"
  {
  }
}
