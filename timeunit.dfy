/** A TimeUnit is a counter that runs from 0 up to limit - 1 and then wraps
    around to 0, telling its caller when it wrapped. The Java and C++
    versions share the constructors and update. Their display methods are
    written differently (a "%02d" format in Java, a test for a single digit
    in C++); DisplayFormsAgree proves that the two give the same text. */
module TimeUnits {
  import opened Decimal

  /** The value after one update from v on a dial of `limit` positions. */
  function Tick(v: int, limit: int): (r: int)
    requires 0 <= v < limit
    ensures 0 <= r < limit
    ensures r == 0 <==> v == limit - 1
    ensures r != 0 ==> r == v + 1
  {
    (v + 1) % limit
  }

  /** The value of a fresh unit after n updates. */
  function ValueAfter(n: nat, limit: int): (v: int)
    requires limit > 0
    ensures 0 <= v < limit
  {
    if n == 0 then 0 else Tick(ValueAfter(n - 1, limit), limit)
  }

  lemma {:induction false} MulAtLeast(d: int, k: int)
    requires d > 0 && k >= 1
    ensures d * k >= d
  {
    if k > 1 {
      MulAtLeast(d, k - 1);
      assert d * k == d * (k - 1) + d;
    }
  }

  /** Quotient and remainder are unique. */
  lemma DivModUnique(n: int, d: int, q: int, r: int)
    requires d > 0 && 0 <= r < d && n == d * q + r
    ensures n % d == r && n / d == q
  {
    var q0, r0 := n / d, n % d;
    assert n == d * q0 + r0;
    assert d * (q - q0) == r0 - r;
    if q > q0 {
      MulAtLeast(d, q - q0);
    }
    if q < q0 {
      MulAtLeast(d, q0 - q);
    }
  }

  /** Adding one before or after reducing modulo d gives the same residue. */
  lemma ModSucc(n: nat, d: int)
    requires d > 0
    ensures (n % d + 1) % d == (n + 1) % d
  {
    var q, r := n / d, n % d;
    assert n == d * q + r;
    if r + 1 < d {
      DivModUnique(r + 1, d, 0, r + 1);
      DivModUnique(n + 1, d, q, r + 1);
    } else {
      DivModUnique(r + 1, d, 1, 0);
      DivModUnique(n + 1, d, q + 1, 0);
    }
  }

  /** After n updates from fresh, a unit shows n mod limit. */
  lemma {:induction false} ValueAfterIsModulo(n: nat, limit: int)
    requires limit > 0
    ensures ValueAfter(n, limit) == n % limit
  {
    if n > 0 {
      var previous := ValueAfter(n - 1, limit);
      ValueAfterIsModulo(n - 1, limit);
      assert previous == (n - 1) % limit;
      ModSucc(n - 1, limit);
      assert ValueAfter(n, limit) == (previous + 1) % limit;
    }
  }

  /** k zero characters. */
  function Zeros(k: nat): (s: string)
    ensures |s| == k && AllDigits(s)
  {
    if k == 0 then "" else "0" + Zeros(k - 1)
  }

  lemma {:induction false} LeadingZeros(k: nat, s: string)
    requires AllDigits(s)
    ensures AllDigits(Zeros(k) + s) && DigitsValue(Zeros(k) + s) == DigitsValue(s)
  {
    if k > 0 {
      var rest := Zeros(k - 1) + s;
      LeadingZeros(k - 1, s);
      LeadingZero(rest);
      assert Zeros(k) + s == "0" + rest;
    } else {
      assert Zeros(k) + s == s;
    }
  }

  /** The "%0<width>d" format of Java's String.format: the decimal digits of v,
      preceded by as many zeros as it takes to reach `width` characters. */
  function ZeroPadded(v: nat, width: nat): (s: string)
    ensures |s| == if |NatToString(v)| < width then width else |NatToString(v)|
  {
    var digits := NatToString(v);
    Zeros(if |digits| < width then width - |digits| else 0) + digits
  }

  /** A zero-padded text holds only digits and reads back as the number it shows. */
  lemma ZeroPaddedReadsBack(v: nat, width: nat)
    ensures AllDigits(ZeroPadded(v, width)) && DigitsValue(ZeroPadded(v, width)) == v
  {
    var digits := NatToString(v);
    var padding: nat := if |digits| < width then width - |digits| else 0;
    assert ZeroPadded(v, width) == Zeros(padding) + digits;
    NatToStringRoundTrip(v);
    LeadingZeros(padding, digits);
  }

  /** Below 100, the two-digit display is the tens digit then the units digit. */
  lemma TwoDigits(v: nat)
    requires v < 100
    ensures ZeroPadded(v, 2) == [DigitChar(v / 10), DigitChar(v % 10)]
  {
    if v < 10 {
      assert Zeros(1) == "0";
    } else {
      assert NatToString(v / 10) == [DigitChar(v / 10)];
      assert Zeros(0) == "";
    }
  }

  /** The C++ form of the display: "0" before a single digit, the digits
      otherwise. The text holds only digits and reads back as v, and it has
      two characters exactly when v is below 100. */
  function TwoDigitDisplay(v: nat): (s: string)
    ensures AllDigits(s) && DigitsValue(s) == v
    ensures v < 100 <==> |s| == 2
  {
    NatToStringRoundTrip(v);
    NatToStringShape(v);
    LeadingZero(NatToString(v));
    if v < 10 then "0" + NatToString(v) else NatToString(v)
  }

  /** The Java format and the C++ conditional produce the same text. */
  lemma DisplayFormsAgree(v: nat)
    ensures TwoDigitDisplay(v) == ZeroPadded(v, 2)
  {
    if v < 10 {
      assert Zeros(1) == "0";
    } else {
      assert Zeros(0) == "";
    }
  }

  class TimeUnit {
    var limit: int
    var value: int
    var unit: string

    ghost predicate Valid()
      reads this
    {
      0 < limit && 0 <= value < limit
    }

    constructor (theLimit: int, theUnit: string)
      requires theLimit > 0
      ensures Valid() && limit == theLimit && unit == theUnit && value == 0
    {
      limit := theLimit;
      unit := theUnit;
      value := 0;
    }

    /** TimeUnit(theLimit): no label. */
    constructor WithLimit(theLimit: int)
      requires theLimit > 0
      ensures Valid() && limit == theLimit && unit == "" && value == 0
    {
      limit := theLimit;
      unit := "";
      value := 0;
    }

    /** TimeUnit(): limit 60, no label. */
    constructor Default()
      ensures Valid() && limit == 60 && unit == "" && value == 0
    {
      limit := 60;
      unit := "";
      value := 0;
    }

    /** Advance by one; report whether the unit wrapped around to 0.
        Only the value changes. */
    method Update() returns (wrapped: bool)
      requires Valid()
      modifies this`value
      ensures Valid()
      ensures value == Tick(old(value), limit)
      ensures wrapped <==> value == 0
      ensures wrapped <==> old(value) == limit - 1
    {
      value := (value + 1) % limit;
      wrapped := 0 == value;
    }

    /** The value as text, zero-padded to two digits. */
    function GetDisplayValue(): (s: string)
      reads this
      requires Valid()
      ensures AllDigits(s) && DigitsValue(s) == value
      ensures |s| >= 2 && (limit <= 100 ==> |s| == 2)
      ensures value < 10 ==> s[0] == '0'
    {
      ZeroPaddedReadsBack(value, 2);
      ZeroPadded(value, 2)
    }

    /** getDisplayValue of the C++ class: the same text as the Java one. */
    function CppDisplayValue(): (s: string)
      reads this
      requires Valid()
      ensures s == GetDisplayValue()
    {
      DisplayFormsAgree(value);
      TwoDigitDisplay(value)
    }
  }
}
