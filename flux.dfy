/** The flux capacitor of the time machine: it knows the year it starts
    from and the year it is set to, and keeps the power the trip needs,
    2 MJ per year travelled in either direction. */
module Flux {
  import opened Decimal

  const POWER_CONSUMPTION: int := 2

  function Abs(x: int): (a: int)
    ensures a >= 0 && (a == x || a == -x)
  {
    if x < 0 then -x else x
  }

  /** The power a trip between the two years needs. */
  function RequiredPower(startYear: int, destinationYear: int): (power: int)
    ensures power >= 0
    ensures power == 0 <==> startYear == destinationYear
    ensures power % POWER_CONSUMPTION == 0
  {
    Abs((startYear - destinationYear) * POWER_CONSUMPTION)
  }

  /** Going there costs as much as coming back. */
  lemma PowerSymmetric(a: int, b: int)
    ensures RequiredPower(a, b) == RequiredPower(b, a)
  {
  }

  /** From the start year and the power, the destination is known up to the
      direction of travel: it lies power / 2 years before or after the start. */
  lemma PowerDeterminesDistance(startYear: int, destinationYear: int)
    ensures var half := RequiredPower(startYear, destinationYear) / POWER_CONSUMPTION;
            destinationYear == startYear - half || destinationYear == startYear + half
  {
  }

  /** Stopping over on the way never needs less power than the direct trip. */
  lemma PowerTriangle(a: int, b: int, c: int)
    ensures RequiredPower(a, c) <= RequiredPower(a, b) + RequiredPower(b, c)
  {
  }

  class FluxCapacitor {
    var startYear: int
    var destinationYear: int
    var requiredPower: int

    /** The power always matches the two years. */
    ghost predicate Valid()
      reads this
    {
      requiredPower == RequiredPower(startYear, destinationYear)
    }

    /** The fields start at destination 1955 and power 0; the constructor
        then sets the destination to 2015. */
    constructor (theStartYear: int)
      ensures Valid()
      ensures startYear == theStartYear && destinationYear == 2015
      ensures requiredPower == RequiredPower(theStartYear, 2015)
    {
      destinationYear := 1955;
      requiredPower := 0;
      startYear := theStartYear;
      new;
      SetDestinationYear(2015);
    }

    /** Set the destination and recompute the power. The last statement of
        the source assigns to the parameter only, so the destination stays
        the year passed in; the start year is never touched. */
    method SetDestinationYear(theDestinationYear: int)
      modifies this`destinationYear, this`requiredPower
      ensures Valid()
      ensures destinationYear == theDestinationYear
      ensures requiredPower == RequiredPower(startYear, theDestinationYear)
    {
      var year := theDestinationYear;
      destinationYear := year;
      var tripLength := startYear - destinationYear;
      requiredPower := Abs(tripLength * POWER_CONSUMPTION);
      year := 1955;
    }

    /** toString: the three numbers in fixed words. */
    function ToString(): (text: string)
      reads this
      ensures text == FluxText(startYear, destinationYear, requiredPower)
    {
      FluxText(startYear, destinationYear, requiredPower)
    }
  }

  /** The text toString builds from a start year, a destination year and a
      power. */
  function FluxText(startYear: int, destinationYear: int, power: int): string
  {
    "FluxCapacitor set to " + IntToString(startYear) + " (start) " + IntToString(destinationYear)
      + " (destination), requiring " + IntToString(power) + "MJ"
  }

  /** FluxText as a word, then a rest that starts with a blank. */
  lemma FluxTextParts(a: int, b: int, c: int)
    ensures FluxText(a, b, c) == "FluxCapacitor set to " + (IntToString(a)
              + (" (start) " + (IntToString(b) + (" (destination), requiring " + (IntToString(c) + "MJ")))))
  {
  }

  /** The text shows all three numbers: capacitors written alike have the
      same start year, destination year and power. */
  lemma FluxTextInjective(a: int, b: int, c: int, a2: int, b2: int, c2: int)
    requires FluxText(a, b, c) == FluxText(a2, b2, c2)
    ensures a == a2 && b == b2 && c == c2
  {
    var st, de, mj := " (start) ", " (destination), requiring ", "MJ";
    var ta, tb, tc := IntToString(a), IntToString(b), IntToString(c);
    var ua, ub, uc := IntToString(a2), IntToString(b2), IntToString(c2);
    IntToStringLacks(a, ' ');
    IntToStringLacks(b, ' ');
    IntToStringLacks(a2, ' ');
    IntToStringLacks(b2, ' ');
    var r3, s3 := de + (tc + mj), de + (uc + mj);
    var r2, s2 := st + (tb + r3), st + (ub + s3);
    FluxTextParts(a, b, c);
    FluxTextParts(a2, b2, c2);
    DropPrefix("FluxCapacitor set to ", ta + r2, ua + s2);
    SplitAt(' ', ta, r2, ua, s2);
    DropPrefix(st, tb + r3, ub + s3);
    SplitAt(' ', tb, r3, ub, s3);
    DropPrefix(de, tc + mj, uc + mj);
    DropSuffix(tc, uc, mj);
    IntToStringInjective(a, a2);
    IntToStringInjective(b, b2);
    IntToStringInjective(c, c2);
  }

  /** Two capacitors are written alike exactly when their three fields agree. */
  lemma ToStringShowsState(f: FluxCapacitor, g: FluxCapacitor)
    ensures f.ToString() == g.ToString() <==>
              f.startYear == g.startYear && f.destinationYear == g.destinationYear
              && f.requiredPower == g.requiredPower
  {
    if f.ToString() == g.ToString() {
      FluxTextInjective(f.startYear, f.destinationYear, f.requiredPower,
                        g.startYear, g.destinationYear, g.requiredPower);
    }
  }

  /** FluxCapacitor.main: a capacitor starting in 1985 is set to 2015 and
      needs 60 MJ. */
  method FluxMain() returns (shown: string)
    ensures shown == "FluxCapacitor set to " + "1985" + " (start) " + "2015"
                     + " (destination), requiring " + "60" + "MJ"
  {
    var fc := new FluxCapacitor(1985);
    assert fc.requiredPower == 60;
    assert IntToString(1985) == "1985";
    assert IntToString(2015) == "2015";
    assert IntToString(60) == "60";
    shown := fc.ToString();
  }
}
