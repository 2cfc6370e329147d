/** A rat has a name and a gender, compared and copied by value. Multiplying
    two rats gives a litter of five new rats when the pair is compatible, and
    nothing otherwise. */
module Rats {
  import opened Wrappers

  datatype Gender = Female | Male | Other | Unspecified

  /** The pairing test of operator*: one male and one female, or any pair in
      which either gender is unspecified. */
  predicate Compatible(a: Gender, b: Gender)
    ensures Compatible(a, b) && a != Unspecified && b != Unspecified ==>
              a != b && a != Other && b != Other
  {
    (a == Male && b == Female) || (a == Female && b == Male)
      || (a == Unspecified || b == Unspecified)
  }

  /** The same rule stated on the set of the two genders. */
  lemma CompatibleAsSet(a: Gender, b: Gender)
    ensures Compatible(a, b) <==> Unspecified in {a, b} || {a, b} == {Male, Female}
  {
    if {a, b} == {Male, Female} {
      assert a in {Male, Female} && b in {Male, Female};
    }
  }

  /** Whether a pair is compatible does not depend on the order. */
  lemma CompatibleSymmetric(a: Gender, b: Gender)
    ensures Compatible(a, b) == Compatible(b, a)
  {
  }

  /** Pairs that give no litter: two rats of the same specified gender, and
      "other" with any specified gender. */
  lemma Incompatible(a: Gender)
    ensures a != Unspecified ==> !Compatible(a, a) && !Compatible(Other, a) && !Compatible(a, Other)
  {
  }

  /** The gender as operator<< writes it. Its first letter tells which
      gender it is. */
  function GenderText(g: Gender): (text: string)
    ensures |text| >= 4
    ensures text[0] == 'f' <==> g == Female
    ensures text[0] == 'm' <==> g == Male
    ensures text[0] == 'o' <==> g == Other
    ensures text[0] == 'u' <==> g == Unspecified
  {
    match g
    case Female => "female"
    case Male => "male"
    case Other => "other"
    case Unspecified => "unspecified"
  }

  /** Reading a gender back from its text. */
  function GenderNamed(text: string): (g: Option<Gender>)
    ensures g.Some? ==> GenderText(g.value) == text
  {
    if text == "female" then Some(Female)
    else if text == "male" then Some(Male)
    else if text == "other" then Some(Other)
    else if text == "unspecified" then Some(Unspecified)
    else None
  }

  /** Every gender is written as a text that reads back as that gender, so
      no two genders are written alike. */
  lemma GenderTextRoundTrip(g: Gender)
    ensures GenderNamed(GenderText(g)) == Some(g)
  {
  }

  /** What operator<< writes for a rat: fixed words with the gender's first
      letter at index 7, and the name at the end. */
  function RatText(name: string, gender: Gender): (text: string)
    ensures |text| > 7 + |name| && text[7] == GenderText(gender)[0]
    ensures text[|text| - |name|..] == name
  {
    "Rat of " + GenderText(gender) + " gender called " + name
  }

  class Rat {
    var name: string
    var gender: Gender

    /** Rat(): "no-name" of unspecified gender. */
    constructor Default()
      ensures name == "no-name" && gender == Unspecified
    {
      name := "no-name";
      gender := Unspecified;
    }

    /** The copy constructor copies both fields. */
    constructor Copy(original: Rat)
      ensures name == original.name && gender == original.gender
    {
      name := original.name;
      gender := original.gender;
    }

    constructor (theName: string, theGender: Gender)
      ensures name == theName && gender == theGender
    {
      name := theName;
      gender := theGender;
    }

    /** operator=: copy both fields of other, and answer this rat, so that
        assignments can be chained. */
    method Assign(other: Rat) returns (self: Rat)
      modifies this
      ensures self == this
      ensures name == old(other.name) && gender == old(other.gender)
    {
      name := other.name;
      gender := other.gender;
      self := this;
    }

    /** operator==: same name and same gender. */
    predicate Equals(other: Rat)
      reads this, other
      ensures this == other ==> Equals(other)
      ensures Equals(other) ==> RatText(name, gender) == RatText(other.name, other.gender)
    {
      name == other.name && gender == other.gender
    }

    /** operator*: a fresh litter of five default rats for a compatible pair,
        null otherwise. */
    method Mate(other: Rat) returns (litter: array?<Rat>)
      ensures litter == null <==> !Compatible(gender, other.gender)
      ensures litter != null ==> fresh(litter) && litter.Length == 5
      ensures litter != null ==> forall i :: 0 <= i < litter.Length ==>
                fresh(litter[i]) && litter[i].name == "no-name" && litter[i].gender == Unspecified
    {
      if Compatible(gender, other.gender) {
        var r0 := new Rat.Default();
        var r1 := new Rat.Default();
        var r2 := new Rat.Default();
        var r3 := new Rat.Default();
        var r4 := new Rat.Default();
        litter := new Rat[5][r0, r1, r2, r3, r4];
      } else {
        litter := null;
      }
    }

    /** operator<<: the text ends with the name, and its letter at index 7
        tells the gender. */
    function ToString(): (text: string)
      reads this
      ensures |text| > 7 + |name| && text[|text| - |name|..] == name
      ensures text[7] == 'f' <==> gender == Female
      ensures text[7] == 'm' <==> gender == Male
    {
      RatText(name, gender)
    }
  }

  /** Rat equality is an equivalence on the two fields. */
  lemma EqualsIsEquivalence(a: Rat, b: Rat, c: Rat)
    ensures a.Equals(a)
    ensures a.Equals(b) ==> b.Equals(a)
    ensures a.Equals(b) && b.Equals(c) ==> a.Equals(c)
  {
  }

  /** Equal rats are written alike, and rats written alike are equal: the
      text shows both fields. */
  lemma ToStringShowsBothFields(a: Rat, b: Rat)
    ensures a.Equals(b) <==> a.ToString() == b.ToString()
  {
    if a.ToString() == b.ToString() {
      RatTextInjective(a.name, a.gender, b.name, b.gender);
    }
  }

  /** Different rats are written differently: each gender text starts with
      its own letter, so the gender is known from the text, and the name is
      what follows the fixed words. */
  lemma RatTextInjective(n1: string, g1: Gender, n2: string, g2: Gender)
    requires RatText(n1, g1) == RatText(n2, g2)
    ensures n1 == n2 && g1 == g2
  {
    var s1, s2 := RatText(n1, g1), RatText(n2, g2);
    assert s1[7] == GenderText(g1)[0];
    assert s2[7] == GenderText(g2)[0];
    var p := "Rat of " + GenderText(g1) + " gender called ";
    assert s1 == p + n1;
    assert s2 == p + n2;
    assert n1 == s1[|p|..];
  }

  /** testRat: b = a = r makes all three equal; an imitator with the same
      name and gender is equal to r, one with another name is not; and
      Manny (male) with Mimmi (female) gives a litter of default rats. */
  method TestRat() returns (r: Rat, a: Rat, b: Rat, shown: string, same: bool, notSame: bool,
                            litter: array?<Rat>)
    ensures r.name == "Manny" && r.gender == Male
    ensures a.Equals(r) && b.Equals(r) && a != r && b != r && a != b
    ensures shown == "Rat of " + "unspecified" + " gender called " + "no-name"
    ensures same && !notSame
    ensures litter != null && litter.Length == 5
    ensures litter[0].name == "no-name" && litter[0].gender == Unspecified
  {
    r := new Rat("Manny", Male);
    a := new Rat.Default();
    b := new Rat.Default();
    shown := a.ToString();
    var _ := a.Assign(r);
    var a2 := a.Assign(r);
    var _ := b.Assign(a2);
    var imitator := new Rat("Manny", Male);
    same := imitator.Equals(r);
    var imitator2 := new Rat("Mary", Other);
    notSame := imitator2.Equals(r);
    var fr := new Rat("Mimmi", Female);
    litter := r.Mate(fr);
  }
}
