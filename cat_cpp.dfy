/** The C++ cat keeps its colours in an array of strings that ends at the
    first empty string, and copies that array element by element, so that
    every cat owns its colours. */
module CatsCpp {

  /** The index of the first empty string: the end marker. */
  function FirstEmpty(s: seq<string>): (i: nat)
    requires "" in s
    ensures i < |s| && s[i] == ""
    ensures forall j :: 0 <= j < i ==> s[j] != ""
  {
    if s[0] == "" then 0 else 1 + FirstEmpty(s[1..])
  }

  /** The colours proper: everything before the end marker. */
  function Colours(s: seq<string>): (cs: seq<string>)
    requires "" in s
    ensures forall c :: c in cs ==> c != ""
    ensures |cs| < |s| && s[..|cs| + 1] == cs + [""]
  {
    s[..FirstEmpty(s)]
  }

  /** listColours: each colour followed by ", ". */
  function Listing(cs: seq<string>): (out: string)
    ensures |out| >= 2 * |cs|
  {
    if |cs| == 0 then ""
    else Listing(cs[..|cs| - 1]) + cs[|cs| - 1] + ", "
  }

  /** Listing a list made of two parts lists the first part, then the second. */
  lemma {:induction false} ListingAppend(a: seq<string>, b: seq<string>)
    ensures Listing(a + b) == Listing(a) + Listing(b)
  {
    if |b| > 0 {
      var b0 := b[..|b| - 1];
      ListingAppend(a, b0);
      assert (a + b)[..|a + b| - 1] == a + b0;
      assert b[..|b| - 1] == b0;
    } else {
      assert a + b == a;
    }
  }

  /** The listing is empty exactly when there are no colours. */
  lemma ListingEmpty(cs: seq<string>)
    ensures Listing(cs) == "" <==> |cs| == 0
  {
  }

  /** A listing ends in ", " unless it is empty. */
  lemma ListingEnds(cs: seq<string>)
    requires |cs| > 0
    ensures var out := Listing(cs); out[|out| - 2..] == ", "
  {
  }

  /** copyColours: count the entries up to and including the end marker,
      allocate that many, and copy them in order (a do-while loop that
      stops after copying the marker). */
  method CopyColours(theColours: array<string>) returns (copy: array<string>)
    requires "" in theColours[..]
    ensures fresh(copy)
    ensures copy[..] == Colours(theColours[..]) + [""]
  {
    ghost var marker := FirstEmpty(theColours[..]);
    var length := 0;
    var found := false;
    while !found
      invariant 0 <= length <= marker + 1
      invariant found <==> length == marker + 1
      decreases marker + 1 - length
    {
      found := "" == theColours[length];
      length := length + 1;
    }
    copy := new string[length];
    var pos := 0;
    var more := true;
    while more
      invariant 0 <= pos <= length
      invariant more <==> pos < length
      invariant copy[..pos] == theColours[..pos]
      decreases length - pos
    {
      copy[pos] := theColours[pos];
      more := "" != theColours[pos];
      pos := pos + 1;
    }
    assert copy[..] == copy[..pos];
  }

  class Cat {
    var myName: string
    var myColours: array<string>

    /** The colours array ends with its one end marker. */
    ghost predicate Valid()
      reads this`myColours, myColours
    {
      "" in myColours[..] && FirstEmpty(myColours[..]) == myColours.Length - 1
    }

    /** Cat(name, colours): the name, and a private copy of the colours up to
        and including the end marker. */
    constructor (theName: string, theColours: array<string>)
      requires "" in theColours[..]
      ensures Valid() && fresh(myColours)
      ensures myName == theName
      ensures myColours[..] == Colours(theColours[..]) + [""]
    {
      var copy := CopyColours(theColours);
      myName := theName;
      myColours := copy;
      new;
      WholeArrayIsColours(copy[..], Colours(theColours[..]));
    }

    /** The copy constructor: the same name and colours, in an array of the
        new cat's own. */
    constructor Copy(original: Cat)
      requires original.Valid()
      ensures Valid() && fresh(myColours)
      ensures myName == original.myName
      ensures myColours[..] == original.myColours[..]
    {
      var copy := CopyColours(original.myColours);
      myName := original.myName;
      myColours := copy;
      new;
      WholeArrayIsColours(original.myColours[..], Colours(original.myColours[..]));
      WholeArrayIsColours(copy[..], Colours(original.myColours[..]));
    }

    /** setName: the new name replaces the old one; the line announcing the
        change is returned. */
    method SetName(theName: string) returns (announced: string)
      modifies this`myName
      ensures Valid() <==> old(Valid())
      ensures myName == theName
      ensures announced == old(myName) + " is now known as " + theName
    {
      var oldName := myName;
      myName := theName;
      announced := oldName + " is now known as " + myName;
    }

    /** listColours: walk the array up to the end marker. */
    method ListColours() returns (out: string)
      requires "" in myColours[..]
      ensures out == Listing(Colours(myColours[..]))
    {
      ghost var marker := FirstEmpty(myColours[..]);
      out := "";
      var pos := 0;
      while "" != myColours[pos]
        invariant 0 <= pos <= marker
        invariant out == Listing(myColours[..pos])
        decreases marker - pos
      {
        out := out + myColours[pos] + ", ";
        pos := pos + 1;
        assert myColours[..pos][..pos - 1] == myColours[..pos - 1];
      }
    }

    method ToString() returns (text: string)
      requires "" in myColours[..]
      ensures text == "a cat by the name " + myName + " with the colours "
                      + Listing(Colours(myColours[..]))
    {
      var listed := ListColours();
      text := "a cat by the name " + myName + " with the colours " + listed;
    }
  }

  /** An array holding exactly some colours and then the end marker has
      those colours and nothing after its marker. */
  lemma WholeArrayIsColours(s: seq<string>, cs: seq<string>)
    requires s == cs + [""]
    requires forall c :: c in cs ==> c != ""
    ensures "" in s && Colours(s) == cs && FirstEmpty(s) == |s| - 1
  {
    assert s[|cs|] == "";
    forall j | 0 <= j < |cs|
      ensures s[j] != ""
    {
      assert s[j] == cs[j] && cs[j] in cs;
    }
    assert FirstEmpty(s) == |cs|;
    assert s[..|cs|] == cs;
  }

  /** The colours array of testCat: three colours and the end marker. */
  method TestColours() returns (colours: array<string>)
    ensures fresh(colours)
    ensures colours[..] == ["Red", "Orange", "White"] + [""]
    ensures "" in colours[..] && Colours(colours[..]) == ["Red", "Orange", "White"]
  {
    colours := new string[4]["Red", "Orange", "White", ""];
    assert colours[..] == ["Red", "Orange", "White"] + [""];
    WholeArrayIsColours(colours[..], ["Red", "Orange", "White"]);
  }

  /** testCat: Bob and his copy Steve differ only in name after Steve is
      renamed; Steve, rebuilt as a copy of Tabby, keeps Tabby's colours
      after the caller's array is changed. */
  method TestCat() returns (tabby: Cat, bob: Cat, steve: Cat, colours: array<string>)
    ensures bob.myName == "Bob" && steve.myName == "Tabby"
    ensures tabby.myColours[..] == ["Red", "Orange", "White"] + [""]
    ensures colours[..] == tabby.myColours[..][0 := "grey"]
    ensures steve.myColours[..] == ["Red", "Orange", "White"] + [""]
    ensures steve.myColours != tabby.myColours
  {
    colours := TestColours();
    ghost var kept := colours[..];
    tabby := new Cat("Tabby", colours);
    assert tabby.myColours[..] == kept;
    bob := new Cat("Bob", colours);
    steve := new Cat.Copy(bob);
    var _ := steve.SetName("Steve");
    assert bob.myName == "Bob";
    steve := new Cat.Copy(tabby);
    assert colours != tabby.myColours && colours != steve.myColours;
    assert colours[..] == kept;
    assert tabby.myColours[..] == kept && steve.myColours[..] == kept;
    colours[0] := "grey";
  }
}
