/** The Java cat holds its colours in an ArrayList by reference: the copy
    constructor copies the reference, so a cat and its copy share one list,
    while each keeps a name of its own. */
module CatsJava {
  import opened JavaLists

  class Cat {
    var name: string
    var colours: ArrayList<string>

    /** Cat(): "youthere", with a new list holding "Brown". */
    constructor Default()
      ensures name == "youthere"
      ensures fresh(colours) && colours.elems == ["Brown"]
    {
      var brown := new ArrayList<string>();
      brown.Add("Brown");
      colours := brown;
      name := "youthere";
    }

    /** Cat(name, colours): the list passed in is kept, not copied. */
    constructor (theName: string, theColours: ArrayList<string>)
      ensures name == theName && colours == theColours
    {
      name := theName;
      colours := theColours;
    }

    /** The copy constructor: the same name, and the very same list. */
    constructor Copy(original: Cat)
      ensures name == original.name && colours == original.colours
    {
      name := original.name;
      colours := original.colours;
    }

    /** toString: the name, then the list text of the colours. */
    function ToString(): (text: string)
      reads this, colours
      ensures |text| > 20 + |name|
      ensures text[..20] == "a cat with the name " && text[|text| - 1] == ']'
      ensures text[20..20 + |name|] == name
    {
      "a cat with the name " + name + " and the colours " + ListText(colours.elems)
    }
  }

  /** Cat.main: the mongrel is a copy of the stray; renaming the mongrel
      leaves the stray's name alone, but the colour added through the
      mongrel shows up on the stray, whose text then lists Brown and White. */
  method CatMain() returns (stray: Cat, mongrel: Cat)
    ensures stray != mongrel && stray.colours == mongrel.colours
    ensures stray.name == "youthere" && mongrel.name == "Manny"
    ensures stray.colours.elems == ["Brown", "White"]
    ensures stray.ToString() == "a cat with the name " + "youthere" + " and the colours " + "[Brown, White]"
  {
    stray := new Cat.Default();
    mongrel := new Cat.Copy(stray);
    mongrel.name := "Manny";
    mongrel.colours.Add("White");
    ListTextAppend(["Brown"], "White");
    assert ["Brown"] + ["White"] == ["Brown", "White"];
  }
}
