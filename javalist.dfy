/** The part of java.util.ArrayList the lectures use: a growable list held by
    reference, so that two variables can name the same list. */
module JavaLists {

  class ArrayList<T> {
    var elems: seq<T>

    /** new ArrayList<>(): an empty list. */
    constructor ()
      ensures elems == []
    {
      elems := [];
    }

    /** add(x): append at the end. */
    method Add(x: T)
      modifies this
      ensures elems == old(elems) + [x]
    {
      elems := elems + [x];
    }

    function Size(): (n: nat)
      reads this
      ensures n == |elems|
    {
      |elems|
    }

    function Get(i: int): (x: T)
      reads this
      requires 0 <= i < |elems|
      ensures x == elems[i]
    {
      elems[i]
    }
  }

  /** The elements separated by ", "; empty only for no elements or a single
      empty one. */
  function Joined(xs: seq<string>): (s: string)
    ensures |s| == 0 <==> |xs| == 0 || (|xs| == 1 && xs[0] == "")
  {
    if |xs| == 0 then ""
    else if |xs| == 1 then xs[0]
    else xs[0] + ", " + Joined(xs[1..])
  }

  /** AbstractCollection.toString on a list of strings: "[a, b, c]". */
  function ListText(xs: seq<string>): (text: string)
    ensures |text| >= 2 && text[0] == '[' && text[|text| - 1] == ']'
    ensures text == "[]" <==> xs == [] || xs == [""]
  {
    "[" + Joined(xs) + "]"
  }

  /** Appending to a list adds ", " and the new element at the end of the
      joined text. */
  lemma {:induction false} JoinedAppend(xs: seq<string>, x: string)
    requires |xs| > 0
    ensures Joined(xs + [x]) == Joined(xs) + ", " + x
  {
    if |xs| > 1 {
      JoinedAppend(xs[1..], x);
      assert (xs + [x])[1..] == xs[1..] + [x];
    }
  }

  /** The list text of a list grown by one: the old text with ", " and the
      new element before the closing bracket. */
  lemma ListTextAppend(xs: seq<string>, x: string)
    requires |xs| > 0
    ensures ListText(xs + [x]) == "[" + (Joined(xs) + ", " + x) + "]"
  {
    JoinedAppend(xs, x);
  }
}
