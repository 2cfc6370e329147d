/** A document is a list of lines, changed in place by inserting a line at a
    position and removing the line at a position. An exception thrown by a
    Java method becomes an explicit failure value. */
module Documents {
  import opened Wrappers
  import opened Decimal

  /** The IndexOutOfBoundsExceptions a call can end in: the document's own,
      and the ones the underlying list throws from add and remove, which
      carry the index asked for and the size of the list. */
  datatype Failure =
    | OutsideDocument
    | AddOutsideList(index: int, size: nat)
    | RemoveOutsideList(index: int, size: nat)

  /** The outcome of a call that may throw. */
  datatype Result<T> = Ok(value: T) | Failed(failure: Failure)

  /** getMessage: the document's own text, or the list's text naming the
      index and the size (ArrayList.add's range check, and the index check of
      ArrayList.remove). */
  function Message(f: Failure): (m: string)
    ensures |m| > 6 && (m[0] == 'I' <==> !f.OutsideDocument?)
    ensures !f.OutsideDocument? ==> m[..5] == "Index"
    ensures f.OutsideDocument? ==> m == "Trying to remove a line outside Document bounds"
  {
    match f
    case OutsideDocument => "Trying to remove a line " + "outside Document bounds"
    case AddOutsideList(index, size) =>
      "Index: " + IntToString(index) + ", Size: " + IntToString(size)
    case RemoveOutsideList(index, size) =>
      "Index " + IntToString(index) + " out of bounds for length " + IntToString(size)
  }

  /** The list's message for a failed add, as a word, then a rest that
      starts with the comma. */
  lemma AddMessageParts(index: int, size: nat)
    ensures Message(AddOutsideList(index, size))
              == "Index: " + (IntToString(index) + (", Size: " + IntToString(size)))
  {
  }

  /** The list's message for a failed remove, grouped the same way. */
  lemma RemoveMessageParts(index: int, size: nat)
    ensures Message(RemoveOutsideList(index, size))
              == "Index " + (IntToString(index) + (" out of bounds for length " + IntToString(size)))
  {
  }

  /** The list's message for a failed add names its index and size. */
  lemma AddMessageInjective(i: int, n: nat, j: int, k: nat)
    requires Message(AddOutsideList(i, n)) == Message(AddOutsideList(j, k))
    ensures i == j && n == k
  {
    var sep := ", Size: ";
    AddMessageParts(i, n);
    AddMessageParts(j, k);
    DropPrefix("Index: ", IntToString(i) + (sep + IntToString(n)),
               IntToString(j) + (sep + IntToString(k)));
    IntToStringLacks(i, ',');
    IntToStringLacks(j, ',');
    SplitAt(',', IntToString(i), sep + IntToString(n), IntToString(j), sep + IntToString(k));
    DropPrefix(sep, IntToString(n), IntToString(k));
    IntToStringInjective(i, j);
    IntToStringInjective(n, k);
  }

  /** The list's message for a failed remove names its index and size. */
  lemma RemoveMessageInjective(i: int, n: nat, j: int, k: nat)
    requires Message(RemoveOutsideList(i, n)) == Message(RemoveOutsideList(j, k))
    ensures i == j && n == k
  {
    var sep := " out of bounds for length ";
    RemoveMessageParts(i, n);
    RemoveMessageParts(j, k);
    DropPrefix("Index ", IntToString(i) + (sep + IntToString(n)),
               IntToString(j) + (sep + IntToString(k)));
    IntToStringLacks(i, ' ');
    IntToStringLacks(j, ' ');
    SplitAt(' ', IntToString(i), sep + IntToString(n), IntToString(j), sep + IntToString(k));
    DropPrefix(sep, IntToString(n), IntToString(k));
    IntToStringInjective(i, j);
    IntToStringInjective(n, k);
  }

  /** The printed message tells the failure: which exception, and for the
      list's, the call, the index and the size. */
  lemma MessageShowsFailure(f: Failure, g: Failure)
    ensures Message(f) == Message(g) <==> f == g
  {
    if Message(f) == Message(g) && !f.OutsideDocument? && !g.OutsideDocument? {
      var m := Message(f);
      assert m[5] == (if f.AddOutsideList? then ':' else ' ');
      assert m[5] == (if g.AddOutsideList? then ':' else ' ');
      if f.AddOutsideList? {
        AddMessageInjective(f.index, f.size, g.index, g.size);
      } else {
        RemoveMessageInjective(f.index, f.size, g.index, g.size);
      }
    }
  }

  /** ArrayList.add(position, text): text lands at index position and the
      lines from there on move one place right. */
  function Inserted(lines: seq<string>, position: nat, text: string): (r: seq<string>)
    requires position <= |lines|
    ensures |r| == |lines| + 1
    ensures r[position] == text
    ensures forall i :: 0 <= i < position ==> r[i] == lines[i]
    ensures forall i :: position < i < |r| ==> r[i] == lines[i - 1]
  {
    lines[..position] + [text] + lines[position..]
  }

  /** ArrayList.remove(position): the line at position disappears and the
      lines after it move one place left. */
  function Removed(lines: seq<string>, position: nat): (r: seq<string>)
    requires position < |lines|
    ensures |r| == |lines| - 1
    ensures forall i :: 0 <= i < position ==> r[i] == lines[i]
    ensures forall i :: position <= i < |r| ==> r[i] == lines[i + 1]
  {
    lines[..position] + lines[position + 1..]
  }

  /** Removing a line just inserted gives back the original lines. */
  lemma RemoveUndoesInsert(lines: seq<string>, position: nat, text: string)
    requires position <= |lines|
    ensures Removed(Inserted(lines, position, text), position) == lines
  {
    var r := Removed(Inserted(lines, position, text), position);
    assert forall i :: 0 <= i < |lines| ==> r[i] == lines[i];
  }

  /** Putting a removed line back where it was gives back the original lines. */
  lemma InsertUndoesRemove(lines: seq<string>, position: nat)
    requires position < |lines|
    ensures Inserted(Removed(lines, position), position, lines[position]) == lines
  {
    var r := Inserted(Removed(lines, position), position, lines[position]);
    assert forall i :: 0 <= i < |lines| ==> r[i] == lines[i];
  }

  /** Removal keeps the other lines in their order: the result is a
      subsequence of the lines, with line position taken out. */
  lemma RemovedKeepsOthers(lines: seq<string>, position: nat)
    requires position < |lines|
    ensures multiset(Removed(lines, position)) + multiset{lines[position]} == multiset(lines)
  {
    assert lines == lines[..position] + [lines[position]] + lines[position + 1..];
  }

  class Document {
    var contents: seq<string>

    /** A new document has no lines. */
    constructor ()
      ensures contents == []
    {
      contents := [];
    }

    /** Insert text as line position. The guard of the source always lets
        the line through, so the answer is true whenever the insertion
        succeeds; a position outside 0..size makes the list throw. */
    method AddLine(position: int, text: string) returns (added: Result<bool>)
      modifies this
      ensures 0 <= position <= |old(contents)| ==>
                added == Ok(true) && contents == Inserted(old(contents), position, text)
      ensures !(0 <= position <= |old(contents)|) ==>
                added == Failed(AddOutsideList(position, |old(contents)|))
                && contents == old(contents)
    {
      if 0 <= position <= |contents| {
        contents := Inserted(contents, position, text);
        added := Ok(true);
      } else {
        added := Failed(AddOutsideList(position, |contents|));
      }
    }

    /** Remove line position. A position beyond the size fails with the
        document's own exception; the guard lets position == size (and a
        negative position) through to the list, which throws in its turn.
        A failure leaves the document as it was. */
    method RemoveLine(position: int) returns (failure: Option<Failure>)
      modifies this
      ensures position > |old(contents)| ==>
                failure == Some(OutsideDocument) && contents == old(contents)
      ensures (position < 0 || position == |old(contents)|) ==>
                failure == Some(RemoveOutsideList(position, |old(contents)|))
                && contents == old(contents)
      ensures 0 <= position < |old(contents)| ==>
                failure == None && contents == Removed(old(contents), position)
    {
      if position > |contents| {
        failure := Some(OutsideDocument);
      } else if 0 <= position < |contents| {
        contents := Removed(contents, position);
        failure := None;
      } else {
        failure := Some(RemoveOutsideList(position, |contents|));
      }
    }
  }

  /** Document.main: one line is added; removing line 99 prints the
      document's message and then the finally text; removing line 1 (the
      size) throws from the list, so only the second finally text is
      printed. The document keeps its one line. */
  method DocumentMain() returns (d: Document, printed: seq<string>)
    ensures fresh(d) && d.contents == ["Hello World"]
    ensures printed == ["Trying to remove a line outside Document bounds",
                        "Tried to remove a line", "But this one will"]
  {
    d := new Document();
    var _ := d.AddLine(0, "Hello World");
    printed := [];
    var failure := d.RemoveLine(99);
    printed := printed + Shown(failure) + ["Tried to remove a line"];
    failure := d.RemoveLine(1);
    if failure.None? {
      printed := printed + ["This line will not be executed"];
    }
    printed := printed + ["But this one will"];
  }

  /** What the catch blocks of the first call print: the message of
      whatever IndexOutOfBoundsException was thrown, one line, and nothing
      when the call returns normally. */
  function Shown(failure: Option<Failure>): (lines: seq<string>)
    ensures |lines| <= 1
    ensures |lines| == 1 <==> failure.Some?
    ensures failure.Some? ==> lines[0] == Message(failure.value)
  {
    match failure
    case Some(f) => [Message(f)]
    case None => []
  }
}
