/** A cinema ticket: a film and a show time, fixed at construction. The Java
    and C++ versions are the same class. */
module Tickets {
  import opened Wrappers

  class Ticket {
    const movieName: string
    const showTime: string

    constructor (theName: string, theTime: string)
      ensures movieName == theName && showTime == theTime
    {
      movieName := theName;
      showTime := theTime;
    }

    /** Ticket(): both fields "not specified" (the film's text ends in a
        space, the time's does not). */
    constructor Default()
      ensures movieName == "-- not specified -- " && showTime == "-- not specified --"
    {
      movieName := "-- not specified -- ";
      showTime := "-- not specified --";
    }

    /** toString: the film and the time in fixed words. */
    function ToString(): (text: string)
      ensures text == TicketText(movieName, showTime)
    {
      TicketText(movieName, showTime)
    }
  }

  /** The text of a ticket for a film at a time: "Ticket for ", the film,
      " at ", the time. */
  function TicketText(movieName: string, showTime: string): (text: string)
    ensures |text| == 15 + |movieName| + |showTime|
    ensures text[..11] == "Ticket for " && text[11..11 + |movieName|] == movieName
    ensures text[11 + |movieName|..15 + |movieName|] == " at "
    ensures text[15 + |movieName|..] == showTime
  {
    "Ticket for " + movieName + " at " + showTime
  }

  /** Read back with the length of the film known, the text gives the
      film and the time. */
  lemma TicketTextReadsBack(movieName: string, showTime: string, movieName2: string, showTime2: string)
    requires |movieName| == |movieName2|
    ensures TicketText(movieName, showTime) == TicketText(movieName2, showTime2) <==>
              movieName == movieName2 && showTime == showTime2
  {
  }

  /** Without that length the text is ambiguous: a film whose title holds
      " at " prints like a shorter film at a longer time. */
  lemma TicketTextAmbiguous()
    ensures TicketText("Up at Dawn", "9:00") == TicketText("Up", "Dawn at 9:00")
  {
  }

  /** describeTicket: the text of ticket i when i is an index of the
      collection; nothing at all (and no error) otherwise. */
  function Describe(tickets: seq<Ticket>, i: int): (line: Option<string>)
    ensures line.Some? <==> 0 <= i < |tickets|
    ensures line.Some? ==> line.value == tickets[i].ToString()
  {
    if 0 <= i && |tickets| > i then Some(tickets[i].ToString()) else None
  }

  /** Describing ticket i looks only at ticket i: appending more tickets
      changes nothing for an index that already existed, and an index that
      did not exist before now describes the first appended ticket. */
  lemma DescribeAfterAppend(tickets: seq<Ticket>, more: seq<Ticket>, i: int)
    ensures 0 <= i < |tickets| ==> Describe(tickets + more, i) == Describe(tickets, i)
    ensures i == |tickets| && |more| > 0 ==> Describe(tickets + more, i) == Some(more[0].ToString())
  {
  }
}
