/** The C++ customer keeps a vector of ticket pointers. getTickets returns the
    vector by value: a new sequence of the same pointers, so the tickets are
    shared but the collection is not. */
module CustomersCpp {
  import opened Wrappers
  import opened Tickets

  class Customer {
    var myTickets: seq<Ticket>

    constructor ()
      ensures myTickets == []
    {
      myTickets := [];
    }

    /** push_back: append the pointer at the end. */
    method AddTicket(theTicket: Ticket)
      modifies this
      ensures myTickets == old(myTickets) + [theTicket]
    {
      myTickets := myTickets + [theTicket];
    }

    function CountTickets(): (n: nat)
      reads this
      ensures n == |myTickets|
    {
      |myTickets|
    }

    /** A copy of the vector: the same tickets, in the same order. */
    function GetTickets(): (copy: seq<Ticket>)
      reads this
      ensures |copy| == |myTickets|
      ensures forall i :: 0 <= i < |copy| ==> copy[i] == myTickets[i]
    {
      myTickets
    }

    function DescribeTicket(theTicketNumber: int): (line: Option<string>)
      reads this
      ensures line == Describe(myTickets, theTicketNumber)
    {
      if 0 <= theTicketNumber && |myTickets| > theTicketNumber
      then Some(myTickets[theTicketNumber].ToString())
      else None
    }
  }

  /** Growing the vector getTickets returned leaves the customer as it was. */
  method GrowCopy(c: Customer, t: Ticket) returns (copy: seq<Ticket>)
    ensures |copy| == c.CountTickets() + 1
    ensures copy[..c.CountTickets()] == c.myTickets
    ensures copy[c.CountTickets()] == t
  {
    copy := c.GetTickets();
    copy := copy + [t];
  }
}
