/** The Java customer keeps its tickets in an ArrayList and hands out that
    very list from getTickets, so a caller can change the customer's tickets
    through it. */
module CustomersJava {
  import opened Wrappers
  import opened Tickets
  import opened JavaLists
  import opened Decimal

  class Customer {
    const myTickets: ArrayList<Ticket>

    /** A new customer has no tickets. */
    constructor ()
      ensures fresh(myTickets) && myTickets.elems == []
    {
      myTickets := new ArrayList<Ticket>();
    }

    /** Append a ticket; the earlier tickets stay where they were. */
    method AddTicket(theTicket: Ticket)
      modifies myTickets
      ensures myTickets.elems == old(myTickets.elems) + [theTicket]
    {
      myTickets.Add(theTicket);
    }

    function CountTickets(): (n: nat)
      reads myTickets
      ensures n == |myTickets.elems|
    {
      myTickets.Size()
    }

    /** The customer's own list, not a copy. */
    function GetTickets(): (l: ArrayList<Ticket>)
      ensures l == myTickets
    {
      myTickets
    }

    /** The line describeTicket prints, if any; the list is only read. */
    function DescribeTicket(ticketNumber: int): (line: Option<string>)
      reads myTickets
      ensures line == Describe(myTickets.elems, ticketNumber)
    {
      if 0 <= ticketNumber && myTickets.Size() > ticketNumber
      then Some(myTickets.Get(ticketNumber).ToString())
      else None
    }
  }

  /** Adding a ticket through the list getTickets handed out adds it to the
      customer. */
  method AddThroughAlias(c: Customer, t: Ticket)
    modifies c.myTickets
    ensures c.CountTickets() == old(c.CountTickets()) + 1
    ensures c.DescribeTicket(old(c.CountTickets())) == Some(t.ToString())
  {
    var l := c.GetTickets();
    l.Add(t);
    DescribeAfterAppend(old(c.myTickets.elems), [t], old(|c.myTickets.elems|));
  }

  /** Start.main: two tickets are added, the count 2 is printed, then tickets
      0 and 1 are described and ticket 3 prints nothing. */
  method Start() returns (printed: seq<string>)
    ensures printed == ["2", TicketText("Spartacus", "19:00 tonight"),
                        TicketText("Ben Hur", "15:00 this afternoon")]
  {
    var c := new Customer();
    var t := new Ticket("Spartacus", "19:00 tonight");
    c.AddTicket(t);
    var t2 := new Ticket("Ben Hur", "15:00 this afternoon");
    c.AddTicket(t2);
    assert c.myTickets.elems == [t, t2];
    var count := c.CountTickets();
    assert IntToString(count) == "2";
    var first := c.DescribeTicket(0);
    var second := c.DescribeTicket(1);
    var third := c.DescribeTicket(3);
    printed := [IntToString(count)] + Output(first) + Output(second) + Output(third);
  }

  /** What println shows for an optional line: the line, or nothing. */
  function Output(line: Option<string>): (shown: seq<string>)
    ensures |shown| <= 1
  {
    match line
    case Some(text) => [text]
    case None => []
  }
}
