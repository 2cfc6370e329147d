# Object-oriented teaching snippets, modelled in Dafny

This project models the small programs that carry real logic in a course on
object-oriented programming in Java and C++:

- the `TimeUnit` counter and the `Clock` built from three of them (Java and C++);
- the strategy-pattern `Player`, which picks a fighting behaviour;
- the `Document`, which inserts and removes lines and throws on a bad index;
- the `Customer` ticket collections (Java and C++) and the `Ticket` they hold;
- the `FluxCapacitor`, which computes the power a trip through time needs;
- the `Rat`, which has value equality, assignment and a breeding operator;
- the C++ `Cat`, which deep-copies an array of colours ended by an empty string;
- the Java `Cat`, whose copy constructor shares the colours list.

Each source file becomes one module:

| module | file | source |
|---|---|---|
| `TimeUnits` | timeunit.dfy | TimeUnit.java, timeunit.cc/.hh |
| `Clocks` | clock.dfy | Clock.java, clock.cc |
| `Strategy` | player.dfy | Player.java and the three behaviour classes |
| `Documents` | document.dfy | Document.java |
| `Tickets` | tickets.dfy | Ticket.java, ticket.hh |
| `CustomersJava` | customer_java.dfy | Customer.java, Start.java |
| `CustomersCpp` | customer_cpp.dfy | customer.cc/.hh |
| `Flux` | flux.dfy | FluxCapacitor.java |
| `Rats` | rat.dfy | rat.cc, testrat.hh |
| `CatsCpp` | cat_cpp.dfy | cat.cc, testcat.hh |
| `CatsJava` | cat_java.dfy | Cat.java |

Three support modules sit beside them:

- `Decimal` holds the decimal text of integers, as string concatenation and
  `std::to_string` produce it, together with its parser.
- `JavaLists` holds the part of `ArrayList` the lectures use, as a class. Two
  variables can therefore name the same list.
- `Wrappers` holds `Option`.

Objects whose fields the source updates are classes with `modifies` clauses.
Their behaviour is specified by functions on values (`Tick`, `Step`,
`ChosenIndex`, `Inserted`, `Removed`, `RequiredPower`, `Listing`, …), and the
lemmas are about those functions.

Printing becomes a returned string or list of lines. The lines `fight`
prints inside its loop are records of the two numbers and the description,
and `LineText` turns one into its text. A thrown exception
becomes a failure value. Each `main` or test driver becomes a method whose
postcondition states what it prints or what state it leaves.

The Java and C++ versions of `TimeUnit` share the constructors and `update`.
Their `getDisplayValue` methods differ. Java uses the `%02d` format, and C++
puts `"0"` before a single digit. `DisplayFormsAgree` proves that the two
give the same text. The two `Clock`s update and display alike. Java creates
the three units in field initialisers, and C++ allocates them with `new` in
its constructor.

## Model

| member | source | states |
|---|---|---|
| `Decimal.NatToStringRoundTrip` | Lectures/02-Programming-Fundamentals/FluxCapacitor.java:22 | the decimal text of a number reads back as that number |
| `Decimal.IntToStringRoundTrip` | Lectures/02-Programming-Fundamentals/FluxCapacitor.java:22 | the text of a possibly negative int, sign first, parses back to the int |
| `Decimal.IntToStringInjective` | Lectures/02-Programming-Fundamentals/FluxCapacitor.java:22 | different ints are written as different texts |
| `Decimal.IntToStringLacks` | Lectures/02-Programming-Fundamentals/FluxCapacitor.java:22 | the text of an int holds only a sign and digits, so the blanks of `toString` (and the commas of a list's message) separate the numbers |
| `Decimal.NatToStringShape` | Lectures/03-Interacting-Objects/timeunit.cc:15-21 | `to_string` gives no leading zero except for 0, and at most two characters exactly below 100 |
| `TimeUnits.Tick` | Lectures/03-Interacting-Objects/TimeUnit.java:17-18 | the new value stays in 0..limit-1; it is 0 exactly when the old value was limit-1, and old+1 otherwise |
| `TimeUnits.ValueAfterIsModulo` | Lectures/03-Interacting-Objects/TimeUnit.java:13-17 | after n updates from a fresh unit the value is n mod limit |
| `TimeUnits.ZeroPaddedReadsBack` | Lectures/03-Interacting-Objects/TimeUnit.java:21-22 | the `%02d` text holds only digits and reads back as the value |
| `TimeUnits.TwoDigits` | Lectures/03-Interacting-Objects/TimeUnit.java:22 | below 100 the display is exactly the tens digit then the units digit ("05", "42") |
| `TimeUnits.ZeroPadded` | Lectures/03-Interacting-Objects/TimeUnit.java:22 | the `%0<width>d` text has the given width, or more when the number has more digits |
| `TimeUnits.TwoDigitDisplay` | Lectures/03-Interacting-Objects/timeunit.cc:15-21 | the C++ text is digits only, reads back as the value, and has two characters exactly below 100 |
| `TimeUnits.DisplayFormsAgree` | Lectures/03-Interacting-Objects/timeunit.cc:15-21 | the C++ form ("0" before a single digit) equals the Java `%02d` form for every value |
| `TimeUnits.TimeUnit.constructor` | Lectures/03-Interacting-Objects/TimeUnit.java:10-14 | stores limit and label, value starts at 0; the C++ constructor at timeunit.cc:6-8 does the same |
| `TimeUnits.TimeUnit.WithLimit` | Lectures/03-Interacting-Objects/TimeUnit.java:8 | the one-argument form uses label "" |
| `TimeUnits.TimeUnit.Default` | Lectures/03-Interacting-Objects/timeunit.hh:7-8 | the default unit has limit 60 and label "" |
| `TimeUnits.TimeUnit.Update` | Lectures/03-Interacting-Objects/TimeUnit.java:16-19 | only the value changes, to (old+1) mod limit; the answer is true iff the new value is 0, iff the old was limit-1; 0 <= value < limit is kept; the C++ code at timeunit.cc:10-13 is the same |
| `TimeUnits.TimeUnit.GetDisplayValue` | Lectures/03-Interacting-Objects/TimeUnit.java:21-22 | digits only, reading back as the value; two characters for limits up to 100; leading '0' below 10; reads the unit without changing it |
| `TimeUnits.TimeUnit.CppDisplayValue` | Lectures/03-Interacting-Objects/timeunit.cc:15-21 | the C++ `getDisplayValue` gives the same text as the Java one |
| `Clocks.Step` | Lectures/03-Interacting-Objects/Clock.java:9-15 | one update keeps every unit in its range; its carries are stated by `StepCarries` and `StepIsOneSecond` |
| `Clocks.StepCarries` | Lectures/03-Interacting-Objects/Clock.java:9-15 | seconds change on every update; minutes change iff seconds were 59; hours change iff both were 59; an hours wrap lands on 00:00.00 |
| `Clocks.StepIsOneSecond` | Lectures/03-Interacting-Objects/Clock.java:9-15 | an update moves the reading one second forward, modulo a day |
| `Clocks.TimeAfterIsSecondOfDay` | Lectures/03-Interacting-Objects/Clock.java:9-15 | after n updates the reading is the (n mod 86400)-th second of the day |
| `Clocks.TimeAfterClosedForm` | Lectures/03-Interacting-Objects/Clock.java:9-15 | after n updates: hours (n div 3600) mod 24, minutes (n div 60) mod 60, seconds n mod 60 |
| `Clocks.TimeAfterPeriodic` | Lectures/03-Interacting-Objects/clock.cc:17-23 | 86400 updates bring the clock back to the same reading |
| `Clocks.ShowReadsBack` | Lectures/03-Interacting-Objects/Clock.java:17-25 | the displayed line has the HH:MM.SS shape and its three numbers read back as the reading |
| `Clocks.Show` | Lectures/03-Interacting-Objects/Clock.java:17-25 | the line has at least eight characters; `ShowReadsBack` pins its exact HH:MM.SS shape |
| `Clocks.ShowAfterTen` | Lectures/03-Interacting-Objects/clock.cc:34-36 | ten updates (plus any whole days) display "00:00.10" |
| `Clocks.ShowAfter59` | Lectures/03-Interacting-Objects/Clock.java:9-15 | 59 updates display "00:00.59" |
| `Clocks.ShowAfter60` | Lectures/03-Interacting-Objects/Clock.java:10-11 | the 60th update carries into the minutes: "00:01.00" |
| `Clocks.ShowAfter3600` | Lectures/03-Interacting-Objects/Clock.java:11-13 | the 3600th update carries into the hours: "01:00.00" |
| `Clocks.ShowAfterWholeDays` | Lectures/03-Interacting-Objects/clock.cc:12-20 | a whole number of days of updates displays "00:00.00" again |
| `Clocks.Clock.constructor` | Lectures/03-Interacting-Objects/Clock.java:2-4 | three fresh, distinct units with limits 24/60/60, all at 0; the C++ constructor at clock.cc:11-15 allocates the same three units with `new` |
| `Clocks.Clock.Update` | Lectures/03-Interacting-Objects/Clock.java:9-15 | the new reading is one `Step` of the old; only the three values change; the C++ code at clock.cc:17-23 is the same |
| `Clocks.Clock.Display` | Lectures/03-Interacting-Objects/Clock.java:17-25 | the line is the three displays joined by ":" and "."; it reads back as the reading and changes nothing; the C++ code at clock.cc:25-29 is the same |
| `Clocks.Drive` | Lectures/03-Interacting-Objects/Clock.java:27-40 | the driver's i-th line shows the reading after i updates; the last is "00:00.10"; the C++ code at clock.cc:31-40 is the same |
| `Strategy.IsActive` | Lectures/07-Design-Patterns-Strategy/Behaviour.java:2 | every behaviour is active |
| `Strategy.PredictEffect` | Lectures/07-Design-Patterns-Strategy/SwordsmanFightBehaviour.java:3 | predicted damage is never negative and is 0 only for running away |
| `Strategy.PredictSelfHealth` | Lectures/07-Design-Patterns-Strategy/WizardFightBehaviour.java:4 | predicted own-health change is never positive and is 0 only for running away |
| `Strategy.ExecuteBehaviour` | Lectures/07-Design-Patterns-Strategy/BravelyRunAwayBehaviour.java:4-5 | carrying a behaviour out changes health by exactly its prediction |
| `Strategy.RespondToBehaviour` | Lectures/07-Design-Patterns-Strategy/SwordsmanFightBehaviour.java:6 | only the swordsman answers with a non-zero value |
| `Strategy.Description` | Lectures/07-Design-Patterns-Strategy/WizardFightBehaviour.java:7 | each description is non-empty and its first letter tells the behaviour (the texts of the three classes' `getDescription`) |
| `Strategy.BehaviourNamed` | Lectures/07-Design-Patterns-Strategy/Player.java:9-14 | a behaviour is found iff the name is "WizardFight", "SwordsmanFight" or "Flight", and it is the one with that name |
| `Strategy.NamesRoundTrip` | Lectures/07-Design-Patterns-Strategy/Player.java:9-14 | every behaviour is added under its own name and no other |
| `Strategy.Beats` | Lectures/07-Design-Patterns-Strategy/Player.java:29-30 | a behaviour beats the first iff it predicts more damage and loses at most 100 more health; the player's health cancels out |
| `Strategy.ChosenIndex` | Lectures/07-Design-Patterns-Strategy/Player.java:18-33 | the choice is the last behaviour that beats the first (more damage, at most 100 more health lost), or the first if none does |
| `Strategy.FirstNeverBeatsItself` | Lectures/07-Design-Patterns-Strategy/Player.java:29-30 | the first behaviour never replaces itself |
| `Strategy.ChoiceIgnoresHealth` | Lectures/07-Design-Patterns-Strategy/Player.java:19-23 | the choice does not depend on the player's health |
| `Strategy.LastBeaterWins` | Lectures/07-Design-Patterns-Strategy/Player.java:29-32 | with run-away, swordsman, wizard the wizard is chosen although the swordsman predicts more damage: the comparison is always with the first |
| `Strategy.LineText` | Lectures/07-Design-Patterns-Strategy/Player.java:26-27 | a printed loop line ends with its description, after the two numbers |
| `Strategy.TraceLines` | Lectures/07-Design-Patterns-Strategy/Player.java:26-27 | two lines for each behaviour looked at: the choice so far with the first's predictions, then the behaviour's own; their healths differ by the difference of the two predictions |
| `Strategy.Trace` | Lectures/07-Design-Patterns-Strategy/Player.java:22-28 | the loop over k behaviours prints 2k lines |
| `Strategy.TraceSlice` | Lectures/07-Design-Patterns-Strategy/Player.java:22-28 | lines 2j and 2j+1 of the trace are the pair for behaviour j, with the choice made before it |
| `Strategy.Choose` | Lectures/07-Design-Patterns-Strategy/Player.java:18-33 | the loop returns the behaviour `ChosenIndex` names, and the trace lines it prints |
| `Strategy.Player.constructor` | Lectures/07-Design-Patterns-Strategy/Player.java:3-6 | health 1000, no behaviours |
| `Strategy.Player.AddBehaviour` | Lectures/07-Design-Patterns-Strategy/Player.java:8-15 | appends exactly the named behaviour; an unknown name changes nothing |
| `Strategy.Player.Fight` | Lectures/07-Design-Patterns-Strategy/Player.java:17-38 | the list is unchanged; health grows by the chosen behaviour's effect; the printed lines are returned |
| `Strategy.WizardSwordsmanFlight` | Lectures/07-Design-Patterns-Strategy/Player.java:29-35 | wizard, swordsman, flight in that order: the swordsman is chosen and health ends at 990 |
| `Documents.Inserted` | Lectures/11-Exceptions-File-IO/Document.java:10 | insertion puts the text at the position, keeps the lines before it and shifts the rest right |
| `Documents.Removed` | Lectures/11-Exceptions-File-IO/Document.java:26 | removal keeps the lines before the position and shifts the rest left |
| `Documents.RemoveUndoesInsert` | Lectures/11-Exceptions-File-IO/Document.java:10-26 | removing a line just inserted restores the document |
| `Documents.InsertUndoesRemove` | Lectures/11-Exceptions-File-IO/Document.java:10-26 | inserting a removed line where it was restores the document |
| `Documents.RemovedKeepsOthers` | Lectures/11-Exceptions-File-IO/Document.java:26 | removal takes out exactly one copy of the removed line |
| `Documents.Document.constructor` | Lectures/11-Exceptions-File-IO/Document.java:3-4 | a new document has no lines |
| `Documents.Document.AddLine` | Lectures/11-Exceptions-File-IO/Document.java:8-15 | for 0 <= p <= size the line is inserted and the answer is true; otherwise the list throws, naming p and the size, and nothing changes |
| `Documents.Document.RemoveLine` | Lectures/11-Exceptions-File-IO/Document.java:22-28 | p > size fails with the document's message; p == size or p < 0 passes the guard and fails in the list, naming p and the size; otherwise line p is removed; failures change nothing |
| `Documents.DocumentMain` | Lectures/11-Exceptions-File-IO/Document.java:30-55 | prints the document's message, "Tried to remove a line", "But this one will", and the document keeps its one line |
| `Documents.Message` | Lectures/11-Exceptions-File-IO/Document.java:24 | the document's own exception carries its fixed text; the list's start with "Index" instead |
| `Documents.MessageShowsFailure` | Lectures/11-Exceptions-File-IO/Document.java:35-41 | two failures print the same message exactly when they are the same failure: which exception, and for the list's the call, the index and the size |
| `Documents.Shown` | Lectures/11-Exceptions-File-IO/Document.java:35-41 | the catch blocks print one line exactly when an exception was thrown, and it is that exception's message |
| `Tickets.Describe` | Lectures/05-Collections-of-Objects/Customer.java:22-28 | a line is produced iff 0 <= i < count, and it is ticket i's text |
| `Tickets.DescribeAfterAppend` | Lectures/05-Collections-of-Objects/Customer.java:10-28 | appending tickets leaves existing indices described as before |
| `Tickets.Ticket.constructor` | Lectures/05-Collections-of-Objects/Ticket.java:9-12 | stores film and time |
| `Tickets.Ticket.Default` | Lectures/05-Collections-of-Objects/ticket.hh:8 | both fields "not specified" |
| `Tickets.Ticket.ToString` | Lectures/05-Collections-of-Objects/Ticket.java:14-16 | the ticket's text is `TicketText` of its film and time |
| `Tickets.TicketText` | Lectures/05-Collections-of-Objects/ticket.hh:10-12 | "Ticket for ", then the film, then " at ", then the time, and nothing else |
| `Tickets.TicketTextReadsBack` | Lectures/05-Collections-of-Objects/ticket.hh:10-12 | for films of equal length, equal texts mean equal film and time, and back |
| `Tickets.TicketTextAmbiguous` | Lectures/05-Collections-of-Objects/Ticket.java:14-16 | a film whose title holds " at " prints like a different ticket |
| `CustomersJava.Customer.constructor` | Lectures/05-Collections-of-Objects/Customer.java:6-8 | a new customer has a fresh, empty list |
| `CustomersJava.Customer.AddTicket` | Lectures/05-Collections-of-Objects/Customer.java:10-12 | appends at the end; earlier tickets unchanged |
| `CustomersJava.Customer.CountTickets` | Lectures/05-Collections-of-Objects/Customer.java:14-16 | the count is the list length |
| `CustomersJava.Customer.GetTickets` | Lectures/05-Collections-of-Objects/Customer.java:18-20 | the customer's own list object is returned |
| `CustomersJava.Customer.DescribeTicket` | Lectures/05-Collections-of-Objects/Customer.java:22-28 | the line is `Describe` of the tickets; the list is only read |
| `CustomersJava.AddThroughAlias` | Lectures/05-Collections-of-Objects/Customer.java:18-20 | adding through the returned list adds a ticket to the customer |
| `CustomersJava.Start` | Lectures/05-Collections-of-Objects/Start.java:2-13 | prints "2" and the two ticket texts; describing ticket 3 prints nothing |
| `CustomersCpp.Customer.constructor` | Lectures/05-Collections-of-Objects/customer.hh:8 | a new customer has no tickets |
| `CustomersCpp.Customer.AddTicket` | Lectures/05-Collections-of-Objects/customer.cc:7-9 | push_back appends the pointer |
| `CustomersCpp.Customer.CountTickets` | Lectures/05-Collections-of-Objects/customer.cc:11-13 | the count is the vector size |
| `CustomersCpp.Customer.GetTickets` | Lectures/05-Collections-of-Objects/customer.cc:15-17 | a copy holding the same ticket pointers in order |
| `CustomersCpp.Customer.DescribeTicket` | Lectures/05-Collections-of-Objects/customer.cc:19-23 | the line is `Describe` of the tickets; the vector is only read |
| `CustomersCpp.GrowCopy` | Lectures/05-Collections-of-Objects/customer.hh:11 | growing the returned copy leaves the customer's tickets as they were, and the new ticket sits after them |
| `Flux.RequiredPower` | Lectures/02-Programming-Fundamentals/FluxCapacitor.java:15-16 | power is never negative, is a multiple of 2, and is 0 iff the years are equal |
| `Flux.PowerSymmetric` | Lectures/02-Programming-Fundamentals/FluxCapacitor.java:15-16 | a trip and its return need the same power |
| `Flux.PowerDeterminesDistance` | Lectures/02-Programming-Fundamentals/FluxCapacitor.java:15-16 | the destination lies power/2 years before or after the start |
| `Flux.PowerTriangle` | Lectures/02-Programming-Fundamentals/FluxCapacitor.java:15-16 | a stopover never needs less power than the direct trip |
| `Flux.FluxCapacitor.constructor` | Lectures/02-Programming-Fundamentals/FluxCapacitor.java:7-10 | start stored, destination 2015, power for that trip |
| `Flux.FluxCapacitor.SetDestinationYear` | Lectures/02-Programming-Fundamentals/FluxCapacitor.java:12-19 | destination is the argument (the reassignment at line 18 has no effect), power is recomputed, the start year is untouched |
| `Flux.FluxCapacitor.ToString` | Lectures/02-Programming-Fundamentals/FluxCapacitor.java:21-23 | the text is `FluxText` of the three fields, which `FluxTextInjective` shows determines all three |
| `Flux.FluxTextInjective` | Lectures/02-Programming-Fundamentals/FluxCapacitor.java:22 | texts that are equal come from the same start year, destination year and power |
| `Flux.ToStringShowsState` | Lectures/02-Programming-Fundamentals/FluxCapacitor.java:21-23 | two capacitors are written alike iff their three fields agree |
| `Flux.FluxMain` | Lectures/02-Programming-Fundamentals/FluxCapacitor.java:25-28 | prints "FluxCapacitor set to 1985 (start) 2015 (destination), requiring 60MJ" |
| `Rats.Compatible` | Lectures/10-Pointers-References/rat.cc:37-39 | two specified genders pair only as one male and one female; "other" pairs only with unspecified |
| `Rats.CompatibleAsSet` | Lectures/10-Pointers-References/rat.cc:36-45 | a litter comes iff either gender is unspecified or the pair is {male, female} |
| `Rats.CompatibleSymmetric` | Lectures/10-Pointers-References/rat.cc:37-39 | the order of the pair does not matter |
| `Rats.Incompatible` | Lectures/10-Pointers-References/rat.cc:42-44 | two rats of one specified gender, or "other" with a specified gender, give no litter |
| `Rats.GenderNamed` | Lectures/10-Pointers-References/rat.cc:47-63 | a text read back as a gender is that gender's text |
| `Rats.GenderTextRoundTrip` | Lectures/10-Pointers-References/rat.cc:47-63 | every gender's text reads back as that gender |
| `Rats.GenderText` | Lectures/10-Pointers-References/rat.cc:47-62 | the four texts start with four different letters, so the text tells the gender |
| `Rats.RatText` | Lectures/10-Pointers-References/rat.cc:63 | the text ends with the name and carries the gender's first letter at index 7 |
| `Rats.Rat.Default` | Lectures/10-Pointers-References/rat.cc:7 | "no-name", unspecified |
| `Rats.Rat.Copy` | Lectures/10-Pointers-References/rat.cc:10-13 | copies name and gender |
| `Rats.Rat.constructor` | Lectures/10-Pointers-References/rat.cc:18-21 | stores name and gender |
| `Rats.Rat.Assign` | Lectures/10-Pointers-References/rat.cc:23-28 | copies both fields of the other rat and answers this rat |
| `Rats.Rat.Mate` | Lectures/10-Pointers-References/rat.cc:36-45 | null iff the pair is not compatible; otherwise a fresh array of 5 fresh default rats |
| `Rats.Rat.Equals` | Lectures/10-Pointers-References/rat.cc:30-34 | a rat equals itself, and equal rats are written alike |
| `Rats.Rat.ToString` | Lectures/10-Pointers-References/rat.cc:47-63 | the text ends with the name, and its letter at index 7 tells female and male apart |
| `Rats.EqualsIsEquivalence` | Lectures/10-Pointers-References/rat.cc:30-34 | equality is reflexive, symmetric and transitive |
| `Rats.ToStringShowsBothFields` | Lectures/10-Pointers-References/rat.cc:47-63 | two rats are written alike iff they are equal |
| `Rats.RatTextInjective` | Lectures/10-Pointers-References/rat.cc:63 | the written text determines name and gender |
| `Rats.TestRat` | Lectures/10-Pointers-References/testrat.hh:3-32 | after b=a=r all three are equal; the imitator is equal, the second imitator is not; Manny and Mimmi give 5 default rats |
| `CatsCpp.FirstEmpty` | Lectures/10-Pointers-References/cat.cc:51-52 | the index of the first empty string, with none before it |
| `CatsCpp.Colours` | Lectures/10-Pointers-References/cat.cc:42 | the entries before the end marker, none of them empty |
| `CatsCpp.Listing` | Lectures/10-Pointers-References/cat.cc:38-47 | each colour contributes at least its ", " |
| `CatsCpp.ListingAppend` | Lectures/10-Pointers-References/cat.cc:42-45 | listing two parts lists the first, then the second |
| `CatsCpp.ListingEmpty` | Lectures/10-Pointers-References/cat.cc:38-47 | the listing is "" iff there are no colours |
| `CatsCpp.ListingEnds` | Lectures/10-Pointers-References/cat.cc:43 | a non-empty listing ends in ", " |
| `CatsCpp.CopyColours` | Lectures/10-Pointers-References/cat.cc:50-59 | a fresh array holding the colours up to and including the end marker, in order |
| `CatsCpp.Cat.constructor` | Lectures/10-Pointers-References/cat.cc:12-16 | the name, and a private copy of the colours |
| `CatsCpp.Cat.Copy` | Lectures/10-Pointers-References/cat.cc:18-22 | same name and colours, in a new array |
| `CatsCpp.Cat.SetName` | Lectures/10-Pointers-References/cat.cc:24-32 | the name is replaced; the announcement names old and new; the colours, and so `Valid`, are untouched |
| `CatsCpp.Cat.ListColours` | Lectures/10-Pointers-References/cat.cc:38-48 | the loop's text is `Listing` of the colours before the marker |
| `CatsCpp.Cat.ToString` | Lectures/10-Pointers-References/cat.cc:34-36 | "a cat by the name " + name + " with the colours " + the listing |
| `CatsCpp.TestColours` | Lectures/10-Pointers-References/testcat.hh:8 | Red, Orange, White and the end marker |
| `CatsCpp.TestCat` | Lectures/10-Pointers-References/testcat.hh:6-31 | renaming Steve leaves Bob; Steve rebuilt from Tabby has Tabby's colours in his own array; changing the caller's array changes neither cat |
| `CatsJava.Cat.Default` | Lectures/10-Pointers-References/Cat.java:7-12 | "youthere" with a fresh list ["Brown"] |
| `CatsJava.Cat.constructor` | Lectures/10-Pointers-References/Cat.java:14-18 | keeps the list passed in, not a copy |
| `CatsJava.Cat.Copy` | Lectures/10-Pointers-References/Cat.java:20-24 | same name and the very same list |
| `CatsJava.Cat.ToString` | Lectures/10-Pointers-References/Cat.java:26-28 | the text starts with "a cat with the name " and the name, and ends with the "]" of the list text |
| `CatsJava.CatMain` | Lectures/10-Pointers-References/Cat.java:34-47 | the colour added through the mongrel shows on the stray ([Brown, White]); the stray keeps its name |
| `JavaLists.ListTextAppend` | Lectures/10-Pointers-References/Cat.java:27 | a list grown by one prints with ", " and the new element before "]" |
| `JavaLists.Joined` | Lectures/10-Pointers-References/Cat.java:27 | the joined elements are empty only for no elements or one empty element |
| `JavaLists.ListText` | Lectures/10-Pointers-References/Cat.java:27 | the text is bracketed, and is "[]" exactly for an empty list or a list of one empty string |

## Left out

- TimeUnits.TimeUnit.GetDisplayValue: assumes a default locale whose zero
  digit is '0'. Java's `String.format("%02d", …)` writes the digits of
  `Locale.getDefault(Locale.Category.FORMAT)`, which may be another script's,
  while `std::to_string` always writes ASCII digits. `DisplayFormsAgree` holds
  only under that assumption.
- Printing, `Thread.sleep`/`sleep_for`, and the console echoes in the C++
  constructors and operators. Printed text is returned as strings where a
  property depends on it. Timing has no effect on the logic.
- TimeUnits.TimeUnit.Update: a limit of 0 or less is excluded by a
  precondition, on the constructors too. With limit 0 the update divides by
  zero. The Java and C++ code does not check the limit.
- Strategy.Player.Fight: an empty behaviour list is excluded by a
  precondition. The source then throws from `get(0)`.
- Java `int` overflow (health, years, power) is not modelled: integers are
  unbounded. This includes `Math.abs` of a product that overflows in
  `FluxCapacitor`.
- Documents.Message: the texts of the exceptions `ArrayList` itself throws
  belong to the Java library. The model uses OpenJDK's wording since Java 11:
  "Index: i, Size: n" from `add`, and "Index i out of bounds for length n"
  from `remove`. Older libraries word the second one differently.
- The C++ `Cat()` default constructor builds a temporary cat and discards it.
  The cat being constructed keeps the default member initialisers of cat.hh,
  a null name and null colours. `setName` on it prints no announcement, and
  `toString` dereferences the null pointers. It is not modelled.
- `setName` allocates `strlen(theName+1)` bytes. For a name of n >= 1
  characters that is n - 1 bytes, while `strcpy` writes n + 1, so the buffer is
  two bytes short. For an empty name `strlen` itself reads past the
  terminator. The model keeps the name as a string and does not model the
  buffer.
- CatsCpp.TestCat: the implicit member-wise assignment `steve = *tabby` is not
  modelled. Only the copy-constructed `steve = Cat(*tabby)`, whose state it
  replaces, is.
- Memory: the rat litter's leak, destructors and garbage collection are not
  modelled.
- The `Behaviour` interface's `respondToBehaviour` argument, and `isActive`,
  are never used by `Player`. They appear only as constants.
