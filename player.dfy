/** The strategy pattern: a player holds a list of fighting behaviours and, in
    each fight, picks one by comparing every behaviour with the first one in
    the list. The three behaviour classes have no state, so each is a
    constructor of one datatype whose predictions are constants. */
module Strategy {
  import opened Wrappers
  import opened Decimal

  datatype Behaviour = WizardFight | SwordsmanFight | BravelyRunAway

  /** Every behaviour is always available. */
  function IsActive(b: Behaviour): (active: bool)
    ensures active
  {
    true
  }

  /** The damage a behaviour predicts it will deal. */
  function PredictEffect(b: Behaviour): (damage: int)
    ensures damage >= 0
    ensures damage == 0 <==> b == BravelyRunAway
  {
    match b
    case WizardFight => 100
    case SwordsmanFight => 200
    case BravelyRunAway => 0
  }

  /** The change to the player's own health a behaviour predicts. */
  function PredictSelfHealth(b: Behaviour): (delta: int)
    ensures delta <= 0
    ensures delta == 0 <==> b == BravelyRunAway
  {
    match b
    case WizardFight => -50
    case SwordsmanFight => -10
    case BravelyRunAway => 0
  }

  /** The change to the player's own health when the behaviour is carried out:
      every behaviour does exactly what it predicts. */
  function ExecuteBehaviour(b: Behaviour): (delta: int)
    ensures delta == PredictSelfHealth(b)
  {
    match b
    case WizardFight => -50
    case SwordsmanFight => -10
    case BravelyRunAway => 0
  }

  /** The answer to another player's behaviour: only the swordsman answers. */
  function RespondToBehaviour(b: Behaviour, other: Behaviour): (r: int)
    ensures r != 0 <==> b == SwordsmanFight
  {
    match b
    case SwordsmanFight => 10
    case _ => 0
  }

  /** getDescription: its first letter tells the behaviour. */
  function Description(b: Behaviour): (d: string)
    ensures |d| > 0
    ensures d[0] == 'v' <==> b == WizardFight
    ensures d[0] == 's' <==> b == SwordsmanFight
    ensures d[0] == 'b' <==> b == BravelyRunAway
  {
    match b
    case WizardFight => "valiantly wield your wand!"
    case SwordsmanFight => "skillfully slash your sword!"
    case BravelyRunAway => "bravely run away..."
  }

  /** The name under which addBehaviour accepts a behaviour. */
  function NameOf(b: Behaviour): string
  {
    match b
    case WizardFight => "WizardFight"
    case SwordsmanFight => "SwordsmanFight"
    case BravelyRunAway => "Flight"
  }

  /** The behaviour a name selects in addBehaviour; any other name selects
      nothing. */
  function BehaviourNamed(name: string): (r: Option<Behaviour>)
    ensures r.Some? <==> name in {"WizardFight", "SwordsmanFight", "Flight"}
    ensures r.Some? ==> NameOf(r.value) == name
  {
    if name == "WizardFight" then Some(WizardFight)
    else if name == "SwordsmanFight" then Some(SwordsmanFight)
    else if name == "Flight" then Some(BravelyRunAway)
    else None
  }

  /** Every behaviour can be added under its name, and under no other. */
  lemma NamesRoundTrip(b: Behaviour, name: string)
    ensures BehaviourNamed(NameOf(b)) == Some(b)
    ensures BehaviourNamed(name) == Some(b) ==> name == NameOf(b)
  {
  }

  /** The test inside fight's loop: b is taken over the current choice when it
      predicts strictly more damage than the FIRST behaviour and costs at most
      100 health more than the first does. */
  predicate Beats(b: Behaviour, first: Behaviour, health: int)
    ensures Beats(b, first, health) <==>
              PredictEffect(b) > PredictEffect(first)
              && PredictSelfHealth(first) - PredictSelfHealth(b) <= 100
    ensures Beats(b, first, health) ==> b != first && b != BravelyRunAway && first != SwordsmanFight
  {
    PredictEffect(b) > PredictEffect(first)
      && health + PredictSelfHealth(b) >= (health + PredictSelfHealth(first)) - 100
  }

  /** The index of the behaviour chosen after the loop has looked at the first
      k behaviours: the last of them that beats the first one, or the first
      one itself when none does. */
  function ChosenIndex(bs: seq<Behaviour>, health: int, k: nat): (i: nat)
    requires 0 < |bs| && k <= |bs|
    ensures i < |bs| && (k > 0 ==> i < k)
    ensures i == 0 || Beats(bs[i], bs[0], health)
    ensures forall j :: i < j < k ==> !Beats(bs[j], bs[0], health)
  {
    if k == 0 then 0
    else if Beats(bs[k - 1], bs[0], health) then k - 1
    else ChosenIndex(bs, health, k - 1)
  }

  /** The first behaviour never beats itself. */
  lemma FirstNeverBeatsItself(bs: seq<Behaviour>, health: int)
    requires 0 < |bs|
    ensures !Beats(bs[0], bs[0], health)
    ensures ChosenIndex(bs, health, 1) == 0
  {
  }

  /** The choice does not depend on the player's health: both sides of the
      health test carry the same health. */
  lemma {:induction false} ChoiceIgnoresHealth(bs: seq<Behaviour>, h1: int, h2: int, k: nat)
    requires 0 < |bs| && k <= |bs|
    ensures ChosenIndex(bs, h1, k) == ChosenIndex(bs, h2, k)
  {
    if k > 0 {
      ChoiceIgnoresHealth(bs, h1, h2, k - 1);
    }
  }

  /** The choice is not the behaviour with the most damage: a later behaviour
      that beats the first replaces an earlier one even when it predicts less
      damage, because the comparison is always made against the first. */
  lemma LastBeaterWins(health: int)
    ensures ChosenIndex([BravelyRunAway, SwordsmanFight, WizardFight], health, 3) == 2
    ensures PredictEffect(WizardFight) < PredictEffect(SwordsmanFight)
  {
  }

  /** A line fight prints inside its loop: a predicted health and a predicted
      damage, then a description. */
  datatype Line = Line(health: int, damage: int, description: string)

  /** The printed text of a line: the two numbers separated by a blank, and
      the description straight after the damage. */
  function LineText(l: Line): (text: string)
    ensures |text| > |l.description| + 2
    ensures text[|text| - |l.description|..] == l.description
  {
    IntToString(l.health) + " " + IntToString(l.damage) + l.description
  }

  /** The two lines printed for each behaviour b looked at: the first
      behaviour's predicted health and damage, with the description of the
      behaviour chosen so far; then b's own predictions and description. */
  function TraceLines(best: Behaviour, first: Behaviour, b: Behaviour, health: int): (lines: seq<Line>)
    ensures |lines| == 2
    ensures lines[0].description == Description(best) && lines[1].description == Description(b)
    ensures lines[0].health - lines[1].health == PredictSelfHealth(first) - PredictSelfHealth(b)
  {
    [Line(health + PredictSelfHealth(first), PredictEffect(first), Description(best)),
     Line(health + PredictSelfHealth(b), PredictEffect(b), Description(b))]
  }

  /** The lines of the loop over the first k behaviours. */
  function Trace(bs: seq<Behaviour>, health: int, k: nat): (lines: seq<Line>)
    requires 0 < |bs| && k <= |bs|
    ensures |lines| == 2 * k
  {
    if k == 0 then []
    else Trace(bs, health, k - 1) + TraceLines(bs[ChosenIndex(bs, health, k - 1)], bs[0], bs[k - 1], health)
  }

  /** A pair of lines inside a trace is unchanged by appending more lines. */
  lemma PairBeforeEnd<T>(t: seq<T>, more: seq<T>, j: nat, pair: seq<T>)
    requires 2 * j + 2 <= |t| && t[2 * j..2 * j + 2] == pair
    ensures (t + more)[2 * j..2 * j + 2] == pair
  {
    assert (t + more)[2 * j..2 * j + 2] == t[2 * j..2 * j + 2];
  }

  /** The last pair of lines of a trace is the pair appended last. */
  lemma PairAtEnd<T>(t: seq<T>, last: seq<T>, j: nat)
    requires |last| == 2 && |t| == 2 * j
    ensures (t + last)[2 * j..2 * j + 2] == last
  {
  }

  /** Lines 2j and 2j+1 of the trace belong to the j-th behaviour looked at:
      the first one's predictions with the choice made before it, then its
      own. */
  lemma {:induction false} TraceSlice(bs: seq<Behaviour>, health: int, k: nat, j: nat)
    requires 0 < |bs| && j < k <= |bs|
    ensures Trace(bs, health, k)[2 * j..2 * j + 2]
              == TraceLines(bs[ChosenIndex(bs, health, j)], bs[0], bs[j], health)
  {
    var pair := TraceLines(bs[ChosenIndex(bs, health, j)], bs[0], bs[j], health);
    var t := Trace(bs, health, k - 1);
    var last := TraceLines(bs[ChosenIndex(bs, health, k - 1)], bs[0], bs[k - 1], health);
    assert Trace(bs, health, k) == t + last;
    if j < k - 1 {
      TraceSlice(bs, health, k - 1, j);
      assert 2 * j + 2 <= |t| && t[2 * j..2 * j + 2] == pair;
      PairBeforeEnd(t, last, j, pair);
    } else {
      PairAtEnd(t, pair, j);
    }
  }

  /** The printed texts of some lines, in order. */
  function Texts(lines: seq<Line>): (texts: seq<string>)
    ensures |texts| == |lines|
    ensures forall i :: 0 <= i < |lines| ==> texts[i] == LineText(lines[i])
  {
    seq(|lines|, i requires 0 <= i < |lines| => LineText(lines[i]))
  }

  /** The loop of fight: scan the behaviours and pick one. Nothing changes;
      the lines the loop prints are returned as records. */
  method Choose(bs: seq<Behaviour>, health: int) returns (best: Behaviour, trace: seq<Line>)
    requires 0 < |bs|
    ensures best == bs[ChosenIndex(bs, health, |bs|)]
    ensures best == bs[0] || Beats(best, bs[0], health)
    ensures forall j :: 0 <= j < |bs| && Beats(bs[j], bs[0], health) ==> j <= ChosenIndex(bs, health, |bs|)
    ensures trace == Trace(bs, health, |bs|)
  {
    best := bs[0];
    var bestHealth := health + PredictSelfHealth(best);
    var bestDamage := PredictEffect(best);
    trace := [];
    var i := 0;
    while i < |bs|
      invariant 0 <= i <= |bs|
      invariant best == bs[ChosenIndex(bs, health, i)]
      invariant bestHealth == health + PredictSelfHealth(bs[0])
      invariant bestDamage == PredictEffect(bs[0])
      invariant trace == Trace(bs, health, i)
    {
      var b := bs[i];
      var bHealth := health + PredictSelfHealth(b);
      var bDamage := PredictEffect(b);
      trace := trace + TraceLines(best, bs[0], b, health);
      if bDamage > bestDamage && bHealth >= bestHealth - 100 {
        best := b;
      }
      i := i + 1;
    }
  }

  class Player {
    var behaviours: seq<Behaviour>
    var health: int

    /** A new player: health 1000 and no behaviours. */
    constructor ()
      ensures behaviours == [] && health == 1000
    {
      behaviours := [];
      health := 1000;
    }

    /** Append the named behaviour; an unknown name is ignored. */
    method AddBehaviour(name: string)
      modifies this`behaviours
      ensures BehaviourNamed(name).Some? ==> behaviours == old(behaviours) + [BehaviourNamed(name).value]
      ensures BehaviourNamed(name).None? ==> behaviours == old(behaviours)
    {
      match BehaviourNamed(name)
      case Some(b) => behaviours := behaviours + [b];
      case None =>
    }

    /** Choose a behaviour and carry it out: only the health changes, by the
        chosen behaviour's effect. The lines printed are returned. */
    method Fight() returns (lines: seq<string>)
      requires 0 < |behaviours|
      modifies this`health
      ensures health == old(health) + ExecuteBehaviour(behaviours[ChosenIndex(behaviours, old(health), |behaviours|)])
      ensures lines == Texts(Trace(behaviours, old(health), |behaviours|))
                       + ["You " + Description(behaviours[ChosenIndex(behaviours, old(health), |behaviours|)]),
                          "Your health is now " + IntToString(health)]
    {
      var best, trace := Choose(behaviours, health);
      health := health + ExecuteBehaviour(best);
      lines := Texts(trace) + ["You " + Description(best), "Your health is now " + IntToString(health)];
    }
  }

  /** A player given the wizard, the swordsman and flight, in that order,
      fights as a swordsman and ends at health 990. */
  method WizardSwordsmanFlight() returns (p: Player)
    ensures fresh(p)
    ensures p.behaviours == [WizardFight, SwordsmanFight, BravelyRunAway]
    ensures p.health == 990
  {
    p := new Player();
    p.AddBehaviour("WizardFight");
    p.AddBehaviour("SwordsmanFight");
    p.AddBehaviour("Flight");
    assert ChosenIndex(p.behaviours, 1000, 3) == 1;
    var _ := p.Fight();
  }
}
