/** Militia, Bureaucrat and Bandit stop at every victim who has a choice and remember who is still to come. Run to
    completion they do exactly what one plain loop over the victims does. */
module Attacks {
  import opened Cards
  import opened States
  import opened Primitives
  import opened Effects
  import opened Chains

  /** The attacks that may ask their victims. */
  predicate Asking(c: Card) {
    c.Militia? || c.Bureaucrat? || c.Bandit?
  }

  function Queue(c: Card, s: State, attacker: nat, victims: seq<nat>): State
    requires Asking(c)
  {
    match c
    case Militia => MilitiaQueue(s, attacker, victims)
    case Bureaucrat => BureaucratQueue(s, attacker, victims)
    case Bandit => BanditQueue(s, attacker, victims)
  }

  // ----- The plain loop -----

  /** What the victim shows before anything is decided. */
  function Shown(c: Card, s: State, v: nat): (State, seq<Card>) {
    if c == Bandit then BanditReveal(s, v) else (s, [])
  }

  predicate HasChoice(c: Card, s: State, v: nat, revealed: seq<Card>)
    requires Asking(c)
  {
    match c
    case Militia => |s.P(v).hand| > 3
    case Bureaucrat => |VictoriesIn(s.P(v).hand)| > 1
    case Bandit => |NonCopperTreasures(revealed)| > 1
  }

  /** The effect on a victim without a choice. */
  function Forced(c: Card, s: State, v: nat, revealed: seq<Card>): (t: State)
    requires Asking(c)
    ensures Unasked(s, t)
  {
    match c
    case Militia => s
    case Bureaucrat => BureaucratUnasked(s, v)
    case Bandit => BanditUnasked(s, v, revealed)
  }

  predicate Accepts(c: Card, s: State, v: nat, revealed: seq<Card>, answer: Answer)
    requires Asking(c)
  {
    match c
    case Militia => answer.CardListAnswer? && |answer.cards| == |s.P(v).hand| - 3
    case Bureaucrat =>
      answer.CardListAnswer? && |answer.cards| == 1 && IsVictory(answer.cards[0]) && answer.cards[0] in s.P(v).hand
    case Bandit =>
      answer.CardChoiceAnswer? && answer.card in revealed && IsTreasure(answer.card) && answer.card != Copper
  }

  /** The effect of a victim's accepted choice. */
  function Chosen(c: Card, s: State, v: nat, revealed: seq<Card>, answer: Answer): (t: State)
    requires Asking(c) && Accepts(c, s, v, revealed, answer)
    ensures Unasked(s, t)
  {
    match c
    case Militia => MoveFromHand(s, v, answer.cards, ToDiscard)
    case Bureaucrat => MoveFromHand(s, v, answer.cards, ToDeck)
    case Bandit => BanditTrash(s, v, revealed, answer.card)
  }

  /** One loop over the victims, with all answers given in advance; `None` if an answer is refused, missing or left
      over. */
  function Direct(c: Card, s: State, victims: seq<nat>, answers: seq<Answer>): Option<State>
    requires Asking(c)
    decreases |victims|
  {
    if victims == [] then (if answers == [] then Some(s) else None)
    else
      var v := victims[0];
      var (s1, revealed) := Shown(c, s, v);
      if !HasChoice(c, s1, v, revealed) then Direct(c, Forced(c, s1, v, revealed), victims[1..], answers)
      else if answers == [] || !Accepts(c, Noted(s1, v), v, revealed, answers[0]) then None
      else Direct(c, Chosen(c, Noted(s1, v), v, revealed, answers[0]), victims[1..], answers[1..])
  }

  // ----- The interactive run equals it -----

  lemma {:induction false} MilitiaRefines(s: State, attacker: nat, victims: seq<nat>, answers: seq<Answer>)
    requires s.pending.None?
    ensures Suspended(MilitiaQueue(s, attacker, victims), answers) == Direct(Militia, s, victims, answers)
    decreases |victims|
  {
    hide MoveFromHand;
    if victims != [] {
      var v, rest := victims[0], victims[1..];
      var size := |s.P(v).hand|;
      if size <= 3 {
        MilitiaRefines(s, attacker, rest, answers);
      } else if answers != [] {
        var t := MilitiaQueue(s, attacker, victims);
        assert t.(pending := None) == Noted(s, v);
        if Accepts(Militia, s, v, [], answers[0]) {
          MilitiaRefines(Chosen(Militia, Noted(s, v), v, [], answers[0]), attacker, rest, answers[1..]);
        }
      }
    }
  }

  lemma {:induction false} BureaucratRefines(s: State, attacker: nat, victims: seq<nat>, answers: seq<Answer>)
    requires s.pending.None?
    ensures Suspended(BureaucratQueue(s, attacker, victims), answers) == Direct(Bureaucrat, s, victims, answers)
    decreases |victims|
  {
    hide MoveFromHand, BureaucratUnasked, VictoriesIn, IsVictory;
    if victims != [] {
      var v, rest := victims[0], victims[1..];
      if |VictoriesIn(s.P(v).hand)| <= 1 {
        BureaucratRefines(BureaucratUnasked(s, v), attacker, rest, answers);
      } else if answers != [] {
        var t := BureaucratQueue(s, attacker, victims);
        assert t.(pending := None) == Noted(s, v);
        if Accepts(Bureaucrat, s, v, [], answers[0]) {
          BureaucratRefines(Chosen(Bureaucrat, Noted(s, v), v, [], answers[0]), attacker, rest, answers[1..]);
        }
      }
    }
  }

  lemma {:induction false} BanditRefines(s: State, attacker: nat, victims: seq<nat>, answers: seq<Answer>)
    requires s.pending.None?
    ensures Suspended(BanditQueue(s, attacker, victims), answers) == Direct(Bandit, s, victims, answers)
    decreases |victims|
  {
    hide BanditReveal, BanditUnasked, BanditTrash, NonCopperTreasures, IsTreasure;
    if victims != [] {
      var v, rest := victims[0], victims[1..];
      var (s1, revealed) := BanditReveal(s, v);
      if |NonCopperTreasures(revealed)| <= 1 {
        BanditRefines(BanditUnasked(s1, v, revealed), attacker, rest, answers);
      } else if answers != [] {
        var t := BanditQueue(s, attacker, victims);
        assert t.(pending := None) == Noted(s1, v);
        if Accepts(Bandit, s1, v, revealed, answers[0]) {
          BanditRefines(Chosen(Bandit, Noted(s1, v), v, revealed, answers[0]), attacker, rest, answers[1..]);
        }
      }
    }
  }

  /** The suspended attack refines the plain loop: for any seats, any victims and any list of answers both fail, or
      both succeed and leave the same state. */
  lemma AttackRefines(c: Card, s: State, attacker: nat, victims: seq<nat>, answers: seq<Answer>)
    requires Asking(c) && s.pending.None?
    ensures Suspended(Queue(c, s, attacker, victims), answers) == Direct(c, s, victims, answers)
  {
    hide Suspended, Direct, MilitiaQueue, BureaucratQueue, BanditQueue;
    match c
    case Militia => MilitiaRefines(s, attacker, victims, answers);
    case Bureaucrat => BureaucratRefines(s, attacker, victims, answers);
    case Bandit => BanditRefines(s, attacker, victims, answers);
  }
}
