/** The engine's building blocks as functions on states. */
module Primitives {
  import opened Cards
  import opened States
  import opened Zones

  /** What every effect leaves alone: the number of seats, whose turn it is, and the owed replays. */
  predicate SameShape(s: State, t: State) {
    |t.players| == |s.players| && t.plays == s.plays && t.current == s.current
  }

  /** The same, and no decision is requested either. */
  predicate Unasked(s: State, t: State) {
    SameShape(s, t) && t.pending == s.pending && t.decisionSeq == s.decisionSeq
  }

  /** How many cards the seat can still draw. */
  function Available(p: PlayerState): nat {
    |p.deck| + |p.discard|
  }

  /** The discard pile goes under the deck and the whole is shuffled. */
  function Refill(s: State, px: nat): (t: State)
    ensures Unasked(s, t)
    ensures Available(t.P(px)) == Available(s.P(px))
    ensures t.P(px).discard == [] && t.P(px).hand == s.P(px).hand
  {
    var p := s.P(px);
    var (deck, rng) := Shuffle(p.deck + p.discard, s.rng);
    s.With(px, p.(deck := deck, discard := [])).(rng := rng)
  }

  /** The deck is refilled only when it is empty and the discard pile is not. */
  function RefillIfEmpty(s: State, px: nat): (t: State)
    ensures Unasked(s, t)
    ensures Available(t.P(px)) == Available(s.P(px))
    ensures t.P(px).deck == [] ==> Available(t.P(px)) == 0
    ensures t.P(px).hand == s.P(px).hand
  {
    if s.P(px).deck == [] && s.P(px).discard != [] then Refill(s, px) else s
  }

  /** Where a card that leaves a zone goes. */
  datatype Target = ToHand | ToDiscard | ToTrash | ToDeck

  /** The seat that receives `c` at its own target zone; the trash is not part of a seat. */
  function Receive(p: PlayerState, c: Card, to: Target): PlayerState {
    match to
    case ToHand => p.(hand := p.hand + [c])
    case ToDiscard => p.(discard := p.discard + [c])
    case ToTrash => p
    case ToDeck => p.(deck := p.deck + [c])
  }

  function MoveEvent(px: nat, c: Card, to: Target): Event {
    match to
    case ToHand => CardDrawn(px, c)
    case ToDiscard => CardDiscarded(px, c)
    case ToTrash => CardTrashed(px, c)
    case ToDeck => CardPutOnDeck(px, c)
  }

  /** The seat `q`, which has just given up `c`, replaces seat `px`, and `c` goes to its target. */
  function Deliver(s: State, px: nat, q: PlayerState, c: Card, to: Target): (t: State)
    ensures Unasked(s, t)
  {
    s.With(px, Receive(q, c, to)).(trash := if to == ToTrash then s.trash + [c] else s.trash).Emit(MoveEvent(px, c, to))
  }

  /** Sends the top card of a non-empty deck to its target. */
  function DeliverTop(s: State, px: nat, to: Target): (t: State)
    requires s.P(px).deck != []
    ensures Unasked(s, t)
  {
    var p := s.P(px);
    Deliver(s, px, p.(deck := p.deck[..|p.deck| - 1]), p.deck[|p.deck| - 1], to)
  }

  function DrawOne(s: State, px: nat): (t: State)
    ensures Unasked(s, t)
    ensures Available(s.P(px)) == 0 ==> t == s
    ensures Available(s.P(px)) > 0 ==>
              Available(t.P(px)) == Available(s.P(px)) - 1 && |t.P(px).hand| == |s.P(px).hand| + 1
  {
    var r := RefillIfEmpty(s, px);
    if r.P(px).deck == [] then s else DeliverTop(r, px, ToHand)
  }

  function DrawCards(s: State, px: nat, n: nat): (t: State)
    ensures Unasked(s, t)
    decreases n
  {
    if n == 0 || Available(s.P(px)) == 0 then s else DrawCards(DrawOne(s, px), px, n - 1)
  }

  /** Moves one named card out of the hand; a card that is not there is skipped. */
  function MoveOne(s: State, px: nat, c: Card, to: Target): (t: State)
    ensures Unasked(s, t)
  {
    var p := s.P(px);
    if c !in p.hand then s else Deliver(s, px, p.(hand := Without(p.hand, c)), c, to)
  }

  /** `DiscardFromHand`, `TrashFromHand` and `PutOnDeck`: the named cards, in order. */
  function MoveFromHand(s: State, px: nat, cards: seq<Card>, to: Target): (t: State)
    ensures Unasked(s, t)
    decreases |cards|
  {
    if cards == [] then s else MoveFromHand(MoveOne(s, px, cards[0], to), px, cards[1..], to)
  }

  /** Turns over the top card onto the discard pile. */
  function DiscardTop(s: State, px: nat): (r: (State, seq<Card>))
    ensures Unasked(s, r.0)
    ensures |r.1| <= 1
  {
    var r := RefillIfEmpty(s, px);
    var deck := r.P(px).deck;
    if deck == [] then (s, []) else (DeliverTop(r, px, ToDiscard), [deck[|deck| - 1]])
  }

  function RevealAndDiscardFromDeck(s: State, px: nat, n: nat): (r: (State, seq<Card>))
    ensures Unasked(s, r.0)
    decreases n
  {
    if n == 0 || Available(s.P(px)) == 0 then (s, [])
    else
      var (s1, top) := DiscardTop(s, px);
      var (s2, rest) := RevealAndDiscardFromDeck(s1, px, n - 1);
      (s2, top + rest)
  }

  function AddCoins(s: State, px: nat, n: int): (t: State)
    ensures Unasked(s, t)
  {
    s.With(px, s.P(px).(coins := s.P(px).coins + n)).Emit(CoinsAdded(px, n))
  }

  function AddBuys(s: State, px: nat, n: int): (t: State)
    ensures Unasked(s, t)
  {
    s.With(px, s.P(px).(buys := s.P(px).buys + n)).Emit(BuysAdded(px, n))
  }

  function AddActions(s: State, px: nat, n: int): (t: State)
    ensures Unasked(s, t)
  {
    s.With(px, s.P(px).(actions := s.P(px).actions + n)).Emit(ActionsAdded(px, n))
  }

  /** The other seats from `except` on, in turn order. */
  function Others(n: nat, except: nat): (r: seq<nat>)
    ensures |r| == if n == 0 then 0 else n - 1
    ensures forall i :: 0 <= i < |r| ==> r[i] == (except + i + 1) % n
  {
    seq(if n == 0 then 0 else n - 1, i requires 0 <= i < n - 1 => (except + i + 1) % n)
  }

  /** A copy from the supply to the chosen zone; nothing happens when the pile is empty. */
  function GainCard(s: State, px: nat, card: Card, dest: GainDest): (t: State)
    ensures Unasked(s, t)
  {
    if s.Pile(card) <= 0 then s
    else
      var p := s.P(px);
      var q := match dest
        case GainToHand => p.(hand := p.hand + [card])
        case GainToDeck => p.(deck := p.deck + [card])
        case GainToDiscard => p.(discard := p.discard + [card]);
      s.With(px, q).(supply := s.supply[card := s.supply[card] - 1]).Emit(CardGained(px, card))
  }

  /** Looks at the top `n` cards without moving them, topmost first; the discard pile is shuffled in first when
      the deck is too short. */
  function RevealFromDeck(s: State, px: nat, n: nat): (r: (State, seq<Card>))
    ensures Unasked(s, r.0)
  {
    var t := if |s.P(px).deck| < n && s.P(px).discard != [] then Refill(s, px) else s;
    var deck := t.P(px).deck;
    (t, TopDown(deck, if |deck| < n then |deck| else n))
  }

  function TrashFromDeck(s: State, px: nat, card: Card): (t: State)
    ensures Unasked(s, t)
  {
    var p := s.P(px);
    if card !in p.deck then s else Deliver(s, px, p.(deck := Without(p.deck, card)), card, ToTrash)
  }

  function DiscardFromDeck(s: State, px: nat, card: Card): (t: State)
    ensures Unasked(s, t)
  {
    var p := s.P(px);
    if card !in p.deck then s else Deliver(s, px, p.(deck := Without(p.deck, card)), card, ToDiscard)
  }

  /** Parks a decision: from here on only its answer is accepted. */
  function RequestDecision(s: State, px: nat, card: Card, step: nat, prompt: Prompt, context: Context): (t: State)
    ensures SameShape(s, t)
  {
    var n := s.decisionSeq + 1;
    s.(decisionSeq := n, pending := Some(Decision(DecisionId(n), px, card, step, prompt, context)))
     .Emit(DecisionRequested(px))
  }

  /** One reaction event for each Moat in the hand. */
  function Reactions(hand: seq<Card>, victim: nat): seq<Event> {
    if hand == [] then []
    else (if hand[0] == Moat then [ReactionTriggered(victim, Moat)] else []) + Reactions(hand[1..], victim)
  }

  function ReactionsOfAll(s: State, seats: seq<nat>): seq<Event> {
    if seats == [] then [] else Reactions(s.P(seats[0]).hand, seats[0]) + ReactionsOfAll(s, seats[1..])
  }

  /** The seats among `seats` that hold no Moat, in the same order. */
  function Unblocked(s: State, seats: seq<nat>): seq<nat> {
    if seats == [] then []
    else (if Moat in s.P(seats[0]).hand then [] else [seats[0]]) + Unblocked(s, seats[1..])
  }

  /** Announces an attack and collects its victims in turn order. */
  function ResolveAttackVictims(s: State, attacker: nat, card: Card): (r: (State, seq<nat>))
    ensures Unasked(s, r.0)
  {
    var others := Others(|s.players|, attacker);
    (s.(log := s.log + [AttackPlayed(attacker, card)] + ReactionsOfAll(s, others)), Unblocked(s, others))
  }
}
