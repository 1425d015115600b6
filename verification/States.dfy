/** The authoritative game state as a value: what `GameState` holds between two calls. */
module States {
  import opened Cards

  datatype Option<+T> = None | Some(value: T)

  datatype Phase = ActionPhase | BuyPhase | CleanupPhase

  datatype GainDest = GainToDiscard | GainToHand | GainToDeck

  /** One seat. The top of the deck is the end of the sequence. */
  datatype PlayerState = PlayerState(
    hand: seq<Card>, deck: seq<Card>, discard: seq<Card>, inPlay: seq<Card>, setAside: seq<Card>,
    actions: int, buys: int, coins: int,
    charges: int, firstSilver: bool)

  const EMPTY_SEAT := PlayerState([], [], [], [], [], 0, 0, 0, 0, false)

  datatype Prompt =
    | DiscardFromHandPrompt(min: int, max: int)
    | TrashFromHandPrompt(min: int, max: int, types: seq<CardType>, only: seq<Card>)
    | GainFromSupplyPrompt(maxCost: int, types: seq<CardType>, dest: GainDest)
    | ChooseFromDiscardPrompt(cards: seq<Card>, optional: bool)
    | PutOnDeckPrompt(types: seq<CardType>)
    | MayPlayActionPrompt(card: Card)
    | TrashFromRevealedPrompt(cards: seq<Card>)
    | ChooseActionFromHandPrompt
    | SetAsideActionPrompt(card: Card)
    | DiscardFromRevealedPrompt(cards: seq<Card>)
    | ReorderCardsPrompt(cards: seq<Card>)

  /** What a suspended card remembers until its answer arrives. */
  datatype Context =
    | NoContext
    | CardContext(card: Card)
    | CostContext(trashedCost: int)
    | AttackContext(attacker: nat, remaining: seq<nat>, revealed: seq<Card>)

  datatype Decision = Decision(id: string, player: nat, card: Card, step: nat, prompt: Prompt, context: Context)

  datatype PendingPlay = PendingPlay(player: nat, card: Card, source: Card)

  datatype Answer =
    | CardListAnswer(cards: seq<Card>)
    | CardChoiceAnswer(card: Card, none: bool)
    | YesNoAnswer(yes: bool)

  datatype Action =
    | PlayCard(player: nat, card: Card)
    | BuyCard(player: nat, card: Card)
    | EndPhase(player: nat)
    | ResolveDecision(player: nat, decisionId: string, answer: Answer)

  datatype Event =
    | CardDrawn(player: nat, card: Card)
    | CardDiscarded(player: nat, card: Card)
    | CardPlayed(player: nat, card: Card)
    | CardGained(player: nat, card: Card)
    | CardTrashed(player: nat, card: Card)
    | CoinsAdded(player: nat, count: int)
    | BuysAdded(player: nat, count: int)
    | ActionsAdded(player: nat, count: int)
    | PhaseChanged(player: nat, phase: Phase)
    | TurnStarted(player: nat, turn: int)
    | GameEnded
    | DecisionRequested(player: nat)
    | CardPutOnDeck(player: nat, card: Card)
    | AttackPlayed(player: nat, card: Card)
    | ReactionTriggered(player: nat, card: Card)
    | CardRevealed(player: nat)
    | CardThroned(player: nat, card: Card)

  /** `Panicked` is a failed type assertion on an answer or a context: the call unwinds at that point. */
  datatype Error =
    | NotYourTurn | WrongPhase | CardNotInHand | CardNotInSupply | InsufficientCoins | NoBuys | NoActions
    | UnknownCard | GameHasEnded | CardNotInDiscard | NoDecisionPending | WrongDecisionId | DecisionPending
    | NoResolveHandler | BadAnswer | Panicked

  /** `log` is the concatenation of the event lists returned so far; `rng` lists the random numbers still
      to be drawn, so that a statement about every state covers every outcome of every shuffle; `seed` is the number the
      random generator was started with. */
  datatype State = State(
    players: seq<PlayerState>, current: nat, starting: nat, phase: Phase,
    supply: map<Card, int>, trash: seq<Card>, turn: int, ended: bool, winners: seq<nat>,
    pending: Option<Decision>, decisionSeq: nat, plays: seq<PendingPlay>,
    seed: int, rng: seq<nat>, log: seq<Event>)
  {
    /** The seat at index `i`; an index outside the table (which no reachable state uses) reads as empty. */
    function P(i: nat): PlayerState {
      if i < |players| then players[i] else EMPTY_SEAT
    }

    function With(i: nat, p: PlayerState): State {
      if i < |players| then this.(players := players[i := p]) else this
    }

    function Emit(e: Event): State {
      this.(log := log + [e])
    }

    /** The size of a supply pile; a missing pile reads as zero. */
    function Pile(c: Card): int {
      if c in supply then supply[c] else 0
    }
  }

  /** The state an operation leaves behind and the error it returns, if any. */
  datatype Outcome = Outcome(state: State, error: Option<Error>)

  function Ok(s: State): Outcome { Outcome(s, None) }

  function Fail(s: State, e: Error): Outcome { Outcome(s, Some(e)) }

  function Decimal(n: nat): string
    ensures |Decimal(n)| > 0
  {
    var digit := ["0", "1", "2", "3", "4", "5", "6", "7", "8", "9"][n % 10];
    if n < 10 then digit else Decimal(n / 10) + digit
  }

  function DecisionId(n: nat): string {
    "d" + Decimal(n)
  }

  lemma {:induction false} DecimalInjective(m: nat, n: nat)
    requires Decimal(m) == Decimal(n)
    ensures m == n
    decreases m + n
  {
    var a, b := Decimal(m), Decimal(n);
    assert a[|a| - 1] == b[|b| - 1];
    assert m % 10 == n % 10;
    assert |Decimal(m / 10)| > 0 && |Decimal(n / 10)| > 0;
    if m >= 10 && n >= 10 {
      assert a[..|a| - 1] == Decimal(m / 10);
      assert b[..|b| - 1] == Decimal(n / 10);
      DecimalInjective(m / 10, n / 10);
    }
  }

  /** Distinct sequence numbers give distinct decision identifiers. */
  lemma DecisionIdInjective(m: nat, n: nat)
    requires DecisionId(m) == DecisionId(n)
    ensures m == n
  {
    assert Decimal(m) == DecisionId(m)[1..];
    assert Decimal(n) == DecisionId(n)[1..];
    DecimalInjective(m, n);
  }
}
