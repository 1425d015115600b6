/** The fixed card table: the seven basic cards, the twenty-six kingdom cards, and
    `Unknown` for an identifier that the registry does not know. */
module Cards {

  datatype CardType = Treasure | Victory | Cursed | Action | Attack | Reaction

  datatype Card =
    | Copper | Silver | Gold
    | Estate | Duchy | Province | Curse
    | Artisan | Bandit | Bureaucrat | Cellar | Chapel | CouncilRoom | Festival | Gardens
    | Harbinger | Laboratory | Library | Market | Merchant | Militia | Mine | Moat
    | Moneylender | Poacher | Remodel | Sentry | Smithy | ThroneRoom | Vassal | Village
    | Witch | Workshop
    | Unknown(name: string)

  /** Whether the registry finds the card. */
  predicate Known(c: Card) {
    !c.Unknown?
  }

  predicate IsTreasure(c: Card) {
    c.Copper? || c.Silver? || c.Gold?
  }

  predicate IsVictory(c: Card) {
    c.Estate? || c.Duchy? || c.Province? || c.Gardens?
  }

  predicate IsAction(c: Card) {
    Known(c) && !IsTreasure(c) && !IsVictory(c) && !c.Curse?
  }

  predicate HasType(c: Card, t: CardType) {
    match t
    case Treasure => IsTreasure(c)
    case Victory => IsVictory(c)
    case Cursed => c.Curse?
    case Action => IsAction(c)
    case Attack => c.Bandit? || c.Bureaucrat? || c.Militia? || c.Witch?
    case Reaction => c.Moat?
  }

  predicate IsKingdom(c: Card) {
    IsAction(c) || (IsVictory(c) && !c.Estate? && !c.Duchy? && !c.Province?)
  }

  function Cost(c: Card): nat {
    match c
    case Copper | Curse | Unknown(_) => 0
    case Estate | Cellar | Chapel | Moat => 2
    case Silver | Harbinger | Merchant | Vassal | Village | Workshop => 3
    case Bureaucrat | Gardens | Militia | Moneylender | Poacher | Remodel | Smithy | ThroneRoom => 4
    case Duchy | Bandit | CouncilRoom | Festival | Laboratory | Library | Market | Mine | Sentry | Witch => 5
    case Gold | Artisan => 6
    case Province => 8
  }

  /** Victory points of one copy for an owner of `owned` cards. */
  function VictoryPoints(c: Card, owned: nat): int {
    match c
    case Estate => 1
    case Duchy => 3
    case Province => 6
    case Curse => -1
    case Gardens => owned / 10
    case _ => 0
  }

  /** Every card the registry holds. */
  const REGISTRY: seq<Card> := [
    Copper, Silver, Gold, Estate, Duchy, Province, Curse,
    Artisan, Bandit, Bureaucrat, Cellar, Chapel, CouncilRoom, Festival, Gardens,
    Harbinger, Laboratory, Library, Market, Merchant, Militia, Mine, Moat,
    Moneylender, Poacher, Remodel, Sentry, Smithy, ThroneRoom, Vassal, Village,
    Witch, Workshop
  ]
}
