# Dominion rules engine: model and proofs

This project models a two-or-more-seat Dominion rules engine with decisions that suspend cards, and the lossy snapshot
stream that carries its states to clients. It proves what every action keeps, what whole games obey, and that the
suspended cards do what a plain loop would do.

`dafny verify dfyconfig.toml` verifies everything.

## How it is laid out

The state of a game is a value, `State` (States.dfy): seats with five zones, the supply, the trash, at most one pending
decision with the context its card needs to go on, the stack of replays owed for Throne Room, the seed, a stream of
random numbers, and the log of all events so far. Cards are a fixed table (Cards.dfy).

- Zones, Primitives, Effects, Engine: every operation as a function on states. These are the specification.
- GameStates, CardCode, CardAnswers, Driver, Setup: the same operations in the engine's own form, as methods with loops
  that update a `GameState` object (and, for shuffling, an array) in place. Each is proved equal to its function, so
  every law about the functions is a law about the methods. The methods without a loop have no row below: one per card
  in CardCode (`Play...`) and CardAnswers (`Resolve...`), the single steps of `GameState`, and the branches of the entry
  point in Driver. `CardCode.OnPlay`, `CardAnswers.OnResolve` and `Driver.Apply` put them together.
- Census, Frames, Invariants, Plays, Resolutions, Runs: what single steps keep, and the invariant of all reachable
  states. `Keeps` is the relation that composes along a card's code; `Justified` and `Prompted` say, card by card, which
  facts noted at the question still hold when the answer arrives.
- Rules: which action is accepted in which state, its error otherwise, and its direct effect.
- GameLaws, Acceptance, Discipline, Ledgers, Stranded, Openings, Termination, Progress: laws of whole runs, that is, of
  any list of actions, accepted or rejected, with any answers.
- Chains, Attacks, Victims, Libraries, Sentries, Exchanges: suspended cards from the play to the last answer. Entries:
  the same through the entry point, from the hand on. Outcomes, Rounds, Questions, Summons: the zones after every other
  card, from the hand on: cards that draw, cards that reach all seats, cards with one question, cards that play cards.
- Moves, Drawing, Scoring, NewGames, Deals: loop-free references for moving and drawing cards, final scores, new games and
  their deals.
- FanOut, Streams, Seeds: the service's fan-out, the bot's reducer, and what views give away.

All laws hold for every run: any list of actions, accepted or rejected. Where a law needs a condition on the players'
answers, the condition is one on the state and the answer before the call, and the law says exactly when it holds.

## Where the code and its documentation differ

- The comment at internal/engine/apply.go:23-26 says that a rejected action leaves the state as it was. Two kinds do
  not: playing an Action that is not in hand costs an action point, and an answer that its card refuses has already
  cleared the pending decision. `Discipline.RejectedUnchanged` states the exact condition,
  `NewGames.RejectedButChanged` a case that exists in every new game.
- internal/engine/decision.go:110-117 has Sentry's order answered bottom to top while its prompt lists the cards top
  first, so echoing the prompt exchanges two different cards (`Sentries.EchoSwaps`).
- internal/engine/phases.go:14-25 calls the two flushes at cleanup defensive. They are not idle: a refused answer leaves
  owed replays and set-aside cards behind. `Discipline.TidyStep` and `Discipline.TidyOverRun` say exactly when,
  `Openings.StrandedGame` gives whole games. Such a replay is not kept until cleanup: it runs after the next answer of
  the turn, to whatever card, that leaves nothing to ask (`Ledgers.ReplayWaits`, `Stranded.LateReplay`).
- The client reports gaps only after its first live message, and the service sends the first snapshot before it registers
  the channel: an action accepted in between goes unnoticed until the next fan-out (`FanOut.MissedFanOut`,
  `FanOut.CaughtUp`). A rejected action that changed the game is not sent to anybody (`FanOut.ShowsCurrent`).
- internal/service/translate.go:44-46 calls the snapshot scrubbed to its viewer. It leaves out other hands, but carries the
  seed, from which both decks were shuffled (internal/engine/newgame.go:54-73): `FanOut.SeedSeen` has two states that
  differ in nothing else and are told apart, and by `Seeds.ViewFixesOpening` one view fixes the whole opening of the game.
- Prompts offer less than the cards accept (`Acceptance.TakenExactly`). Remodel and Mine gain a card even if the card
  named for trashing is not held, and Cellar draws for cards that were named but not held (`Exchanges.RemodelChain`,
  `Exchanges.MineChain`, `Exchanges.CellarHand`, `Entries.CellarOverdraws`). Throne Room doubles any card of the hand.

## Model

| member | source | states |
|---|---|---|
| Runs.ApplyInv | internal/engine/apply.go:27-61 | Every action, accepted or rejected, keeps the invariant (pending decisions justified, owed replays valid, idle seats empty), makes or loses no card, only shrinks piles and only advances decision numbers; within a turn only the phase moves forward, and an ended turn passes to the next seat. |
| Runs.RunInv | internal/engine/apply.go:27-61 | The invariant holds after any list of actions, accepted or rejected. |
| Runs.OnResolveAnswers | internal/engine/apply.go:81-85 | Whatever the answer, a resumed card conserves cards, asks at most one justified question, and either leaves the stack of owed replays alone or pushes exactly one entry while a card enters play. |
| Runs.UnwindKeeps | internal/engine/apply.go:86-99 | The unwinder never fails, never meets an unknown card, only pops, stops at a new decision or at the empty stack, and always takes off at least one replay when it may run. |
| Runs.CleanupPasses | internal/engine/phases.go:10-69 | Cleanup empties the outgoing seat, hands over exactly one action and one buy, clears owed replays, conserves every card and touches no third seat. |
| GameLaws.CardsConserved | internal/engine/primitives.go:6-260 | Over any run the number of copies of every card, over all zones of all players, trash and supply, is constant. |
| GameLaws.SupplyOverRun | internal/engine/primitives.go:187-202 | Piles never grow, never go negative, are never added or removed; once the Province pile or three piles are empty they stay empty for ever. |
| GameLaws.EndsExactly | internal/engine/apply.go:150-174 | An action ends the game if and only if it is the current player's end of the Buy phase with nothing pending and the Province pile is gone or empty or three different piles are empty. |
| GameLaws.GameOverExactly | internal/engine/scoring.go:3-16 | The game-end test holds if and only if Province has no card left or three different piles are empty; the count of empty piles is their number. |
| GameLaws.EndedIsFrozen | internal/engine/apply.go:28-30 | After the end every action is rejected and no run changes anything. |
| GameLaws.AnsweredOnce | internal/engine/apply.go:63-85 | A ResolveDecision message that once reached its card is refused, without effect, at every later point of every run, whoever resubmits its identifier with whatever answer. |
| GameLaws.IdsIdentify | internal/engine/decision.go:147-158 | Along a run two pending decisions with the same identifier are the same decision. |
| States.DecisionIdInjective | internal/engine/decision.go:147-158 | Different sequence numbers give different identifiers. |
| GameLaws.TurnOrder | internal/engine/phases.go:44-61 | After k ended turns with n seats the current seat is (start + k) mod n and the round is 1 + k div n. |
| GameLaws.SeatsOverRun | internal/engine/phases.go:35-61 | In every reachable state resources are non-negative, and a seat out of turn has none, no charges, nothing in play and nothing set aside. |
| Discipline.TidyStep | internal/engine/apply.go:63-101 | From a tidy state (an idle engine owes no replay, cards are set aside only under a waiting Library or Sentry) an action leads to a tidy state if and only if it is not an answer that its card refuses while something would be left over: any owed replay, any Library, any Sentry whose cards the names before the refused one do not use up. The condition is on state and answer before the call. |
| Discipline.ReorderLeaves | internal/engine/cards/kingdom_sentry.go:64-88 | A refused order of Sentry leaves nothing set aside if and only if the names at its head use up the set-aside cards. |
| Discipline.TidyOverRun | internal/engine/phases.go:14-25 | Every state along a run is tidy, so that both defensive flushes at cleanup find nothing to flush, if and only if no answer of the run strands anything. |
| Discipline.PromptsKeepTidy | internal/engine/decision.go:24-119 | Players whose answers follow their prompts never strand anything, whatever other actions they try. |
| Deals.EveryDeal | internal/engine/newgame.go:62-102 | Every deal can happen: for each order of either starting deck and each seat to begin some random numbers give the new game in which each seat holds the five top cards of its deck. |
| Openings.StrandedGame | internal/engine/newgame.go:50-110 | In every kingdom with Throne Room and Workshop, for every seed number, there are random numbers and a list of actions that lead from the first action of a new game to a state with nothing pending and a replay owed. |
| Openings.StrandsWorkshop | internal/engine/cards/kingdom_workshop.go:18-29 | Whoever may play Throne Room and holds a Workshop can bring this about, in every reachable tidy state. |
| Stranded.SecondMilitiaLate | internal/engine/cards/kingdom_militia.go:21-37 | An input where the leftover also runs late: the victim of a doubled Militia names no card, the answer is refused, nothing is pending any more, and the second Militia runs after a later Chapel answered with nothing. |
| Stranded.LateReplay | internal/engine/apply.go:86-99 | In every reachable idle state with a replay left behind, playing a Chapel and answering it with no card runs replays from the top of the stack. |
| Discipline.OneRequest | internal/engine/decision.go:147-158 | One action requests at most one decision, only when none is live, and the request counter moves exactly then. |
| Discipline.RejectedUnchanged | internal/engine/apply.go:23-61 | A rejected action leaves the state alone if and only if it did not play a missing Action and did not reach a card; says exactly what it changed otherwise. The comment at the cited lines promises more than the code keeps. |
| Discipline.MissingAction | internal/engine/apply.go:113-124 | Playing an Action that is not in hand is rejected and spends an action point all the same. |
| NewGames.RejectedButChanged | internal/engine/apply.go:23-26 | The promise of an unchanged state fails at the first action of every new game. |
| Ledgers.BooksStep | internal/engine/apply.go:63-174 | Every action keeps the books: per card, executions plus owed replays equal direct plays plus twice the Throne Room choices, and coins equal printed coins plus Merchant bonus plus loans minus costs. |
| Ledgers.BooksOverRun | internal/engine/apply.go:63-174 | The books balance after every run, refused answers included. |
| Ledgers.ThronedTwice | internal/engine/cards/kingdom_throne_room.go:22-53 | After any run every card chosen for Throne Room this turn was executed exactly twice, every other play once, with one replay per choice, if and only if no replay is owed; at idle points of runs that strand nothing none is. |
| Ledgers.ReplayWaits | internal/engine/apply.go:86-99 | When owed replays run, for every action in every reachable state, by the replay events of the log: exactly when an accepted answer leaves no decision live, then from the top of the stack down until one asks or none is left; never at a play, a buy or a refused answer; and the end of the turn drops the rest. |
| Ledgers.UnwindReplays | internal/engine/apply.go:86-99 | The unwinder runs the replays above the stack it leaves, latest first, each once. |
| Ledgers.CoinsAccounted | internal/engine/cards/basics_treasure.go:25-35 | The extra coins of a turn are one for each Merchant play, replays included, before its first Silver play, and none without a Silver; coins in hand are coins added minus costs of accepted buys. |
| Ledgers.BonusPaid | internal/engine/cards/basics_treasure.go:25-35 | What a Silver pays beyond its two coins is exactly what it adds to that closed form, so it is paid at most once a turn. |
| Termination.Descent | internal/engine/apply.go:27-174 | Within a turn every accepted action strictly lowers the measure (phase, cards not in play, owed replays, work of the pending chain, buys) and no rejected one raises it. |
| Termination.ReachingDescends | internal/engine/apply.go:81-101 | Every answer that reaches its card, accepted or refused, lowers the measure, replays included. |
| Termination.NoEndlessTurn | internal/engine/apply.go:27-174 | An endless run from any reachable state that ends no more turns accepts only finitely many more actions, whatever the answers. |
| Termination.InPlayBound | internal/engine/state.go:39-60 | There are never more cards in play than cards in the game. |
| Acceptance.AcceptedExactly | internal/engine/apply.go:63-101 | In every reachable state a message that reaches its card (which messages do is stated by Rules.ReachesExactly) is accepted if and only if the card takes the answer; the replays it releases cannot fail. |
| Rules.ReachesExactly | internal/engine/apply.go:27-80 | In every reachable state a message reaches its card if and only if the game goes on, a decision is pending, the message names its identifier and comes from the player who is asked. |
| Rules.AtTheDoor | internal/engine/apply.go:27-73 | Everything that is refused at the entry point, without effect, and with which error: after the end, another action while a decision is pending, a wrong identifier, the right identifier from another player, a turn out of order, an answer to nothing. |
| Rules.PlaysExactly | internal/engine/apply.go:103-125 | A play is accepted if and only if the card is in hand and either the phase is Action, the card an Action and an action point left, or the phase is Buy and the card a Treasure; the card runs after it has entered play and cost one action point or none; the error of every refused play. |
| Rules.BuysExactly | internal/engine/apply.go:127-148 | A buy is accepted if and only if it is the Buy phase, the pile has a card, a buy is left and the coins suffice; the whole state after it, and the error of every refused buy. |
| Rules.ActionPhaseEnds | internal/engine/apply.go:150-154 | Ending the Action phase opens the Buy phase and changes nothing else. |
| Rules.BuyPhaseEnds | internal/engine/apply.go:155-170 | Ending the Buy phase: set-aside cards, cards in play and the hand are discarded in this order, the next five cards to come are drawn, no resources are left; the next seat has one action and one buy; all else is kept; the game ends exactly if the supply is finished. |
| Acceptance.TakenExactly | internal/engine/apply.go:81-85 | What each of the sixteen asking cards takes, given what it noted when it asked: an exact condition on answer and state per card and step. |
| Acceptance.FollowingAccepted | internal/engine/apply.go:63-101 | In every reachable state every answer that follows its prompt (kind, bounds, filters, offered cards) is accepted: what the card captured when it asked still holds. |
| Progress.SomeAnswerFollows | internal/engine/decision.go:24-119 | For every pending decision there is an answer that follows its prompt. |
| Progress.NoDeadlock | internal/engine/apply.go:27-101 | After any run, unless the game has ended, some action is accepted. |
| Plays.OnPlayKeeps | internal/engine/play.go:13-23 | Every card in play: conserves cards, touches no other seat's resources, pushes no replay, asks at most one justified question and hands out exactly its printed bonuses. |
| Plays.PlayFromZoneKeeps | internal/engine/primitives.go:119-146 | Playing from a zone fails without a trace exactly when the card is unknown or not there; otherwise it is in play and was run once. |
| Plays.SilverKeeps | internal/engine/cards/basics_treasure.go:25-35 | Silver yields two coins, and the Merchant charges on top if it is the first of the turn. |
| Resolutions.ResolveSettles | internal/engine/apply.go:81-85 | An answer that plays no card conserves cards, leaves replays and plays alone, asks at most one justified question, and pays only for Moneylender. |
| Resolutions.ThroneRoomPlays | internal/engine/cards/kingdom_throne_room.go:22-53 | The chosen card enters play, is owed exactly one replay, and is executed once before the replay may start. |
| Resolutions.VassalPlays | internal/engine/cards/kingdom_vassal.go:25-33 | "Yes" always finds the revealed Action still on the discard pile and plays it once; any other answer changes nothing. |
| Attacks.MilitiaRefines | internal/engine/cards/kingdom_militia.go:21-58 | Militia with its questions equals one loop over the victims with the answers given in advance. |
| Attacks.BureaucratRefines | internal/engine/cards/kingdom_bureaucrat.go:21-71 | The same for Bureaucrat. |
| Attacks.BanditRefines | internal/engine/cards/kingdom_bandit.go:21-85 | The same for Bandit, reveals and reshuffles included. |
| Attacks.AttackRefines | internal/engine/cards/kingdom_militia.go:42-58 | For any number of seats, any victims and any answers the suspended attack and the plain loop both fail, or both succeed in the same state to the last event. |
| Chains.SubmittedIs | internal/engine/apply.go:63-101 | Submitting a suspended card's answers through the entry point runs exactly its chain and then the owed replays; nothing starts in between. |
| Victims.LoopStrikes | internal/engine/cards/kingdom_bandit.go:51-85 | Every victim of the loop is struck exactly once and every other seat keeps everything. |
| Victims.AttackStrikes | internal/engine/attack.go:16-41 | An attack played and answered to the end leaves every Moat holder's seat unchanged, strikes every other opponent exactly once, and equals the plain loop. |
| Entries.AttackCompleted | internal/engine/apply.go:27-125 | Through the entry point: an attack played from the hand and answered by messages is accepted to the end if and only if the plain loop over the Moat-less opponents accepts the answers; then the engine ends in the loop's state, Moat holders keep everything and every other opponent is struck once. |
| Entries.SubmittedExactly | internal/engine/apply.go:63-101 | Messages to a card that plays no other card are all accepted and leave nothing pending if and only if its chain of answers comes to its end, and both end in the same state. |
| Entries.LibraryCompleted | internal/engine/cards/kingdom_library.go:17-103 | The Library theorem, with its exact acceptance, for a Library played from the hand and answered by messages. |
| Entries.RemodelCompleted | internal/engine/cards/kingdom_remodel.go:14-53 | Remodel from the hand by messages: which lists of answers bring it to its end, and the state then; with an empty hand it asks nothing. |
| Entries.MineCompleted | internal/engine/cards/kingdom_mine.go:14-68 | The same for Mine, with the empty choice and the hand without Treasures. |
| Entries.ArtisanCompleted | internal/engine/cards/kingdom_artisan.go:11-39 | The same for Artisan. |
| Entries.CellarCompleted | internal/engine/cards/kingdom_cellar.go:10-22 | The same for Cellar, with the size of the hand it leaves. |
| Entries.CellarOverdraws | internal/engine/cards/kingdom_cellar.go:17-22 | An input where the hand grows, through the entry point: one card named that is not held. |
| Entries.SentryCompleted | internal/engine/cards/kingdom_sentry.go:14-149 | The Sentry theorem, with its exact acceptance, for a Sentry played from the hand and answered by messages. |
| Victims.DisarmsVictim | internal/engine/cards/kingdom_militia.go:21-37 | Militia's victim discards the named cards it holds; exactly three cards stay if and only if all named cards were held, and never fewer. |
| Victims.TaxesVictim | internal/engine/cards/kingdom_bureaucrat.go:21-42 | An asked Bureaucrat victim moves exactly one Victory from hand to deck top. |
| Victims.TaxesUnasked | internal/engine/cards/kingdom_bureaucrat.go:47-59 | An unasked Bureaucrat victim moves its only Victory, or nothing if it has none. |
| Victims.RobsOf | internal/engine/cards/kingdom_bandit.go:34-41 | Bandit trashes exactly one non-Copper Treasure of the top two and discards the revealed cards that differ from it; the deck that stays is given exactly, each of these cards leaving it as its deepest copy. |
| Victims.RobsNothing | internal/engine/cards/kingdom_bandit.go:58-62 | Without a non-Copper Treasure among the top two nothing is trashed and both revealed cards are discarded. |
| Victims.RevealsTopTwo | internal/engine/primitives.go:210-233 | The reveal shows the top two cards, reshuffling deck and discard pile together only if the deck is too short, and moves none. |
| Invariants.UnblockedAre | internal/engine/attack.go:22-40 | The victims are exactly the listed seats without a Moat, in the order given and without repetition. |
| Invariants.OthersAreOpponents | internal/engine/attack.go:20-23 | The scan in turn order visits distinct seats other than the attacker's. |
| Victims.OthersAll | internal/engine/attack.go:20-23 | The scan in turn order misses no opponent. |
| Libraries.LibraryToTheEnd | internal/engine/cards/kingdom_library.go:17-103 | A whole Library: accepted to the end if and only if there is one yes or no for each Action that comes, in the order deck then shuffled discard pile, while the hand has fewer than seven cards. Then nothing stays set aside; the hand grows by the cards to come without those answered "yes", to exactly seven unless it was longer already or everything was drawn; the Actions answered "yes" lie on the rest of the discard pile in the exact order the verdicts give; the discard pile is shuffled in if and only if more cards are drawn than the deck has; and the log has one draw event per card, so none was drawn twice. |
| Libraries.LibraryAccepts | internal/engine/cards/kingdom_library.go:52-89 | The same acceptance, hand and verdicts from any point of the chain, against a reference on the list of cards to come. |
| Libraries.LibraryChain | internal/engine/cards/kingdom_library.go:52-89 | The same from any point of the chain, with cards already set aside. |
| Libraries.FlushFinishes | internal/engine/cards/kingdom_library.go:92-103 | The flush puts the set-aside cards on the discard pile and draws nothing. |
| Libraries.LeftAsideIs | internal/engine/cards/kingdom_library.go:28-38 | Whatever the order, the verdicts leave aside exactly what was there and the Actions answered "yes", copy by copy. |
| Sentries.SentryToTheEnd | internal/engine/cards/kingdom_sentry.go:14-149 | A whole Sentry: the chain of answers is accepted if and only if all are lists, as many as wanted, the last naming only cards still set aside; then each card looked at is trashed, discarded or returned as named, nothing stays set aside, and the log gains exactly the questions and one event per card in that order. |
| Sentries.FirstAnswer | internal/engine/cards/kingdom_sentry.go:26-89 | The same from the first question on, for any number of set-aside cards. |
| Sentries.Partition | internal/engine/cards/kingdom_sentry.go:35-88 | Trashed, discarded and returned cards are exactly the cards looked at, copy by copy. |
| Sentries.PermutationReturned | internal/engine/cards/kingdom_sentry.go:65-88 | An order that names every card left is the order on the deck. |
| Sentries.PeelIs | internal/engine/cards/kingdom_sentry.go:93-114 | The peel takes min(n, available) cards off the top, reshuffling once if the deck is too short. |
| Sentries.PeelRestores | internal/engine/cards/kingdom_sentry.go:106-113 | Putting any number of peeled cards back in reverse restores the deck. |
| Sentries.EchoSwaps | internal/engine/decision.go:110-117 | Returning two cards in the order the prompt shows restores the deck only if they are equal: the prompt is top first, the answer bottom first. |
| Sentries.ReorderOutcome | internal/engine/cards/kingdom_sentry.go:65-88 | The last answer is accepted exactly if it names only set-aside cards; cards it leaves out go on top. |
| Exchanges.RemodelChain | internal/engine/cards/kingdom_remodel.go:14-53 | Remodel comes to its end with exactly two answers, one known card and then one costing at most two more, and the result is the named exchange; the first card need not be held. |
| Exchanges.RemodelledZones | internal/engine/cards/kingdom_remodel.go:21-53 | Which zones a finished Remodel changes: the trashed card if held, the gained card if its pile has one. |
| Exchanges.MineChain | internal/engine/cards/kingdom_mine.go:14-68 | Mine comes to its end with an empty list, or with a list led by a known card and then a Treasure of at most its cost plus three, gained to the hand; number and type of the trashed cards are not checked. |
| Exchanges.CellarHand | internal/engine/cards/kingdom_cellar.go:17-22 | Cellar draws as many cards as were named, held or not, as far as there are any; the hand keeps its size if and only if all named cards were held or there was nothing to draw, and never shrinks. |
| Exchanges.ArtisanChain | internal/engine/cards/kingdom_artisan.go:11-39 | Artisan comes to its end with exactly two answers, one known card of cost at most five and any one card; the result is the named gain and put-back. |
| Exchanges.CellarChain | internal/engine/cards/kingdom_cellar.go:10-22 | Cellar comes to its end with exactly one list, whatever it names. |
| Exchanges.CraftedZones | internal/engine/cards/kingdom_artisan.go:18-39 | The zones after an Artisan: the gain comes to the hand if its pile has a card, and the card put back, which may be the one just gained, moves to the top of the deck if it is in the hand. |
| Exchanges.HarbingerMoves | internal/engine/cards/kingdom_harbinger.go:22-35 | The chosen card moves from the discard pile to the top of the deck exactly if it is there; anything else changes nothing. |
| Exchanges.PoacherDiscards | internal/engine/cards/kingdom_poacher.go:28-33 | An answer that follows the prompt discards one card for each empty pile, as far as the hand goes. |
| Exchanges.CursesInOrder | internal/engine/cards/kingdom_witch.go:14-18 | Curses go to the seats of a list in its order for as long as the pile lasts, one each, and to nobody else; Rounds.WitchPlayed says who is in the list. |
| Rounds.WitchPlayed | internal/engine/cards/kingdom_witch.go:12-21 | Witch from the hand, any number of seats: its player draws the next two cards; a Moat holder keeps its seat as it is; an opponent without a Moat gets exactly one Curse on its discard pile if fewer Moat-less opponents precede it in turn order than the pile has cards, and otherwise nothing; the pile falls by the number handed out, and nothing else changes. |
| Rounds.BareAt | internal/engine/attack.go:20-39 | In the list of victims a Moat-less opponent stands at the place given by the number of Moat-less opponents before it in turn order. |
| Rounds.MoatsShown | internal/engine/attack.go:25-35 | An attack reports one reaction for each Moat in each opponent's hand and none for the attacker's. |
| Rounds.CouncilRoomPlayed | internal/engine/cards/kingdom_council_room.go:10-18 | Council Room from the hand: its player draws the next four cards and gets a buy; every opponent draws exactly its next card, from the table as the opponents before it in turn order left it; nothing else changes. |
| Rounds.RoundIs | internal/engine/primitives.go:174-183 | The walk over the other players visits each seat once, by distance from the current one. |
| Outcomes.PlainPlayed | internal/engine/cards/kingdom_smithy.go:10-13 | Smithy, Laboratory, Moat, Village, Market, Merchant and Festival from the hand: the next three, two, two, one, one, one and no cards to come are drawn, the printed bonuses given, and nothing else changes. |
| Outcomes.TreasurePlayed | internal/engine/cards/basics_treasure.go:5-46 | A Treasure from the hand brings its coins and nothing else; the first Silver of a turn one more for each Merchant played. |
| Outcomes.SentryLooks | internal/engine/cards/kingdom_sentry.go:14-25 | Sentry draws the next card and gives an action before it looks; then the two topmost cards, or all there are, are set aside, the discard pile being shuffled in only if the deck is too short. |
| Outcomes.AttackerProfits | internal/engine/cards/kingdom_bureaucrat.go:14-42 | What a finished Militia, Bureaucrat or Bandit leaves with its player: two coins; a Silver on top of the deck, or a Gold on the discard pile, if the pile has one; the rest of the supply is kept, and the trash unless Bandit takes something. |
| Questions.ChapelCompleted | internal/engine/cards/kingdom_chapel.go:10-18 | Chapel from the hand by messages: any one list is accepted, and exactly the named cards that are held go from the hand to the trash. |
| Questions.MoneylenderCompleted | internal/engine/cards/kingdom_moneylender.go:10-26 | Moneylender: nothing without a Copper in hand; otherwise any one list is accepted, the named cards that are held are trashed, and naming anything at all pays three coins. |
| Questions.WorkshopCompleted | internal/engine/cards/kingdom_workshop.go:14-30 | Workshop: exactly one known card of cost at most four is accepted and comes from its pile to the discard pile if there is one left. |
| Questions.HarbingerCompleted | internal/engine/cards/kingdom_harbinger.go:10-36 | Harbinger: the next card and an action; a question if and only if the discard pile is then not empty; the chosen card moves from it to the top of the deck, or nothing moves. |
| Questions.PoacherCompleted | internal/engine/cards/kingdom_poacher.go:10-32 | Poacher: the next card, an action and a coin; a question if and only if a pile is empty; of the named cards those that are held are discarded. |
| Summons.RevealsTop | internal/engine/primitives.go:90-114 | One reveal takes exactly the top card of the deck onto the discard pile; with an empty deck the last card of the shuffled discard pile; with neither nothing changes. |
| Summons.RevealsTopCards | internal/engine/primitives.go:90-114 | As long as the deck lasts, n reveals take its n top cards in order onto the discard pile. |
| Summons.VassalPlayed | internal/engine/cards/kingdom_vassal.go:10-24 | Vassal from the hand turns over exactly the next card, and a question about that card is pending if and only if it is an Action. |
| Summons.VassalAnswered | internal/engine/cards/kingdom_vassal.go:25-33 | Yes moves exactly the card turned over from the discard pile into play and runs it once; no leaves it there and changes nothing. |
| Summons.ThroneRoomPlayed | internal/engine/cards/kingdom_throne_room.go:14-21 | Throne Room from the hand asks if and only if an Action is left in the hand, and otherwise does nothing. |
| Summons.ThroneRoomAnswered | internal/engine/cards/kingdom_throne_room.go:22-54 | The chosen card moves from the hand into play and runs; if that leaves nothing pending it runs a second time at once, otherwise its replay stays owed; a card that is not in hand is refused. |
| Zones.IndexOf | internal/engine/primitives.go:47-54 | The first index of the card, or -1 exactly if it is absent. |
| Zones.Shuffle | internal/engine/rng.go:8-12 | A shuffle is a permutation of the cards. |
| Moves.MoveFromHandIs | internal/engine/primitives.go:30-90 | Discarding, trashing and putting on deck move exactly the found cards, in the order named, one event each, and nothing else. |
| Moves.FoundIs | internal/engine/primitives.go:33-42 | The found cards are the common part of hand and list as multisets; the rest stays. |
| Moves.FoundExactly | internal/engine/primitives.go:33-42 | Everything named is found if and only if the hand holds as many copies as are named. |
| Moves.SortSetAsideIs | internal/engine/cards/kingdom_sentry.go:36-62 | Sentry's answers sort the set-aside cards the same way. |
| Drawing.DrawCardsIs | internal/engine/primitives.go:6-25 | Drawing equals a loop-free reference: the top of the deck if it suffices, otherwise the whole deck and then the shuffled discard pile; same events, same shuffle. |
| Drawing.DrawsNext | internal/engine/primitives.go:6-25 | A draw of n brings the next n cards to come, in order, or all there are: the deck from its top, then the discard pile as it will be shuffled; what is left is exactly the rest. |
| Drawing.DrawnSeat | internal/engine/primitives.go:6-25 | Exactly min(n, available) cards are drawn; with a sufficient deck the top n, topmost first, and an untouched discard pile; otherwise the whole deck first. |
| Drawing.HandAfterCleanup | internal/engine/phases.go:20-42 | After every turn end the outgoing hand has min(5, owned) cards and the player owns as many cards as before. |
| Drawing.ShuffleReaches | internal/engine/rng.go:8-12 | Every order of the cards is the outcome of some random stream that goes on as wanted, so statements about all streams cover all shuffles. |
| Scoring.ScoreMissesAside | internal/engine/scoring.go:20-36 | The computed score misses exactly the value of the set-aside cards. |
| Scoring.ScoreIsOwned | internal/engine/scoring.go:20-36 | The computed score is the value of all owned cards, Gardens at owned div 10, if and only if the set-aside cards are worth nothing in sum. |
| Scoring.ScoreInvariant | internal/engine/scoring.go:20-36 | With nothing set aside the score depends only on which cards are owned, not where or in which order. |
| Scoring.ZoneValueOne | internal/engine/cards/kingdom_gardens.go:22-25 | A single card's points, Gardens worth one per ten owned cards. |
| Scoring.BestAre | internal/engine/scoring.go:40-54 | The winners are exactly the places of the highest score, in order. |
| Scoring.WinnersOverRun | internal/engine/apply.go:161-171 | In every reachable ended state nothing is set aside anywhere and the winners are exactly the seats whose owned cards are worth most. |
| NewGames.CollectIs | internal/engine/newgame.go:115-136 | The request is accepted exactly if all cards are kingdom cards, and yields each once; otherwise the first bad card is named, unknown or not a kingdom card. |
| NewGames.KingdomIs | internal/engine/newgame.go:115-153 | The resolved kingdom is the requested set, or every kingdom card for an empty request. |
| NewGames.RefusedGames | internal/engine/newgame.go:50-95 | A game is refused exactly if there are not two players or a requested card is not a kingdom card. |
| NewGames.NewGameCounts | internal/engine/newgame.go:63-92 | 60 Copper, 40 Silver, 30 Gold, 14 Estate, 8 Duchy, 8 Province, 10 Curse, 10 of each kingdom card, none of anything else. |
| NewGames.NewGameEstablishes | internal/engine/newgame.go:50-110 | For every kingdom and every shuffle a new game satisfies the invariant, is tidy, has empty books and turn order at zero, starts in the Action phase of round one with one action and one buy for the player who begins, and both seats hold five cards of a starting deck and nothing else. |
| NewGames.GameConserves | internal/engine/newgame.go:63-92 | From a new game on, after any actions, the copies of every card are those of the box. |
| FanOut.SystemOverRun | internal/service/game_service.go:83-221 | Over all interleavings of submits, drops, reads and the two halves of subscriptions (snapshot, then registration): a stream is an in-order selection of the fan-outs since it was registered, each missing one was dropped, a client without a gap shows the state of the last message it read, and between fan-outs the game changes only by rejected actions, whose traces never vanish. |
| FanOut.FromTheStart | internal/service/game_service.go:74-79 | The same from a service without subscribers that serves any reachable game. |
| FanOut.CountsTurns | internal/bot/state.go:30-69 | A client that starts afresh counts each of its own turns that a snapshot shows exactly once, however many snapshots it sees of it. |
| FanOut.ShowsCurrent | internal/service/game_service.go:83-100 | A client that has read the newest fan-out shows the current game if and only if no rejected action has changed the game since; one that has read no live message yet, if and only if none has since its snapshot. |
| FanOut.MissedFanOut | internal/service/game_service.go:171-194 | In every system, an action accepted between the snapshot and the registration of a subscription is missing from both, is not counted as dropped, and leaves the client showing the old game without a gap. |
| FanOut.GapMeansDrop | internal/bot/state.go:31-35 | Reading a message, the client reports a gap if and only if it has read a live message before and a fan-out between the two was dropped; before the first live message nothing is noticed. |
| FanOut.CaughtUp | internal/bot/state.go:31-55 | A client that has emptied its channel has read the newest fan-out if and only if that one was not dropped and, as long as it has read no live message, none fell between its snapshot and its registration. |
| FanOut.OwnHandOnly | internal/service/translate.go:47-90 | A client showing one state shows another just as well if and only if they agree in everything a view for its seat carries: the seed, the own hand, the sizes of other hands, decks, discard piles and trash, what is in play, resources, supply, phase, turn, winners and the question pending. |
| FanOut.SeedSeen | internal/service/translate.go:48-56 | Two states that agree in all of this but the seed are told apart by every seat. |
| Seeds.ViewFixesOpening | internal/engine/newgame.go:50-110 | Two games started from their seeds with the same generator, whatever it is: if at any time, after any actions, a view of the one equals a view of the other, to whatever seats, the games began in the same state, both hands, both decks and all random numbers to come included. |
| Seeds.SeedOverRun | internal/engine/state.go:9-12 | No run changes the seed. |
| FanOut.OfferedOk | internal/service/game_service.go:110-160 | One fan-out, enqueued or dropped, keeps a session's account. |
| Streams.SystemFanOut | internal/service/game_service.go:151-159 | The fan-out of the system model is the service's fan-out on the registered channels. |
| Streams.SystemRunsService | internal/service/game_service.go:110-221 | Every step of the system model is, on the registered channels, the service's own operation: fan-out, register, drain, unregister or none. |
| GameStates.FindIndex | internal/engine/primitives.go:47-54 | The scan returns the first index, or -1. |
| GameStates.ShuffleCards | internal/engine/rng.go:8-12 | The swaps in the array compute the shuffle of its old contents. |
| GameStates.GameState.DrawCards | internal/engine/primitives.go:6-25 | The loop draws exactly what the drawing function says and changes nothing else. |
| GameStates.GameState.MoveFromHand | internal/engine/primitives.go:30-90 | The loops of DiscardFromHand, TrashFromHand and PutOnDeck: the named cards that are held move, the others are skipped. |
| GameStates.GameState.RevealAndDiscardFromDeck | internal/engine/primitives.go:93-114 | Turns over up to n cards, refilling as needed, and returns them in order. |
| GameStates.GameState.RevealFromDeck | internal/engine/primitives.go:210-233 | Shows the top cards without moving them, reshuffling first if the deck is too short. |
| GameStates.GameState.ResolveAttackVictims | internal/engine/attack.go:16-41 | The nested loops collect the unblocked victims in turn order and every reaction, and change only the log. |
| CardCode.HandHasAction | internal/engine/cards/kingdom_throne_room.go:58-66 | Finds an Action exactly if the hand has one. |
| CardCode.HandHasTreasure | internal/engine/cards/kingdom_mine.go:15-22 | Finds a Treasure exactly if the hand has one. |
| CardCode.CountEmptyPiles | internal/engine/cards/kingdom_poacher.go:15-20 | Counts the empty piles in whatever order the map is walked. |
| CardCode.VictoriesInHand | internal/engine/cards/kingdom_bureaucrat.go:73-85 | Collects the Victories of a hand in order. |
| CardCode.NonCopperTreasures | internal/engine/cards/kingdom_bandit.go:87-102 | Collects the non-Copper Treasures in order. |
| CardCode.FlushSetAside | internal/engine/cards/kingdom_library.go:92-103 | Moves the set-aside cards to the discard pile, one event each. |
| CardCode.LibraryStep | internal/engine/cards/kingdom_library.go:52-89 | The loop draws to seven cards and stops at each Action to ask. |
| CardCode.MilitiaQueue | internal/engine/cards/kingdom_militia.go:42-58 | The loop skips small hands and parks a decision on the first large one with the rest of the queue. |
| CardCode.BureaucratQueue | internal/engine/cards/kingdom_bureaucrat.go:47-71 | The loop handles victims without a choice inline and parks a decision on the first with one. |
| CardCode.BanditQueue | internal/engine/cards/kingdom_bandit.go:51-85 | The loop reveals, trashes and discards inline and parks a decision on the first victim with a choice. |
| CardCode.CurseEach | internal/engine/cards/kingdom_witch.go:16-18 | The loop gives each victim a Curse while the pile lasts. |
| CardCode.EachOtherDraws | internal/engine/cards/kingdom_council_room.go:10-17 | Every other player draws one card, in turn order. |
| CardCode.PeelToSetAside | internal/engine/cards/kingdom_sentry.go:93-114 | The loop sets the top cards aside and returns them topmost first. |
| CardCode.SortSetAside | internal/engine/cards/kingdom_sentry.go:36-62 | The trash and discard loops over the set-aside cards. |
| CardCode.SentryReorder | internal/engine/cards/kingdom_sentry.go:64-88 | Puts cards back in the order named, stops halfway at a card that is not there, and flushes the rest. |
| CardCode.OnPlay | internal/engine/play.go:13-23 | Running any card does what its effect says. |
| CardCode.PlayCardFromZone | internal/engine/primitives.go:119-146 | Moves the card into play and runs it, or fails without a trace. |
| CardAnswers.OnResolve | internal/engine/apply.go:74-82 | Resuming any card does what its answer effect says, and cards that never ask have no handler. |
| Driver.IsGameOver | internal/engine/scoring.go:5-16 | True exactly if the Province pile is empty or three piles are. |
| Driver.ComputeScore | internal/engine/scoring.go:20-36 | Adds up every zone except the set-aside one. |
| Driver.DetermineWinners | internal/engine/scoring.go:40-54 | The two loops compute the maximum and its places. |
| Driver.CleanUpSeat | internal/engine/phases.go:10-42 | Discards set-aside, in-play and hand cards in this order, draws five and clears the resources. |
| Driver.Unwind | internal/engine/apply.go:86-99 | The loop pops and runs replays until one asks or none is left. |
| Driver.Apply | internal/engine/apply.go:27-61 | The entry point computes the step function of the model, errors included, and keeps the invariant. |
| Setup.ResolveKingdom | internal/engine/newgame.go:115-136 | The loop collects the kingdom or reports the first bad card. |
| Setup.KingdomCardsAmong | internal/engine/newgame.go:142-153 | The loop collects every kingdom card. |
| Setup.StockSupply | internal/engine/newgame.go:75-92 | The basic piles and ten copies of each kingdom card. |
| Setup.ShuffledDeck | internal/engine/newgame.go:63-73 | Seven Coppers and three Estates, shuffled in place. |
| Setup.NewGame | internal/engine/newgame.go:50-110 | The whole set-up computes the initial state, or nothing when refused. |
| Streams.GameService.FanOut | internal/service/game_service.go:110-160 | Numbers the fan-out and offers every subscriber its own seat's message without blocking; a full channel of 64 drops it. |
| Streams.GameService.Drain | internal/service/game_service.go:208-220 | Takes the oldest message out of one channel. |
| Streams.GameService.Unregister | internal/service/game_service.go:196-206 | Removes one channel and keeps the others in order. |
| Streams.Client.Apply | internal/bot/state.go:31-69 | The reducer: a gap is reported and changes nothing, anything else is reduced. |

## Left out

- Pointers into the seat list: seats are values in a sequence that the methods reassign, so the source's pointers to one seat, which all reach the same element, become reads and writes of that position.
- Event lists: the source returns the events of each call; here they are appended to one log field.
- Seat numbers outside the table: the source would stop with an index error; here such a seat reads as empty. `Runs.RunInv` shows that no reachable state uses one.
- Answers of the wrong kind: a failed type assertion stops the source's call halfway; here it is the error `Panicked` with the state as left at that point. What the transport layer makes of it is not modelled.
- Machine integers: counters, resources and sequence numbers are unbounded; wrap-around of 64-bit numbers and the conversions to 32 bits in snapshots are not modelled.
- Randomness: the generator is replaced by an arbitrary stream of numbers, in Seeds by an arbitrary function from seeds to streams, so every possible shuffle is modelled; the generator itself is not.
- Names, game identifiers and room codes carry no rule and are dropped, from the views too.
- The card registry is a fixed table; registration order and duplicate identifiers are not modelled. The kingdom of an empty request is listed in table order, while the source's order is unspecified; only the set matters to the supply.
- Termination.NoEndlessTurn: bounds accepted actions only; rejected ones may go on for ever.
- FanOut.SystemOverRun: one game and an in-order, lossless connection from channel to client; a snapshot reads the game in one step, although the source reads it without the lock; it promises no delivery, as the source does not.
- FanOut.MessageFor: the source recognises the end of the game by the event in the action's list, the model by the state the action leaves; `GameLaws.EndsExactly` shows that only the ending action changes it.
- Locks, goroutines and data races around the store and the subscriber table are not modelled; each service call is one step.
- The translation between protocol messages and engine values, HTTP plumbing, the in-memory store, the bot strategies and the client's small read-outs (whose turn, own seat) are case-by-case copies or thresholds and are left out.
