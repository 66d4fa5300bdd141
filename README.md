# Blackjack game engine — a Dafny model

This project models the core of a single-seat blackjack service: cards and
their point values, the soft-ace hand total, the dealer's hit policy and the
outcome comparison, the 52-card deck and its shuffle, the mutable `Game` and
`Player` records, and the game service that deals a new game, plays HIT,
STAND and DOUBLE against the stored game, and settles wins and losses into
the player ledger.

The repository carries two copies of the game service, which differ in three
places. `Lifecycle.Variant` names them: `Current` is
`src/main/java/blackjack/service/GameService.java`, `Legacy` is
`src/main/java/blackJack/service/GameService.java`.

| | Current | Legacy |
|---|---|---|
| empty deck on a draw | `BadRequest("Deck exhausted")` | `IllegalState("Deck exhausted")` |
| amount settled by `endAndPersist` | the bet, or 1 when the bet is not positive | the bet |
| immediate blackjack payout | 1.5 × the bet (which is still 0 at deal time) | a fixed 1.5 |

Modules, one per part of the program:

- `Cards`: suits, ranks, values, card equality.
- `Hands`: the hand total as a specification function with its soft-ace
  theory, and the `Hand` class whose `Total` method runs the source's two
  loops and is proved equal to it.
- `Engine`: `total`, `dealerShouldHit`, `decideOutcome`.
- `Decks`: the ordered deck built by two nested loops and the shuffle loop.
- `Players`: the `Player` class and its ledger updates.
- `Games`: the `Game` class, its defaults and setters, and `GameDoc`, the
  value the game store keeps.
- `Lifecycle`: both service copies as total functions from a stored game to
  a new stored game plus a ledger call (`PlayTurn`, `Deal`), with the
  properties of a turn proved about them.
- `Service`: the `GameService` class. Its stores are maps from ids to stored
  values. Each request loads the stored game into a fresh `Game`, changes
  that object in place with the source's own steps (draw, dealer loop,
  setters, settlement), and writes it back only on success. Each method is
  proved against the `Lifecycle` function for the same request, so every
  property proved there holds for the class.

The Reactor pipelines are flattened into sequential methods: an error signal
becomes a `Failure` result, and on a failure neither store changes, because
the code only saves at the end of a successful chain.

Where the code and the documented intent of the service differ, the model
follows the code:

- A PUSH is settled as a loss: `endAndPersist` is called with
  `playerWon == false` for every outcome other than PLAYER_WIN, so
  `recordLoss` runs for a push (`Lifecycle.PlaySettles`).
- The current copy's immediate-blackjack payout is 1.5 × the bet, and a new
  game's bet is still 0, so that payout records a win of 0
  (`Lifecycle.DealPayout`).
- When the dealer must hit and the deck is empty, `draw` throws, so STAND
  and DOUBLE fail with the deck-exhausted error rather than stopping the
  dealer early (`Lifecycle.DealerDrawsPrefix`). On a game in play this
  never happens: any 17 cards are worth at least 17, and an open game
  leaves at least 29 in the deck (`Lifecycle.PlayNeverRunsOut`).

## Model

| member | source | states |
|---|---|---|
| Cards.Rank.Value | src/main/java/blackJack/model/Card.java:7-14 | every value is between 2 and 11; 11 exactly for ACE; TWO..TEN are worth their face number; JACK, QUEEN and KING are worth 10 |
| Cards.Card.Value | src/main/java/blackJack/model/Card.java:30 | a card is worth its rank's value, between 2 and 11 |
| Cards.Card.Equals | src/main/java/blackJack/model/Card.java:33-38 | two cards are equal exactly when suit and rank are equal |
| Cards.ValueIgnoresSuit | src/main/java/blackJack/model/Card.java:30 | the value of a card depends on its rank only |
| Cards.ValueExamples | src/test/java/blackjack/model/CardTest.java:8-11 | KING of clubs is worth 10, ACE of hearts 11, all court cards 10 |
| Hands.SoftenDowngrades | src/main/java/blackJack/model/Hand.java:21-24 | the ace loop turns some k of the aces from 11 into 1: the result is the raw sum minus 10k, at most 21 unless every ace was turned, and it stops at the first total of 21 or less |
| Hands.SoftenIsBest | src/main/java/blackJack/model/Hand.java:21-24 | no other number of downgraded aces gives a higher total that is still 21 or less |
| Hands.Soften | src/main/java/blackJack/model/Hand.java:21-24 | the ace loop lowers the sum by at most 10 per ace, never raises it, and leaves it over 21 only after turning every ace into 1 |
| Hands.TotalOf | src/main/java/blackJack/model/Hand.java:14-26 | the total lies between the sum with every ace worth 1 and the sum with every ace worth 11, and a total over 21 counts every ace as 1 |
| Hands.TotalDecomposes | src/main/java/blackJack/model/Hand.java:14-26 | the hand total is the sum of the card values minus 10 for each ace counted as 1; it is over 21 only when every ace already counts as 1; it counts an ace as 1 only when counting it as 11 would bust |
| Hands.TotalIsBest | src/main/java/blackJack/model/Hand.java:14-26 | the total is the highest total of 21 or less among all choices of aces counted as 1 |
| Hands.CountBoundsTotal | src/main/java/blackJack/model/Hand.java:14-26 | every card adds at least 1 once aces count as 1, so a hand is never worth less than its number of cards |
| Hands.TwoCardsNeverBust | src/main/java/blackJack/model/Hand.java:14-29 | no two cards are bust: two aces count 12 |
| Hands.TotalExamples | src/test/java/blackjack/model/HandTest.java:8-21 | A+9 is 20, A+9+5 is 15, A+6+5 is 12, A+A+9 is 21, 10+7 is 17, and ACE with KING is a blackjack |
| Hands.Hand.constructor | src/main/java/blackJack/model/Hand.java:7 | a new hand is empty |
| Hands.Hand.SetCards | src/main/java/blackJack/model/Hand.java:10 | the hand holds exactly the given cards |
| Hands.Hand.Add | src/main/java/blackJack/model/Hand.java:12 | the card is appended and the earlier cards are kept in order |
| Hands.Hand.Total | src/main/java/blackJack/model/Hand.java:14-26 | the summing loop and the ace loop compute the hand total the soft-ace theory describes |
| Hands.Hand.IsBlackjack | src/main/java/blackJack/model/Hand.java:28 | true exactly for two cards totalling 21 |
| Hands.Hand.IsBust | src/main/java/blackJack/model/Hand.java:29 | true exactly when the total exceeds 21 |
| Engine.Total | src/main/java/blackJack/service/BlackjackEngine.java:11-15 | the total of a list of cards is the hand total |
| Engine.DealerShouldHit | src/main/java/blackJack/service/BlackjackEngine.java:17-19 | a dealer who must hit is never bust, and a dealer blackjack stands |
| Engine.DecideOutcome | src/main/java/blackJack/service/BlackjackEngine.java:21-29 | never PLAYER_BLACKJACK; DEALER_WIN exactly when the player is bust or the dealer is not bust and higher; PLAYER_WIN exactly when the player is not bust and the dealer is bust or lower; PUSH exactly for equal totals with neither bust |
| Engine.OutcomeIsAntisymmetric | src/main/java/blackJack/service/BlackjackEngine.java:21-29 | with neither hand bust, swapping the hands swaps the winner and keeps a push |
| Engine.BustPlayerAlwaysLoses | src/main/java/blackJack/service/BlackjackEngine.java:24 | a bust player loses even to a bust dealer |
| Engine.DealerPolicyExamples | src/main/java/blackJack/service/BlackjackEngine.java:17-19 | the dealer hits 6+9, stands on 10+7 and stands on the soft 17 A+6 |
| Engine.OutcomeExamples | src/test/java/blackjack/service/BlackjackEngineTest.java:48-102 | the five outcome cases of the unit tests: player bust, dealer bust, player higher, dealer higher, equal |
| Decks.Unshuffled | src/main/java/blackjack/model/Deck.java:11-15 | the ordered deck has 52 cards |
| Decks.UnshuffledOrder | src/main/java/blackjack/model/Deck.java:11-15 | the ordered deck is suit-major and rank-minor in enum order: the card at index i has position i, and every card sits at its position |
| Decks.UnshuffledHasEveryCardOnce | src/main/java/blackjack/model/Deck.java:11-15 | every (suit, rank) pair occurs exactly once in the ordered deck |
| Decks.Ordered | src/main/java/blackjack/model/Deck.java:10-15 | the two nested loops build exactly the ordered deck |
| Decks.Shuffle | src/main/java/blackjack/model/Deck.java:16 | the swap loop returns a permutation of its input, whatever index each step picks |
| Decks.NewShuffled | src/main/java/blackjack/model/Deck.java:9-18 | a new deck has 52 cards, is a permutation of the ordered deck, and holds every card exactly once |
| Players.LedgerKeepsTally | src/main/java/blackJack/domain/mysql/Player.java:67-77 | a win or a loss counts one more game, keeps games played equal to wins plus losses, and moves the balance by exactly the amount, up for a win and down for a loss |
| Players.LossMayOverdraw | src/main/java/blackJack/domain/mysql/Player.java:73-77 | a loss is recorded without a balance check: a new player losing 10 has balance -10 |
| Players.Credited | src/main/java/blackJack/domain/mysql/Player.java:67-71 | a win keeps the tally, adds one win and no loss, keeps the name, and raises the balance by exactly the amount |
| Players.Debited | src/main/java/blackJack/domain/mysql/Player.java:73-77 | a loss keeps the tally, adds one loss and no win, keeps the name, and lowers the balance by exactly the amount |
| Players.Player.Of | src/main/java/blackJack/domain/mysql/Player.java:46-48 | a new player has the name, no id, no games, no wins, no losses and balance 0 |
| Players.Player.Load | src/main/java/blackJack/domain/mysql/Player.java:36-44 | the all-fields constructor holds the given id and fields |
| Players.Player.RecordWin | src/main/java/blackJack/domain/mysql/Player.java:67-71 | one more win and one more game, balance increased by the amount, losses and name unchanged |
| Players.Player.RecordLoss | src/main/java/blackJack/domain/mysql/Player.java:73-77 | one more loss and one more game, balance decreased by the amount, wins and name unchanged |
| Games.Game.constructor | src/main/java/blackjack/domain/mongo/Game.java:20-41 | a new game has no id and no player, empty deck and hands, bet 0, status PLAYER_TURN and no outcome |
| Games.Game.Load | src/main/java/blackjack/domain/mongo/Game.java:20-33 | a game read from the store has the stored id and fields |
| Games.Game.SetId | src/main/java/blackjack/domain/mongo/Game.java:45 | sets the id |
| Games.Game.SetPlayerId | src/main/java/blackjack/domain/mongo/Game.java:47 | sets the player id |
| Games.Game.SetDeck | src/main/java/blackjack/domain/mongo/Game.java:49 | sets the deck |
| Games.Game.SetPlayerHand | src/main/java/blackjack/domain/mongo/Game.java:51 | sets the player's hand |
| Games.Game.SetDealerHand | src/main/java/blackjack/domain/mongo/Game.java:53 | sets the dealer's hand |
| Games.Game.SetBet | src/main/java/blackjack/domain/mongo/Game.java:55 | sets the bet |
| Games.Game.SetStatus | src/main/java/blackjack/domain/mongo/Game.java:57 | sets the status |
| Games.Game.SetOutcome | src/main/java/blackjack/domain/mongo/Game.java:59 | sets the outcome |
| Lifecycle.Apply | src/main/java/blackjack/service/PlayerService.java:35-47 | a ledger call changes at most the named player's row, keeps the set of player ids, and does nothing for an unknown id |
| Lifecycle.Placed | src/main/java/blackjack/service/GameService.java:84-89 | the first-move rule changes at most the bet; the player is kept |
| Lifecycle.Stake | src/main/java/blackjack/service/GameService.java:137-144 | the current copy settles a positive bet as itself and falls back to exactly 1 for any other bet; the legacy copy settles a positive bet as itself |
| Lifecycle.Settle | src/main/java/blackjack/service/GameService.java:137-144 | `endAndPersist` saves the game as it is and always makes a ledger call: a win exactly when the player won, for the stake |
| Lifecycle.BlackjackPayout | src/main/java/blackjack/service/GameService.java:56-60 | both copies pay 1.5 on a bet of 1, and no copy pays a negative amount on a bet that is not negative |
| Lifecycle.Deal | src/main/java/blackjack/service/GameService.java:35-63 | the new game belongs to the player, has bet 0, two cards in each hand and the shoe after four cards as its deck; it finishes, as PLAYER_BLACKJACK with a win of the blackjack payout, exactly when the player's two cards are a blackjack, and makes a ledger call exactly then |
| Lifecycle.Doubled | src/main/java/blackjack/service/GameService.java:114 | DOUBLE's stake is twice the placed bet, everything else unchanged |
| Lifecycle.DealAlternates | src/main/java/blackjack/service/GameService.java:40-54 | the deal gives the player cards 1 and 3 and the dealer cards 2 and 4 of the shuffled deck, keeps the other 48 in order, leaves bet 0, and finishes the game as PLAYER_BLACKJACK exactly when the player's two cards make 21 |
| Lifecycle.DealPayout | src/main/java/blackjack/service/GameService.java:56-60 | only an immediate blackjack makes a ledger call, a win of 1.5 × the bet in the current copy (0 at deal time) and of 1.5 in the legacy copy |
| Lifecycle.DealWellFormed | src/main/java/blackjack/service/GameService.java:35-54 | a game dealt from a full deck is well formed: no card lost or made up, two cards per hand, bet not negative, finished exactly when it has an outcome, and, when open, a player who is not bust against a two-card dealer |
| Lifecycle.RiggedDeal | src/main/java/blackjack/service/GameService.java:40-54 | dealing 8, 7, 9, 6 gives the player 17 and the dealer 13 and leaves the game open with no ledger call |
| Lifecycle.DealerDrawsPrefix | src/main/java/blackjack/service/GameService.java:146-150 | the dealer loop takes cards from the top of the deck in order, and stops at the first hand worth 17 or more; when the deck runs out before that, dealer play fails |
| Lifecycle.DealerDrawsConserves | src/main/java/blackjack/service/GameService.java:146-157 | dealer play only moves cards from the deck to the dealer's hand |
| Lifecycle.DealerDraws | src/main/java/blackjack/service/GameService.java:146-150 | dealer play fails only when the dealer still has to hit; when it ends, the dealer's hand is worth 17 or more and the deck has not grown |
| Lifecycle.ResolvePlaysDealerOut | src/main/java/blackjack/service/GameService.java:104-109 | dealer play then `decideOutcome` then `endAndPersist` fails exactly when the deck runs out while the dealer must still hit; otherwise the dealer takes the top cards up to the first hand worth 17 or more, the player's hand is kept, the outcome is `decideOutcome` of the two hands, and the stake is a win only for PLAYER_WIN |
| Lifecycle.Resolve | src/main/java/blackjack/service/GameService.java:104-109 | dealer play fails only with the copy's exhausted error; a success keeps the player's hand, player id and bet, and finishes with `decideOutcome` of the player's and the final dealer hand |
| Lifecycle.FinishedIsFinal | src/main/java/blackjack/service/GameService.java:80-82 | every action on a finished game fails with "Game already finished" |
| Lifecycle.FirstMoveBet | src/main/java/blackjack/service/GameService.java:84-89 | on an open game the bet error happens exactly when no bet is placed and the requested bet (1 when absent) is not positive; after a successful action the bet is the placed bet, doubled for DOUBLE |
| Lifecycle.HitDrawsOne | src/main/java/blackjack/service/GameService.java:92-103 | once the finished and bet checks pass, HIT fails exactly on an empty deck, with the copy's exhausted error; a successful HIT moves the top card to the player, finishes exactly on a bust, as DEALER_WIN with a loss of the stake, and an open game makes no ledger call |
| Lifecycle.StandPlaysDealerOut | src/main/java/blackjack/service/GameService.java:104-109 | once the checks pass, STAND fails exactly when the deck runs out while the dealer must still hit; a successful STAND keeps the player's hand, gives the dealer the top cards up to the first hand worth 17 or more, finishes with `decideOutcome` and records a win for PLAYER_WIN and a loss for anything else |
| Lifecycle.DoubleRule | src/main/java/blackjack/service/GameService.java:110-129 | once the checks pass, DOUBLE with other than two player cards fails with "DOUBLE only allowed on first turn"; with two it fails, with the copy's exhausted error, exactly when the deck is empty or the drawn card does not bust and the dealer then runs out; a successful DOUBLE draws exactly one card, doubles the placed bet and finishes the game: a bust as DEALER_WIN with a loss of the stake, anything else by dealer play as for STAND on the rest of the deck |
| Lifecycle.PlayFailsExactly | src/main/java/blackjack/service/GameService.java:75-135 | `play` fails exactly when the game is finished, or the first-move bet is not positive, or DOUBLE is not on the first turn, or a draw finds the deck empty; the error is the first of these that applies, the last being the copy's deck-exhausted error |
| Lifecycle.DealerStandsInTime | src/main/java/blackjack/service/GameService.java:146-150 | a dealer with 17 cards or more between hand and deck stands before the deck runs out |
| Lifecycle.OpenGameNeverRunsOut | src/main/java/blackjack/service/GameService.java:91-157 | an open well-formed game has at least 29 cards in the deck, and no action on it runs out of cards |
| Lifecycle.PlayNeverRunsOut | src/main/java/blackjack/service/GameService.java:75-135 | on a well-formed game the deck-exhausted error never happens: `play` fails exactly when the game is finished, the first-move bet is not positive, or DOUBLE is not on the first turn |
| Lifecycle.FreshGameTakesEveryMove | src/test/java/blackjack/integrationTest/GameServiceIntegrationTest.java:100-179 | on a freshly dealt game that is not an immediate blackjack, every first move without a bet succeeds with bet 1: HIT gives a third card, STAND finishes with PLAYER_WIN, DEALER_WIN or PUSH, and DOUBLE finishes with bet 2 |
| Lifecycle.PlayTurn | src/main/java/blackjack/service/GameService.java:75-135 | `play` fails only with one of its four errors (already finished, bet not positive, DOUBLE not on the first turn, deck exhausted); a success needs an open game and keeps the game's player |
| Lifecycle.Act | src/main/java/blackjack/service/GameService.java:91-133 | an action on a placed bet fails only with the copy's exhausted error or, for DOUBLE, the first-turn error; a success keeps the game's player |
| Lifecycle.AfterHit | src/main/java/blackjack/service/GameService.java:92-103 | HIT fails exactly on an empty deck, with the copy's exhausted error; a success adds one card to the player's hand and keeps the player and the bet |
| Lifecycle.AfterDouble | src/main/java/blackjack/service/GameService.java:115-129 | DOUBLE's draw and play fail only with the copy's exhausted error; a success always finishes the game and keeps the player and the bet |
| Lifecycle.AfterDoubleDraws | src/main/java/blackjack/service/GameService.java:114-129 | once the bet is doubled, DOUBLE fails exactly on an empty deck or when the drawn card does not bust and the dealer runs out; a success draws one card, keeps the doubled bet, loses on a bust and otherwise plays the dealer out on the rest of the deck |
| Lifecycle.PlaySettles | src/main/java/blackjack/service/GameService.java:137-144 | after a successful action the game is open exactly when no ledger call is made, a win is recorded exactly for PLAYER_WIN, every other finish (DEALER_WIN or PUSH) records a loss, and the amount is the stake |
| Lifecycle.DrawKeeps | src/main/java/blackjack/service/GameService.java:152-157 | a draw moves the top card of the deck to the end of the player's hand, loses no card, and leaves every other field, the player id included, as it was |
| Lifecycle.DrawForPlayer | src/main/java/blackjack/service/GameService.java:152-157 | a draw fails exactly on an empty deck, with the copy's exhausted error; otherwise the deck loses one card and the player's hand gains one |
| Lifecycle.ResolveKeeps | src/main/java/blackjack/service/GameService.java:104-109 | dealer play and settlement keep the player's hand and bet, only move cards to the dealer, and finish with an outcome |
| Lifecycle.PlayConservesCards | src/main/java/blackjack/service/GameService.java:91-133 | a successful action loses no card and makes none up |
| Lifecycle.PlayPreservesShape | src/main/java/blackjack/service/GameService.java:75-135 | a successful action keeps the cards, never shrinks a hand, keeps the staked bet, and gives every finished game an outcome |
| Lifecycle.PlayPreservesWellFormed | src/main/java/blackjack/service/GameService.java:75-135 | a successful action keeps a well-formed game well formed, so a game left open still has a player who is not bust and a two-card dealer, and leaves its bet positive |
| Lifecycle.CopiesAgree | src/main/java/blackJack/service/GameService.java:92-130 | with a positive bet, the legacy copy's HIT, STAND and DOUBLE steps give the same result as the current copy's whenever the latter succeeds |
| Lifecycle.ActCopiesAgree | src/main/java/blackJack/service/GameService.java:92-130 | with a positive bet, both copies take the same action step |
| Lifecycle.StakeIsTheBet | src/main/java/blackJack/service/GameService.java:138-147 | on a well-formed game every settlement of the current copy is for exactly the game's bet, which is positive, and the legacy copy gives the same result |
| Lifecycle.FixtureBusts | src/test/java/blackjack/util/GameMother.java:14-35 | on the fixture game (8+9 against 7+6, deck 5,7,2,K) HIT busts with 22, finishing as DEALER_WIN with a loss of 1; DOUBLE busts the same way with bet 2 and a loss of 2 |
| Lifecycle.FixtureDoubleAfterHit | src/main/java/blackjack/service/GameService.java:92-113 | from the fixture with the 2 on top, HIT without a bet reaches 19 and leaves the game open with no ledger call; DOUBLE on that three-card hand is then refused |
| Service.GameService.constructor | src/main/java/blackjack/service/GameService.java:27-30 | a new service has empty stores and satisfies its invariant |
| Service.GameService.FindOrCreate | src/main/java/blackjack/service/PlayerService.java:22-24 | returns a player with that name; an existing one leaves the store unchanged, otherwise a new row with no games and balance 0 is saved under a fresh id |
| Service.GameService.RecordWin | src/main/java/blackjack/service/PlayerService.java:35-40 | the player store becomes `Apply` of a win: the player's row is credited, an unknown id changes nothing |
| Service.GameService.RecordLoss | src/main/java/blackjack/service/PlayerService.java:42-47 | the player store becomes `Apply` of a loss: the player's row is debited, an unknown id changes nothing |
| Service.GameService.Save | src/main/java/blackjack/service/GameService.java:101 | the game store holds the game's current fields under its id |
| Service.GameService.Get | src/main/java/blackjack/service/GameService.java:66-69 | an unknown id fails with NotFound; otherwise a fresh game with the stored fields |
| Service.GameService.Delete | src/main/java/blackjack/service/GameService.java:71-73 | the game, if any, is removed; nothing else changes |
| Service.GameService.TakeTop | src/main/java/blackjack/service/GameService.java:41-44 | the top card of the deck is appended to the chosen hand; the other hand is unchanged |
| Service.GameService.Draw | src/main/java/blackjack/service/GameService.java:152-157 | fails exactly on an empty deck, changing nothing; otherwise moves the top card to the chosen hand |
| Service.GameService.DealerPlay | src/main/java/blackjack/service/GameService.java:146-150 | the loop succeeds exactly when the dealer-draw function does, and leaves the deck and dealer hand it describes |
| Service.GameService.EndAndPersist | src/main/java/blackjack/service/GameService.java:137-144 | the game is saved, then the player store records a win or a loss of the copy's stake |
| Service.GameService.DealHands | src/main/java/blackjack/service/GameService.java:39-44 | the four opening draws go player, dealer, player, dealer from the top of the deck |
| Service.GameService.DealNew | src/main/java/blackjack/service/GameService.java:35-54 | the new game holds the deal of a freshly shuffled full deck |
| Service.GameService.PayBlackjack | src/main/java/blackjack/service/GameService.java:56-62 | an opening blackjack records a win of the copy's payout; any other game makes no ledger call |
| Service.GameService.OpenGame | src/main/java/blackjack/service/GameService.java:35-63 | the dealt game is stored under a new id and its ledger call applied, keeping the store invariant |
| Service.GameService.CreateNewGame | src/main/java/blackjack/service/GameService.java:32-64 | the player is found or created, and the stores change exactly as `Deal` on the shuffled deck says |
| Service.GameService.StandOut | src/main/java/blackjack/service/GameService.java:104-109 | dealer play and settlement change the game and the stores as `Resolve` says, and nothing on failure |
| Service.GameService.PlayerDraws | src/main/java/blackjack/service/GameService.java:92-103 | the player's draw with bust check changes the game and stores as HIT's and DOUBLE's steps say |
| Service.GameService.DoubleDown | src/main/java/blackjack/service/GameService.java:110-129 | DOUBLE changes the game and stores as its step says, and nothing on failure |
| Service.GameService.Act | src/main/java/blackjack/service/GameService.java:91-133 | the action switch changes the game and stores as the action step says, and nothing on failure |
| Service.GameService.Step | src/main/java/blackjack/service/GameService.java:79-134 | the checks, the bet rule and the action change the game and stores as `PlayTurn` says, and nothing on failure |
| Service.GameService.Play | src/main/java/blackjack/service/GameService.java:75-135 | an unknown id fails with NotFound; otherwise the stores change exactly as `PlayTurn` says, nothing changes on failure, every stored game stays well formed and keeps belonging to a stored player |

## Left out

- Controllers, request and response DTOs, the exception handler and the
  OpenAPI configuration: HTTP plumbing outside the game core.
- `PlayerService.changeName`, `PlayerService.ranking` and the win-rate of a
  ranking: they do not touch the game lifecycle.
- Timestamps (`createdAt`, `updatedAt`, `Instant.now()`): clock reads that no
  rule depends on.
- The Reactor scheduling of the pipelines and concurrent requests: the model
  runs one request at a time.
- The `default` branch of the action switch: the action is a closed
  datatype, so that branch cannot be reached.
- `Card.hashCode` and `Card.toString`: no rule depends on them.
- The legacy `endAndPersist` default for a null bet: a stored bet is never
  null (the constructor sets 0 and `play` reads the bet before settling), so
  the legacy stake is the bet.
- Decks.Shuffle: the random index of each swap is an arbitrary choice, so
  the model proves only that the result is a permutation, not the uniform
  distribution of `Collections.shuffle`.
- Players.Player.RecordWin: the tallies are unbounded integers; Java's `int`
  would wrap after 2^31 - 1 games, which the model does not follow.
- Players.Player.RecordLoss: the same for the `losses` and `gamesPlayed`
  counters, which the model does not wrap either.
- Players.Player.RecordWin: money is an exact `real`; `BigDecimal` scale
  and rounding are not modelled.
- Service.GameService.FindOrCreate: when several stored players share the
  name, the model picks any one of them; the repository query would fail
  instead.
- Service.GameService.CreateNewGame: store ids are handed out by counters;
  the real stores assign their own ids.
- The list aliasing between a `Hand` and the game's hand list (`setCards`
  shares the list): the model passes the hand by value, which is the same
  because no `Hand` method used here mutates it.
- Ledger calls for a game without a player, or whose player is not stored:
  `Apply` leaves the player store alone in that case, but the service never
  reaches it, because `Service.GameService.Valid` keeps every stored game's
  player id among the stored players; what the repository would do with a
  null id is not modelled.
