/**
 * The game record (blackjack/domain/mongo/Game.java): the remaining deck,
 * the two hands, the bet, the status and the outcome, all mutable fields.
 */
module Games {
  import opened Wrappers
  import opened Cards
  import opened Engine
  import opened Players

  /** The store-assigned game id (an opaque key). */
  type GameId = nat

  datatype Status = PlayerTurn | Finished

  /** What the game store keeps under a game id. */
  datatype GameDoc = GameDoc(
    playerId: Option<PlayerId>,
    deck: seq<Card>,
    playerHand: seq<Card>,
    dealerHand: seq<Card>,
    bet: real,
    status: Status,
    outcome: Option<Outcome>)

  class Game {
    var id: Option<GameId>
    var playerId: Option<PlayerId>
    var deck: seq<Card>
    var playerHand: seq<Card>
    var dealerHand: seq<Card>
    var bet: real
    var status: Status
    var outcome: Option<Outcome>

    /** `new Game()`: empty lists, bet 0, PLAYER_TURN, no outcome, no ids. */
    constructor ()
      ensures id == None && playerId == None
      ensures deck == [] && playerHand == [] && dealerHand == []
      ensures bet == 0.0 && status == PlayerTurn && outcome == None
    {
      id, playerId := None, None;
      deck, playerHand, dealerHand := [], [], [];
      bet := 0.0;
      status := PlayerTurn;
      outcome := None;
    }

    /** The game a store read rebuilds from a stored document. */
    constructor Load(id: GameId, doc: GameDoc)
      ensures this.id == Some(id) && Doc() == doc
    {
      this.id := Some(id);
      playerId := doc.playerId;
      deck, playerHand, dealerHand := doc.deck, doc.playerHand, doc.dealerHand;
      bet := doc.bet;
      status := doc.status;
      outcome := doc.outcome;
    }

    /** The stored form of the game. */
    function Doc(): GameDoc
      reads this
    {
      GameDoc(playerId, deck, playerHand, dealerHand, bet, status, outcome)
    }

    // Each setter may change its own field only.

    method SetId(x: Option<GameId>)
      modifies this`id
      ensures id == x
    {
      id := x;
    }

    method SetPlayerId(x: Option<PlayerId>)
      modifies this`playerId
      ensures playerId == x
    {
      playerId := x;
    }

    method SetDeck(x: seq<Card>)
      modifies this`deck
      ensures deck == x
    {
      deck := x;
    }

    method SetPlayerHand(x: seq<Card>)
      modifies this`playerHand
      ensures playerHand == x
    {
      playerHand := x;
    }

    method SetDealerHand(x: seq<Card>)
      modifies this`dealerHand
      ensures dealerHand == x
    {
      dealerHand := x;
    }

    method SetBet(x: real)
      modifies this`bet
      ensures bet == x
    {
      bet := x;
    }

    method SetStatus(x: Status)
      modifies this`status
      ensures status == x
    {
      status := x;
    }

    method SetOutcome(x: Option<Outcome>)
      modifies this`outcome
      ensures outcome == x
    {
      outcome := x;
    }
  }
}
