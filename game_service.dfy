/**
 * GameService (blackjack/service/GameService.java and its legacy copy
 * blackJack/service/GameService.java) over two stores: the game store, a map
 * from game id to stored game, and the player store, a map from player id to
 * stored player. A request reads its game from the store into a fresh Game,
 * changes that Game in place and writes it back only on success, so a failed
 * request leaves both stores as they were.
 */
module Service {
  import opened Wrappers
  import opened Cards
  import opened Hands
  import opened Engine
  import opened Decks
  import opened Players
  import opened Games
  import opened Lifecycle

  /** The hand a card is dealt to. */
  datatype Seat = PlayerSeat | DealerSeat

  /** Every stored game has an id below `next` and is well formed. */
  ghost predicate GamesValid(games: map<GameId, GameDoc>, next: GameId)
  {
    forall k :: k in games ==> k < next && WellFormed(games[k])
  }

  /** Storing a well-formed game under an id below `next` keeps the store valid. */
  lemma StoreKeepsValid(games: map<GameId, GameDoc>, next: GameId, id: GameId, doc: GameDoc)
    requires GamesValid(games, next) && id < next && WellFormed(doc)
    ensures GamesValid(games[id := doc], next)
  {
  }

  class GameService {
    const variant: Variant
    var games: map<GameId, GameDoc>
    var players: map<PlayerId, PlayerRow>
    /** The ids the stores hand out next. */
    var nextGameId: GameId
    var nextPlayerId: PlayerId

    /**
     * Ids below the next ones, every stored game well formed, and every
     * stored game belonging to a stored player.
     */
    ghost predicate Valid()
      reads this
    {
      && GamesValid(games, nextGameId)
      && (forall k :: k in players ==> k < nextPlayerId)
      && (forall k :: k in games ==> games[k].playerId.Some? && games[k].playerId.value in players)
    }

    constructor (variant: Variant)
      ensures Valid() && this.variant == variant
      ensures games == map[] && players == map[]
    {
      this.variant := variant;
      games, players := map[], map[];
      nextGameId, nextPlayerId := 0, 0;
    }

    /**
     * `PlayerService.findOrCreate`: the player with that name, or a new
     * player with no games and balance 0 saved under a fresh id.
     */
    method FindOrCreate(name: string) returns (pid: PlayerId)
      requires Valid()
      modifies this`players, this`nextPlayerId
      ensures Valid()
      ensures pid in players && players[pid].name == name
      ensures (exists q :: q in old(players) && old(players)[q].name == name) ==>
                pid in old(players) && players == old(players)
      ensures (forall q :: q in old(players) ==> old(players)[q].name != name) ==>
                pid !in old(players) && players == old(players)[pid := PlayerRow(name, 0, 0, 0, 0.0)]
    {
      if q :| q in players && players[q].name == name {
        pid := q;
      } else {
        var p := new Player.Of(name);
        pid := nextPlayerId;
        nextPlayerId := nextPlayerId + 1;
        players := players[pid := p.Row()];
      }
    }

    /** `PlayerService.recordWin`: credits a stored player; an unknown id changes nothing. */
    method RecordWin(pid: Option<PlayerId>, amount: real)
      modifies this`players
      ensures players == Apply(old(players), pid, Win(amount))
    {
      if pid.Some? && pid.value in players {
        var p := new Player.Load(pid.value, players[pid.value]);
        p.RecordWin(amount);
        players := players[pid.value := p.Row()];
      }
    }

    /** `PlayerService.recordLoss`: debits a stored player; an unknown id changes nothing. */
    method RecordLoss(pid: Option<PlayerId>, amount: real)
      modifies this`players
      ensures players == Apply(old(players), pid, Loss(amount))
    {
      if pid.Some? && pid.value in players {
        var p := new Player.Load(pid.value, players[pid.value]);
        p.RecordLoss(amount);
        players := players[pid.value := p.Row()];
      }
    }

    /**
     * `games.save(g)` for a game that has its id. A step of `OpenGame` and
     * `Play`, which prove the saved game well formed and so keep `Valid`.
     */
    method Save(id: GameId, g: Game)
      modifies this`games
      ensures games == old(games)[id := g.Doc()]
    {
      games := games[id := g.Doc()];
    }

    /** `get(id)`: the stored game read into a fresh Game, or NotFound. */
    method Get(id: GameId) returns (r: Result<Game, Error>)
      ensures id !in games ==> r == Failure(NotFound(id))
      ensures id in games ==> r.Success? && fresh(r.value) && r.value.Doc() == games[id] && r.value.id == Some(id)
    {
      if id !in games {
        return Failure(NotFound(id));
      }
      var g := new Game.Load(id, games[id]);
      return Success(g);
    }

    /** `delete(id)`: removes the game, if there is one. */
    method Delete(id: GameId)
      requires Valid()
      modifies this`games
      ensures Valid()
      ensures games == old(games) - {id}
    {
      games := games - {id};
    }

    /** `hand.add(deck.remove(0))`: the top card of the deck goes to the end of a hand. */
    method TakeTop(g: Game, seat: Seat)
      requires g.deck != []
      modifies g`deck, g`playerHand, g`dealerHand
      ensures g.deck == old(g.deck)[1..]
      ensures seat == PlayerSeat ==> g.playerHand == old(g.playerHand) + [old(g.deck)[0]] && g.dealerHand == old(g.dealerHand)
      ensures seat == DealerSeat ==> g.dealerHand == old(g.dealerHand) + [old(g.deck)[0]] && g.playerHand == old(g.playerHand)
    {
      var top := g.deck[0];
      g.deck := g.deck[1..];
      match seat
      case PlayerSeat => g.playerHand := g.playerHand + [top];
      case DealerSeat => g.dealerHand := g.dealerHand + [top];
    }

    /** `draw(hand, deck)`: fails (ok false) on an empty deck, otherwise takes the top card. */
    method Draw(g: Game, seat: Seat) returns (ok: bool)
      modifies g`deck, g`playerHand, g`dealerHand
      ensures ok <==> old(g.deck) != []
      ensures !ok ==> g.deck == old(g.deck) && g.playerHand == old(g.playerHand) && g.dealerHand == old(g.dealerHand)
      ensures ok ==> g.deck == old(g.deck)[1..]
      ensures ok && seat == PlayerSeat ==> g.playerHand == old(g.playerHand) + [old(g.deck)[0]] && g.dealerHand == old(g.dealerHand)
      ensures ok && seat == DealerSeat ==> g.dealerHand == old(g.dealerHand) + [old(g.deck)[0]] && g.playerHand == old(g.playerHand)
    {
      if g.deck == [] {
        return false;
      }
      TakeTop(g, seat);
      return true;
    }

    /** `dealerPlay`: the dealer draws while it should hit; ok is false when the deck runs out. */
    method DealerPlay(g: Game) returns (ok: bool)
      modifies g`deck, g`playerHand, g`dealerHand
      ensures g.playerHand == old(g.playerHand)
      ensures ok <==> DealerDraws(old(g.deck), old(g.dealerHand)).Some?
      ensures ok ==> (g.deck, g.dealerHand) == DealerDraws(old(g.deck), old(g.dealerHand)).value
    {
      while DealerShouldHit(g.dealerHand)
        invariant g.playerHand == old(g.playerHand)
        invariant DealerDraws(g.deck, g.dealerHand) == DealerDraws(old(g.deck), old(g.dealerHand))
        decreases |g.deck|
      {
        var drew := Draw(g, DealerSeat);
        if !drew {
          return false;
        }
      }
      return true;
    }

    /**
     * `endAndPersist(g, playerWon)`: saves the game, then records a win or a
     * loss of the stake for its player. A step of `Play`, which keeps `Valid`.
     */
    method EndAndPersist(id: GameId, g: Game, won: bool)
      modifies this`games, this`players
      ensures games == old(games)[id := g.Doc()]
      ensures players == Apply(old(players), g.playerId, Settle(variant, g.Doc(), won).ledger)
    {
      Save(id, g);
      var amount := match variant
        case Current => if g.bet > 0.0 then g.bet else 1.0
        case Legacy => g.bet;
      if won {
        RecordWin(g.playerId, amount);
      } else {
        RecordLoss(g.playerId, amount);
      }
    }

    /** The opening deal: player, dealer, player, dealer from the top of the deck. */
    method DealHands(g: Game)
      requires |g.deck| >= 4 && g.playerHand == [] && g.dealerHand == []
      modifies g`deck, g`playerHand, g`dealerHand
      ensures g.deck == old(g.deck)[4..]
      ensures g.playerHand == [old(g.deck)[0], old(g.deck)[2]]
      ensures g.dealerHand == [old(g.deck)[1], old(g.deck)[3]]
    {
      TakeTop(g, PlayerSeat);
      TakeTop(g, DealerSeat);
      TakeTop(g, PlayerSeat);
      TakeTop(g, DealerSeat);
    }

    /**
     * The middle of `createNewGame`: a new game for player `pid`, dealt from a
     * freshly shuffled deck `shoe`, finished at once on a player blackjack.
     */
    method DealNew(pid: PlayerId) returns (g: Game, ghost shoe: seq<Card>)
      ensures fresh(g) && g.id == None
      ensures |shoe| == 52 && multiset(shoe) == multiset(Unshuffled())
      ensures g.Doc() == Deal(variant, pid, shoe).doc
    {
      g := new Game();
      g.SetPlayerId(Some(pid));
      var deck := NewShuffled();
      shoe := deck;
      g.SetDeck(deck);
      DealHands(g);

      var hand := new Hand();
      hand.SetCards(g.playerHand);
      var blackjack := hand.IsBlackjack();
      if blackjack {
        g.SetStatus(Finished);
        g.SetOutcome(Some(PlayerBlackjack));
      }
    }

    /** The tail of `createNewGame`: a game that opened on a player blackjack pays out at once. */
    method PayBlackjack(g: Game)
      modifies this`players
      ensures players == Apply(old(players), g.playerId,
        if g.outcome == Some(PlayerBlackjack) then Win(BlackjackPayout(variant, g.bet)) else NoCall)
    {
      if g.outcome == Some(PlayerBlackjack) {
        var payout := match variant
          case Current => g.bet * 1.5
          case Legacy => 1.5;
        RecordWin(g.playerId, payout);
      }
    }

    /**
     * The end of `createNewGame` for player `pid`: deals, saves the game
     * under a new id and pays an immediate blackjack.
     */
    method OpenGame(pid: PlayerId) returns (g: Game, ghost shoe: seq<Card>)
      requires GamesValid(games, nextGameId)
      modifies this`games, this`players, this`nextGameId
      ensures GamesValid(games, nextGameId) && nextGameId == old(nextGameId) + 1
      ensures fresh(g) && g.id == Some(old(nextGameId)) && g.playerId == Some(pid)
      ensures |shoe| == 52 && multiset(shoe) == multiset(Unshuffled())
      ensures var t := Deal(variant, pid, shoe);
        && g.Doc() == t.doc
        && games == old(games)[old(nextGameId) := t.doc]
        && players == Apply(old(players), g.playerId, t.ledger)
    {
      g, shoe := DealNew(pid);
      ghost var t := Deal(variant, pid, shoe);
      DealWellFormed(variant, pid, shoe);

      var id := nextGameId;
      nextGameId := nextGameId + 1;
      g.SetId(Some(id));
      assert g.Doc() == t.doc;
      StoreKeepsValid(games, nextGameId, id, t.doc);
      Save(id, g);

      PayBlackjack(g);
      assert (if g.outcome == Some(PlayerBlackjack) then Win(BlackjackPayout(variant, g.bet)) else NoCall) == t.ledger;
    }

    /**
     * `createNewGame(name)`: finds or creates the player, then deals a new
     * game, saves it under a new id and pays an immediate blackjack. `shoe`
     * is the deck as shuffled; `roster` the player store once the player is
     * found or created.
     */
    method CreateNewGame(name: string) returns (g: Game, ghost shoe: seq<Card>, ghost roster: map<PlayerId, PlayerRow>)
      requires Valid()
      modifies this`games, this`players, this`nextGameId, this`nextPlayerId
      ensures Valid()
      ensures fresh(g) && g.id.Some? && g.id.value !in old(games) && g.playerId.Some?
      ensures |shoe| == 52 && multiset(shoe) == multiset(Unshuffled())
      ensures g.playerId.value in roster && roster[g.playerId.value].name == name
      ensures (exists q :: q in old(players) && old(players)[q].name == name) ==> roster == old(players)
      ensures (forall q :: q in old(players) ==> old(players)[q].name != name) ==>
                roster == old(players)[g.playerId.value := PlayerRow(name, 0, 0, 0, 0.0)]
      ensures var t := Deal(variant, g.playerId.value, shoe);
        && g.Doc() == t.doc
        && games == old(games)[g.id.value := t.doc]
        && players == Apply(roster, g.playerId, t.ledger)
    {
      var pid := FindOrCreate(name);
      roster := players;
      g, shoe := OpenGame(pid);
    }

    /**
     * The dealer plays out and the game is settled (STAND, and DOUBLE without
     * a bust), checked against `Resolve`. A step of `Play`, which keeps `Valid`.
     */
    method StandOut(id: GameId, g: Game) returns (ok: bool)
      modifies g`deck, g`playerHand, g`dealerHand, g`status, g`outcome
      modifies this`games, this`players
      ensures var res := Resolve(variant, old(g.Doc()));
        && (ok <==> res.Success?)
        && (!ok ==> games == old(games) && players == old(players))
        && (ok ==> g.Doc() == res.value.doc && games == old(games)[id := g.Doc()]
                   && players == Apply(old(players), g.playerId, res.value.ledger))
    {
      ok := DealerPlay(g);
      if !ok {
        return;
      }
      g.SetStatus(Finished);
      g.SetOutcome(Some(DecideOutcome(g.playerHand, g.dealerHand)));
      EndAndPersist(id, g, g.outcome == Some(PlayerWin));
    }

    /**
     * The player draws one card; a bust ends the game as a dealer win. When
     * `thenStand` holds (DOUBLE) the dealer then plays out; otherwise (HIT)
     * the game is saved as it is. Checked against `AfterDouble` / `AfterHit`.
     * A step of `Play`, which keeps `Valid`.
     */
    method PlayerDraws(id: GameId, g: Game, thenStand: bool) returns (ok: bool)
      modifies g`deck, g`playerHand, g`dealerHand, g`status, g`outcome
      modifies this`games, this`players
      ensures var res := if thenStand then AfterDouble(variant, old(g.Doc())) else AfterHit(variant, old(g.Doc()));
        && (ok <==> res.Success?)
        && (!ok ==> games == old(games) && players == old(players))
        && (ok ==> g.Doc() == res.value.doc && games == old(games)[id := g.Doc()]
                   && players == Apply(old(players), g.playerId, res.value.ledger))
    {
      ghost var d := g.Doc();
      ok := Draw(g, PlayerSeat);
      if !ok {
        return;
      }
      assert g.Doc() == DrawForPlayer(variant, d).value;
      var hand := new Hand();
      hand.SetCards(g.playerHand);
      var bust := hand.IsBust();
      if bust {
        g.SetStatus(Finished);
        g.SetOutcome(Some(DealerWin));
        EndAndPersist(id, g, false);
      } else if thenStand {
        ok := StandOut(id, g);
      } else {
        Save(id, g);
      }
    }

    /**
     * DOUBLE: refused unless the player holds two cards, otherwise the bet
     * doubles and the player draws once. A step of `Play`, which keeps `Valid`.
     */
    method DoubleDown(id: GameId, g: Game) returns (ok: Result<(), Error>)
      modifies g`deck, g`playerHand, g`dealerHand, g`bet, g`status, g`outcome
      modifies this`games, this`players
      ensures var res := Lifecycle.Act(variant, old(g.Doc()), Double);
        && (ok.Failure? <==> res.Failure?)
        && (ok.Failure? ==> ok.error == res.error && games == old(games) && players == old(players))
        && (ok.Success? ==> g.Doc() == res.value.doc && games == old(games)[id := g.Doc()]
                            && players == Apply(old(players), g.playerId, res.value.ledger))
    {
      ghost var d := g.Doc();
      if |g.playerHand| != 2 {
        return Failure(BadRequest(DoubleNotFirstTurn));
      }
      g.SetBet(g.bet * 2.0);
      assert g.Doc() == Doubled(d);
      var drew := PlayerDraws(id, g, true);
      ok := if drew then Success(()) else Failure(Exhausted(variant));
    }

    /** HIT, STAND or DOUBLE on a game whose bet is placed, checked against `Act`. A step of `Play`. */
    method Act(id: GameId, g: Game, action: Action) returns (ok: Result<(), Error>)
      modifies g`deck, g`playerHand, g`dealerHand, g`bet, g`status, g`outcome
      modifies this`games, this`players
      ensures var res := Lifecycle.Act(variant, old(g.Doc()), action);
        && (ok.Failure? <==> res.Failure?)
        && (ok.Failure? ==> ok.error == res.error && games == old(games) && players == old(players))
        && (ok.Success? ==> g.Doc() == res.value.doc && games == old(games)[id := g.Doc()]
                            && players == Apply(old(players), g.playerId, res.value.ledger))
    {
      ghost var d := g.Doc();
      var drew: bool;
      match action {
        case Hit =>
          assert Lifecycle.Act(variant, d, action) == AfterHit(variant, d);
          drew := PlayerDraws(id, g, false);
        case Stand =>
          assert Lifecycle.Act(variant, d, action) == Resolve(variant, d);
          drew := StandOut(id, g);
        case Double =>
          ok := DoubleDown(id, g);
          return;
      }
      ok := if drew then Success(()) else Failure(Exhausted(variant));
    }

    /**
     * The body of `play` once the game is loaded: the finished check, the
     * first-move bet rule, then the action; on any error neither store
     * changes. `Play` proves the new game well formed and so keeps `Valid`.
     */
    method Step(id: GameId, g: Game, action: Action, requested: Option<real>) returns (r: Result<Game, Error>)
      modifies g`deck, g`playerHand, g`dealerHand, g`bet, g`status, g`outcome
      modifies this`games, this`players
      ensures r.Failure? ==> games == old(games) && players == old(players)
      ensures match PlayTurn(variant, old(g.Doc()), action, requested)
        case Failure(e) => r == Failure(e)
        case Success(t) =>
          && r == Success(g) && g.Doc() == t.doc
          && games == old(games)[id := t.doc]
          && players == Apply(old(players), t.doc.playerId, t.ledger)
    {
      var bet := if requested.None? then 1.0 else requested.value;
      if g.status == Finished {
        return Failure(BadRequest(AlreadyFinished));
      }
      if g.bet == 0.0 && bet <= 0.0 {
        return Failure(BadRequest(BetNotPositive));
      }
      if g.bet == 0.0 {
        g.SetBet(bet);
      }
      var done := Act(id, g, action);
      if done.Failure? {
        return Failure(done.error);
      }
      r := Success(g);
    }

    /**
     * `play(id, request)`: loads the game, or fails with NotFound, and takes
     * the step `PlayTurn` describes; on any error neither store changes.
     */
    method Play(id: GameId, action: Action, requested: Option<real>) returns (r: Result<Game, Error>)
      requires Valid()
      modifies this`games, this`players
      ensures Valid()
      ensures r.Failure? ==> games == old(games) && players == old(players)
      ensures id !in old(games) ==> r == Failure(NotFound(id))
      ensures id in old(games) ==>
        match PlayTurn(variant, old(games)[id], action, requested)
        case Failure(e) => r == Failure(e)
        case Success(t) =>
          && r.Success? && r.value.Doc() == t.doc
          && games == old(games)[id := t.doc]
          && players == Apply(old(players), t.doc.playerId, t.ledger)
    {
      var found := Get(id);
      if found.Failure? {
        return Failure(found.error);
      }
      r := Step(id, found.value, action, requested);
      if r.Success? {
        PlayPreservesWellFormed(variant, old(games)[id], action, requested);
        StoreKeepsValid(old(games), nextGameId, id, r.value.Doc());
      }
    }
  }
}
