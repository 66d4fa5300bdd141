/**
 * The per-game turn state machine of GameService, as functions from a stored
 * game to the next stored game and the ledger call it makes. Both copies of
 * the service are described at once; `Variant` picks the copy where they
 * differ (the deck-exhausted error, the settled amount and the blackjack
 * payout).
 */
module Lifecycle {
  import opened Wrappers
  import opened Cards
  import opened Hands
  import opened Engine
  import opened Decks
  import opened Players
  import opened Games

  /** Current: blackjack/service/GameService.java; Legacy: blackJack/service/GameService.java. */
  datatype Variant = Current | Legacy

  /** `PlayRequest.Action`, a closed enum. */
  datatype Action = Hit | Stand | Double

  /** NotFoundException, BadRequestException and IllegalStateException. */
  datatype Error = NotFound(id: GameId) | BadRequest(message: string) | IllegalState(message: string)

  /** The call a step makes on the player store, if any. */
  datatype Ledger = NoCall | Win(amount: real) | Loss(amount: real)

  /** The game a step saves and the ledger call that follows the save. */
  datatype Turn = Turn(doc: GameDoc, ledger: Ledger)

  const AlreadyFinished := "Game already finished"
  const BetNotPositive := "Bet must be positive on first move"
  const DoubleNotFirstTurn := "DOUBLE only allowed on first turn"
  const DeckExhausted := "Deck exhausted"

  /** What `draw` throws on an empty deck: a bad request, or an illegal state in the legacy copy. */
  function Exhausted(v: Variant): Error
  {
    match v
    case Current => BadRequest(DeckExhausted)
    case Legacy => IllegalState(DeckExhausted)
  }

  /** A request without a bet bets 1. */
  function RequestBet(requested: Option<real>): real
  {
    if requested.None? then 1.0 else requested.value
  }

  /**
   * The amount `endAndPersist` settles: the bet when positive and 1
   * otherwise; the legacy copy settles the bet itself.
   */
  function Stake(v: Variant, bet: real): (s: real)
    ensures v == Current ==> s > 0.0
    ensures v == Current && bet <= 0.0 ==> s == 1.0
    ensures bet > 0.0 ==> s == bet
  {
    match v
    case Current => if bet > 0.0 then bet else 1.0
    case Legacy => bet
  }

  /** The immediate-blackjack win: 1.5 times the bet, or a fixed 1.5 in the legacy copy. */
  function BlackjackPayout(v: Variant, bet: real): (payout: real)
    ensures bet == 1.0 ==> payout == 1.5
    ensures bet >= 0.0 ==> payout >= 0.0
  {
    match v
    case Current => bet * 1.5
    case Legacy => 1.5
  }

  /** The player store after a ledger call; an unknown player is left alone. */
  function Apply(players: map<PlayerId, PlayerRow>, pid: Option<PlayerId>, call: Ledger): (r: map<PlayerId, PlayerRow>)
    ensures r.Keys == players.Keys
    ensures forall q :: q in r && pid != Some(q) ==> r[q] == players[q]
  {
    if pid.None? || pid.value !in players then players
    else match call
      case NoCall => players
      case Win(a) => players[pid.value := Credited(players[pid.value], a)]
      case Loss(a) => players[pid.value := Debited(players[pid.value], a)]
  }

  /**
   * The initial deal of `createNewGame` from a shuffled deck: the first four
   * cards go to player, dealer, player, dealer; a player blackjack finishes
   * the game at once and is paid.
   */
  function Deal(v: Variant, pid: PlayerId, shoe: seq<Card>): (t: Turn)
    requires |shoe| >= 4
    ensures t.doc.playerId == Some(pid) && t.doc.bet == 0.0 && t.doc.deck == shoe[4..]
    ensures |t.doc.playerHand| == 2 && |t.doc.dealerHand| == 2
    ensures t.doc.status == Finished <==> Blackjack(t.doc.playerHand)
    ensures t.ledger != NoCall <==> t.doc.status == Finished
    ensures t.doc.status == Finished ==>
      t.doc.outcome == Some(PlayerBlackjack) && t.ledger == Win(BlackjackPayout(v, t.doc.bet))
  {
    var doc := GameDoc(Some(pid), shoe[4..], [shoe[0], shoe[2]], [shoe[1], shoe[3]], 0.0, PlayerTurn, None);
    if Blackjack(doc.playerHand) then
      var done := doc.(status := Finished, outcome := Some(PlayerBlackjack));
      Turn(done, Win(BlackjackPayout(v, done.bet)))
    else
      Turn(doc, NoCall)
  }

  /** `draw(playerHand, deck)`. */
  function DrawForPlayer(v: Variant, d: GameDoc): (r: Result<GameDoc, Error>)
    ensures r.Failure? <==> d.deck == []
    ensures r.Failure? ==> r.error == Exhausted(v)
    ensures r.Success? ==> |r.value.deck| + 1 == |d.deck| && |r.value.playerHand| == |d.playerHand| + 1
  {
    if d.deck == [] then Failure(Exhausted(v))
    else Success(d.(deck := d.deck[1..], playerHand := d.playerHand + [d.deck[0]]))
  }

  /**
   * `dealerPlay`: the remaining deck and the dealer hand once the dealer
   * stands, or None when the dealer must hit and the deck is empty.
   */
  function DealerDraws(deck: seq<Card>, dealer: seq<Card>): (r: Option<(seq<Card>, seq<Card>)>)
    ensures r.None? ==> DealerShouldHit(dealer)
    ensures r.Some? ==> !DealerShouldHit(r.value.1) && |r.value.0| <= |deck|
    decreases |deck|
  {
    if !DealerShouldHit(dealer) then Some((deck, dealer))
    else if deck == [] then None
    else DealerDraws(deck[1..], dealer + [deck[0]])
  }

  function Finish(d: GameDoc, o: Outcome): GameDoc
  {
    d.(status := Finished, outcome := Some(o))
  }

  /** `endAndPersist`: save the game, then record a win or a loss of the stake. */
  function Settle(v: Variant, d: GameDoc, won: bool): (t: Turn)
    ensures t.doc == d && t.ledger != NoCall
    ensures t.ledger.Win? <==> won
    ensures t.ledger.amount == Stake(v, d.bet)
  {
    Turn(d, if won then Win(Stake(v, d.bet)) else Loss(Stake(v, d.bet)))
  }

  /** Dealer auto-play, then the outcome, then settlement. */
  function Resolve(v: Variant, d: GameDoc): (r: Result<Turn, Error>)
    ensures r.Failure? ==> r.error == Exhausted(v)
    ensures r.Success? ==>
      && r.value.doc.playerHand == d.playerHand && r.value.doc.playerId == d.playerId && r.value.doc.bet == d.bet
      && r.value.doc.status == Finished
      && r.value.doc.outcome == Some(DecideOutcome(d.playerHand, r.value.doc.dealerHand))
  {
    match DealerDraws(d.deck, d.dealerHand)
    case None => Failure(Exhausted(v))
    case Some(table) =>
      var done := Finish(d.(deck := table.0, dealerHand := table.1), DecideOutcome(d.playerHand, table.1));
      Success(Settle(v, done, done.outcome == Some(PlayerWin)))
  }

  /** HIT: one card to the player; a bust loses, otherwise the game stays open. */
  function AfterHit(v: Variant, d: GameDoc): (r: Result<Turn, Error>)
    ensures r.Failure? <==> d.deck == []
    ensures r.Failure? ==> r.error == Exhausted(v)
    ensures r.Success? ==>
      && |r.value.doc.playerHand| == |d.playerHand| + 1
      && r.value.doc.playerId == d.playerId && r.value.doc.bet == d.bet
  {
    match DrawForPlayer(v, d)
    case Failure(e) => Failure(e)
    case Success(d') =>
      if Bust(d'.playerHand) then Success(Settle(v, Finish(d', DealerWin), false))
      else Success(Turn(d', NoCall))
  }

  /** DOUBLE once the bet is doubled: one card to the player, then a bust loses or the dealer plays. */
  function AfterDouble(v: Variant, d: GameDoc): (r: Result<Turn, Error>)
    ensures r.Failure? ==> r.error == Exhausted(v)
    ensures r.Success? ==>
      && r.value.doc.status == Finished
      && r.value.doc.playerId == d.playerId && r.value.doc.bet == d.bet
  {
    match DrawForPlayer(v, d)
    case Failure(e) => Failure(e)
    case Success(d') =>
      if Bust(d'.playerHand) then Success(Settle(v, Finish(d', DealerWin), false))
      else Resolve(v, d')
  }

  /** The game once the first-move rule has run: a game without a bet takes the request's. */
  function Placed(d: GameDoc, requested: Option<real>): (p: GameDoc)
    ensures p.(bet := d.bet) == d
    ensures p.playerId == d.playerId
  {
    if d.bet == 0.0 then d.(bet := RequestBet(requested)) else d
  }

  /** DOUBLE's stake: the placed bet, twice. */
  function Doubled(d: GameDoc): (r: GameDoc)
    ensures r.bet == 2.0 * d.bet
    ensures r.(bet := d.bet) == d
  {
    d.(bet := d.bet * 2.0)
  }

  /** The action itself, on a game whose bet is placed; DOUBLE doubles it first. */
  function Act(v: Variant, placed: GameDoc, action: Action): (r: Result<Turn, Error>)
    ensures r.Failure? ==> r.error == Exhausted(v) || (action == Double && r.error == BadRequest(DoubleNotFirstTurn))
    ensures r.Success? ==> r.value.doc.playerId == placed.playerId
  {
    match action
    case Hit => AfterHit(v, placed)
    case Stand => Resolve(v, placed)
    case Double =>
      if |placed.playerHand| != 2 then Failure(BadRequest(DoubleNotFirstTurn))
      else AfterDouble(v, Doubled(placed))
  }

  /** `play(id, request)` on the stored game `d`. */
  function PlayTurn(v: Variant, d: GameDoc, action: Action, requested: Option<real>): (r: Result<Turn, Error>)
    ensures r.Failure? ==> r.error in {BadRequest(AlreadyFinished), BadRequest(BetNotPositive),
                                       BadRequest(DoubleNotFirstTurn), Exhausted(v)}
    ensures r.Success? ==> d.status.PlayerTurn?
    ensures r.Success? ==> r.value.doc.playerId == d.playerId
  {
    if d.status == Finished then Failure(BadRequest(AlreadyFinished))
    else if d.bet == 0.0 && RequestBet(requested) <= 0.0 then Failure(BadRequest(BetNotPositive))
    else Act(v, Placed(d, requested), action)
  }

  /**
   * A stored game is well formed when its bet is not negative, it has an
   * outcome exactly when it is finished, each hand has its two dealt cards,
   * and its deck and hands together are the 52 cards of a fresh deck.
   */
  ghost predicate WellFormed(d: GameDoc)
  {
    && d.bet >= 0.0
    && (d.status == Finished <==> d.outcome.Some?)
    && |d.playerHand| >= 2 && |d.dealerHand| >= 2
    && multiset(d.deck + d.playerHand + d.dealerHand) == multiset(Unshuffled())
    && (d.status == PlayerTurn ==> |d.dealerHand| == 2 && !Bust(d.playerHand))
  }

  // ---------------------------------------------------------------------
  // Dealing

  /**
   * The deal alternates player, dealer, player, dealer from the front of the
   * deck, leaves the rest, loses no card, and finishes the game with
   * PLAYER_BLACKJACK exactly when the player's two cards are a blackjack.
   */
  lemma DealAlternates(v: Variant, pid: PlayerId, shoe: seq<Card>)
    requires |shoe| >= 4
    ensures Deal(v, pid, shoe).doc.playerHand == [shoe[0], shoe[2]]
    ensures Deal(v, pid, shoe).doc.dealerHand == [shoe[1], shoe[3]]
    ensures Deal(v, pid, shoe).doc.deck == shoe[4..]
    ensures multiset(Deal(v, pid, shoe).doc.deck + Deal(v, pid, shoe).doc.playerHand
                     + Deal(v, pid, shoe).doc.dealerHand) == multiset(shoe)
    ensures Deal(v, pid, shoe).doc.bet == 0.0
    ensures Deal(v, pid, shoe).doc.status == Finished <==> Blackjack([shoe[0], shoe[2]])
    ensures Deal(v, pid, shoe).doc.status == Finished ==> Deal(v, pid, shoe).doc.outcome == Some(PlayerBlackjack)
    ensures Deal(v, pid, shoe).doc.status == PlayerTurn ==> Deal(v, pid, shoe).doc.outcome == None
  {
    var doc := GameDoc(Some(pid), shoe[4..], [shoe[0], shoe[2]], [shoe[1], shoe[3]], 0.0, PlayerTurn, None);
    assert Deal(v, pid, shoe).doc == if Blackjack(doc.playerHand) then Finish(doc, PlayerBlackjack) else doc;
    assert shoe == [shoe[0], shoe[1], shoe[2], shoe[3]] + shoe[4..];
  }

  /**
   * The immediate-blackjack payout: the current copy pays 1.5 times a bet
   * that is still 0, so it tallies a win worth nothing; the legacy copy pays a
   * fixed 1.5. Without a blackjack the deal makes no ledger call.
   */
  lemma DealPayout(v: Variant, pid: PlayerId, shoe: seq<Card>)
    requires |shoe| >= 4
    ensures Blackjack([shoe[0], shoe[2]]) && v == Current ==> Deal(v, pid, shoe).ledger == Win(0.0)
    ensures Blackjack([shoe[0], shoe[2]]) && v == Legacy ==> Deal(v, pid, shoe).ledger == Win(1.5)
    ensures !Blackjack([shoe[0], shoe[2]]) ==> Deal(v, pid, shoe).ledger == NoCall
  {
  }

  /** A deal from a full fresh deck gives a well-formed game. */
  lemma DealWellFormed(v: Variant, pid: PlayerId, shoe: seq<Card>)
    requires |shoe| == 52 && multiset(shoe) == multiset(Unshuffled())
    ensures WellFormed(Deal(v, pid, shoe).doc)
  {
    DealAlternates(v, pid, shoe);
    TwoCardsNeverBust(shoe[0], shoe[2]);
  }

  /**
   * The rigged deck 8C 7S 9D 6H: the player holds 8C 9D worth 17, the dealer
   * 7S 6H worth 13, and the game waits for the player.
   */
  lemma RiggedDeal(v: Variant, pid: PlayerId, rest: seq<Card>)
    ensures var t := Deal(v, pid, [Card(Clubs, Eight), Card(Spades, Seven), Card(Diamonds, Nine), Card(Hearts, Six)] + rest);
      && t.doc.playerHand == [Card(Clubs, Eight), Card(Diamonds, Nine)]
      && t.doc.dealerHand == [Card(Spades, Seven), Card(Hearts, Six)]
      && TotalOf(t.doc.playerHand) == 17 && TotalOf(t.doc.dealerHand) == 13
      && t.doc.status == PlayerTurn && t.ledger == NoCall
  {
    SumsOfSmallHands(Card(Clubs, Eight), Card(Diamonds, Nine), Card(Clubs, Two));
    SumsOfSmallHands(Card(Spades, Seven), Card(Hearts, Six), Card(Clubs, Two));
  }

  // ---------------------------------------------------------------------
  // Dealer auto-play

  /**
   * The dealer takes cards from the front of the deck, one at a time, and
   * stops at the first hand worth 17 or more: it never draws once at 17 and
   * never stands below it. When the deck runs out first, every hand it went
   * through was below 17.
   */
  lemma {:induction false} DealerDrawsPrefix(deck: seq<Card>, dealer: seq<Card>)
    ensures match DealerDraws(deck, dealer)
      case Some(table) => StopsAt(deck, dealer, table)
      case None => DeckRunsOut(deck, dealer)
    decreases |deck|
  {
    if !DealerShouldHit(dealer) {
      assert deck[..0] == [] && deck[0..] == deck;
    } else if deck == [] {
      assert dealer + deck[..0] == dealer;
    } else {
      var tail, hand := deck[1..], dealer + [deck[0]];
      DealerDrawsPrefix(tail, hand);
      assert DealerDraws(deck, dealer) == DealerDraws(tail, hand);
      match DealerDraws(tail, hand) {
        case Some(table) => StopsAtStep(deck, dealer, table);
        case None => RunsOutStep(deck, dealer);
      }
    }
  }

  /**
   * Dealer play from `deck` onto `dealer` stopped with `table`: the deck
   * left is a suffix of the deck, the dealer took the cards before it in
   * order, and the dealer stands there and at no earlier hand.
   */
  ghost predicate StopsAt(deck: seq<Card>, dealer: seq<Card>, table: (seq<Card>, seq<Card>))
  {
    && |table.0| <= |deck|
    && table.0 == deck[|deck| - |table.0|..]
    && table.1 == dealer + deck[..|deck| - |table.0|]
    && !DealerShouldHit(table.1)
    && forall m :: 0 <= m < |deck| - |table.0| ==> DealerShouldHit(dealer + deck[..m])
  }

  /** A dealer who hits and then stops at `table` stopped there from the hand before the hit. */
  lemma StopsAtStep(deck: seq<Card>, dealer: seq<Card>, table: (seq<Card>, seq<Card>))
    requires deck != [] && DealerShouldHit(dealer)
    requires StopsAt(deck[1..], dealer + [deck[0]], table)
    ensures StopsAt(deck, dealer, table)
  {
    var tail, hand := deck[1..], dealer + [deck[0]];
    var n := |deck| - |table.0|;
    assert tail[|tail| - |table.0|..] == deck[n..];
    PrefixShift(deck, dealer, n);
    forall m | 0 <= m < n
      ensures DealerShouldHit(dealer + deck[..m])
    {
      if m == 0 {
        assert dealer + deck[..0] == dealer;
      } else {
        PrefixShift(deck, dealer, m);
      }
    }
  }

  /** A dealer who hits and then runs out of cards ran out from the hand before the hit. */
  lemma RunsOutStep(deck: seq<Card>, dealer: seq<Card>)
    requires deck != [] && DealerShouldHit(dealer)
    requires DeckRunsOut(deck[1..], dealer + [deck[0]])
    ensures DeckRunsOut(deck, dealer)
  {
    forall m | 0 <= m <= |deck|
      ensures DealerShouldHit(dealer + deck[..m])
    {
      if m == 0 {
        assert dealer + deck[..0] == dealer;
      } else {
        PrefixShift(deck, dealer, m);
      }
    }
  }

  /** Taking m cards from the deck is taking its top card, then m - 1 from the rest. */
  lemma PrefixShift(deck: seq<Card>, dealer: seq<Card>, m: nat)
    requires 1 <= m <= |deck|
    ensures dealer + deck[..m] == (dealer + [deck[0]]) + deck[1..][..m - 1]
  {
    assert deck[..m] == [deck[0]] + deck[1..][..m - 1];
  }

  /** Dealer auto-play loses no card: it only moves cards from the deck to the dealer. */
  lemma DealerDrawsConserves(deck: seq<Card>, dealer: seq<Card>)
    requires DealerDraws(deck, dealer).Some?
    ensures multiset(DealerDraws(deck, dealer).value.0 + DealerDraws(deck, dealer).value.1)
         == multiset(deck + dealer)
    ensures |DealerDraws(deck, dealer).value.1| >= |dealer|
  {
    DealerDrawsPrefix(deck, dealer);
    var table := DealerDraws(deck, dealer).value;
    var n := |deck| - |table.0|;
    assert deck == deck[..n] + deck[n..];
  }

  // ---------------------------------------------------------------------
  // Playing a turn

  /** Nothing leaves FINISHED: every action on a finished game fails. */
  lemma FinishedIsFinal(v: Variant, d: GameDoc, action: Action, requested: Option<real>)
    requires d.status == Finished
    ensures PlayTurn(v, d, action, requested) == Failure(BadRequest(AlreadyFinished))
  {
  }

  lemma HitKeepsBet(v: Variant, p: GameDoc)
    ensures AfterHit(v, p).Success? ==> AfterHit(v, p).value.doc.bet == p.bet
  {
  }

  lemma ResolveKeepsBet(v: Variant, p: GameDoc)
    ensures Resolve(v, p).Success? ==> Resolve(v, p).value.doc.bet == p.bet
  {
  }

  lemma DoubleKeepsBet(v: Variant, p: GameDoc)
    ensures Act(v, p, Double).Success? ==> Act(v, p, Double).value.doc.bet == 2.0 * p.bet
  {
    if |p.playerHand| == 2 && p.deck != [] {
      var q := Doubled(p);
      var q' := DrawForPlayer(v, q).value;
      if !Bust(q'.playerHand) {
        ResolveKeepsBet(v, q');
      }
    }
  }

  /**
   * The first-move bet rule: a game without a bet takes the request's bet (1
   * when absent), which must be positive; a game with a bet keeps it; DOUBLE
   * then doubles it.
   */
  lemma FirstMoveBet(v: Variant, d: GameDoc, action: Action, requested: Option<real>)
    requires d.status == PlayerTurn
    ensures PlayTurn(v, d, action, requested) == Failure(BadRequest(BetNotPositive))
        <==> d.bet == 0.0 && RequestBet(requested) <= 0.0
    ensures PlayTurn(v, d, action, requested).Success? ==>
      var placed := if d.bet == 0.0 then RequestBet(requested) else d.bet;
      PlayTurn(v, d, action, requested).value.doc.bet == (if action == Double then 2.0 * placed else placed)
  {
    if !(d.bet == 0.0 && RequestBet(requested) <= 0.0) {
      var p := Placed(d, requested);
      assert PlayTurn(v, d, action, requested) == Act(v, p, action);
      match action
      case Hit => HitKeepsBet(v, p);
      case Stand => ResolveKeepsBet(v, p);
      case Double => DoubleKeepsBet(v, p);
    }
  }

  /** `play` gets past its two checks: the game is open and the first-move bet is positive. */
  ghost predicate Accepts(d: GameDoc, requested: Option<real>)
  {
    d.status == PlayerTurn && !(d.bet == 0.0 && RequestBet(requested) <= 0.0)
  }

  /** The dealer would still have to hit after taking every card of the deck. */
  ghost predicate DeckRunsOut(deck: seq<Card>, dealer: seq<Card>)
  {
    forall m :: 0 <= m <= |deck| ==> DealerShouldHit(dealer + deck[..m])
  }

  /**
   * The turn `t` is dealer play from `deck` onto `dealer` against the
   * player's hand `player`: the player's hand is left alone, the dealer takes
   * cards from the top of the deck up to the first hand worth 17 or more,
   * the game finishes with `decideOutcome`, and it is settled as a win only
   * for PLAYER_WIN, as a loss for DEALER_WIN and for PUSH alike.
   */
  ghost predicate DealerPlayedOut(v: Variant, deck: seq<Card>, dealer: seq<Card>, player: seq<Card>, t: Turn)
  {
    && t.doc.playerHand == player
    && |t.doc.deck| <= |deck|
    && t.doc.deck == deck[|deck| - |t.doc.deck|..]
    && t.doc.dealerHand == dealer + deck[..|deck| - |t.doc.deck|]
    && TotalOf(t.doc.dealerHand) >= 17
    && (forall m :: 0 <= m < |deck| - |t.doc.deck| ==> TotalOf(dealer + deck[..m]) < 17)
    && t.doc.status == Finished
    && t.doc.outcome == Some(DecideOutcome(player, t.doc.dealerHand))
    && t.ledger == (if t.doc.outcome == Some(PlayerWin) then Win(Stake(v, t.doc.bet)) else Loss(Stake(v, t.doc.bet)))
  }

  /**
   * Dealer play (`dealerPlay`, then `decideOutcome`, then `endAndPersist`)
   * fails with the copy's deck-exhausted error exactly when the deck runs out
   * while the dealer must still hit, and otherwise plays the dealer out.
   */
  lemma ResolvePlaysDealerOut(v: Variant, p: GameDoc)
    ensures Resolve(v, p).Failure? <==> DeckRunsOut(p.deck, p.dealerHand)
    ensures Resolve(v, p).Success? ==>
      DealerPlayedOut(v, p.deck, p.dealerHand, p.playerHand, Resolve(v, p).value)
  {
    DealerDrawsPrefix(p.deck, p.dealerHand);
    match DealerDraws(p.deck, p.dealerHand)
    case Some(table) =>
      var n := |p.deck| - |table.0|;
      assert !DealerShouldHit(p.dealerHand + p.deck[..n]);
    case None =>
  }

  /**
   * HIT moves the top card of the deck to the end of the player's hand; a
   * bust finishes the game as DEALER_WIN and records a loss of the stake,
   * anything else leaves the game open with no ledger call. Once the checks
   * pass it fails exactly on an empty deck, with the copy's deck-exhausted
   * error.
   */
  lemma HitDrawsOne(v: Variant, d: GameDoc, requested: Option<real>)
    ensures Accepts(d, requested) ==> (PlayTurn(v, d, Hit, requested).Failure? <==> d.deck == [])
    ensures Accepts(d, requested) && d.deck == [] ==>
      PlayTurn(v, d, Hit, requested) == Failure(Exhausted(v))
    ensures PlayTurn(v, d, Hit, requested).Success? ==>
      var t := PlayTurn(v, d, Hit, requested).value;
      && d.deck != []
      && t.doc.playerHand == d.playerHand + [d.deck[0]]
      && t.doc.deck == d.deck[1..]
      && t.doc.dealerHand == d.dealerHand
      && (t.doc.status == Finished <==> Bust(t.doc.playerHand))
      && (t.doc.status == Finished ==> t.doc.outcome == Some(DealerWin) && t.ledger == Loss(Stake(v, t.doc.bet)))
      && (t.doc.status == PlayerTurn ==> t.doc.outcome == d.outcome && t.ledger == NoCall)
  {
    if Accepts(d, requested) {
      var p := Placed(d, requested);
      assert PlayTurn(v, d, Hit, requested) == AfterHit(v, p);
    }
  }

  /**
   * STAND is dealer play on the game as it is: it fails exactly when the
   * deck runs out while the dealer must still hit, and otherwise leaves the
   * player's hand alone, plays the dealer out and settles.
   */
  lemma StandPlaysDealerOut(v: Variant, d: GameDoc, requested: Option<real>)
    ensures Accepts(d, requested) ==>
      (PlayTurn(v, d, Stand, requested).Failure? <==> DeckRunsOut(d.deck, d.dealerHand))
    ensures PlayTurn(v, d, Stand, requested).Success? ==>
      DealerPlayedOut(v, d.deck, d.dealerHand, d.playerHand, PlayTurn(v, d, Stand, requested).value)
  {
    if Accepts(d, requested) {
      var p := Placed(d, requested);
      assert PlayTurn(v, d, Stand, requested) == Resolve(v, p);
      ResolvePlaysDealerOut(v, p);
    }
  }

  /**
   * DOUBLE once the bet is doubled: it fails exactly on an empty deck, or
   * when the drawn card leaves the player under 22 and the rest of the deck
   * runs out in dealer play; a bust loses, anything else is dealer play on
   * the rest of the deck.
   */
  lemma AfterDoubleDraws(v: Variant, q: GameDoc)
    ensures AfterDouble(v, q).Failure? <==>
      q.deck == [] || (!Bust(q.playerHand + [q.deck[0]]) && DeckRunsOut(q.deck[1..], q.dealerHand))
    ensures AfterDouble(v, q).Success? ==>
      var t := AfterDouble(v, q).value;
      && q.deck != []
      && t.doc.playerHand == q.playerHand + [q.deck[0]]
      && t.doc.bet == q.bet
      && t.doc.status == Finished
      && (Bust(t.doc.playerHand) ==> t.doc.outcome == Some(DealerWin) && t.ledger == Loss(Stake(v, t.doc.bet)))
      && (!Bust(t.doc.playerHand) ==> DealerPlayedOut(v, q.deck[1..], q.dealerHand, t.doc.playerHand, t))
  {
    if q.deck != [] {
      var q' := DrawForPlayer(v, q).value;
      if !Bust(q'.playerHand) {
        assert AfterDouble(v, q) == Resolve(v, q');
        ResolvePlaysDealerOut(v, q');
      }
    }
  }

  /**
   * DOUBLE is refused unless the player holds exactly two cards; otherwise it
   * doubles the bet and draws exactly one card for the player, then a bust
   * loses and anything else is dealer play as for STAND. It fails with the
   * copy's deck-exhausted error exactly when a draw finds the deck empty.
   */
  lemma DoubleRule(v: Variant, d: GameDoc, requested: Option<real>)
    ensures Accepts(d, requested) && |d.playerHand| != 2 ==>
      PlayTurn(v, d, Double, requested) == Failure(BadRequest(DoubleNotFirstTurn))
    ensures Accepts(d, requested) && |d.playerHand| == 2 ==>
      && (PlayTurn(v, d, Double, requested).Failure? <==>
            d.deck == [] || (!Bust(d.playerHand + [d.deck[0]]) && DeckRunsOut(d.deck[1..], d.dealerHand)))
      && (PlayTurn(v, d, Double, requested).Failure? ==> PlayTurn(v, d, Double, requested).error == Exhausted(v))
    ensures PlayTurn(v, d, Double, requested).Success? ==>
      var t := PlayTurn(v, d, Double, requested).value;
      && |d.playerHand| == 2 && d.deck != []
      && t.doc.playerHand == d.playerHand + [d.deck[0]]
      && t.doc.bet == 2.0 * (if d.bet == 0.0 then RequestBet(requested) else d.bet)
      && t.doc.status == Finished
      && (Bust(t.doc.playerHand) ==> t.doc.outcome == Some(DealerWin) && t.ledger == Loss(Stake(v, t.doc.bet)))
      && (!Bust(t.doc.playerHand) ==> DealerPlayedOut(v, d.deck[1..], d.dealerHand, t.doc.playerHand, t))
  {
    if Accepts(d, requested) {
      var p := Placed(d, requested);
      assert PlayTurn(v, d, Double, requested) == Act(v, p, Double);
      if |p.playerHand| == 2 {
        var q := Doubled(p);
        assert Act(v, p, Double) == AfterDouble(v, q);
        AfterDoubleDraws(v, q);
      }
    }
  }

  /** Running out of cards, action by action, once the checks pass. */
  ghost predicate RunsOut(d: GameDoc, action: Action)
  {
    match action
    case Hit => d.deck == []
    case Stand => DeckRunsOut(d.deck, d.dealerHand)
    case Double => d.deck == [] || (!Bust(d.playerHand + [d.deck[0]]) && DeckRunsOut(d.deck[1..], d.dealerHand))
  }

  /**
   * `play` fails exactly for its four errors, checked in this order: the
   * game is finished, the first-move bet is not positive, DOUBLE is not on
   * the first turn, or a draw finds the deck empty.
   */
  lemma PlayFailsExactly(v: Variant, d: GameDoc, action: Action, requested: Option<real>)
    ensures PlayTurn(v, d, action, requested).Failure? <==>
      || d.status == Finished
      || (d.bet == 0.0 && RequestBet(requested) <= 0.0)
      || (action == Double && |d.playerHand| != 2)
      || RunsOut(d, action)
    ensures PlayTurn(v, d, action, requested).Failure? ==>
      PlayTurn(v, d, action, requested).error ==
        if d.status == Finished then BadRequest(AlreadyFinished)
        else if d.bet == 0.0 && RequestBet(requested) <= 0.0 then BadRequest(BetNotPositive)
        else if action == Double && |d.playerHand| != 2 then BadRequest(DoubleNotFirstTurn)
        else Exhausted(v)
  {
    match action
    case Hit => HitDrawsOne(v, d, requested);
    case Stand => StandPlaysDealerOut(v, d, requested);
    case Double => DoubleRule(v, d, requested);
  }
  /** A dealer holding 17 cards or more between hand and deck stands before the deck runs out. */
  lemma DealerStandsInTime(deck: seq<Card>, dealer: seq<Card>)
    requires |dealer| + |deck| >= 17
    ensures !DeckRunsOut(deck, dealer)
  {
    var m := if |dealer| >= 17 then 0 else 17 - |dealer|;
    CountBoundsTotal(dealer + deck[..m]);
    assert !DealerShouldHit(dealer + deck[..m]);
  }

  /**
   * An open well-formed game has cards enough: the player, not bust, holds
   * at most 21 cards and the dealer 2, so at least 29 are left, and any 17
   * cards are worth 17 or more, so the dealer stands before the deck runs
   * out, after DOUBLE's draw too.
   */
  lemma OpenGameNeverRunsOut(d: GameDoc, action: Action)
    requires WellFormed(d) && d.status == PlayerTurn
    ensures |d.deck| >= 29
    ensures !RunsOut(d, action)
  {
    CountBoundsTotal(d.playerHand);
    assert |multiset(d.deck + d.playerHand + d.dealerHand)| == |Unshuffled()|;
    match action
    case Hit =>
    case Stand => DealerStandsInTime(d.deck, d.dealerHand);
    case Double => DealerStandsInTime(d.deck[1..], d.dealerHand);
  }

  /**
   * On a well-formed game the deck-exhausted error never happens: `play`
   * fails exactly when the game is finished, the first-move bet is not
   * positive, or DOUBLE is not on the first turn.
   */
  lemma PlayNeverRunsOut(v: Variant, d: GameDoc, action: Action, requested: Option<real>)
    requires WellFormed(d)
    ensures PlayTurn(v, d, action, requested).Failure? <==>
      || d.status == Finished
      || (d.bet == 0.0 && RequestBet(requested) <= 0.0)
      || (action == Double && |d.playerHand| != 2)
    ensures PlayTurn(v, d, action, requested).Failure? ==> PlayTurn(v, d, action, requested).error != Exhausted(v)
  {
    PlayFailsExactly(v, d, action, requested);
    if d.status == PlayerTurn {
      OpenGameNeverRunsOut(d, action);
    }
  }

  /**
   * A freshly dealt game that is not an immediate blackjack takes every
   * first move without a bet: HIT gives the player a third card, STAND
   * finishes with PLAYER_WIN, DEALER_WIN or PUSH, and DOUBLE finishes with
   * bet 2.
   */
  lemma FreshGameTakesEveryMove(v: Variant, pid: PlayerId, shoe: seq<Card>, action: Action)
    requires |shoe| == 52 && multiset(shoe) == multiset(Unshuffled())
    requires Deal(v, pid, shoe).doc.status == PlayerTurn
    ensures PlayTurn(v, Deal(v, pid, shoe).doc, action, None).Success?
    ensures var t := PlayTurn(v, Deal(v, pid, shoe).doc, action, None).value;
      && t.doc.bet == (if action == Double then 2.0 else 1.0)
      && (action == Hit ==> |t.doc.playerHand| == 3)
      && (action != Hit ==> t.doc.status == Finished)
      && (action == Stand ==> t.doc.outcome in {Some(PlayerWin), Some(DealerWin), Some(Push)})
  {
    var d := Deal(v, pid, shoe).doc;
    DealWellFormed(v, pid, shoe);
    PlayNeverRunsOut(v, d, action, None);
    FirstMoveBet(v, d, action, None);
    match action
    case Hit => HitDrawsOne(v, d, None);
    case Stand => StandPlaysDealerOut(v, d, None);
    case Double => DoubleRule(v, d, None);
  }


  /**
   * Settlement of a turn: the game stays open exactly when no ledger call is
   * made; a win is recorded exactly for PLAYER_WIN; every other finish
   * (DEALER_WIN or PUSH) records a loss; the amount is the stake.
   */
  ghost predicate Settled(v: Variant, t: Turn)
  {
    && (t.ledger == NoCall <==> t.doc.status == PlayerTurn)
    && (t.ledger.Win? <==> t.doc.outcome == Some(PlayerWin))
    && (t.doc.status == Finished ==> t.doc.outcome == Some(PlayerWin)
                                      || t.doc.outcome == Some(DealerWin) || t.doc.outcome == Some(Push))
    && (t.ledger.Loss? <==> t.doc.status == Finished && t.doc.outcome != Some(PlayerWin))
    && (t.ledger != NoCall ==> t.ledger.amount == Stake(v, t.doc.bet))
  }

  lemma ResolveSettles(v: Variant, p: GameDoc)
    requires Resolve(v, p).Success?
    ensures Settled(v, Resolve(v, p).value)
  {
  }

  lemma AfterHitSettles(v: Variant, p: GameDoc)
    requires p.status == PlayerTurn && p.outcome == None && AfterHit(v, p).Success?
    ensures Settled(v, AfterHit(v, p).value)
  {
  }

  lemma AfterDoubleSettles(v: Variant, q: GameDoc)
    requires AfterDouble(v, q).Success?
    ensures Settled(v, AfterDouble(v, q).value)
  {
    var q' := DrawForPlayer(v, q).value;
    if !Bust(q'.playerHand) {
      assert AfterDouble(v, q) == Resolve(v, q');
      ResolveSettles(v, q');
    }
  }

  /** Every successful action on a consistent game is settled as `Settled` says. */
  lemma PlaySettles(v: Variant, d: GameDoc, action: Action, requested: Option<real>)
    requires d.status == Finished <==> d.outcome.Some?
    ensures PlayTurn(v, d, action, requested).Success? ==> Settled(v, PlayTurn(v, d, action, requested).value)
  {
    if PlayTurn(v, d, action, requested).Success? {
      var p := Placed(d, requested);
      assert PlayTurn(v, d, action, requested) == Act(v, p, action);
      match action
      case Hit =>
        assert Act(v, p, action) == AfterHit(v, p);
        AfterHitSettles(v, p);
      case Stand =>
        assert Act(v, p, action) == Resolve(v, p);
        ResolveSettles(v, p);
      case Double =>
        var q := Doubled(p);
        assert Act(v, p, action) == AfterDouble(v, q);
        AfterDoubleSettles(v, q);
    }
  }

  /** A draw moves the top card of the deck to the player and changes nothing else. */
  lemma DrawKeeps(v: Variant, d: GameDoc)
    requires DrawForPlayer(v, d).Success?
    ensures var d' := DrawForPlayer(v, d).value;
      && multiset(d'.deck + d'.playerHand + d'.dealerHand) == multiset(d.deck + d.playerHand + d.dealerHand)
      && |d'.playerHand| == |d.playerHand| + 1
      && d'.dealerHand == d.dealerHand && d'.bet == d.bet
      && d'.status == d.status && d'.outcome == d.outcome
      && d' == d.(deck := d.deck[1..], playerHand := d.playerHand + [d.deck[0]])
  {
    assert d.deck == [d.deck[0]] + d.deck[1..];
  }

  /**
   * Dealer play and settlement keep the player's hand and the bet, only move
   * cards from the deck to the dealer, and finish the game with an outcome.
   */
  lemma ResolveKeeps(v: Variant, d: GameDoc)
    requires Resolve(v, d).Success?
    ensures var t := Resolve(v, d).value;
      && multiset(t.doc.deck + t.doc.playerHand + t.doc.dealerHand) == multiset(d.deck + d.playerHand + d.dealerHand)
      && t.doc.playerHand == d.playerHand && |t.doc.dealerHand| >= |d.dealerHand|
      && t.doc.bet == d.bet && t.doc.status == Finished && t.doc.outcome.Some?
  {
    DealerDrawsConserves(d.deck, d.dealerHand);
    var table := DealerDraws(d.deck, d.dealerHand).value;
    assert multiset(table.0 + d.playerHand + table.1) == multiset(table.0 + table.1) + multiset(d.playerHand);
  }

  /** A successful action loses no card and makes none up. */
  lemma PlayConservesCards(v: Variant, d: GameDoc, action: Action, requested: Option<real>)
    requires PlayTurn(v, d, action, requested).Success?
    ensures var t := PlayTurn(v, d, action, requested).value;
      multiset(t.doc.deck + t.doc.playerHand + t.doc.dealerHand)
        == multiset(d.deck + d.playerHand + d.dealerHand)
  {
    PlayPreservesShape(v, d, action, requested);
  }

  /** The facts a successful step keeps, for HIT and for DOUBLE once the bet is placed. */
  ghost predicate Keeps(d: GameDoc, t: Turn)
  {
    && multiset(t.doc.deck + t.doc.playerHand + t.doc.dealerHand)
         == multiset(d.deck + d.playerHand + d.dealerHand)
    && |t.doc.playerHand| >= |d.playerHand| && |t.doc.dealerHand| >= |d.dealerHand|
    && t.doc.bet == d.bet
    && (t.doc.status == Finished ==> t.doc.outcome.Some?)
    && (t.doc.status == PlayerTurn ==> t.doc.outcome == d.outcome)
    && (t.doc.status == PlayerTurn ==> t.doc.dealerHand == d.dealerHand && !Bust(t.doc.playerHand))
  }

  lemma AfterHitKeeps(v: Variant, d: GameDoc)
    requires d.status == PlayerTurn && AfterHit(v, d).Success?
    ensures Keeps(d, AfterHit(v, d).value)
  {
    DrawKeeps(v, d);
  }

  lemma AfterDoubleKeeps(v: Variant, d: GameDoc)
    requires AfterDouble(v, d).Success?
    ensures Keeps(d, AfterDouble(v, d).value)
  {
    DrawKeeps(v, d);
    var d' := DrawForPlayer(v, d).value;
    if !Bust(d'.playerHand) {
      ResolveKeeps(v, d');
    }
  }

  /** The game an action starts from once the bet rule has run and DOUBLE has doubled it. */
  function Staked(d: GameDoc, action: Action, requested: Option<real>): GameDoc
  {
    var p := Placed(d, requested);
    if action == Double then Doubled(p) else p
  }

  lemma HitShape(v: Variant, d: GameDoc, requested: Option<real>)
    requires PlayTurn(v, d, Hit, requested).Success?
    ensures Keeps(Staked(d, Hit, requested), PlayTurn(v, d, Hit, requested).value)
  {
    var p := Placed(d, requested);
    assert PlayTurn(v, d, Hit, requested) == AfterHit(v, p);
    AfterHitKeeps(v, p);
  }

  lemma StandShape(v: Variant, d: GameDoc, requested: Option<real>)
    requires PlayTurn(v, d, Stand, requested).Success?
    ensures Keeps(Staked(d, Stand, requested), PlayTurn(v, d, Stand, requested).value)
  {
    var p := Placed(d, requested);
    assert PlayTurn(v, d, Stand, requested) == Resolve(v, p);
    ResolveKeeps(v, p);
  }

  lemma DoubleShape(v: Variant, d: GameDoc, requested: Option<real>)
    requires PlayTurn(v, d, Double, requested).Success?
    ensures Keeps(Staked(d, Double, requested), PlayTurn(v, d, Double, requested).value)
  {
    var p := Placed(d, requested);
    assert PlayTurn(v, d, Double, requested) == Act(v, p, Double);
    assert Act(v, p, Double) == AfterDouble(v, Doubled(p));
    AfterDoubleKeeps(v, Doubled(p));
  }

  /** The facts every successful action keeps, branch by branch. */
  lemma PlayPreservesShape(v: Variant, d: GameDoc, action: Action, requested: Option<real>)
    requires PlayTurn(v, d, action, requested).Success?
    ensures Keeps(Staked(d, action, requested), PlayTurn(v, d, action, requested).value)
  {
    match action
    case Hit => HitShape(v, d, requested);
    case Stand => StandShape(v, d, requested);
    case Double => DoubleShape(v, d, requested);
  }

  /** Every successful action keeps a well-formed game well formed and leaves its bet positive. */
  lemma PlayPreservesWellFormed(v: Variant, d: GameDoc, action: Action, requested: Option<real>)
    requires WellFormed(d) && PlayTurn(v, d, action, requested).Success?
    ensures WellFormed(PlayTurn(v, d, action, requested).value.doc)
    ensures PlayTurn(v, d, action, requested).value.doc.bet > 0.0
  {
    PlayPreservesShape(v, d, action, requested);
  }

  /** With a positive bet the two copies take the same steps. */
  lemma CopiesAgree(d: GameDoc)
    requires d.bet > 0.0
    ensures AfterHit(Current, d).Success? ==> AfterHit(Legacy, d) == AfterHit(Current, d)
    ensures Resolve(Current, d).Success? ==> Resolve(Legacy, d) == Resolve(Current, d)
    ensures AfterDouble(Current, d).Success? ==> AfterDouble(Legacy, d) == AfterDouble(Current, d)
  {
    ResolveCopiesAgree(d);
    if DrawForPlayer(Current, d).Success? {
      var d' := DrawForPlayer(Current, d).value;
      assert DrawForPlayer(Legacy, d) == Success(d');
      ResolveCopiesAgree(d');
    }
  }

  lemma ResolveCopiesAgree(d: GameDoc)
    requires d.bet > 0.0
    ensures Resolve(Current, d).Success? ==> Resolve(Legacy, d) == Resolve(Current, d)
  {
    if Resolve(Current, d).Success? {
      ResolveKeeps(Current, d);
    }
  }

  lemma ActCopiesAgree(p: GameDoc, action: Action)
    requires p.bet > 0.0
    ensures Act(Current, p, action).Success? ==> Act(Legacy, p, action) == Act(Current, p, action)
  {
    match action
    case Hit =>
      CopiesAgree(p);
    case Stand =>
      CopiesAgree(p);
    case Double =>
      CopiesAgree(Doubled(p));
  }

  /**
   * On a well-formed game the settled amount is the bet itself, which is
   * positive: the current copy's fallback to 1 never applies, and the two
   * copies make the same step.
   */
  lemma StakeIsTheBet(d: GameDoc, action: Action, requested: Option<real>)
    requires WellFormed(d) && PlayTurn(Current, d, action, requested).Success?
    ensures var t := PlayTurn(Current, d, action, requested).value;
      && (t.ledger != NoCall ==> t.ledger.amount == t.doc.bet > 0.0)
      && PlayTurn(Legacy, d, action, requested) == Success(t)
  {
    PlayPreservesWellFormed(Current, d, action, requested);
    PlaySettles(Current, d, action, requested);
    var p := Placed(d, requested);
    assert PlayTurn(Current, d, action, requested) == Act(Current, p, action);
    assert PlayTurn(Legacy, d, action, requested) == Act(Legacy, p, action);
    ActCopiesAgree(p, action);
  }

  // ---------------------------------------------------------------------
  // The test fixture

  /** The started game of the test fixture: 8C 9D against 7S 6H, no bet yet. */
  function FixtureGame(pid: PlayerId): GameDoc
  {
    GameDoc(Some(pid),
            [Card(Clubs, Five), Card(Hearts, Seven), Card(Spades, Two), Card(Diamonds, King)],
            [Card(Clubs, Eight), Card(Diamonds, Nine)],
            [Card(Spades, Seven), Card(Hearts, Six)],
            0.0, PlayerTurn, None)
  }

  /**
   * HIT without a bet on the fixture bets 1, draws the FIVE and busts at
   * 8 + 9 + 5 = 22: DEALER_WIN and a loss of 1. DOUBLE busts the same way
   * with the bet at 2.
   */
  lemma FixtureBusts(v: Variant, pid: PlayerId)
    ensures PlayTurn(v, FixtureGame(pid), Hit, None).Success?
    ensures PlayTurn(v, FixtureGame(pid), Hit, None).value.doc.status == Finished
    ensures PlayTurn(v, FixtureGame(pid), Hit, None).value.doc.outcome == Some(DealerWin)
    ensures PlayTurn(v, FixtureGame(pid), Hit, None).value.ledger == Loss(1.0)
    ensures PlayTurn(v, FixtureGame(pid), Double, None).Success?
    ensures PlayTurn(v, FixtureGame(pid), Double, None).value.doc.bet == 2.0
    ensures PlayTurn(v, FixtureGame(pid), Double, None).value.ledger == Loss(2.0)
  {
    SumsOfSmallHands(Card(Clubs, Eight), Card(Diamonds, Nine), Card(Clubs, Five));
  }

  /**
   * From the fixture with the 2 of spades on top, HIT without a bet bets 1
   * and draws it to 8 + 9 + 2 = 19: the game stays open. DOUBLE on the
   * resulting three-card hand is then refused.
   */
  lemma FixtureDoubleAfterHit(v: Variant, pid: PlayerId)
    ensures var g := FixtureGame(pid).(deck := FixtureGame(pid).deck[2..]);
      var hit := PlayTurn(v, g, Hit, None);
      && hit.Success? && hit.value.ledger == NoCall
      && hit.value.doc.status == PlayerTurn && |hit.value.doc.playerHand| == 3
      && TotalOf(hit.value.doc.playerHand) == 19
      && PlayTurn(v, hit.value.doc, Double, None) == Failure(BadRequest(DoubleNotFirstTurn))
  {
    SumsOfSmallHands(Card(Clubs, Eight), Card(Diamonds, Nine), Card(Spades, Two));
    var g := FixtureGame(pid).(deck := FixtureGame(pid).deck[2..]);
    assert g.deck[0] == Card(Spades, Two);
    HitDrawsOne(v, g, None);
  }
}
