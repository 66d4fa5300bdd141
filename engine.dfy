/**
 * The stateless rules (blackJack/service/BlackjackEngine.java): the hand
 * total, the dealer's hit policy and the five-step outcome comparison.
 */
module Engine {
  import opened Cards
  import opened Hands

  datatype Outcome = PlayerWin | DealerWin | Push | PlayerBlackjack

  /** `total(cards)`: wraps the list in a fresh Hand and asks it for its total. */
  method Total(cards: seq<Card>) returns (t: int)
    ensures t == TotalOf(cards)
  {
    var h := new Hand();
    h.SetCards(cards);
    t := h.Total();
  }

  /** `dealerShouldHit`: the dealer draws below 17 and stands on any 17, soft or hard. */
  function DealerShouldHit(dealer: seq<Card>): (hit: bool)
    ensures hit ==> !Bust(dealer)
    ensures Blackjack(dealer) ==> !hit
  {
    TotalOf(dealer) < 17
  }

  /**
   * `decideOutcome`: a bust player loses, else a bust dealer loses, else the
   * higher total wins and equal totals push. It never yields PLAYER_BLACKJACK.
   */
  function DecideOutcome(player: seq<Card>, dealer: seq<Card>): (r: Outcome)
    ensures r != PlayerBlackjack
    ensures r == DealerWin <==> Bust(player) || (!Bust(dealer) && TotalOf(player) < TotalOf(dealer))
    ensures r == PlayerWin <==> !Bust(player) && (Bust(dealer) || TotalOf(player) > TotalOf(dealer))
    ensures r == Push <==> !Bust(player) && !Bust(dealer) && TotalOf(player) == TotalOf(dealer)
  {
    var p := TotalOf(player);
    var d := TotalOf(dealer);
    if p > 21 then DealerWin
    else if d > 21 then PlayerWin
    else if p > d then PlayerWin
    else if p < d then DealerWin
    else Push
  }

  /** The same result seen from the other side of the table. */
  function Mirror(o: Outcome): Outcome
  {
    match o
    case PlayerWin => DealerWin
    case DealerWin => PlayerWin
    case other => other
  }

  /**
   * With neither hand bust, swapping the hands swaps the winner and keeps a
   * push.
   */
  lemma OutcomeIsAntisymmetric(player: seq<Card>, dealer: seq<Card>)
    requires !Bust(player) && !Bust(dealer)
    ensures DecideOutcome(dealer, player) == Mirror(DecideOutcome(player, dealer))
  {
  }

  /** A bust player loses even to a bust dealer. */
  lemma BustPlayerAlwaysLoses(player: seq<Card>, dealer: seq<Card>)
    requires Bust(player)
    ensures DecideOutcome(player, dealer) == DealerWin
  {
  }

  /** The dealer policy the unit tests check, and the soft 17 the rule stands on. */
  lemma DealerPolicyExamples()
    ensures DealerShouldHit([Card(Spades, Six), Card(Hearts, Nine)])
    ensures !DealerShouldHit([Card(Spades, Ten), Card(Hearts, Seven)])
    ensures !DealerShouldHit([Card(Spades, Ace), Card(Hearts, Six)])
  {
    SumsOfSmallHands(Card(Spades, Six), Card(Hearts, Nine), Card(Clubs, Two));
    SumsOfSmallHands(Card(Spades, Ten), Card(Hearts, Seven), Card(Clubs, Two));
    SumsOfSmallHands(Card(Spades, Ace), Card(Hearts, Six), Card(Clubs, Two));
  }

  /** The outcomes the unit tests check. */
  lemma OutcomeExamples()
    ensures DecideOutcome([Card(Spades, King), Card(Hearts, Queen), Card(Clubs, Two)],
                          [Card(Diamonds, Seven)]) == DealerWin
    ensures DecideOutcome([Card(Spades, Ten), Card(Hearts, Seven)],
                          [Card(Diamonds, King), Card(Clubs, Queen), Card(Hearts, Two)]) == PlayerWin
    ensures DecideOutcome([Card(Spades, Ten)], [Card(Hearts, Nine)]) == PlayerWin
    ensures DecideOutcome([Card(Spades, Nine)], [Card(Hearts, Ten)]) == DealerWin
    ensures DecideOutcome([Card(Spades, Ten)], [Card(Hearts, Ten)]) == Push
  {
    SumsOfSmallHands(Card(Spades, King), Card(Hearts, Queen), Card(Clubs, Two));
    SumsOfSmallHands(Card(Spades, Ten), Card(Hearts, Seven), Card(Clubs, Two));
    SumsOfSmallHands(Card(Diamonds, King), Card(Clubs, Queen), Card(Hearts, Two));
    assert [Card(Diamonds, Seven)][..0] == [];
    assert [Card(Spades, Ten)][..0] == [];
    assert [Card(Hearts, Nine)][..0] == [];
    assert [Card(Spades, Nine)][..0] == [];
    assert [Card(Hearts, Ten)][..0] == [];
  }
}
