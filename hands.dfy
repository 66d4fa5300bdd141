/**
 * Hand evaluation (blackJack/model/Hand.java): the soft-ace total of an
 * ordered list of cards, blackjack and bust.
 */
module Hands {
  import opened Cards

  /** Sum of the card values with every ace counted as 11. */
  function RawSum(cards: seq<Card>): int
  {
    if cards == [] then 0 else RawSum(cards[..|cards| - 1]) + cards[|cards| - 1].Value()
  }

  /** Number of aces in the cards. */
  function AceCount(cards: seq<Card>): (n: nat)
    ensures n <= |cards|
  {
    if cards == [] then 0
    else AceCount(cards[..|cards| - 1]) + (if cards[|cards| - 1].rank == Ace then 1 else 0)
  }

  /** Turns aces from 11 into 1, ten points at a time, only while the sum is over 21. */
  function Soften(sum: int, aces: nat): (r: int)
    ensures sum - 10 * aces <= r <= sum
    ensures r > 21 ==> r == sum - 10 * aces
    decreases aces
  {
    if sum > 21 && aces > 0 then Soften(sum - 10, aces - 1) else sum
  }

  /**
   * The hand total `Hand.total()` computes: between the sum with every ace
   * worth 1 and the sum with every ace worth 11, and a total over 21 counts
   * every ace as 1.
   */
  function TotalOf(cards: seq<Card>): (t: int)
    ensures RawSum(cards) - 10 * AceCount(cards) <= t <= RawSum(cards)
    ensures t > 21 ==> t == RawSum(cards) - 10 * AceCount(cards)
  {
    Soften(RawSum(cards), AceCount(cards))
  }

  /** Two cards worth 21. */
  predicate Blackjack(cards: seq<Card>)
  {
    |cards| == 2 && TotalOf(cards) == 21
  }

  /** A total over 21. */
  predicate Bust(cards: seq<Card>)
  {
    TotalOf(cards) > 21
  }

  /**
   * `Soften` downgrades k of the aces, no more than there are; it stops early
   * only at 21 or under, and every downgrade it made was needed (before the
   * last one the sum was over 21).
   */
  lemma {:induction false} SoftenDowngrades(sum: int, aces: nat) returns (k: nat)
    ensures k <= aces
    ensures Soften(sum, aces) == sum - 10 * k
    ensures k < aces ==> Soften(sum, aces) <= 21
    ensures k > 0 ==> Soften(sum, aces) + 10 > 21
    decreases aces
  {
    if sum > 21 && aces > 0 {
      var j := SoftenDowngrades(sum - 10, aces - 1);
      k := j + 1;
    } else {
      k := 0;
    }
  }

  /**
   * Among the totals reachable by downgrading j <= aces aces, `Soften` gives
   * the largest one that is 21 or under, whenever there is one.
   */
  lemma {:induction false} SoftenIsBest(sum: int, aces: nat, j: nat)
    requires j <= aces && sum - 10 * j <= 21
    ensures sum - 10 * j <= Soften(sum, aces) <= 21
    decreases aces
  {
    if sum > 21 && aces > 0 {
      SoftenIsBest(sum - 10, aces - 1, j - 1);
    }
  }

  /**
   * The total is the raw sum minus 10 for each of k downgraded aces, with k at
   * most the number of aces; a total still over 21 means every ace was
   * downgraded; no ace was downgraded without the sum being over 21.
   */
  lemma TotalDecomposes(cards: seq<Card>) returns (k: nat)
    ensures k <= AceCount(cards)
    ensures TotalOf(cards) == RawSum(cards) - 10 * k
    ensures TotalOf(cards) > 21 ==> k == AceCount(cards)
    ensures k > 0 ==> TotalOf(cards) + 10 > 21
  {
    k := SoftenDowngrades(RawSum(cards), AceCount(cards));
  }

  /**
   * The total is the best one: no choice of j downgraded aces that stays at 21
   * or under gives more, and then the total is itself 21 or under.
   */
  lemma TotalIsBest(cards: seq<Card>, j: nat)
    requires j <= AceCount(cards) && RawSum(cards) - 10 * j <= 21
    ensures RawSum(cards) - 10 * j <= TotalOf(cards) <= 21
  {
    SoftenIsBest(RawSum(cards), AceCount(cards), j);
  }

  /**
   * Every card adds at least 1 once its aces count as 1, so no hand is worth
   * less than its number of cards.
   */
  lemma {:induction false} CountBoundsTotal(cards: seq<Card>)
    ensures RawSum(cards) - 10 * AceCount(cards) >= |cards|
    ensures TotalOf(cards) >= |cards|
    decreases |cards|
  {
    if cards != [] {
      CountBoundsTotal(cards[..|cards| - 1]);
    }
  }

  /** Two cards are never bust: at worst two aces, which count 12. */
  lemma TwoCardsNeverBust(a: Card, b: Card)
    ensures !Bust([a, b])
  {
    SumsOfSmallHands(a, b, a);
  }

  /** The raw sum and ace count of a hand of two or three cards, card by card. */
  lemma SumsOfSmallHands(a: Card, b: Card, c: Card)
    ensures RawSum([a, b]) == a.Value() + b.Value()
    ensures AceCount([a, b]) == (if a.rank == Ace then 1 else 0) + (if b.rank == Ace then 1 else 0)
    ensures RawSum([a, b, c]) == a.Value() + b.Value() + c.Value()
    ensures AceCount([a, b, c]) == AceCount([a, b]) + (if c.rank == Ace then 1 else 0)
  {
    assert [a, b][..1] == [a];
    assert [a][..0] == [];
    assert RawSum([a]) == a.Value();
    assert [a, b, c][..2] == [a, b];
  }

  /** The totals the unit tests check. */
  lemma TotalExamples()
    ensures TotalOf([Card(Spades, Ace), Card(Hearts, Nine)]) == 20
    ensures TotalOf([Card(Spades, Ace), Card(Hearts, Nine), Card(Clubs, Five)]) == 15
    ensures TotalOf([Card(Spades, Ace), Card(Hearts, Six), Card(Clubs, Five)]) == 12
    ensures TotalOf([Card(Spades, Ace), Card(Hearts, Ace), Card(Clubs, Nine)]) == 21
    ensures TotalOf([Card(Spades, Ten), Card(Hearts, Seven)]) == 17
    ensures Blackjack([Card(Clubs, Ace), Card(Diamonds, King)])
  {
    SumsOfSmallHands(Card(Spades, Ace), Card(Hearts, Nine), Card(Clubs, Five));
    SumsOfSmallHands(Card(Spades, Ace), Card(Hearts, Six), Card(Clubs, Five));
    SumsOfSmallHands(Card(Spades, Ace), Card(Hearts, Ace), Card(Clubs, Nine));
    SumsOfSmallHands(Card(Spades, Ten), Card(Hearts, Seven), Card(Clubs, Two));
    SumsOfSmallHands(Card(Clubs, Ace), Card(Diamonds, King), Card(Clubs, Two));
  }

  /** `Hand`: a mutable list of cards. */
  class Hand {
    var cards: seq<Card>

    constructor ()
      ensures cards == []
    {
      cards := [];
    }

    method SetCards(cs: seq<Card>)
      modifies this
      ensures cards == cs
    {
      cards := cs;
    }

    /** `add`: appends the card and keeps the earlier ones. */
    method Add(c: Card)
      modifies this
      ensures cards == old(cards) + [c]
    {
      cards := cards + [c];
    }

    /**
     * `total()`: sums the values and counts the aces, then turns aces into 1s
     * while the sum is over 21. It reads the cards and changes nothing.
     */
    method Total() returns (t: int)
      ensures t == TotalOf(cards)
    {
      var sum := 0;
      var aces: nat := 0;
      var i := 0;
      while i < |cards|
        invariant 0 <= i <= |cards|
        invariant sum == RawSum(cards[..i])
        invariant aces == AceCount(cards[..i])
      {
        assert cards[..i + 1][..i] == cards[..i];
        sum := sum + cards[i].Value();
        if cards[i].rank == Ace {
          aces := aces + 1;
        }
        i := i + 1;
      }
      assert cards[..i] == cards;
      while sum > 21 && aces > 0
        invariant Soften(sum, aces) == TotalOf(cards)
      {
        sum := sum - 10;
        aces := aces - 1;
      }
      t := sum;
    }

    /** `isBlackjack()`: exactly two cards and a total of 21. */
    method IsBlackjack() returns (b: bool)
      ensures b <==> |cards| == 2 && TotalOf(cards) == 21
    {
      var t := Total();
      b := |cards| == 2 && t == 21;
    }

    /** `isBust()`: a total over 21. */
    method IsBust() returns (b: bool)
      ensures b <==> TotalOf(cards) > 21
    {
      var t := Total();
      b := t > 21;
    }
  }
}
