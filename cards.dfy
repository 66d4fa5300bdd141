/**
 * Playing cards: four suits, thirteen ranks and the fixed blackjack point
 * value of each rank (blackJack/model/Card.java).
 */
module Cards {

  datatype Suit = Clubs | Diamonds | Hearts | Spades
  {
    /** Position in the enum's declaration order, as `Suit.values()` lists it. */
    function Ordinal(): (n: nat)
      ensures n < 4
    {
      match this
      case Clubs => 0
      case Diamonds => 1
      case Hearts => 2
      case Spades => 3
    }
  }

  datatype Rank = Two | Three | Four | Five | Six | Seven | Eight | Nine | Ten
                | Jack | Queen | King | Ace
  {
    /** Position in the enum's declaration order, as `Rank.values()` lists it. */
    function Ordinal(): (n: nat)
      ensures n < 13
    {
      match this
      case Two => 0
      case Three => 1
      case Four => 2
      case Five => 3
      case Six => 4
      case Seven => 5
      case Eight => 6
      case Nine => 7
      case Ten => 8
      case Jack => 9
      case Queen => 10
      case King => 11
      case Ace => 12
    }

    /**
     * The point value fixed by the enum constant: the face number for TWO
     * to TEN, 10 for the court cards and 11 for the ace.
     */
    function Value(): (v: nat)
      ensures 2 <= v <= 11
      ensures v == 11 <==> this == Ace
      ensures Ordinal() <= 8 ==> v == Ordinal() + 2
      ensures 9 <= Ordinal() <= 11 ==> v == 10
    {
      match this
      case Two => 2
      case Three => 3
      case Four => 4
      case Five => 5
      case Six => 6
      case Seven => 7
      case Eight => 8
      case Nine => 9
      case Ten => 10
      case Jack => 10
      case Queen => 10
      case King => 10
      case Ace => 11
    }
  }

  /** An immutable card; equality of the datatype is equality of both fields. */
  datatype Card = Card(suit: Suit, rank: Rank)
  {
    /** `Card.value()`: the rank's value. */
    function Value(): (v: nat)
      ensures 2 <= v <= 11
    {
      rank.Value()
    }

    /** `Card.equals`: suits equal and ranks equal. */
    function Equals(other: Card): (b: bool)
      ensures b <==> this == other
    {
      suit == other.suit && rank == other.rank
    }
  }

  /** The value of a card does not depend on its suit. */
  lemma ValueIgnoresSuit(c: Card, s: Suit)
    ensures Card(s, c.rank).Value() == c.Value() == c.rank.Value()
  {
  }

  /** The values the unit tests check: a KING is worth 10 and an ACE 11. */
  lemma ValueExamples()
    ensures Card(Clubs, King).Value() == 10
    ensures Card(Hearts, Ace).Value() == 11
    ensures Ten.Value() == Jack.Value() == Queen.Value() == King.Value() == 10
  {
  }
}
