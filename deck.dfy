/**
 * Deck construction (blackjack/model/Deck.java): the 4 x 13 cross product in
 * enum order, then one shuffle in place.
 */
module Decks {
  import opened Cards

  /** `Suit.values()`. */
  const AllSuits: seq<Suit> := [Clubs, Diamonds, Hearts, Spades]

  /** `Rank.values()`. */
  const AllRanks: seq<Rank> :=
    [Two, Three, Four, Five, Six, Seven, Eight, Nine, Ten, Jack, Queen, King, Ace]

  /** Where a card sits in the unshuffled deck: suit-major, rank-minor. */
  function Position(c: Card): (i: nat)
    ensures i < 52
  {
    13 * c.suit.Ordinal() + c.rank.Ordinal()
  }

  /** The list the nested loops build, before the shuffle. */
  function Unshuffled(): (d: seq<Card>)
    ensures |d| == 52
  {
    seq(52, k requires 0 <= k < 52 => Card(AllSuits[k / 13], AllRanks[k % 13]))
  }

  lemma SuitsInOrder()
    ensures forall i :: 0 <= i < 4 ==> AllSuits[i].Ordinal() == i
    ensures forall s: Suit :: AllSuits[s.Ordinal()] == s
  {
  }

  lemma RanksInOrder()
    ensures forall i :: 0 <= i < 13 ==> AllRanks[i].Ordinal() == i
    ensures forall r: Rank :: AllRanks[r.Ordinal()] == r
  {
  }

  /**
   * The unshuffled deck is in suit-major, rank-minor order: the card at index
   * i is the one whose position is i, and every card is at its position.
   */
  lemma UnshuffledOrder()
    ensures forall i :: 0 <= i < 52 ==> Position(Unshuffled()[i]) == i
    ensures forall c: Card :: Unshuffled()[Position(c)] == c
  {
    SuitsInOrder();
    RanksInOrder();
  }

  /** A list without repetitions holds each of its elements exactly once. */
  lemma {:induction false} CountOfDistinct<T>(s: seq<T>, x: T)
    requires forall i, j :: 0 <= i < j < |s| ==> s[i] != s[j]
    ensures multiset(s)[x] == if x in s then 1 else 0
  {
    if s != [] {
      var init := s[..|s| - 1];
      assert s == init + [s[|s| - 1]];
      CountOfDistinct(init, x);
      if x == s[|s| - 1] {
        assert x !in init by {
          forall i | 0 <= i < |init| ensures init[i] != x {
            assert init[i] == s[i];
          }
        }
      }
    }
  }

  /** Every (suit, rank) pair is in the unshuffled deck exactly once. */
  lemma UnshuffledHasEveryCardOnce(c: Card)
    ensures multiset(Unshuffled())[c] == 1
  {
    var d := Unshuffled();
    UnshuffledOrder();
    forall i, j | 0 <= i < j < |d| ensures d[i] != d[j] {
      assert Position(d[i]) == i && Position(d[j]) == j;
    }
    assert d[Position(c)] == c;
    CountOfDistinct(d, c);
  }

  /** The card the nested loops append at suit index si, rank index ri. */
  lemma UnshuffledAt(si: nat, ri: nat)
    requires si < 4 && ri < 13
    ensures Unshuffled()[13 * si + ri] == Card(AllSuits[si], AllRanks[ri])
  {
    var k := 13 * si + ri;
    assert k / 13 == si && k % 13 == ri;
  }

  /** Swapping two entries keeps the same cards. */
  lemma SwapKeepsCards(s: seq<Card>, a: nat, b: nat)
    requires a < |s| && b < |s|
    ensures multiset(s[a := s[b]][b := s[a]]) == multiset(s)
  {
  }

  /** The first half of `newShuffled()`: one card per (suit, rank) pair in enum order. */
  method Ordered() returns (cards: seq<Card>)
    ensures cards == Unshuffled()
  {
    cards := [];
    var si := 0;
    while si < |AllSuits|
      invariant 0 <= si <= 4
      invariant cards == Unshuffled()[..13 * si]
    {
      var ri := 0;
      while ri < |AllRanks|
        invariant 0 <= ri <= 13
        invariant cards == Unshuffled()[..13 * si + ri]
      {
        UnshuffledAt(si, ri);
        assert Unshuffled()[..13 * si + ri + 1] == Unshuffled()[..13 * si + ri] + [Unshuffled()[13 * si + ri]];
        cards := cards + [Card(AllSuits[si], AllRanks[ri])];
        ri := ri + 1;
      }
      si := si + 1;
    }
  }

  /**
   * `Collections.shuffle`: swaps element i - 1 with an element at some index
   * below i, for i from the size down to 2. The random index is an arbitrary
   * choice, so the result is some permutation of the input.
   */
  method Shuffle(cards: seq<Card>) returns (shuffled: seq<Card>)
    ensures |shuffled| == |cards|
    ensures multiset(shuffled) == multiset(cards)
  {
    shuffled := cards;
    var i := |shuffled|;
    while i > 1
      invariant 0 <= i <= |shuffled| == |cards|
      invariant multiset(shuffled) == multiset(cards)
    {
      var j :| 0 <= j < i;
      SwapKeepsCards(shuffled, i - 1, j);
      shuffled := shuffled[i - 1 := shuffled[j]][j := shuffled[i - 1]];
      i := i - 1;
    }
  }

  /**
   * `newShuffled()`: the ordered deck, shuffled; every (suit, rank) pair
   * appears exactly once.
   */
  method NewShuffled() returns (deck: seq<Card>)
    ensures |deck| == 52
    ensures multiset(deck) == multiset(Unshuffled())
    ensures forall c: Card :: multiset(deck)[c] == 1
  {
    var cards := Ordered();
    deck := Shuffle(cards);
    forall c: Card ensures multiset(deck)[c] == 1 {
      UnshuffledHasEveryCardOnce(c);
    }
  }
}
