/**
 * The card table of docs/QgamingX/QgamesX/assets/js/scripts.js: a 52-card
 * deck built suit by suit, shuffled in place by Fisher–Yates, dealt round
 * robin to four hands, and a play that splices one card out of a hand.
 * The page's globals `deck` and `hands` are the fields of `CardTable`;
 * each `Math.random()` draw of the shuffle is a parameter. Rendering and
 * the mode and difficulty selectors only touch the page.
 */
module CardGame {
  import opened Wrappers

  type Card = string

  const Suits: seq<string> := ["♠", "♥", "♦", "♣"]
  const Values: seq<string> := ["A", "2", "3", "4", "5", "6", "7", "8", "9", "10", "J", "Q", "K"]

  /** `${value}${suit}` for value index v and suit index s. */
  function Label(v: nat, s: nat): (c: Card)
    requires v < 13 && s < 4
    ensures |c| == |Values[v]| + 1 && c[|c| - 1] == Suits[s][0]
  {
    Values[v] + Suits[s]
  }

  /** Different value or suit indices give different labels. */
  lemma LabelInjective(v1: nat, s1: nat, v2: nat, s2: nat)
    requires v1 < 13 && s1 < 4 && v2 < 13 && s2 < 4
    requires Label(v1, s1) == Label(v2, s2)
    ensures v1 == v2 && s1 == s2
  {
    var c := Label(v1, s1);
    assert Suits[s1] == [c[|c| - 1]] == Suits[s2];
    assert Values[v1] == c[..|c| - 1] == Values[v2];
  }

  /** The deck `initializeDeck` builds: suit-major, each suit in value order A, 2, …, K. */
  function FreshDeck(): (d: seq<Card>)
    ensures |d| == 52
    ensures forall k :: 0 <= k < 52 ==> d[k] == Label(k % 13, k / 13)
  {
    seq(52, k requires 0 <= k < 52 => Label(k % 13, k / 13))
  }

  /** Card v of suit s sits at position 13·s + v of the fresh deck. */
  lemma PositionOfLabel(s: nat, v: nat)
    requires s < 4 && v < 13
    ensures (13 * s + v) % 13 == v && (13 * s + v) / 13 == s
  {
  }

  /** The fresh deck holds 52 different cards. */
  lemma FreshDeckDistinct(i: nat, j: nat)
    requires i < j < 52
    ensures FreshDeck()[i] != FreshDeck()[j]
  {
    if FreshDeck()[i] == FreshDeck()[j] {
      LabelInjective(i % 13, i / 13, j % 13, j / 13);
    }
  }

  /** `Math.floor(r * (i + 1))` for a draw r in [0, 1): an index in [0, i]. */
  function Pick(r: real, i: nat): (j: int)
    requires 0.0 <= r < 1.0
    ensures 0 <= j <= i
  {
    var n := (i + 1) as real;
    ScaledDrawBelow(r, n);
    (r * n).Floor
  }

  /** A draw in [0, 1) scaled by a positive n lies in [0, n). */
  lemma ScaledDrawBelow(r: real, n: real)
    requires 0.0 <= r < 1.0 && n > 0.0
    ensures 0.0 <= r * n < n
  {
    var gap := 1.0 - r;
    assert gap * n > 0.0;
    assert r * n == n - gap * n;
    if r > 0.0 {
      assert r * n > 0.0;
    }
  }

  /** Every draw is a `Math.random()` value, in [0, 1). */
  predicate ValidDraws(draws: seq<real>)
  {
    forall i :: 0 <= i < |draws| ==> 0.0 <= draws[i] < 1.0
  }

  function Swap<T>(d: seq<T>, i: nat, j: nat): (r: seq<T>)
    requires i < |d| && j < |d|
    ensures |r| == |d|
    ensures r[i] == d[j] && r[j] == d[i]
    ensures forall k :: 0 <= k < |d| && k != i && k != j ==> r[k] == d[k]
  {
    d[i := d[j]][j := d[i]]
  }

  /** Exchanging two positions keeps every card. */
  lemma SwapPermutes<T>(d: seq<T>, i: nat, j: nat)
    requires i < |d| && j < |d|
    ensures multiset(Swap(d, i, j)) == multiset(d)
  {
  }

  /**
   * Fisher–Yates from position i down to 1: swap position i with the
   * drawn position in [0, i], then continue with i − 1.
   */
  function ShuffleFrom<T>(d: seq<T>, draws: seq<real>, i: int): (r: seq<T>)
    requires |draws| == |d| && ValidDraws(draws) && i < |d|
    ensures |r| == |d|
    decreases i
  {
    if i <= 0 then d else ShuffleFrom(Swap(d, i, Pick(draws[i], i)), draws, i - 1)
  }

  /** The shuffled deck is a permutation of the deck. */
  lemma {:induction false} ShufflePermutes<T>(d: seq<T>, draws: seq<real>, i: int)
    requires |draws| == |d| && ValidDraws(draws) && i < |d|
    ensures multiset(ShuffleFrom(d, draws, i)) == multiset(d)
    decreases i
  {
    if i > 0 {
      var swapped := Swap(d, i, Pick(draws[i], i));
      assert ShuffleFrom(d, draws, i) == ShuffleFrom(swapped, draws, i - 1);
      ShufflePermutes(swapped, draws, i - 1);
      SwapPermutes(d, i, Pick(draws[i], i));
    }
  }

  /**
   * Hand h after the first `upto` cards are dealt round robin: the cards at
   * positions h, h + 4, h + 8, … below `upto`.
   */
  function HandUpTo<T>(d: seq<T>, h: nat, upto: nat): (r: seq<T>)
    requires upto <= |d| && h < 4
    ensures |r| == (upto + 3 - h) / 4
    ensures forall k :: 0 <= k < |r| ==> r[k] == d[4 * k + h]
  {
    seq((upto + 3 - h) / 4, k requires 0 <= k < (upto + 3 - h) / 4 => d[4 * k + h])
  }

  /** Dealing card `upto − 1` appends it to hand (upto − 1) mod 4 and leaves the other hands alone. */
  lemma HandStep<T>(d: seq<T>, h: nat, upto: nat)
    requires 0 < upto <= |d| && h < 4
    ensures HandUpTo(d, h, upto) == HandUpTo(d, h, upto - 1) + (if (upto - 1) % 4 == h then [d[upto - 1]] else [])
  {
    var k := upto - 1;
    if k % 4 == h {
      assert |HandUpTo(d, h, upto)| == |HandUpTo(d, h, k)| + 1;
      assert 4 * |HandUpTo(d, h, k)| + h == k;
    } else {
      assert |HandUpTo(d, h, upto)| == |HandUpTo(d, h, k)|;
    }
  }

  /** The four hands `dealCards` builds from the first 52 cards: 13 each, card 4k + h at place k of hand h. */
  function Deal<T>(d: seq<T>): (hands: seq<seq<T>>)
    requires |d| >= 52
    ensures |hands| == 4
    ensures forall h :: 0 <= h < 4 ==> |hands[h]| == 13 && hands[h] == HandUpTo(d, h, 52)
  {
    [HandUpTo(d, 0, 52), HandUpTo(d, 1, 52), HandUpTo(d, 2, 52), HandUpTo(d, 3, 52)]
  }

  /** All cards of the four hands after `upto` cards, with multiplicity. */
  function HandsUnion<T>(d: seq<T>, upto: nat): multiset<T>
    requires upto <= |d|
  {
    multiset(HandUpTo(d, 0, upto)) + multiset(HandUpTo(d, 1, upto)) + multiset(HandUpTo(d, 2, upto))
      + multiset(HandUpTo(d, 3, upto))
  }

  /** If the hands hold the first `upto − 1` cards, after one more card they hold the first `upto`. */
  lemma HandsUnionStep<T>(d: seq<T>, upto: nat)
    requires 0 < upto <= |d|
    requires HandsUnion(d, upto - 1) == multiset(d[..upto - 1])
    ensures HandsUnion(d, upto) == multiset(d[..upto])
  {
    HandStep(d, 0, upto);
    HandStep(d, 1, upto);
    HandStep(d, 2, upto);
    HandStep(d, 3, upto);
    assert d[..upto] == d[..upto - 1] + [d[upto - 1]];
  }

  /** Together the hands after `upto` cards hold exactly the first `upto` cards. */
  lemma {:induction false} HandsPartitionPrefix<T>(d: seq<T>, upto: nat)
    requires upto <= |d|
    ensures HandsUnion(d, upto) == multiset(d[..upto])
  {
    if upto > 0 {
      HandsPartitionPrefix(d, upto - 1);
      HandsUnionStep(d, upto);
    }
  }

  /** The dealt hands partition the first 52 cards of the deck. */
  lemma DealPartitions<T>(d: seq<T>)
    requires |d| >= 52
    ensures multiset(Deal(d)[0]) + multiset(Deal(d)[1]) + multiset(Deal(d)[2]) + multiset(Deal(d)[3])
         == multiset(d[..52])
  {
    HandsPartitionPrefix(d, 52);
  }

  /** The position `splice(start, 1)` works at: a negative start counts from the end. */
  function SpliceStart(len: nat, start: int): (p: nat)
    ensures p <= len
  {
    if start < 0 then (if len + start < 0 then 0 else len + start)
    else if start > len then len
    else start
  }

  /** The hand after `hand.splice(cardIndex, 1)` and the removed card (`undefined` when none). */
  function Splice<T>(hand: seq<T>, cardIndex: int): (r: (seq<T>, Option<T>))
  {
    var p := SpliceStart(|hand|, cardIndex);
    if p < |hand| then (hand[..p] + hand[p + 1..], Some(hand[p])) else (hand, None)
  }

  /**
   * Splicing out one card: there is a card to remove iff the hand is
   * non-empty and the index is below its length; the card removed is the
   * one at the splice position, the cards before it keep their places, the
   * cards after it move up by one, and together with the removed card they
   * make up the hand.
   */
  lemma SpliceRemovesOne<T>(hand: seq<T>, cardIndex: int)
    ensures Splice(hand, cardIndex).1.Some? <==> 0 < |hand| && cardIndex < |hand|
    ensures |Splice(hand, cardIndex).0| == if Splice(hand, cardIndex).1.Some? then |hand| - 1 else |hand|
    ensures Splice(hand, cardIndex).1.None? ==> Splice(hand, cardIndex).0 == hand
    ensures var p := SpliceStart(|hand|, cardIndex);
      Splice(hand, cardIndex).1.Some? ==>
        Splice(hand, cardIndex).1.value == hand[p] &&
        (forall k :: 0 <= k < p ==> Splice(hand, cardIndex).0[k] == hand[k]) &&
        (forall k :: p <= k < |hand| - 1 ==> Splice(hand, cardIndex).0[k] == hand[k + 1])
    ensures Splice(hand, cardIndex).1.Some? ==>
      multiset(Splice(hand, cardIndex).0) + multiset{Splice(hand, cardIndex).1.value} == multiset(hand)
  {
    var p := SpliceStart(|hand|, cardIndex);
    if p < |hand| {
      assert hand == hand[..p] + [hand[p]] + hand[p + 1..];
    }
  }

  /** The splice position is the index itself when it is in range, and counts from the end when it is negative. */
  lemma SpliceStartCases(len: nat, start: int)
    ensures 0 <= start <= len ==> SpliceStart(len, start) == start
    ensures start < 0 && len + start >= 0 ==> SpliceStart(len, start) == len + start
    ensures len + start < 0 ==> SpliceStart(len, start) == 0
    ensures start > len ==> SpliceStart(len, start) == len
  {
  }

  class CardTable {
    var deck: seq<Card>
    var hands: seq<seq<Card>>

    /**
     * The page's declarations: an empty deck and four empty hands. The page
     * then calls `initializeDeck()` once at load; see `InitializeDeck`.
     */
    constructor ()
      ensures deck == [] && hands == [[], [], [], []]
    {
      deck := [];
      hands := [[], [], [], []];
    }

    /** `initializeDeck()`: one card per suit and value, suit by suit. */
    method InitializeDeck()
      modifies this
      ensures deck == FreshDeck() && hands == old(hands)
    {
      deck := [];
      var s := 0;
      while s < 4
        invariant 0 <= s <= 4
        invariant |deck| == 13 * s
        invariant forall t, w :: 0 <= t < s && 0 <= w < 13 ==> deck[13 * t + w] == Label(w, t)
        invariant hands == old(hands)
      {
        var v := 0;
        while v < 13
          invariant 0 <= v <= 13
          invariant |deck| == 13 * s + v
          invariant forall t, w :: 0 <= t < s && 0 <= w < 13 ==> deck[13 * t + w] == Label(w, t)
          invariant forall w :: 0 <= w < v ==> deck[13 * s + w] == Label(w, s)
          invariant hands == old(hands)
        {
          deck := deck + [Label(v, s)];
          v := v + 1;
        }
        s := s + 1;
      }
      forall k | 0 <= k < 52
        ensures deck[k] == FreshDeck()[k]
      {
        PositionOfLabel(k / 13, k % 13);
      }
    }

    /**
     * `shuffleDeck()`: for i from the last position down to 1, swap
     * position i with position ⌊draws[i]·(i + 1)⌋.
     */
    method ShuffleDeck(draws: seq<real>)
      requires |draws| == |deck| && ValidDraws(draws)
      modifies this
      ensures deck == ShuffleFrom(old(deck), draws, |old(deck)| - 1)
      ensures multiset(deck) == multiset(old(deck))
      ensures hands == old(hands)
    {
      ShufflePermutes(deck, draws, |deck| - 1);
      var i := |deck| - 1;
      while i > 0
        invariant i < |deck| == |draws|
        invariant ShuffleFrom(deck, draws, i) == ShuffleFrom(old(deck), draws, |old(deck)| - 1)
        invariant hands == old(hands)
        decreases i
      {
        var j := Pick(draws[i], i);
        deck := deck[i := deck[j]][j := deck[i]];
        i := i - 1;
      }
    }

    /** `dealCards()`: card i of the first 52 goes to hand i mod 4. */
    method DealCards()
      requires |deck| >= 52
      modifies this
      ensures deck == old(deck) && hands == Deal(deck)
    {
      hands := [[], [], [], []];
      var i := 0;
      while i < 52
        invariant 0 <= i <= 52
        invariant deck == old(deck)
        invariant |hands| == 4
        invariant forall h :: 0 <= h < 4 ==> hands[h] == HandUpTo(deck, h, i)
      {
        hands := hands[i % 4 := hands[i % 4] + [deck[i]]];
        i := i + 1;
      }
    }

    /** `playCard(playerIndex, cardIndex)`: splices one card out of one hand and returns it. */
    method PlayCard(playerIndex: nat, cardIndex: int) returns (played: Option<Card>)
      requires playerIndex < |hands|
      modifies this
      ensures played == Splice(old(hands)[playerIndex], cardIndex).1
      ensures hands == old(hands)[playerIndex := Splice(old(hands)[playerIndex], cardIndex).0]
      ensures deck == old(deck)
    {
      var hand := hands[playerIndex];
      var p := SpliceStart(|hand|, cardIndex);
      if p < |hand| {
        played := Some(hand[p]);
        hands := hands[playerIndex := hand[..p] + hand[p + 1..]];
      } else {
        played := None;
      }
    }

    /**
     * `startGame()`: a fresh deck, shuffled with `draws`, dealt; the four
     * hands together hold every card of the fresh deck once.
     */
    method StartGame(draws: seq<real>)
      requires |draws| == 52 && ValidDraws(draws)
      modifies this
      ensures deck == ShuffleFrom(FreshDeck(), draws, 51)
      ensures hands == Deal(deck)
      ensures multiset(hands[0]) + multiset(hands[1]) + multiset(hands[2]) + multiset(hands[3])
           == multiset(FreshDeck())
    {
      InitializeDeck();
      ShuffleDeck(draws);
      DealCards();
      DealPartitions(deck);
      assert deck[..52] == deck;
    }
  }
}
