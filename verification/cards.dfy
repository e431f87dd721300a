/** Cards, the 52-card deck, and the in-place shuffle every card game uses. */
module Cards {
  import opened Seqs

  datatype Suit = Spades | Hearts | Diamonds | Clubs

  /** 2 to 10, then jack 11, queen 12, king 13 and ace 14. */
  type Rank = r: int | 2 <= r <= 14 witness 2

  datatype Card = Card(rank: Rank, suit: Suit)

  /** The ranks of a suit from 2 to the ace. */
  function SuitRun(suit: Suit): seq<Card> { seq(13, i requires 0 <= i < 13 => Card(i + 2, suit)) }

  function Deck(): seq<Card> { SuitRun(Spades) + SuitRun(Hearts) + SuitRun(Diamonds) + SuitRun(Clubs) }

  /** Suit after suit, each from the two to the ace. */
  lemma DeckInOrder(i: nat)
    requires i < 52
    ensures |Deck()| == 52 && Deck()[i].rank == 2 + i % 13
    ensures Deck()[i].suit
         == if i < 13 then Spades else if i < 26 then Hearts else if i < 39 then Diamonds else Clubs
  {
    assert SuitRun(Spades)[i % 13].rank == 2 + i % 13;
  }

  lemma SuitRunCounts(suit: Suit, c: Card)
    ensures multiset(SuitRun(suit))[c] == if c.suit == suit then 1 else 0
  {
    var s := SuitRun(suit);
    if c.suit == suit {
      var k := c.rank - 2;
      assert s[k] == c && s == s[..k] + [c] + s[k + 1..];
      assert c !in s[..k] && c !in s[k + 1..];
      assert multiset(s[..k])[c] == 0 && multiset(s[k + 1..])[c] == 0;
    } else {
      assert c !in s;
    }
  }

  /** The deck holds every card exactly once. */
  lemma DeckHoldsEachCardOnce(c: Card)
    ensures multiset(Deck())[c] == 1 && |Deck()| == 52
  {
    SuitRunCounts(Spades, c);
    SuitRunCounts(Hearts, c);
    SuitRunCounts(Diamonds, c);
    SuitRunCounts(Clubs, c);
    assert c.suit == Spades || c.suit == Hearts || c.suit == Diamonds || c.suit == Clubs;
  }

  /** Every card of the deck, once. */
  ghost predicate Complete(m: multiset<Card>) { forall c :: m[c] == 1 }

  lemma DeckIsComplete()
    ensures Complete(multiset(Deck())) && |Deck()| == 52
  {
    forall c ensures multiset(Deck())[c] == 1 { DeckHoldsEachCardOnce(c); }
    DeckHoldsEachCardOnce(Card(2, Spades));
  }

  lemma TwiceIsTwo(cards: seq<Card>, i: nat, j: nat)
    requires i < j < |cards| && cards[i] == cards[j]
    ensures multiset(cards)[cards[i]] >= 2
  {
    assert cards == cards[..j] + cards[j..];
    assert cards[..j][i] in multiset(cards[..j]) && cards[j..][0] in multiset(cards[j..]);
  }

  /** Cards taken from a complete deck are all different. */
  lemma PartOfADeck(cards: seq<Card>, m: multiset<Card>)
    requires Complete(m) && multiset(cards) <= m
    ensures Distinct(cards)
  {
    forall i, j | 0 <= i < j < |cards| ensures cards[i] != cards[j] {
      assert m[cards[i]] == 1;
      if cards[i] == cards[j] { TwiceIsTwo(cards, i, j); }
    }
  }

  // ---- shuffling ----

  /** `generate_outcome(seed, nonce + i, i + 1)`, with `raw` the number read off the keyed hash. */
  function Draw(raw: int -> nat, nonce: int, i: nat): (j: nat)
    ensures j <= i
  {
    raw(nonce + i) % (i + 1)
  }

  function Swapped<T>(s: seq<T>, i: nat, j: nat): (t: seq<T>)
    requires i < |s| && j < |s|
    ensures |t| == |s|
  {
    s[i := s[j]][j := s[i]]
  }

  /** The first `n` places of `s` shuffled from the top down. */
  function Shuffled<T>(s: seq<T>, n: nat, raw: int -> nat, nonce: int): (t: seq<T>)
    requires n <= |s|
    ensures |t| == |s|
    decreases n
  {
    if n <= 1 then s else Shuffled(Swapped(s, n - 1, Draw(raw, nonce, n - 1)), n - 1, raw, nonce)
  }

  /** Shuffling only reorders, and leaves the places above `n` alone. */
  lemma {:induction false} ShufflePermutes<T>(s: seq<T>, n: nat, raw: int -> nat, nonce: int)
    requires n <= |s|
    ensures multiset(Shuffled(s, n, raw, nonce)) == multiset(s)
    ensures forall k | n <= k < |s| :: Shuffled(s, n, raw, nonce)[k] == s[k]
    decreases n
  {
    if n > 1 {
      var t := Swapped(s, n - 1, Draw(raw, nonce, n - 1));
      ShufflePermutes(t, n - 1, raw, nonce);
    }
  }

  method ShuffleInPlace<T>(a: array<T>, raw: int -> nat, nonce: int)
    modifies a
    ensures a[..] == Shuffled(old(a[..]), a.Length, raw, nonce)
  {
    ghost var target := Shuffled(a[..], a.Length, raw, nonce);
    var i := a.Length;
    while i > 1
      invariant 0 <= i <= a.Length
      invariant Shuffled(a[..], i, raw, nonce) == target
    {
      i := i - 1;
      var j := Draw(raw, nonce, i);
      ghost var after := Swapped(a[..], i, j);
      a[i], a[j] := a[j], a[i];
      assert a[..] == after;
    }
  }

  /** The deck as a round starts with it. */
  function Shuffle(raw: int -> nat, nonce: int): seq<Card> { Shuffled(Deck(), |Deck()|, raw, nonce) }

  lemma ShuffleIsComplete(raw: int -> nat, nonce: int)
    ensures Complete(multiset(Shuffle(raw, nonce))) && |Shuffle(raw, nonce)| == 52
  {
    DeckIsComplete();
    ShufflePermutes(Deck(), |Deck()|, raw, nonce);
  }

  method ShuffledDeck(raw: int -> nat, nonce: int) returns (deck: seq<Card>)
    ensures deck == Shuffle(raw, nonce) && |deck| == 52
  {
    var cards := Deck();
    var a := new Card[|cards|](i requires 0 <= i < |cards| => cards[i]);
    assert a[..] == cards;
    ShuffleInPlace(a, raw, nonce);
    DeckIsComplete();
    deck := a[..];
  }

  // ---- drawing from the end ----

  /** The last `n` cards in the order they are popped. */
  function Popped<T>(deck: seq<T>, n: nat): (p: seq<T>)
    requires n <= |deck|
    ensures |p| == n
  {
    if n == 0 then [] else [deck[|deck| - 1]] + Popped(deck[..|deck| - 1], n - 1)
  }

  lemma {:induction false} PoppedOneMore<T>(deck: seq<T>, n: nat)
    requires n < |deck|
    ensures Popped(deck, n + 1) == Popped(deck, n) + [deck[|deck| - 1 - n]]
  {
    if n > 0 { PoppedOneMore(deck[..|deck| - 1], n - 1); }
  }

  /** Popping takes the cards from the end, the last one first. */
  lemma {:induction false} PoppedAt(deck: seq<Card>, n: nat)
    requires n <= |deck|
    ensures forall i | 0 <= i < n :: Popped(deck, n)[i] == deck[|deck| - 1 - i]
  {
    if n > 0 { PoppedAt(deck[..|deck| - 1], n - 1); }
  }

  lemma {:induction false} PoppingConserves<T>(deck: seq<T>, n: nat)
    requires n <= |deck|
    ensures multiset(deck[..|deck| - n]) + multiset(Popped(deck, n)) == multiset(deck)
  {
    var m := |deck| - 1;
    if n > 0 {
      var a, x := deck[..m], deck[m];
      PoppingConserves(a, n - 1);
      assert a[..|a| - (n - 1)] == deck[..|deck| - n];
      assert multiset(deck) == multiset(a) + multiset{x} by { assert deck == a + [x]; }
      assert multiset(Popped(deck, n)) == multiset{x} + multiset(Popped(a, n - 1));
    } else {
      assert deck[..|deck|] == deck;
    }
  }

  lemma TwoPopped<T>(deck: seq<T>)
    requires |deck| >= 2
    ensures Popped(deck, 2) == [deck[|deck| - 1], deck[|deck| - 2]]
  {
    assert deck[..|deck| - 1][|deck| - 2] == deck[|deck| - 2];
    assert Popped(deck[..|deck| - 1], 1) == [deck[|deck| - 2]];
  }

  lemma Reordered<T>(a: multiset<T>, b: multiset<T>, c: multiset<T>)
    ensures a + b + c == a + c + b
  {
  }

  // ---- what the shuffle can produce ----

  /** Only the draws below `n` matter. */
  lemma {:induction false} OnlyTheDrawsMatter<T>(s: seq<T>, n: nat, raw: int -> nat, other: int -> nat, nonce: int)
    requires n <= |s| && forall i: nat | i < n :: Draw(raw, nonce, i) == Draw(other, nonce, i)
    ensures Shuffled(s, n, raw, nonce) == Shuffled(s, n, other, nonce)
    decreases n
  {
    if n > 1 { OnlyTheDrawsMatter(Swapped(s, n - 1, Draw(raw, nonce, n - 1)), n - 1, raw, other, nonce); }
  }

  lemma SwapKeepsDistinct<T>(s: seq<T>, i: nat, j: nat)
    requires Distinct(s) && i < |s| && j < |s|
    ensures Distinct(Swapped(s, i, j))
  {
    var t := Swapped(s, i, j);
    forall a, b | 0 <= a < b < |t| ensures t[a] != t[b] {
      var x, y := if a == i then j else if a == j then i else a, if b == i then j else if b == j then i else b;
      assert t[a] == s[x] && t[b] == s[y] && x != y;
      assert if x < y then s[x] != s[y] else s[y] != s[x];
    }
  }

  /** Shuffling swaps the last place with one drawn from all, and then shuffles the places before it. */
  lemma ShuffleSays<T>(s: seq<T>, n: nat, raw: int -> nat, nonce: int)
    requires 1 < n <= |s|
    ensures var k, t := raw(nonce + n - 1) % n, Shuffled(s, n, raw, nonce);
      t == Shuffled(s[n - 1 := s[k]][k := s[n - 1]], n - 1, raw, nonce) && t[n - 1] == s[k]
    ensures Shuffled(s, 1, raw, nonce) == s
  {
    LastPlace(s, n, raw, nonce);
  }

  /** The last place holds what the first swap put there. */
  lemma LastPlace<T>(s: seq<T>, n: nat, raw: int -> nat, nonce: int)
    requires 1 < n <= |s|
    ensures Shuffled(s, n, raw, nonce)[n - 1] == s[Draw(raw, nonce, n - 1)]
  {
    ShufflePermutes(Swapped(s, n - 1, Draw(raw, nonce, n - 1)), n - 1, raw, nonce);
  }

  /** Different draws give different orders of distinct items. */
  lemma {:induction false} ShuffleIsInjective<T>(s: seq<T>, n: nat, raw: int -> nat, other: int -> nat, nonce: int)
    requires n <= |s| && Distinct(s) && Shuffled(s, n, raw, nonce) == Shuffled(s, n, other, nonce)
    ensures forall i: nat | i < n :: Draw(raw, nonce, i) == Draw(other, nonce, i)
    decreases n
  {
    if n > 1 {
      var j, k := Draw(raw, nonce, n - 1), Draw(other, nonce, n - 1);
      LastPlace(s, n, raw, nonce);
      LastPlace(s, n, other, nonce);
      assert j == k;
      SwapKeepsDistinct(s, n - 1, j);
      ShuffleIsInjective(Swapped(s, n - 1, j), n - 1, raw, other, nonce);
    }
  }

  lemma SwapPermutes<T>(s: seq<T>, i: nat, j: nat)
    requires i < |s| && j < |s|
    ensures multiset(Swapped(s, i, j)) == multiset(s)
  {
  }

  lemma WithoutLast<T>(s: seq<T>, t: seq<T>)
    requires |s| == |t| > 0 && multiset(s) == multiset(t) && s[|s| - 1] == t[|t| - 1]
    ensures multiset(s[..|s| - 1]) == multiset(t[..|t| - 1])
  {
    var n := |s| - 1;
    assert s == s[..n] + [s[n]] && t == t[..n] + [t[n]];
    assert multiset(s[..n]) == multiset(s) - multiset{s[n]};
    assert multiset(t[..n]) == multiset(t) - multiset{t[n]};
  }

  lemma FindInPrefix<T>(s: seq<T>, x: T, n: nat) returns (j: nat)
    requires n <= |s| && x in multiset(s[..n])
    ensures j < n && s[j] == x
  {
    j :| 0 <= j < n && s[..n][j] == x;
  }

  lemma SwapIntoPlace<T>(s: seq<T>, t: seq<T>, n: nat, j: nat)
    requires 0 < n <= |s| == |t| && multiset(s[..n]) == multiset(t[..n]) && s[n..] == t[n..]
    requires j < n && s[j] == t[n - 1]
    ensures var u := Swapped(s, n - 1, j); multiset(u[..n - 1]) == multiset(t[..n - 1]) && u[n - 1..] == t[n - 1..]
  {
    var i := n - 1;
    var u := Swapped(s, i, j);
    SwapPermutes(s[..n], i, j);
    assert u[..n] == Swapped(s[..n], i, j);
    WithoutLast(u[..n], t[..n]);
    assert u[..n][..i] == u[..i] && t[..n][..i] == t[..i];
    assert u[i..] == [t[i]] + s[n..] && t[i..] == [t[i]] + t[n..];
  }

  /** Every order is the outcome of some draws. */
  lemma {:induction false} ShuffleIsSurjective<T>(s: seq<T>, t: seq<T>, n: nat, nonce: int) returns (raw: int -> nat)
    requires n <= |s| == |t| && multiset(s[..n]) == multiset(t[..n]) && s[n..] == t[n..]
    ensures Shuffled(s, n, raw, nonce) == t
    decreases n
  {
    if n == 0 {
      raw := (k: int) => 0;
    } else {
      var i := n - 1;
      assert t[..n][i] in multiset(t[..n]);
      var j := FindInPrefix(s, t[i], n);
      SwapIntoPlace(s, t, n, j);
      var u := Swapped(s, i, j);
      var rest := ShuffleIsSurjective(u, t, i, nonce);
      raw := OneMoreDraw(rest, nonce, i, j);
      OnlyTheDrawsMatter(u, i, raw, rest, nonce);
      if n == 1 { assert u == s; }
    }
  }

  lemma OneMoreDraw(rest: int -> nat, nonce: int, i: nat, j: nat) returns (raw: int -> nat)
    requires j <= i
    ensures Draw(raw, nonce, i) == j && forall m: nat | m < i :: Draw(raw, nonce, m) == Draw(rest, nonce, m)
  {
    raw := (k: int) => if k == nonce + i then j else rest(k);
    DrawOf(raw, nonce, i);
    forall m: nat | m < i ensures Draw(raw, nonce, m) == Draw(rest, nonce, m) {
      assert raw(nonce + m) == rest(nonce + m);
    }
  }

  lemma DrawOf(raw: int -> nat, nonce: int, i: nat)
    requires raw(nonce + i) <= i
    ensures Draw(raw, nonce, i) == raw(nonce + i)
  {
  }
}
