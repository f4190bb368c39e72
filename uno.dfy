/** The UNO game (apps/Uno.tsx) for one human (seat 0) and three bots:
    the 108-card deck, the deal, play validity, card effects, drawing with
    the discard pile recycled into an empty deck, turn arithmetic modulo 4,
    and the guards on the human's clicks.

    Shuffles are inputs: a new game receives the shuffled deck, and every
    draw receives the shuffler a refill applies to the discard pile. The
    reshuffle inside the start-card loop is the identity. */
module UnoApp {
  import opened Types

  datatype CardColor = Red | Blue | Green | Yellow | BlackCard

  datatype CardKind = Number | Skip | Reverse | Draw2 | Wild | Wild4

  /** A card; the source's id `c-<n>` is the number `n`; only number cards have a value. */
  datatype Card = Card(id: nat, color: CardColor, kind: CardKind, value: Option<nat>)

  const Colors: seq<CardColor> := [Red, Blue, Green, Yellow]

  const ActionKinds: seq<CardKind> := [Skip, Reverse, Draw2]

  predicate IsWild(k: CardKind)
  {
    k == Wild || k == Wild4
  }

  /** The shape every card of the game keeps: black exactly when wild. */
  predicate WellFormedCard(c: Card)
  {
    c.color == BlackCard <==> IsWild(c.kind)
  }

  // ---------------------------------------------------------------------
  // The unshuffled deck

  /** The card in slot `j` (0..24) of a colour's run of 25: one zero, two
      of each of 1-9, then two skips, two reverses and two draw-twos. */
  function ColorCard(color: CardColor, j: nat, id: nat): Card
  {
    if j == 0 then Card(id, color, Number, Some(0))
    else if j <= 18 then Card(id, color, Number, Some((j + 1) / 2))
    else if j <= 20 then Card(id, color, Skip, None)
    else if j <= 22 then Card(id, color, Reverse, None)
    else Card(id, color, Draw2, None)
  }

  /** The card at position `i` of the deck before shuffling: four colour
      runs, then wild and wild-draw-four alternately, four of each. */
  function DeckCard(i: nat): Card
    requires i < 108
  {
    if i < 100 then ColorCard(Colors[i / 25], i % 25, i)
    else Card(i, BlackCard, if (i - 100) % 2 == 0 then Wild else Wild4, None)
  }

  function UnshuffledDeck(): (d: seq<Card>)
    ensures |d| == 108
  {
    seq(108, i requires 0 <= i < 108 => DeckCard(i))
  }

  /** One colour's run, as the source pushes it. */
  method ColorRun(color: CardColor, id0: nat) returns (cards: seq<Card>)
    ensures |cards| == 25
    ensures forall j :: 0 <= j < 25 ==> cards[j] == ColorCard(color, j, id0 + j)
  {
    var id := id0;
    cards := [Card(id, color, Number, Some(0))];
    id := id + 1;
    for v := 1 to 10
      invariant id == id0 + 2 * v - 1 && |cards| == id - id0
      invariant forall j :: 0 <= j < |cards| ==> cards[j] == ColorCard(color, j, id0 + j)
    {
      cards := cards + [Card(id, color, Number, Some(v))];
      id := id + 1;
      cards := cards + [Card(id, color, Number, Some(v))];
      id := id + 1;
    }
    for a := 0 to 3
      invariant id == id0 + 19 + 2 * a && |cards| == id - id0
      invariant forall j :: 0 <= j < |cards| ==> cards[j] == ColorCard(color, j, id0 + j)
    {
      cards := cards + [Card(id, color, ActionKinds[a], None)];
      id := id + 1;
      cards := cards + [Card(id, color, ActionKinds[a], None)];
      id := id + 1;
    }
  }

  lemma ColorSlot(ci: int, j: int)
    requires 0 <= ci < 4 && 0 <= j < 25
    ensures DeckCard(25 * ci + j) == ColorCard(Colors[ci], j, 25 * ci + j)
  {
    assert (25 * ci + j) / 25 == ci && (25 * ci + j) % 25 == j;
  }

  /** A prefix of the unshuffled deck extended by the next colour's run. */
  lemma RunExtends(deck: seq<Card>, run: seq<Card>, ci: int)
    requires 0 <= ci < 4 && |deck| == 25 * ci && |run| == 25
    requires forall k :: 0 <= k < |deck| ==> deck[k] == DeckCard(k)
    requires forall j :: 0 <= j < 25 ==> run[j] == ColorCard(Colors[ci], j, 25 * ci + j)
    ensures forall k :: 0 <= k < |deck + run| ==> (deck + run)[k] == DeckCard(k)
  {
    forall k | 0 <= k < |deck + run|
      ensures (deck + run)[k] == DeckCard(k)
    {
      if k >= |deck| {
        ColorSlot(ci, k - 25 * ci);
      }
    }
  }

  lemma WildSlot(i: int)
    requires 0 <= i < 4
    ensures DeckCard(100 + 2 * i) == Card(100 + 2 * i, BlackCard, Wild, None)
    ensures DeckCard(101 + 2 * i) == Card(101 + 2 * i, BlackCard, Wild4, None)
  {
    assert (100 + 2 * i - 100) % 2 == 0 && (101 + 2 * i - 100) % 2 == 1;
  }

  /** `generateDeck` before its shuffle. */
  method GenerateDeck() returns (deck: seq<Card>)
    ensures deck == UnshuffledDeck()
  {
    deck := [];
    var id := 0;
    for ci := 0 to 4
      invariant id == 25 * ci && |deck| == id
      invariant forall k :: 0 <= k < |deck| ==> deck[k] == DeckCard(k)
    {
      var run := ColorRun(Colors[ci], id);
      RunExtends(deck, run, ci);
      deck := deck + run;
      id := id + 25;
    }
    for i := 0 to 4
      invariant id == 100 + 2 * i && |deck| == id
      invariant forall k :: 0 <= k < |deck| ==> deck[k] == DeckCard(k)
    {
      WildSlot(i);
      deck := deck + [Card(id, BlackCard, Wild, None)] + [Card(id + 1, BlackCard, Wild4, None)];
      id := id + 2;
    }
  }

  /** Ids are the positions, so they are distinct; exactly the last eight cards are black. */
  lemma DeckIdsAndBlacks(i: nat)
    requires i < 108
    ensures DeckCard(i).id == i
    ensures DeckCard(i).color == BlackCard <==> i >= 100
    ensures WellFormedCard(DeckCard(i))
  {
    if i < 100 {
      assert 0 <= i / 25 < 4;
    }
  }

  /** Each colour has exactly one zero (at the start of its run) and exactly
      two of each value 1-9. */
  lemma NumberCopies(ci: int, v: nat, i: nat)
    requires 0 <= ci < 4 && v <= 9 && i < 108
    ensures (DeckCard(i).color == Colors[ci] && DeckCard(i).kind == Number && DeckCard(i).value == Some(v)) <==>
            (if v == 0 then i == 25 * ci else i == 25 * ci + 2 * v - 1 || i == 25 * ci + 2 * v)
  {
    if i < 100 {
      var c, j := i / 25, i % 25;
      assert i == 25 * c + j && 0 <= c < 4;
      ColorSlot(c, j);
    }
  }

  /** Each colour has exactly two skips, two reverses and two draw-twos. */
  lemma ActionCopies(ci: int, a: int, i: nat)
    requires 0 <= ci < 4 && 0 <= a < 3 && i < 108
    ensures (DeckCard(i).color == Colors[ci] && DeckCard(i).kind == ActionKinds[a]) <==>
            (i == 25 * ci + 19 + 2 * a || i == 25 * ci + 20 + 2 * a)
  {
    if i < 100 {
      var c, j := i / 25, i % 25;
      assert i == 25 * c + j && 0 <= c < 4;
      ColorSlot(c, j);
    }
  }

  /** Four wilds and four wild-draw-fours, all black. */
  lemma WildCopies(i: nat)
    requires i < 108
    ensures DeckCard(i).kind == Wild <==> i in {100, 102, 104, 106}
    ensures DeckCard(i).kind == Wild4 <==> i in {101, 103, 105, 107}
  {
    if i < 100 {
      assert 0 <= i / 25 < 4;
    }
  }

  // ---------------------------------------------------------------------
  // Counting black cards

  function BlackCount(s: seq<Card>): nat
    decreases |s|
  {
    if s == [] then 0
    else BlackCount(s[..|s| - 1]) + BlackOf(s[|s| - 1])
  }

  lemma {:induction false} BlackCountAppend(a: seq<Card>, b: seq<Card>)
    ensures BlackCount(a + b) == BlackCount(a) + BlackCount(b)
    decreases |b|
  {
    if b != [] {
      assert (a + b)[..|a + b| - 1] == a + b[..|b| - 1];
      assert (a + b)[|a + b| - 1] == b[|b| - 1];
      BlackCountAppend(a, b[..|b| - 1]);
    } else {
      assert a + b == a;
    }
  }

  function BlackOf(c: Card): nat
  {
    if c.color == BlackCard then 1 else 0
  }

  lemma BlackCountRemove(b: seq<Card>, k: int)
    requires 0 <= k < |b|
    ensures BlackCount(b) == BlackCount(b[..k] + b[k + 1..]) + BlackOf(b[k])
  {
    SplitAround(b, k);
    BlackCountSplit(b[..k], b[k], b[k + 1..]);
  }

  lemma PrefixSnoc(d: seq<Card>, m: int)
    requires 0 <= m < |d|
    ensures d[..m + 1] == d[..m] + [d[m]]
  {
  }

  lemma SplitAround(b: seq<Card>, k: int)
    requires 0 <= k < |b|
    ensures b == b[..k] + [b[k]] + b[k + 1..]
  {
  }

  lemma BlackCountSplit(p: seq<Card>, x: Card, q: seq<Card>)
    ensures BlackCount(p + [x] + q) == BlackCount(p + q) + BlackOf(x)
  {
    BlackCountAppend(p + [x], q);
    BlackCountSnoc(p, x);
    BlackCountAppend(p, q);
  }

  lemma BlackCountSnoc(p: seq<Card>, x: Card)
    ensures BlackCount(p + [x]) == BlackCount(p) + BlackOf(x)
  {
    assert (p + [x])[..|p|] == p;
  }

  lemma MultisetRemove(b: seq<Card>, k: int)
    requires 0 <= k < |b|
    ensures multiset(b[..k] + b[k + 1..]) + multiset{b[k]} == multiset(b)
  {
    assert b == b[..k] + [b[k]] + b[k + 1..];
  }

  /** A permutation has as many black cards as the original. */
  lemma {:induction false} BlackCountPermutation(a: seq<Card>, b: seq<Card>)
    requires multiset(a) == multiset(b)
    ensures BlackCount(a) == BlackCount(b)
    decreases |a|
  {
    if a == [] {
      assert |b| == |multiset(b)| == 0;
    } else {
      var n := |a| - 1;
      var x := a[n];
      assert x in multiset(b) by {
        assert x in multiset(a);
      }
      var k :| 0 <= k < |b| && b[k] == x;
      MultisetRemove(a, n);
      MultisetRemove(b, k);
      assert a[..n] + a[n + 1..] == a[..n];
      assert multiset(a[..n]) == multiset(a) - multiset{x};
      assert multiset(b[..k] + b[k + 1..]) == multiset(b) - multiset{x};
      BlackCountPermutation(a[..n], b[..k] + b[k + 1..]);
      BlackCountRemove(a, n);
      BlackCountRemove(b, k);
    }
  }

  lemma {:induction false} BlackCountOfDeck(n: nat)
    requires n <= 108
    ensures BlackCount(UnshuffledDeck()[..n]) == if n <= 100 then 0 else n - 100
  {
    if n > 0 {
      BlackCountOfDeck(n - 1);
      assert UnshuffledDeck()[..n][..n - 1] == UnshuffledDeck()[..n - 1];
      DeckIdsAndBlacks(n - 1);
    }
  }

  predicate HasNonBlack(d: seq<Card>)
  {
    exists i :: 0 <= i < |d| && d[i].color != BlackCard
  }

  lemma {:induction false} FewBlacksLeaveNonBlack(d: seq<Card>)
    requires BlackCount(d) < |d|
    ensures HasNonBlack(d)
    decreases |d|
  {
    if d[|d| - 1].color == BlackCard {
      FewBlacksLeaveNonBlack(d[..|d| - 1]);
      var i :| 0 <= i < |d| - 1 && d[..|d| - 1][i].color != BlackCard;
      assert d[i].color != BlackCard;
    }
  }

  /** A shuffle of the deck: any permutation of it. */
  predicate IsShuffle(d: seq<Card>)
  {
    multiset(d) == multiset(UnshuffledDeck())
  }

  /** After the deal, the 80 cards left always include a non-black one,
      so the search for a starting card ends. */
  lemma UndealtHasNonBlack(shuffled: seq<Card>)
    requires IsShuffle(shuffled)
    ensures |shuffled| == 108 && HasNonBlack(shuffled[..80])
  {
    assert |shuffled| == |multiset(shuffled)| == |multiset(UnshuffledDeck())| == 108;
    BlackCountPermutation(shuffled, UnshuffledDeck());
    BlackCountOfDeck(108);
    assert UnshuffledDeck()[..108] == UnshuffledDeck();
    assert shuffled == shuffled[..80] + shuffled[80..];
    BlackCountAppend(shuffled[..80], shuffled[80..]);
    FewBlacksLeaveNonBlack(shuffled[..80]);
  }

  // ---------------------------------------------------------------------
  // The deal and the starting card

  /** The first `m` cards dealt to seat `q`: round `k` pops the card
      `4k + q` places from the end. */
  function Dealt(deck: seq<Card>, q: int, m: nat): (h: seq<Card>)
    requires 0 <= q < 4 && 4 * m <= |deck|
    ensures |h| == m
  {
    seq(m, k requires 0 <= k < m => deck[|deck| - 1 - (4 * k + q)])
  }

  /** How many of the first `n` pops go to seat `q`. */
  function Share(n: nat, q: int): (s: nat)
    requires 0 <= q < 4
    ensures 4 * s <= n + 3 - q < 4 * s + 4
  {
    (n + 3 - q) / 4
  }

  /** The hands after the first `n` pops of the deal: pop `i` (from 0)
      takes the card `i` places from the end for seat `i % 4`. */
  function HandsAfter(deck: seq<Card>, n: nat): (hs: seq<seq<Card>>)
    requires n <= |deck|
    ensures |hs| == 4
  {
    if n == 0 then [[], [], [], []]
    else
      var hs := HandsAfter(deck, n - 1);
      var p := (n - 1) % 4;
      hs[p := hs[p] + [deck[|deck| - n]]]
  }

  function Hands4(hs: seq<seq<Card>>): multiset<Card>
    requires |hs| == 4
  {
    multiset(hs[0]) + multiset(hs[1]) + multiset(hs[2]) + multiset(hs[3])
  }

  /** Seat `q` holds, in order, the cards 4k + q places from the end. */
  lemma {:induction false} DealClosedForm(deck: seq<Card>, n: nat)
    requires n <= 28 && 28 <= |deck|
    ensures forall q :: 0 <= q < 4 ==> HandsAfter(deck, n)[q] == Dealt(deck, q, Share(n, q))
  {
    if n > 0 {
      DealClosedForm(deck, n - 1);
      forall q | 0 <= q < 4
        ensures HandsAfter(deck, n)[q] == Dealt(deck, q, Share(n, q))
      {
        SeatAfterPop(deck, n, q);
      }
    }
  }

  /** Pop `n - 1` extends the seat it is dealt to and leaves the others. */
  lemma SeatAfterPop(deck: seq<Card>, n: nat, q: int)
    requires 0 < n <= 28 && 28 <= |deck| && 0 <= q < 4
    requires HandsAfter(deck, n - 1)[q] == Dealt(deck, q, Share(n - 1, q))
    ensures HandsAfter(deck, n)[q] == Dealt(deck, q, Share(n, q))
  {
    HandsAfterSeat(deck, n, q);
    ShareStep(n, q);
    if q == (n - 1) % 4 {
      var m := Share(n - 1, q);
      DealtSnoc(deck, q, m);
      SeatGrows(HandsAfter(deck, n)[q], HandsAfter(deck, n - 1)[q], Dealt(deck, q, m),
                Dealt(deck, q, m + 1), deck[|deck| - n]);
    }
  }

  lemma SeatGrows(h: seq<Card>, h0: seq<Card>, d0: seq<Card>, d1: seq<Card>, c: Card)
    requires h == h0 + [c] && h0 == d0 && d1 == d0 + [c]
    ensures h == d1
  {
  }

  /** Pop `n - 1` goes to seat `(n - 1) % 4`: that seat's share grows by one. */
  lemma ShareStep(n: nat, q: int)
    requires 0 < n && 0 <= q < 4
    ensures q == (n - 1) % 4 ==> Share(n, q) == Share(n - 1, q) + 1 && 4 * Share(n - 1, q) + q == n - 1
    ensures q != (n - 1) % 4 ==> Share(n, q) == Share(n - 1, q)
  {
    var a, r := (n - 1) / 4, (n - 1) % 4;
    assert n - 1 == 4 * a + r;
    assert Share(n - 1, q) == (4 * a + r + 3 - q) / 4;
    assert Share(n, q) == (4 * a + r + 4 - q) / 4;
    if r < q {
      assert Share(n - 1, q) == a && Share(n, q) == a;
    } else if r == q {
      assert Share(n - 1, q) == a && Share(n, q) == a + 1;
    } else {
      assert Share(n - 1, q) == a + 1 && Share(n, q) == a + 1;
    }
  }

  lemma HandsAfterSeat(deck: seq<Card>, n: nat, q: int)
    requires 0 < n <= |deck| && 0 <= q < 4
    ensures HandsAfter(deck, n)[q] ==
            if q == (n - 1) % 4 then HandsAfter(deck, n - 1)[q] + [deck[|deck| - n]] else HandsAfter(deck, n - 1)[q]
  {
  }

  lemma DealtSnoc(deck: seq<Card>, q: int, m: nat)
    requires 0 <= q < 4 && 4 * (m + 1) <= |deck|
    ensures Dealt(deck, q, m + 1) == Dealt(deck, q, m) + [deck[|deck| - 1 - (4 * m + q)]]
  {
  }

  /** One pop of the deal: the card leaves the deck for a hand. */
  lemma DealMove(prev: seq<Card>, rest: seq<Card>, c: Card, hs: seq<seq<Card>>, hs': seq<seq<Card>>, p: int,
                 total: multiset<Card>)
    requires |hs| == 4 && 0 <= p < 4 && hs' == hs[p := hs[p] + [c]] && prev == rest + [c]
    requires multiset(prev) + Hands4(hs) == total
    ensures multiset(rest) + Hands4(hs') == total
  {
    Hands4Update(hs, p, hs[p] + [c]);
  }

  /** After `n` pops the undealt prefix and the hands hold exactly the deck's cards. */
  ghost predicate Conserved(deck: seq<Card>, n: nat)
    requires n <= |deck|
  {
    multiset(deck[..|deck| - n]) + Hands4(HandsAfter(deck, n)) == multiset(deck)
  }

  /** The deal moves cards from the deck to the hands and loses none. */
  lemma DealConserves(deck: seq<Card>, n: nat)
    requires n <= |deck|
    ensures Conserved(deck, n)
  {
    DealNone(deck);
    for k := 0 to n
      invariant Conserved(deck, k)
    {
      DealPop(deck, k);
    }
  }

  /** Before the first pop the deck holds everything. */
  lemma DealNone(deck: seq<Card>)
    ensures Conserved(deck, 0)
  {
    assert HandsAfter(deck, 0) == [[], [], [], []];
    WholePrefix(deck);
  }

  lemma WholePrefix(deck: seq<Card>)
    ensures multiset(deck[..|deck|]) == multiset(deck)
  {
    assert deck[..|deck|] == deck;
  }

  /** Pop `k` of the deal, after the earlier ones, keeps every card. */
  lemma DealPop(deck: seq<Card>, k: nat)
    requires k < |deck| && Conserved(deck, k)
    ensures Conserved(deck, k + 1)
  {
    var m := |deck| - (k + 1);
    PrefixSnoc(deck, m);
    DealMove(deck[..m + 1], deck[..m], deck[m], HandsAfter(deck, k), HandsAfter(deck, k + 1), k % 4, multiset(deck));
  }

  /** The deal loop: seven rounds, one card per seat per round, from the end of the deck. */
  method DealHands(deck: seq<Card>) returns (rest: seq<Card>, hands: seq<seq<Card>>)
    requires 28 <= |deck|
    ensures rest == deck[..|deck| - 28] && hands == HandsAfter(deck, 28)
    ensures forall q :: 0 <= q < 4 ==> hands[q] == Dealt(deck, q, 7)
  {
    rest := deck;
    hands := [[], [], [], []];
    for i := 0 to 7
      invariant rest == deck[..|deck| - 4 * i] && hands == HandsAfter(deck, 4 * i)
    {
      rest, hands := DealRound(deck, i, rest, hands);
    }
    DealtSeven(deck);
  }

  /** One round of the deal: a card for each seat in turn. */
  method DealRound(deck: seq<Card>, i: nat, rest0: seq<Card>, hands0: seq<seq<Card>>)
    returns (rest: seq<Card>, hands: seq<seq<Card>>)
    requires 4 * i + 4 <= |deck|
    requires rest0 == deck[..|deck| - 4 * i] && hands0 == HandsAfter(deck, 4 * i)
    ensures rest == deck[..|deck| - (4 * i + 4)] && hands == HandsAfter(deck, 4 * i + 4)
  {
    rest, hands := rest0, hands0;
    for p := 0 to 4
      invariant rest == deck[..|deck| - (4 * i + p)] && hands == HandsAfter(deck, 4 * i + p)
    {
      DealStep(deck, i, p);
      var c := rest[|rest| - 1];
      rest := rest[..|rest| - 1];
      hands := hands[p := hands[p] + [c]];
    }
  }

  /** Pop `4i + p` of the deal takes the deck's last card to seat `p`. */
  lemma DealStep(deck: seq<Card>, i: nat, p: nat)
    requires p < 4 && 4 * i + p < |deck|
    ensures var n := 4 * i + p;
            var rest := deck[..|deck| - n];
            rest[..|rest| - 1] == deck[..|deck| - (n + 1)] && rest[|rest| - 1] == deck[|deck| - (n + 1)] &&
            HandsAfter(deck, n + 1) == HandsAfter(deck, n)[p := HandsAfter(deck, n)[p] + [deck[|deck| - (n + 1)]]]
  {
    assert (4 * i + p) % 4 == p;
  }

  /** After the whole deal every seat holds seven cards, every fourth from the end. */
  lemma DealtSeven(deck: seq<Card>)
    requires 28 <= |deck|
    ensures forall q :: 0 <= q < 4 ==> HandsAfter(deck, 28)[q] == Dealt(deck, q, 7)
  {
    DealClosedForm(deck, 28);
    assert Share(28, 0) == 7 && Share(28, 1) == 7 && Share(28, 2) == 7 && Share(28, 3) == 7;
  }

  function TrailingBlack(d: seq<Card>): nat
    decreases |d|
  {
    if d == [] || d[|d| - 1].color != BlackCard then 0 else 1 + TrailingBlack(d[..|d| - 1])
  }

  lemma {:induction false} TrailingBlackFront(x: Card, e: seq<Card>)
    requires HasNonBlack(e)
    ensures TrailingBlack([x] + e) == TrailingBlack(e)
    decreases |e|
  {
    assert ([x] + e)[..|[x] + e| - 1] == [x] + e[..|e| - 1];
    if e[|e| - 1].color == BlackCard {
      var i :| 0 <= i < |e| && e[i].color != BlackCard;
      assert i < |e| - 1 && e[..|e| - 1][i] == e[i];
      TrailingBlackFront(x, e[..|e| - 1]);
    }
  }

  datatype Start = Start(card: Card, deck: seq<Card>)

  /** The starting card: pop; while it is black, put it back at the front and pop again. */
  function StartPick(d: seq<Card>): Start
    requires HasNonBlack(d)
    decreases TrailingBlack(d)
  {
    var last := d[|d| - 1];
    if last.color != BlackCard then Start(last, d[..|d| - 1])
    else
      var i :| 0 <= i < |d| && d[i].color != BlackCard;
      assert d[..|d| - 1][i] == d[i] == ([last] + d[..|d| - 1])[i + 1];
      TrailingBlackFront(last, d[..|d| - 1]);
      StartPick([last] + d[..|d| - 1])
  }

  lemma {:induction false} StartPickFacts(d: seq<Card>)
    requires HasNonBlack(d)
    ensures StartPick(d).card.color != BlackCard
    ensures multiset(StartPick(d).deck) + multiset{StartPick(d).card} == multiset(d)
    decreases TrailingBlack(d)
  {
    var last := d[|d| - 1];
    assert d == d[..|d| - 1] + [last];
    if last.color == BlackCard {
      var i :| 0 <= i < |d| && d[i].color != BlackCard;
      assert d[..|d| - 1][i] == d[i] == ([last] + d[..|d| - 1])[i + 1];
      TrailingBlackFront(last, d[..|d| - 1]);
      StartPickFacts([last] + d[..|d| - 1]);
    }
  }

  /** The start-pile loop, its reshuffle taken as the identity. */
  method PickStart(d: seq<Card>) returns (card: Card, deck: seq<Card>)
    requires HasNonBlack(d)
    ensures Start(card, deck) == StartPick(d)
  {
    deck := d[..|d| - 1];
    card := d[|d| - 1];
    assert deck + [card] == d;
    while card.color == BlackCard
      invariant HasNonBlack(deck + [card]) && StartPick(deck + [card]) == StartPick(d)
      decreases TrailingBlack(deck + [card])
    {
      var e := deck + [card];
      assert e[..|e| - 1] == deck && e[|e| - 1] == card;
      var front := [card] + deck;
      var i :| 0 <= i < |e| && e[i].color != BlackCard;
      assert i < |deck| && front[i + 1] == e[i];
      TrailingBlackFront(card, deck);
      assert StartPick(e) == StartPick(front);
      deck := front[..|front| - 1];
      card := front[|front| - 1];
      assert deck + [card] == front;
    }
    assert (deck + [card])[..|deck + [card]| - 1] == deck;
  }

  // ---------------------------------------------------------------------
  // Game state

  datatype UnoState = UnoState(
    deck: seq<Card>,
    discardPile: seq<Card>,
    players: seq<seq<Card>>,
    turn: int,
    direction: int,
    currentColor: CardColor,
    winner: Option<int>,
    choosingColor: bool,
    gameStarted: bool,
    pending: Option<Card>)

  /** Before the first game: empty piles and hands, red, seat 0, clockwise. */
  function InitialUno(): UnoState
  {
    UnoState([], [], [[], [], [], []], 0, 1, Red, None, false, false, None)
  }

  /** Four seats, a seat number in range, a direction of one step, and a
      non-empty discard pile once a game is running. */
  predicate Valid(s: UnoState)
  {
    |s.players| == 4 && 0 <= s.turn < 4 && (s.direction == 1 || s.direction == -1) &&
    (s.gameStarted ==> |s.discardPile| > 0)
  }

  /** Every card of the game, wherever it is. */
  function Total(s: UnoState): multiset<Card>
    requires |s.players| == 4
  {
    multiset(s.deck) + multiset(s.discardPile) + Hands4(s.players)
  }

  /** `startGame` on a shuffled deck. */
  function StartedGame(s: UnoState, shuffled: seq<Card>): UnoState
    requires IsShuffle(shuffled)
  {
    UndealtHasNonBlack(shuffled);
    var pick := StartPick(shuffled[..80]);
    s.(deck := pick.deck, players := HandsAfter(shuffled, 28), discardPile := [pick.card],
       currentColor := pick.card.color, turn := 0, winner := None, direction := 1,
       gameStarted := true, choosingColor := false)
  }

  // ---------------------------------------------------------------------
  // Turn arithmetic

  /** The source's normalisation `(x % 4 + 4) % 4`. */
  function Norm4(x: int): int
  {
    JsRem(JsRem(x, 4) + 4, 4)
  }

  /** `getNextTurn`: one seat in the current direction, two when skipping. */
  function NextTurn(turn: int, direction: int, skip: bool): int
  {
    Norm4(turn + (if skip then 2 * direction else direction))
  }

  /** The normalisation is the mathematical residue modulo 4, for any sign. */
  lemma Norm4IsMod(x: int)
    ensures Norm4(x) == x % 4
    ensures 0 <= Norm4(x) < 4
  {
    if x < 0 {
      var r := (-x) % 4;
      assert -x == 4 * ((-x) / 4) + r;
      assert x == 4 * (-((-x) / 4) - 1) + (4 - r);
      if r == 0 {
        assert x == 4 * (-((-x) / 4));
      }
    }
  }

  lemma NextTurnInRange(turn: int, direction: int, skip: bool)
    ensures 0 <= NextTurn(turn, direction, skip) < 4
    ensures NextTurn(turn, direction, skip) == (turn + (if skip then 2 * direction else direction)) % 4
  {
    Norm4IsMod(turn + (if skip then 2 * direction else direction));
  }

  // ---------------------------------------------------------------------
  // Drawing

  function Min(a: int, b: int): int
  {
    if a <= b then a else b
  }

  /** The `k` cards popped from the end of `deck`, in the order they are popped. */
  function Popped(deck: seq<Card>, k: nat): (p: seq<Card>)
    requires k <= |deck|
    ensures |p| == k
  {
    seq(k, j requires 0 <= j < k => deck[|deck| - 1 - j])
  }

  /** A recycled card: wilds go back to black. */
  function Reset(c: Card): Card
  {
    if IsWild(c.kind) then c.(color := BlackCard) else c
  }

  function Recycle(rest: seq<Card>): (r: seq<Card>)
    ensures |r| == |rest|
  {
    seq(|rest|, i requires 0 <= i < |rest| => Reset(rest[i]))
  }

  datatype Piles = Piles(deck: seq<Card>, discard: seq<Card>)

  /** The random reorder `sort(() => Math.random() - 0.5)` applied to the
      recycled pile: an input of every draw. */
  type Shuffler = seq<Card> -> seq<Card>

  /** A shuffler that only reorders: the same cards come out as go in. */
  ghost predicate Reorders(shuffle: Shuffler)
  {
    forall xs :: multiset(shuffle(xs)) == multiset(xs)
  }

  /** When the deck holds fewer cards than wanted and the discard pile more
      than one, everything but its top is shuffled and pushed on top of the
      deck, so it is drawn first. */
  function Refill(deck: seq<Card>, discard: seq<Card>, count: nat, shuffle: Shuffler): Piles
  {
    if |deck| < count && |discard| > 1 then
      Piles(deck + Recycle(shuffle(discard[..|discard| - 1])), [discard[|discard| - 1]])
    else Piles(deck, discard)
  }

  /** The pop loop of `drawCard`: up to `count` cards from the end of the deck. */
  method DrawLoop(deck: seq<Card>, hand: seq<Card>, count: nat) returns (deck': seq<Card>, hand': seq<Card>)
    ensures deck' == deck[..|deck| - Min(count, |deck|)]
    ensures hand' == hand + Popped(deck, Min(count, |deck|))
    ensures multiset(deck') + multiset(hand') == multiset(deck) + multiset(hand)
  {
    deck', hand' := deck, hand;
    for i := 0 to count
      invariant deck' == deck[..|deck| - Min(i, |deck|)]
      invariant hand' == hand + Popped(deck, Min(i, |deck|))
      invariant multiset(deck') + multiset(hand') == multiset(deck) + multiset(hand)
    {
      if |deck'| > 0 {
        var c := deck'[|deck'| - 1];
        assert deck' == deck'[..|deck'| - 1] + [c];
        assert Popped(deck, i + 1) == Popped(deck, i) + [c];
        deck' := deck'[..|deck'| - 1];
        hand' := hand' + [c];
      }
    }
  }

  /** `drawCard`: refill if needed, then move up to `count` cards to the seat's hand. */
  function Draw(s: UnoState, p: int, count: nat, shuffle: Shuffler): UnoState
    requires |s.players| == 4 && 0 <= p < 4
  {
    var piles := Refill(s.deck, s.discardPile, count, shuffle);
    var k := Min(count, |piles.deck|);
    s.(deck := piles.deck[..|piles.deck| - k], discardPile := piles.discard,
       players := s.players[p := s.players[p] + Popped(piles.deck, k)])
  }

  // ---------------------------------------------------------------------
  // Playing

  /** `findIndex` by id: the first match, or -1. */
  function FindIndex(hand: seq<Card>, id: nat): (i: int)
    ensures -1 <= i < |hand|
    ensures i == -1 <==> forall j :: 0 <= j < |hand| ==> hand[j].id != id
    ensures i >= 0 ==> hand[i].id == id && forall j :: 0 <= j < i ==> hand[j].id != id
    decreases |hand|
  {
    if hand == [] then -1
    else if hand[0].id == id then 0
    else
      var r := FindIndex(hand[1..], id);
      if r == -1 then -1 else r + 1
  }

  function RemoveAt(hand: seq<Card>, i: int): seq<Card>
    requires 0 <= i < |hand|
  {
    hand[..i] + hand[i + 1..]
  }

  /** `isValidPlay` against the current colour and the top of the discard pile. */
  predicate IsValidPlay(s: UnoState, card: Card)
    requires |s.discardPile| > 0
  {
    var top := s.discardPile[|s.discardPile| - 1];
    if card.color == s.currentColor then true
    else if card.color != BlackCard && top.color != BlackCard && card.kind == top.kind then
      if card.kind == Number then card.value == top.value else true
    else if card.kind == top.kind && !IsWild(card.kind) then
      if card.kind == Number then card.value == top.value else true
    else card.color == BlackCard
  }

  /** The seat that must draw after a draw card: one step in the new direction. */
  function DrawTarget(turn: int, direction: int): int
  {
    Norm4(turn + direction)
  }

  function IsSkipping(k: CardKind): bool
  {
    k == Skip || k == Draw2 || k == Wild4
  }

  /** The colour in force after `card`: a wild's chosen colour (red if none), otherwise its own. */
  function NextColor(card: Card, wildColor: Option<CardColor>): CardColor
  {
    if IsWild(card.kind) then (if wildColor.Some? then wildColor.value else Red) else card.color
  }

  /** The effects of a played card on a hand that is not yet empty. */
  function Effects(s: UnoState, card: Card, wildColor: Option<CardColor>, shuffle: Shuffler): UnoState
    requires |s.players| == 4
  {
    var nextDir := if card.kind == Reverse then -s.direction else s.direction;
    var s2 := if card.kind == Draw2 then Draw(s, DrawTarget(s.turn, nextDir), 2, shuffle)
              else if card.kind == Wild4 then Draw(s, DrawTarget(s.turn, nextDir), 4, shuffle)
              else s;
    s2.(currentColor := NextColor(card, wildColor), direction := nextDir,
        turn := NextTurn(s.turn, nextDir, IsSkipping(card.kind)))
  }

  /** `playCard`: take the card (by id) from the seat's hand and put it on the
      pile; an emptied hand wins at once, otherwise the card takes effect. */
  function Play(s: UnoState, p: int, card: Card, wildColor: Option<CardColor>, shuffle: Shuffler): UnoState
    requires |s.players| == 4 && 0 <= p < 4
  {
    var i := FindIndex(s.players[p], card.id);
    if i == -1 then s
    else
      var hand := RemoveAt(s.players[p], i);
      var s1 := s.(players := s.players[p := hand], discardPile := s.discardPile + [card]);
      if hand == [] then s1.(winner := Some(p)) else Effects(s1, card, wildColor, shuffle)
  }

  /** `handleCardClick` on a card of the human's hand. */
  function CardClick(s: UnoState, card: Card, shuffle: Shuffler): UnoState
    requires Valid(s) && s.gameStarted
  {
    if s.turn != 0 || s.choosingColor then s
    else if !IsValidPlay(s, card) then s
    else if card.color == BlackCard then s.(choosingColor := true, pending := Some(card))
    else Play(s, 0, card, None, shuffle)
  }

  /** `handleColorPick`: play the pending wild in the chosen colour. */
  function ColorPick(s: UnoState, c: CardColor, shuffle: Shuffler): UnoState
    requires Valid(s)
  {
    if s.pending.None? then s
    else Play(s, 0, s.pending.value, Some(c), shuffle).(choosingColor := false, pending := None)
  }

  /** `handleDrawClick`: draw one card and pass. */
  function DrawClick(s: UnoState, shuffle: Shuffler): UnoState
    requires Valid(s)
  {
    if s.turn != 0 || s.choosingColor then s
    else Draw(s, 0, 1, shuffle).(turn := NextTurn(s.turn, s.direction, false))
  }

  /** What a bot may play: a valid card of its hand, or nothing when it has none. */
  predicate BotChoiceOk(s: UnoState, choice: Option<Card>)
    requires Valid(s) && s.gameStarted
  {
    (choice.None? <==> forall c :: c in s.players[s.turn] ==> !IsValidPlay(s, c)) &&
    (choice.Some? ==> choice.value in s.players[s.turn] && IsValidPlay(s, choice.value))
  }

  /** `playAITurn` for the seat to move: play the chosen card (a wild in
      `picked`, one of the four colours) or draw one and pass. Which valid
      card the bot's sort puts first is left to the caller. */
  function BotTurn(s: UnoState, choice: Option<Card>, picked: CardColor, shuffle: Shuffler): UnoState
    requires Valid(s) && s.gameStarted && BotChoiceOk(s, choice)
  {
    if s.winner.Some? || s.turn == 0 then s
    else if choice.None? then Draw(s, s.turn, 1, shuffle).(turn := NextTurn(s.turn, s.direction, false))
    else Play(s, s.turn, choice.value, Some(if choice.value.color == BlackCard then picked else Red), shuffle)
  }

  // ---------------------------------------------------------------------
  // Properties

  /** A new game: seven cards per seat, dealt one at a time from the end of
      the shuffled deck; one non-black card on the pile whose colour is in
      force; seat 0 to move clockwise. */
  lemma StartedGameFacts(s: UnoState, shuffled: seq<Card>)
    requires IsShuffle(shuffled)
    ensures var g := StartedGame(s, shuffled);
            Valid(g) && g.gameStarted && g.winner.None? && !g.choosingColor &&
            |shuffled| == 108 && (forall q :: 0 <= q < 4 ==> g.players[q] == Dealt(shuffled, q, 7)) &&
            |g.discardPile| == 1 && g.discardPile[0].color != BlackCard &&
            g.currentColor == g.discardPile[0].color && g.turn == 0 && g.direction == 1
  {
    UndealtHasNonBlack(shuffled);
    StartPickFacts(shuffled[..80]);
    DealClosedForm(shuffled, 28);
    assert Share(28, 0) == 7 && Share(28, 1) == 7 && Share(28, 2) == 7 && Share(28, 3) == 7;
  }

  /** Every card of the shuffled deck is in play after the deal. */
  lemma StartedGameConserves(s: UnoState, shuffled: seq<Card>)
    requires IsShuffle(shuffled)
    ensures Total(StartedGame(s, shuffled)) == multiset(shuffled)
  {
    UndealtHasNonBlack(shuffled);
    var pick := StartPick(shuffled[..80]);
    StartPickFacts(shuffled[..80]);
    DealConserves(shuffled, 28);
    assert multiset(pick.deck) + multiset([pick.card]) == multiset(shuffled[..80]);
  }

  /** Under the deck's invariant (black exactly when wild) a play is valid
      exactly when it matches the colour in force, is black, or repeats the
      top card's kind (and, for numbers, its value). */
  lemma ValidPlayRule(s: UnoState, card: Card)
    requires |s.discardPile| > 0 && WellFormedCard(card)
    ensures var top := s.discardPile[|s.discardPile| - 1];
            IsValidPlay(s, card) <==>
              card.color == s.currentColor || card.color == BlackCard ||
              (card.kind == top.kind && (card.kind == Number ==> card.value == top.value))
  {
  }

  /** A card not in the hand is ignored. */
  lemma PlayMissingCard(s: UnoState, p: int, card: Card, wildColor: Option<CardColor>, shuffle: Shuffler)
    requires |s.players| == 4 && 0 <= p < 4
    requires forall j :: 0 <= j < |s.players[p]| ==> s.players[p][j].id != card.id
    ensures Play(s, p, card, wildColor, shuffle) == s
  {
  }

  /** Playing the last card wins at once: the card goes on the pile, and the
      direction, the seat to move, the colour and the deck are untouched. */
  lemma PlayLastCardWins(s: UnoState, p: int, card: Card, wildColor: Option<CardColor>, shuffle: Shuffler)
    requires |s.players| == 4 && 0 <= p < 4 && s.players[p] == [card]
    ensures var t := Play(s, p, card, wildColor, shuffle);
            t == s.(players := s.players[p := []], discardPile := s.discardPile + [card], winner := Some(p))
  {
  }

  /** Otherwise the card leaves the hand (exactly the first card with its
      id), lands on the pile, and then: a reverse flips the direction; skip,
      draw-two and wild-draw-four move two seats on, anything else one; the
      colour in force becomes the card's or the wild's chosen colour. */
  lemma PlayEffects(s: UnoState, p: int, card: Card, wildColor: Option<CardColor>, shuffle: Shuffler)
    requires |s.players| == 4 && 0 <= p < 4
    requires FindIndex(s.players[p], card.id) >= 0 && |s.players[p]| > 1
    ensures var t := Play(s, p, card, wildColor, shuffle);
            var dir := if card.kind == Reverse then -s.direction else s.direction;
            t.direction == dir && t.currentColor == NextColor(card, wildColor) &&
            t.turn == NextTurn(s.turn, dir, IsSkipping(card.kind)) && t.winner == s.winner &&
            t.discardPile[|t.discardPile| - 1] == card
    ensures card.kind != Draw2 && card.kind != Wild4 ==>
              Play(s, p, card, wildColor, shuffle).players ==
                s.players[p := RemoveAt(s.players[p], FindIndex(s.players[p], card.id))] &&
              Play(s, p, card, wildColor, shuffle).discardPile == s.discardPile + [card] &&
              Play(s, p, card, wildColor, shuffle).deck == s.deck
  {
  }

  /** A draw-two or wild-draw-four makes the next seat in the new direction
      draw two or four cards after the card has left the hand. */
  lemma PlayDrawCard(s: UnoState, p: int, card: Card, wildColor: Option<CardColor>, shuffle: Shuffler)
    requires |s.players| == 4 && 0 <= p < 4
    requires FindIndex(s.players[p], card.id) >= 0 && |s.players[p]| > 1
    requires card.kind == Draw2 || card.kind == Wild4
    ensures var dir := if card.kind == Reverse then -s.direction else s.direction;
            var hand := RemoveAt(s.players[p], FindIndex(s.players[p], card.id));
            var s1 := s.(players := s.players[p := hand], discardPile := s.discardPile + [card]);
            var after := Draw(s1, DrawTarget(s.turn, dir), if card.kind == Draw2 then 2 else 4, shuffle);
            Play(s, p, card, wildColor, shuffle).players == after.players &&
            Play(s, p, card, wildColor, shuffle).deck == after.deck &&
            Play(s, p, card, wildColor, shuffle).discardPile == after.discardPile
  {
  }

  /** Drawing gives the seat exactly min(count, cards available) cards,
      popped from the end of the (possibly refilled) deck. */
  lemma DrawEffect(s: UnoState, p: int, count: nat, shuffle: Shuffler)
    requires |s.players| == 4 && 0 <= p < 4
    ensures var piles := Refill(s.deck, s.discardPile, count, shuffle);
            var k := Min(count, |piles.deck|);
            var t := Draw(s, p, count, shuffle);
            t.players[p] == s.players[p] + Popped(piles.deck, k) &&
            (forall q :: 0 <= q < 4 && q != p ==> t.players[q] == s.players[q]) &&
            t.deck == piles.deck[..|piles.deck| - k] &&
            (|s.deck| >= count ==> t.discardPile == s.discardPile && k == count) &&
            (|s.deck| < count && |s.discardPile| > 1 ==>
               t.discardPile == [s.discardPile[|s.discardPile| - 1]] &&
               piles.deck == s.deck + Recycle(shuffle(s.discardPile[..|s.discardPile| - 1])))
  {
  }

  lemma RecycleKeepsCards(rest: seq<Card>)
    requires forall i :: 0 <= i < |rest| ==> WellFormedCard(rest[i])
    ensures Recycle(rest) == rest
  {
  }

  lemma PoppedMultiset(deck: seq<Card>, k: nat)
    requires k <= |deck|
    ensures multiset(deck[..|deck| - k]) + multiset(Popped(deck, k)) == multiset(deck)
    decreases k
  {
    if k == 0 {
      assert deck[..|deck|] == deck;
    } else {
      PoppedMultiset(deck, k - 1);
      assert Popped(deck, k) == Popped(deck, k - 1) + [deck[|deck| - k]];
      assert deck[..|deck| - (k - 1)] == deck[..|deck| - k] + [deck[|deck| - k]];
    }
  }

  lemma Hands4Update(hs: seq<seq<Card>>, p: int, h: seq<Card>)
    requires |hs| == 4 && 0 <= p < 4
    ensures Hands4(hs[p := h]) + multiset(hs[p]) == Hands4(hs) + multiset(h)
  {
  }

  /** A refill moves the shuffled pile onto the deck and keeps its top; no card is lost. */
  lemma RefillConserves(deck: seq<Card>, discard: seq<Card>, count: nat, shuffle: Shuffler)
    requires Reorders(shuffle)
    requires forall i :: 0 <= i < |discard| ==> WellFormedCard(discard[i])
    ensures var piles := Refill(deck, discard, count, shuffle);
            multiset(piles.deck) + multiset(piles.discard) == multiset(deck) + multiset(discard)
  {
    if |deck| < count && |discard| > 1 {
      var n := |discard|;
      var rest := shuffle(discard[..n - 1]);
      assert multiset(rest) == multiset(discard[..n - 1]);
      forall i | 0 <= i < |rest|
        ensures WellFormedCard(rest[i])
      {
        assert rest[i] in multiset(discard[..n - 1]);
      }
      RecycleKeepsCards(rest);
      assert discard == discard[..n - 1] + [discard[n - 1]];
    }
  }

  /** Drawing moves cards and loses none: the cards of the deck, the pile
      and the hands are the same multiset before and after. */
  lemma DrawConserves(s: UnoState, p: int, count: nat, shuffle: Shuffler)
    requires Reorders(shuffle)
    requires |s.players| == 4 && 0 <= p < 4
    requires forall i :: 0 <= i < |s.discardPile| ==> WellFormedCard(s.discardPile[i])
    ensures Total(Draw(s, p, count, shuffle)) == Total(s)
  {
    var piles := Refill(s.deck, s.discardPile, count, shuffle);
    var k := Min(count, |piles.deck|);
    RefillConserves(s.deck, s.discardPile, count, shuffle);
    PoppedMultiset(piles.deck, k);
    var t := Draw(s, p, count, shuffle);
    DrawShape(s, p, count, shuffle);
    DrawMove(t.deck, Popped(piles.deck, k), piles.deck, piles.discard, s.deck, s.discardPile, s.players, t.players, p);
  }

  lemma DrawShape(s: UnoState, p: int, count: nat, shuffle: Shuffler)
    requires |s.players| == 4 && 0 <= p < 4
    ensures var piles := Refill(s.deck, s.discardPile, count, shuffle);
            var k := Min(count, |piles.deck|);
            var t := Draw(s, p, count, shuffle);
            t.deck == piles.deck[..|piles.deck| - k] && t.discardPile == piles.discard &&
            t.players == s.players[p := s.players[p] + Popped(piles.deck, k)]
  {
  }

  lemma DrawMove(rest: seq<Card>, popped: seq<Card>, full: seq<Card>, pile: seq<Card>,
                 deck0: seq<Card>, pile0: seq<Card>, hs: seq<seq<Card>>, hs': seq<seq<Card>>, p: int)
    requires |hs| == 4 && 0 <= p < 4 && hs' == hs[p := hs[p] + popped]
    requires multiset(rest) + multiset(popped) == multiset(full)
    requires multiset(full) + multiset(pile) == multiset(deck0) + multiset(pile0)
    ensures multiset(rest) + multiset(pile) + Hands4(hs') == multiset(deck0) + multiset(pile0) + Hands4(hs)
  {
    Hands4Update(hs, p, hs[p] + popped);
  }

  /** Taking the card from the hand onto the pile keeps every card. */
  lemma RemovalConserves(s: UnoState, p: int, i: int, card: Card)
    requires |s.players| == 4 && 0 <= p < 4 && 0 <= i < |s.players[p]| && s.players[p][i] == card
    ensures var s1 := s.(players := s.players[p := RemoveAt(s.players[p], i)], discardPile := s.discardPile + [card]);
            Total(s1) == Total(s)
  {
    MultisetRemove(s.players[p], i);
    Hands4Update(s.players, p, RemoveAt(s.players[p], i));
  }

  lemma EffectsConserve(s: UnoState, card: Card, wildColor: Option<CardColor>, shuffle: Shuffler)
    requires Reorders(shuffle)
    requires |s.players| == 4
    requires forall i :: 0 <= i < |s.discardPile| ==> WellFormedCard(s.discardPile[i])
    ensures Total(Effects(s, card, wildColor, shuffle)) == Total(s)
  {
    var dir := if card.kind == Reverse then -s.direction else s.direction;
    Norm4IsMod(s.turn + dir);
    if card.kind == Draw2 || card.kind == Wild4 {
      DrawConserves(s, DrawTarget(s.turn, dir), if card.kind == Draw2 then 2 else 4, shuffle);
    }
  }

  /** Playing a card of the hand moves cards and loses none. */
  lemma PlayConserves(s: UnoState, p: int, card: Card, wildColor: Option<CardColor>, shuffle: Shuffler)
    requires Reorders(shuffle)
    requires |s.players| == 4 && 0 <= p < 4
    requires forall i :: 0 <= i < |s.discardPile| ==> WellFormedCard(s.discardPile[i])
    requires WellFormedCard(card)
    requires FindIndex(s.players[p], card.id) >= 0 ==> s.players[p][FindIndex(s.players[p], card.id)] == card
    ensures Total(Play(s, p, card, wildColor, shuffle)) == Total(s)
  {
    var i := FindIndex(s.players[p], card.id);
    if i >= 0 {
      var s1 := s.(players := s.players[p := RemoveAt(s.players[p], i)], discardPile := s.discardPile + [card]);
      RemovalConserves(s, p, i, card);
      if RemoveAt(s.players[p], i) != [] {
        EffectsConserve(s1, card, wildColor, shuffle);
      }
    }
  }

  /** A click on a card or on the deck is ignored unless seat 0 is to move
      and no colour choice is pending. */
  lemma HumanGuards(s: UnoState, card: Card, shuffle: Shuffler)
    requires Valid(s) && s.gameStarted
    requires s.turn != 0 || s.choosingColor
    ensures CardClick(s, card, shuffle) == s && DrawClick(s, shuffle) == s
  {
  }

  /** A valid wild opens the colour picker and waits; any other valid card is played at once. */
  lemma HumanCardClick(s: UnoState, card: Card, shuffle: Shuffler)
    requires Valid(s) && s.gameStarted && s.turn == 0 && !s.choosingColor && IsValidPlay(s, card)
    ensures card.color == BlackCard ==> CardClick(s, card, shuffle) == s.(choosingColor := true, pending := Some(card))
    ensures card.color != BlackCard ==> CardClick(s, card, shuffle) == Play(s, 0, card, None, shuffle)
  {
  }

  /** Every seat number the game computes lies in 0..3, and the invariant survives every handler. */
  lemma DrawPreservesValid(s: UnoState, p: int, count: nat, shuffle: Shuffler)
    requires Valid(s) && 0 <= p < 4
    ensures Valid(Draw(s, p, count, shuffle))
  {
  }

  lemma PlayPreservesValid(s: UnoState, p: int, card: Card, wildColor: Option<CardColor>, shuffle: Shuffler)
    requires Valid(s) && 0 <= p < 4
    ensures Valid(Play(s, p, card, wildColor, shuffle))
  {
    var i := FindIndex(s.players[p], card.id);
    if i >= 0 {
      var hand := RemoveAt(s.players[p], i);
      var s1 := s.(players := s.players[p := hand], discardPile := s.discardPile + [card]);
      if hand != [] {
        EffectsValid(s1, card, wildColor, shuffle);
      }
    }
  }

  /** A card's effect keeps the invariant: the draw target and the next
      turn are seats, and the direction stays a unit. */
  lemma EffectsValid(s: UnoState, card: Card, wildColor: Option<CardColor>, shuffle: Shuffler)
    requires Valid(s)
    ensures Valid(Effects(s, card, wildColor, shuffle))
  {
    var dir := if card.kind == Reverse then -s.direction else s.direction;
    NextTurnInRange(s.turn, dir, IsSkipping(card.kind));
    Norm4IsMod(s.turn + dir);
    if card.kind == Draw2 || card.kind == Wild4 {
      DrawPreservesValid(s, DrawTarget(s.turn, dir), if card.kind == Draw2 then 2 else 4, shuffle);
    }
  }

  lemma ClicksPreserveValid(s: UnoState, card: Card, c: CardColor, shuffle: Shuffler)
    requires Valid(s) && s.gameStarted
    ensures Valid(CardClick(s, card, shuffle)) && Valid(ColorPick(s, c, shuffle)) && Valid(DrawClick(s, shuffle))
  {
    PlayPreservesValid(s, 0, card, None, shuffle);
    if s.pending.Some? {
      PlayPreservesValid(s, 0, s.pending.value, Some(c), shuffle);
    }
    NextTurnInRange(s.turn, s.direction, false);
  }

  /** The bot's turn keeps the invariant, whether it plays or draws. */
  lemma BotTurnPreservesValid(s: UnoState, choice: Option<Card>, picked: CardColor, shuffle: Shuffler)
    requires Valid(s) && s.gameStarted && BotChoiceOk(s, choice)
    ensures Valid(BotTurn(s, choice, picked, shuffle))
  {
    if s.winner.None? && s.turn != 0 {
      if choice.None? {
        DrawPreservesValid(s, s.turn, 1, shuffle);
        NextTurnInRange(s.turn, s.direction, false);
      } else {
        PlayPreservesValid(s, s.turn, choice.value, Some(if choice.value.color == BlackCard then picked else Red), shuffle);
      }
    }
  }

  /** A card of the game: the card of the unshuffled deck that its id names. */
  predicate GenuineCard(c: Card)
  {
    c.id < 108 && c == DeckCard(c.id)
  }

  /** Every card of the game, and the wild waiting for its colour, is a card
      of the deck. So every card is well formed and is fixed by its id. */
  predicate CardsWellFormed(s: UnoState)
  {
    |s.players| == 4 &&
    (forall c :: c in Total(s) ==> GenuineCard(c)) &&
    (s.pending.Some? ==> GenuineCard(s.pending.value))
  }

  lemma GenuineWellFormed(c: Card)
    requires GenuineCard(c)
    ensures WellFormedCard(c)
  {
    DeckIdsAndBlacks(c.id);
  }

  /** Every card of a shuffled deck is a card of the deck. */
  lemma ShuffleGenuine(shuffled: seq<Card>)
    requires IsShuffle(shuffled)
    ensures forall c :: c in multiset(shuffled) ==> GenuineCard(c)
  {
    forall c | c in multiset(shuffled)
      ensures GenuineCard(c)
    {
      assert c in multiset(UnshuffledDeck());
      var j :| 0 <= j < 108 && UnshuffledDeck()[j] == c;
      DeckIdsAndBlacks(j);
    }
  }

  /** The invariant, read off for the discard pile and the hands. */
  lemma CardsWellFormedParts(s: UnoState)
    requires CardsWellFormed(s)
    ensures forall i :: 0 <= i < |s.discardPile| ==> WellFormedCard(s.discardPile[i])
    ensures forall q, c :: 0 <= q < 4 && c in s.players[q] ==> GenuineCard(c)
  {
    forall i | 0 <= i < |s.discardPile|
      ensures WellFormedCard(s.discardPile[i])
    {
      assert s.discardPile[i] in multiset(s.discardPile);
      GenuineWellFormed(s.discardPile[i]);
    }
    forall q, c | 0 <= q < 4 && c in s.players[q]
      ensures GenuineCard(c)
    {
      assert c in multiset(s.players[q]);
      assert c in Hands4(s.players);
    }
  }

  /** A new game holds only cards of the deck. */
  lemma StartedGameWellFormed(s: UnoState, shuffled: seq<Card>)
    requires IsShuffle(shuffled)
    requires s.pending.Some? ==> GenuineCard(s.pending.value)
    ensures CardsWellFormed(StartedGame(s, shuffled))
  {
    StartedGameFacts(s, shuffled);
    StartedGameConserves(s, shuffled);
    ShuffleGenuine(shuffled);
  }

  /** Drawing keeps the invariant and every card. */
  lemma DrawKeepsCards(s: UnoState, p: int, count: nat, shuffle: Shuffler)
    requires Reorders(shuffle)
    requires CardsWellFormed(s) && 0 <= p < 4
    ensures CardsWellFormed(Draw(s, p, count, shuffle)) && Total(Draw(s, p, count, shuffle)) == Total(s)
  {
    CardsWellFormedParts(s);
    DrawConserves(s, p, count, shuffle);
  }

  lemma EffectsKeepCards(s: UnoState, card: Card, wildColor: Option<CardColor>, shuffle: Shuffler)
    requires Reorders(shuffle)
    requires CardsWellFormed(s)
    ensures CardsWellFormed(Effects(s, card, wildColor, shuffle)) &&
            Total(Effects(s, card, wildColor, shuffle)) == Total(s)
  {
    CardsWellFormedParts(s);
    EffectsConserve(s, card, wildColor, shuffle);
  }

  /** A state with the same cards and the same waiting wild keeps the invariant. */
  lemma SameCardsWellFormed(s: UnoState, t: UnoState)
    requires CardsWellFormed(s) && |t.players| == 4
    requires Total(t) == Total(s) && t.pending == s.pending
    ensures CardsWellFormed(t)
  {
  }

  lemma PlayKeepsPending(s: UnoState, p: int, card: Card, wildColor: Option<CardColor>, shuffle: Shuffler)
    requires |s.players| == 4 && 0 <= p < 4
    ensures |Play(s, p, card, wildColor, shuffle).players| == 4
    ensures Play(s, p, card, wildColor, shuffle).pending == s.pending
  {
  }

  /** The first card of a hand with a deck card's id is that very card. */
  lemma HeldCard(s: UnoState, p: int, card: Card)
    requires CardsWellFormed(s) && 0 <= p < 4 && GenuineCard(card)
    ensures FindIndex(s.players[p], card.id) >= 0 ==> s.players[p][FindIndex(s.players[p], card.id)] == card
  {
    var i := FindIndex(s.players[p], card.id);
    if i >= 0 {
      var held := s.players[p][i];
      assert held in multiset(s.players[p]);
      assert held in Total(s);
    }
  }

  /** Playing a card of the deck keeps the invariant and every card. */
  lemma PlayKeepsCards(s: UnoState, p: int, card: Card, wildColor: Option<CardColor>, shuffle: Shuffler)
    requires Reorders(shuffle)
    requires CardsWellFormed(s) && 0 <= p < 4 && GenuineCard(card)
    ensures CardsWellFormed(Play(s, p, card, wildColor, shuffle)) &&
            Total(Play(s, p, card, wildColor, shuffle)) == Total(s)
  {
    CardsWellFormedParts(s);
    GenuineWellFormed(card);
    HeldCard(s, p, card);
    PlayConserves(s, p, card, wildColor, shuffle);
    PlayKeepsPending(s, p, card, wildColor, shuffle);
    SameCardsWellFormed(s, Play(s, p, card, wildColor, shuffle));
  }

  /** A click on a card of the human's hand keeps the invariant and every card. */
  lemma CardClickKeepsCards(s: UnoState, card: Card, shuffle: Shuffler)
    requires Reorders(shuffle)
    requires Valid(s) && s.gameStarted && CardsWellFormed(s) && card in s.players[0]
    ensures CardsWellFormed(CardClick(s, card, shuffle)) && Total(CardClick(s, card, shuffle)) == Total(s)
  {
    CardsWellFormedParts(s);
    assert GenuineCard(card);
    if s.turn == 0 && !s.choosingColor && IsValidPlay(s, card) && card.color != BlackCard {
      PlayKeepsCards(s, 0, card, None, shuffle);
    }
  }

  /** Picking a colour plays the waiting wild and keeps the invariant and every card. */
  lemma ColorPickKeepsCards(s: UnoState, c: CardColor, shuffle: Shuffler)
    requires Reorders(shuffle)
    requires Valid(s) && CardsWellFormed(s)
    ensures CardsWellFormed(ColorPick(s, c, shuffle)) && Total(ColorPick(s, c, shuffle)) == Total(s)
  {
    if s.pending.Some? {
      PlayKeepsCards(s, 0, s.pending.value, Some(c), shuffle);
    }
  }

  /** Drawing by hand keeps the invariant and every card. */
  lemma DrawClickKeepsCards(s: UnoState, shuffle: Shuffler)
    requires Reorders(shuffle)
    requires Valid(s) && CardsWellFormed(s)
    ensures CardsWellFormed(DrawClick(s, shuffle)) && Total(DrawClick(s, shuffle)) == Total(s)
  {
    if s.turn == 0 && !s.choosingColor {
      DrawKeepsCards(s, 0, 1, shuffle);
    }
  }

  /** The bot's turn keeps the invariant and every card. */
  lemma BotTurnConserves(s: UnoState, choice: Option<Card>, picked: CardColor, shuffle: Shuffler)
    requires Reorders(shuffle)
    requires Valid(s) && s.gameStarted && BotChoiceOk(s, choice) && CardsWellFormed(s)
    ensures CardsWellFormed(BotTurn(s, choice, picked, shuffle)) &&
            Total(BotTurn(s, choice, picked, shuffle)) == Total(s)
  {
    CardsWellFormedParts(s);
    if s.winner.None? && s.turn != 0 {
      if choice.None? {
        DrawKeepsCards(s, s.turn, 1, shuffle);
      } else {
        PlayKeepsCards(s, s.turn, choice.value, Some(if choice.value.color == BlackCard then picked else Red), shuffle);
      }
    }
  }

  // ---------------------------------------------------------------------
  // The game as an object with fields

  class UnoGame {
    var deck: seq<Card>
    var discardPile: seq<Card>
    var players: seq<seq<Card>>
    var turn: int
    var direction: int
    var currentColor: CardColor
    var winner: Option<int>
    var choosingColor: bool
    var gameStarted: bool
    /** The wild waiting for its colour (the source keeps it in a ref). */
    var pending: Option<Card>

    function State(): UnoState
      reads this
    {
      UnoState(deck, discardPile, players, turn, direction, currentColor, winner,
               choosingColor, gameStarted, pending)
    }

    constructor ()
      ensures State() == InitialUno()
    {
      deck := [];
      discardPile := [];
      players := [[], [], [], []];
      turn := 0;
      direction := 1;
      currentColor := Red;
      winner := None;
      choosingColor := false;
      gameStarted := false;
      pending := None;
    }

    method StartGame(shuffled: seq<Card>)
      requires IsShuffle(shuffled)
      modifies this
      ensures State() == StartedGame(old(State()), shuffled)
    {
      UndealtHasNonBlack(shuffled);
      var rest, hands := DealHands(shuffled);
      var startCard, newDeck := PickStart(rest);
      deck := newDeck;
      players := hands;
      discardPile := [startCard];
      currentColor := startCard.color;
      turn := 0;
      winner := None;
      direction := 1;
      gameStarted := true;
      choosingColor := false;
    }

    method DrawCard(p: int, count: nat, shuffle: Shuffler)
      requires |players| == 4 && 0 <= p < 4
      modifies this
      ensures State() == Draw(old(State()), p, count, shuffle)
    {
      var newDeck := deck;
      if |newDeck| < count && |discardPile| > 1 {
        var top := discardPile[|discardPile| - 1];
        newDeck := newDeck + Recycle(shuffle(discardPile[..|discardPile| - 1]));
        discardPile := [top];
      }
      var newDeck', hand := DrawLoop(newDeck, players[p], count);
      deck := newDeck';
      players := players[p := hand];
    }

    method PlayCard(p: int, card: Card, wildColor: Option<CardColor>, shuffle: Shuffler)
      requires |players| == 4 && 0 <= p < 4
      modifies this
      ensures State() == Play(old(State()), p, card, wildColor, shuffle)
    {
      var handIndex := FindIndex(players[p], card.id);
      if handIndex == -1 {
        return;
      }
      players := players[p := RemoveAt(players[p], handIndex)];
      discardPile := discardPile + [card];
      if players[p] == [] {
        winner := Some(p);
        return;
      }
      ApplyEffects(card, wildColor, shuffle);
    }

    method ApplyEffects(card: Card, wildColor: Option<CardColor>, shuffle: Shuffler)
      requires |players| == 4
      modifies this
      ensures State() == Effects(old(State()), card, wildColor, shuffle)
    {
      var nextDir := if card.kind == Reverse then -direction else direction;
      var t := turn;
      if card.kind == Draw2 {
        DrawCard(DrawTarget(t, nextDir), 2, shuffle);
      } else if card.kind == Wild4 {
        DrawCard(DrawTarget(t, nextDir), 4, shuffle);
      }
      assert State() == if card.kind == Draw2 then Draw(old(State()), DrawTarget(t, nextDir), 2, shuffle)
                        else if card.kind == Wild4 then Draw(old(State()), DrawTarget(t, nextDir), 4, shuffle)
                        else old(State());
      currentColor := NextColor(card, wildColor);
      direction := nextDir;
      turn := NextTurn(t, nextDir, IsSkipping(card.kind));
    }

    method HandleCardClick(card: Card, shuffle: Shuffler)
      requires Valid(State()) && gameStarted
      modifies this
      ensures State() == CardClick(old(State()), card, shuffle)
    {
      if turn != 0 || choosingColor || !IsValidPlay(State(), card) {
        return;
      }
      if card.color == BlackCard {
        choosingColor := true;
        pending := Some(card);
      } else {
        PlayCard(0, card, None, shuffle);
      }
    }

    method HandleColorPick(c: CardColor, shuffle: Shuffler)
      requires Valid(State())
      modifies this
      ensures State() == ColorPick(old(State()), c, shuffle)
    {
      if pending.Some? {
        PlayCard(0, pending.value, Some(c), shuffle);
        choosingColor := false;
        pending := None;
      }
    }

    method HandleDrawClick(shuffle: Shuffler)
      requires Valid(State())
      modifies this
      ensures State() == DrawClick(old(State()), shuffle)
    {
      if turn != 0 || choosingColor {
        return;
      }
      var t := turn;
      DrawCard(0, 1, shuffle);
      turn := NextTurn(t, direction, false);
    }

    method PlayBotTurn(choice: Option<Card>, picked: CardColor, shuffle: Shuffler)
      requires Valid(State()) && gameStarted && BotChoiceOk(State(), choice)
      modifies this
      ensures State() == BotTurn(old(State()), choice, picked, shuffle)
    {
      if winner.Some? || turn == 0 {
        return;
      }
      var t := turn;
      if choice.None? {
        DrawCard(t, 1, shuffle);
        turn := NextTurn(t, direction, false);
      } else {
        PlayCard(t, choice.value, Some(if choice.value.color == BlackCard then picked else Red), shuffle);
      }
    }
  }
}
