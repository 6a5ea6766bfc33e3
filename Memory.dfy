// The memory (pairs) game: twelve face-down cards holding six pairs; two
// cards are turned per move, and a later step either keeps a matching pair
// face up or turns a mismatch back down.

module Memory {

  datatype Card = Card(id: nat, content: string, flipped: bool, matched: bool)

  const Emoji: seq<string> := ["🍎", "🍐", "🍊", "🍋", "🍌", "🍉", "🍇", "🍓", "🫐", "🍒"]
  const PairCount: nat := 6

  ghost predicate Distinct(s: seq<string>) {
    forall i, j :: 0 <= i < j < |s| ==> s[i] != s[j]
  }

  /** What initializeGame may draw: six distinct emoji, and a deck that is
      some arrangement of two copies of them. */
  ghost predicate DealtFrom(picked: seq<string>, deck: seq<string>) {
    && |picked| == PairCount
    && Distinct(picked)
    && (forall i :: 0 <= i < |picked| ==> picked[i] in Emoji)
    && multiset(deck) == multiset(picked + picked)
  }

  lemma {:induction false} DistinctOnce(picked: seq<string>, i: nat)
    requires Distinct(picked) && i < |picked|
    ensures multiset(picked)[picked[i]] == 1
  {
    var last := |picked| - 1;
    assert picked == picked[..last] + [picked[last]];
    if i == last {
      assert picked[i] !in picked[..last];
    } else {
      DistinctOnce(picked[..last], i);
    }
  }

  /** A dealt deck has twelve cards and every picked emoji exactly twice. */
  lemma DeckHasPairs(picked: seq<string>, deck: seq<string>)
    requires DealtFrom(picked, deck)
    ensures |deck| == 2 * PairCount
    ensures forall i :: 0 <= i < |picked| ==> multiset(deck)[picked[i]] == 2
    ensures forall c :: c in deck ==> c in picked
  {
    assert |deck| == |multiset(deck)| == |picked + picked|;
    forall i | 0 <= i < |picked| ensures multiset(deck)[picked[i]] == 2 {
      DistinctOnce(picked, i);
    }
    forall c | c in deck ensures c in picked {
      assert c in multiset(deck);
    }
  }

  function CountMatched(s: seq<Card>): nat
    ensures CountMatched(s) <= |s|
  {
    if s == [] then 0 else CountMatched(s[..|s| - 1]) + (if s[|s| - 1].matched then 1 else 0)
  }

  /** Replacing one card changes the count by that card's matched flag. */
  lemma {:induction false} CountMatchedUpdate(s: seq<Card>, i: nat, c: Card)
    requires i < |s|
    ensures CountMatched(s[i := c]) ==
      CountMatched(s) - (if s[i].matched then 1 else 0) + (if c.matched then 1 else 0)
  {
    var last := |s| - 1;
    if i < last {
      assert s[i := c][..last] == s[..last][i := c];
      CountMatchedUpdate(s[..last], i, c);
    } else {
      assert s[i := c][..last] == s[..last];
    }
  }

  /** All cards count as matched exactly when every card is matched. */
  lemma {:induction false} CountMatchedAll(s: seq<Card>)
    ensures CountMatched(s) == |s| <==> forall i :: 0 <= i < |s| ==> s[i].matched
  {
    if s != [] {
      var last := |s| - 1;
      CountMatchedAll(s[..last]);
      assert forall i :: 0 <= i < last ==> s[..last][i] == s[i];
    }
  }

  lemma {:induction false} CountMatchedNone(s: seq<Card>)
    requires forall i :: 0 <= i < |s| ==> !s[i].matched
    ensures CountMatched(s) == 0
  {
    if s != [] {
      CountMatchedNone(s[..|s| - 1]);
    }
  }

  /** The game's invariant, on the cards as a sequence: ids are positions,
      there is an even number of cards, the turned cards that are not yet
      matched are exactly the pending ones, at most two and distinct, matched
      cards stay face up, and the matched cards are two per match. */
  ghost predicate Consistent(s: seq<Card>, pending: seq<nat>, matches: nat) {
    && |s| % 2 == 0
    && (forall i :: 0 <= i < |s| ==> s[i].id == i)
    && |pending| <= 2
    && (forall k :: 0 <= k < |pending| ==> pending[k] < |s|)
    && (|pending| == 2 ==> pending[0] != pending[1])
    && (forall i :: 0 <= i < |s| ==> (s[i].flipped && !s[i].matched <==> i in pending))
    && (forall i :: 0 <= i < |s| ==> s[i].matched ==> s[i].flipped)
    && CountMatched(s) == 2 * matches
  }

  /** A pair kept face up as matched: the two cards become matched, and
      every other flag and every other card stays as it was. */
  function MatchPair(s: seq<Card>, a: nat, b: nat): (r: seq<Card>)
    requires a < |s| && b < |s|
    ensures |r| == |s|
    ensures forall i :: 0 <= i < |s| ==>
      && r[i].matched == (s[i].matched || i == a || i == b)
      && r[i] == s[i].(matched := r[i].matched)
  {
    s[a := s[a].(matched := true)][b := s[b].(matched := true)]
  }

  /** A pair turned back down: the two cards face down, and every other
      flag and every other card as it was. */
  function UnflipPair(s: seq<Card>, a: nat, b: nat): (r: seq<Card>)
    requires a < |s| && b < |s|
    ensures |r| == |s|
    ensures forall i :: 0 <= i < |s| ==>
      && r[i].flipped == (s[i].flipped && i != a && i != b)
      && r[i] == s[i].(flipped := r[i].flipped)
  {
    s[a := s[a].(flipped := false)][b := s[b].(flipped := false)]
  }

  /** Turning a face-down card while fewer than two are pending keeps the
      invariant, with the card now pending. */
  lemma FlipKeeps(s: seq<Card>, pending: seq<nat>, matches: nat, id: nat)
    requires Consistent(s, pending, matches) && |pending| < 2
    requires id < |s| && !s[id].flipped && !s[id].matched
    ensures Consistent(s[id := s[id].(flipped := true)], pending + [id], matches)
  {
    CountMatchedUpdate(s, id, s[id].(flipped := true));
  }

  /** Keeping a pending pair as matched keeps the invariant, with one more
      match and nothing pending. */
  lemma MatchKeeps(s: seq<Card>, pending: seq<nat>, matches: nat)
    requires Consistent(s, pending, matches) && |pending| == 2
    ensures Consistent(MatchPair(s, pending[0], pending[1]), [], matches + 1)
  {
    var a, b := pending[0], pending[1];
    var s1 := s[a := s[a].(matched := true)];
    CountMatchedUpdate(s, a, s[a].(matched := true));
    CountMatchedUpdate(s1, b, s[b].(matched := true));
  }

  /** Turning a pending pair back down keeps the invariant, with the same
      matches and nothing pending. */
  lemma UnflipKeeps(s: seq<Card>, pending: seq<nat>, matches: nat)
    requires Consistent(s, pending, matches) && |pending| == 2
    ensures Consistent(UnflipPair(s, pending[0], pending[1]), [], matches)
  {
    var a, b := pending[0], pending[1];
    var s1 := s[a := s[a].(flipped := false)];
    CountMatchedUpdate(s, a, s[a].(flipped := false));
    CountMatchedUpdate(s1, b, s[b].(flipped := false));
  }

  /** Matches never exceed half the cards, and they reach half exactly when
      every card is matched. */
  lemma CompleteIffAllMatched(s: seq<Card>, pending: seq<nat>, matches: nat)
    requires Consistent(s, pending, matches)
    ensures matches <= |s| / 2
    ensures matches == |s| / 2 <==> forall i :: 0 <= i < |s| ==> s[i].matched
  {
    CountMatchedAll(s);
  }

  class Game {
    var cards: array<Card>
    var pending: seq<nat>
    var matches: nat
    var moves: nat
    var started: bool

    ghost predicate Valid()
      reads this, cards
    {
      Consistent(cards[..], pending, matches)
    }

    /** The game is complete when the matches reach half the cards, which
        in a valid game is exactly when every card is matched. */
    predicate Complete()
      reads this, cards
      ensures Valid() ==> (Complete() <==> forall i :: 0 <= i < cards.Length ==> cards[i].matched)
    {
      CountMatchedAll(cards[..]);
      matches == cards.Length / 2
    }

    constructor ()
      ensures Valid() && cards.Length == 0 && pending == [] && !started
      ensures matches == 0 && moves == 0
    {
      cards := new Card[0];
      pending, matches, moves, started := [], 0, 0, false;
    }

    /** initializeGame, with the deck drawn by the caller. */
    method Initialize(picked: seq<string>, deck: seq<string>)
      requires DealtFrom(picked, deck)
      modifies this
      ensures Valid() && fresh(cards)
      ensures cards.Length == |deck| == 2 * PairCount
      ensures forall i :: 0 <= i < cards.Length ==> cards[i] == Card(i, deck[i], false, false)
      ensures pending == [] && matches == 0 && moves == 0 && started
    {
      DeckHasPairs(picked, deck);
      cards := new Card[|deck|](i requires 0 <= i < |deck| => Card(i, deck[i], false, false));
      pending, matches, moves, started := [], 0, 0, true;
      CountMatchedNone(cards[..]);
    }

    /** handleCardClick */
    method Click(id: nat) returns (accepted: bool)
      requires Valid() && id < cards.Length
      modifies this, cards
      ensures Valid() && cards == old(cards) && matches == old(matches)
      ensures accepted <==> |old(pending)| < 2 && !old(cards[id]).flipped && !old(cards[id]).matched
      ensures !accepted ==> cards[..] == old(cards[..]) && pending == old(pending) && moves == old(moves)
      ensures accepted ==>
        && cards[..] == old(cards[..])[id := old(cards[id]).(flipped := true)]
        && pending == old(pending) + [id]
        && moves == old(moves) + (if |pending| == 2 then 1 else 0)
    {
      if |pending| == 2 || cards[id].flipped || cards[id].matched {
        return false;
      }
      FlipKeeps(cards[..], pending, matches, id);
      cards[id] := cards[id].(flipped := true);
      pending := pending + [id];
      if |pending| == 2 {
        moves := moves + 1;
      }
      accepted := true;
    }

    /** The two timer bodies of handleCardClick, run once a pair is turned:
        equal contents are kept face up as matched, and a mismatch is turned
        back down. Either way no card is pending afterwards. */
    method Resolve() returns (matched: bool)
      requires Valid() && |pending| == 2
      modifies this, cards
      ensures Valid() && cards == old(cards) && pending == [] && moves == old(moves)
      ensures matched <==> old(cards[pending[0]]).content == old(cards[pending[1]]).content
      ensures matched ==>
        cards[..] == MatchPair(old(cards[..]), old(pending[0]), old(pending[1])) && matches == old(matches) + 1
      ensures !matched ==>
        cards[..] == UnflipPair(old(cards[..]), old(pending[0]), old(pending[1])) && matches == old(matches)
    {
      var first, second := pending[0], pending[1];
      matched := cards[first].content == cards[second].content;
      if matched {
        MatchKeeps(cards[..], pending, matches);
        var c1, c2 := cards[first].(matched := true), cards[second].(matched := true);
        cards[first] := c1;
        cards[second] := c2;
        matches := matches + 1;
      } else {
        UnflipKeeps(cards[..], pending, matches);
        var c1, c2 := cards[first].(flipped := false), cards[second].(flipped := false);
        cards[first] := c1;
        cards[second] := c2;
      }
      pending := [];
    }
  }
}
