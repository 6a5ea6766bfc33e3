// The word scramble game: a word from a fixed list is shown with its
// letters shuffled, the player types the word back, and up to three hints
// reveal its first letter.

module Scramble {
  import opened Common
  import opened Text

  /** The word list, in source order. */
  const Words: seq<string> := [
    "apple", "banana", "orange", "mango", "strawberry",
    "pineapple", "watermelon", "grape", "kiwi", "peach",
    "coding", "program", "developer", "computer", "keyboard",
    "react", "javascript", "typescript", "component", "interface"
  ]

  const MaxHints: nat := 3

  /** The draws of one shuffle: for each position i from the last down to
      1, a position j with 0 <= j <= i (`Math.floor(Math.random() * (i + 1))`).
      Position 0 has no draw; its entry is ignored. */
  predicate ValidDraws(js: seq<nat>, n: nat) {
    |js| == n && forall i :: 0 < i < n ==> js[i] <= i
  }

  /** Exchange two letters. */
  function Swap(w: string, i: nat, j: nat): (r: string)
    requires i < |w| && j < |w|
    ensures |r| == |w| && r[i] == w[j] && r[j] == w[i]
    ensures forall k :: 0 <= k < |w| && k != i && k != j ==> r[k] == w[k]
  {
    w[i := w[j]][j := w[i]]
  }

  /** Exchanging two letters rearranges the word. */
  lemma SwapPermutes(w: string, i: nat, j: nat)
    requires i < |w| && j < |w|
    ensures multiset(Swap(w, i, j)) == multiset(w)
  {
    var v := w[i := w[j]];
    assert multiset(v) == multiset(w) - multiset{w[i]} + multiset{w[j]};
    assert multiset(v[j := w[i]]) == multiset(v) - multiset{v[j]} + multiset{w[i]};
  }

  /** The swaps of the shuffle loop for positions i down to 1, in order. */
  function Shuffled(w: string, js: seq<nat>, i: int): (r: string)
    requires ValidDraws(js, |w|) && -1 <= i < |w|
    ensures |r| == |w|
    decreases i
  {
    if i <= 0 then w else Shuffled(Swap(w, i, js[i]), js, i - 1)
  }

  /** The shuffle loop only rearranges the letters. */
  lemma {:induction false} ShuffledPermutes(w: string, js: seq<nat>, i: int)
    requires ValidDraws(js, |w|) && -1 <= i < |w|
    ensures multiset(Shuffled(w, js, i)) == multiset(w)
    decreases i
  {
    if i > 0 {
      SwapPermutes(w, i, js[i]);
      ShuffledPermutes(Swap(w, i, js[i]), js, i - 1);
    }
  }

  /** One pass of the shuffle over the whole word. */
  function Scrambled(w: string, js: seq<nat>): (r: string)
    requires ValidDraws(js, |w|)
    ensures |r| == |w|
  {
    Shuffled(w, js, |w| - 1)
  }

  /** A scrambled word is a rearrangement of the word. */
  lemma ScrambledPermutes(w: string, js: seq<nat>)
    requires ValidDraws(js, |w|)
    ensures multiset(Scrambled(w, js)) == multiset(w)
  {
    ShuffledPermutes(w, js, |w| - 1);
  }

  /** One pass of `scrambleWord`: the loop over a character array. */
  method ScrambleOnce(word: string, js: seq<nat>) returns (scrambled: string)
    requires ValidDraws(js, |word|)
    ensures scrambled == Scrambled(word, js)
  {
    var characters := new char[|word|](k requires 0 <= k < |word| => word[k]);
    assert characters[..] == word;
    var i := characters.Length - 1;
    while i > 0
      invariant -1 <= i < characters.Length
      invariant |characters[..]| == |word|
      invariant Shuffled(characters[..], js, i) == Scrambled(word, js)
    {
      var j := js[i];
      ghost var before := characters[..];
      characters[i], characters[j] := characters[j], characters[i];
      assert characters[..] == Swap(before, i, j);
      i := i - 1;
    }
    scrambled := characters[..];
  }

  /** Pass k is the first of the retry loop whose result differs from the
      word: every earlier pass gave the word back. */
  ghost predicate FirstChange(word: string, rounds: seq<seq<nat>>, k: nat)
    requires forall m :: 0 <= m < |rounds| ==> ValidDraws(rounds[m], |word|)
  {
    && k < |rounds|
    && Scrambled(word, rounds[k]) != word
    && forall m :: 0 <= m < k ==> Scrambled(word, rounds[m]) == word
  }

  /** `scrambleWord`: passes are repeated until the result differs from the
      word. `rounds` holds the draws of the successive passes; None means
      none of them produced a different word, so the source would still be
      retrying. */
  method ScrambleWord(word: string, rounds: seq<seq<nat>>) returns (r: Option<string>)
    requires forall k :: 0 <= k < |rounds| ==> ValidDraws(rounds[k], |word|)
    ensures r.None? <==> forall k :: 0 <= k < |rounds| ==> Scrambled(word, rounds[k]) == word
    ensures r.Some? ==>
      && r.value != word
      && multiset(r.value) == multiset(word)
      && exists k: nat :: FirstChange(word, rounds, k) && r.value == Scrambled(word, rounds[k])
    decreases |rounds|
  {
    if rounds == [] {
      return None;
    }
    var scrambled := ScrambleOnce(word, rounds[0]);
    if scrambled != word {
      ScrambledPermutes(word, rounds[0]);
      assert FirstChange(word, rounds, 0);
      return Some(scrambled);
    }
    r := ScrambleWord(word, rounds[1..]);
    if r.Some? {
      ghost var k: nat :| FirstChange(word, rounds[1..], k) && r.value == Scrambled(word, rounds[1..][k]);
      forall m | 0 <= m < k + 1 ensures Scrambled(word, rounds[m]) == word {
        if m > 0 {
          assert rounds[m] == rounds[1..][m - 1];
        }
      }
      assert FirstChange(word, rounds, k + 1);
    } else {
      forall k | 0 <= k < |rounds| ensures Scrambled(word, rounds[k]) == word {
        if k > 0 {
          assert rounds[k] == rounds[1..][k - 1];
        }
      }
    }
  }

  /** The word has at least two different letters. */
  ghost predicate TwoLetters(w: string) {
    exists i, j :: 0 <= i < |w| && 0 <= j < |w| && w[i] != w[j]
  }

  /** A word of one repeated letter shuffles to itself, whatever the draws:
      for such a word the retry never ends. */
  lemma {:induction false} SameLettersFixed(w: string, js: seq<nat>, i: int)
    requires ValidDraws(js, |w|) && -1 <= i < |w|
    requires !TwoLetters(w)
    ensures Shuffled(w, js, i) == w
    decreases i
  {
    if i > 0 {
      var v := Swap(w, i, js[i]);
      assert v[i] == w[i];
      assert v == w;
      SameLettersFixed(v, js, i - 1);
    }
  }

  /** Draws that leave every position in place up to i change nothing. */
  lemma {:induction false} IdentityDraws(w: string, js: seq<nat>, i: int)
    requires ValidDraws(js, |w|) && -1 <= i < |w|
    requires forall m :: 0 < m <= i ==> js[m] == m
    ensures Shuffled(w, js, i) == w
    decreases i
  {
    if i > 0 {
      assert Swap(w, i, i) == w;
      IdentityDraws(w, js, i - 1);
    }
  }

  /** The draws that exchange position k with position 0 and keep every
      other position in place. */
  function OneSwap(n: nat, k: nat): (js: seq<nat>)
    requires 0 < k < n
    ensures ValidDraws(js, n)
  {
    seq(n, m => if m == k then 0 else m)
  }

  lemma {:induction false} OneSwapShuffled(w: string, k: nat, i: int)
    requires 0 < k < |w| && k <= i < |w|
    ensures Shuffled(w, OneSwap(|w|, k), i) == Swap(w, k, 0)
    decreases i
  {
    var js := OneSwap(|w|, k);
    if i == k {
      assert js[k] == 0;
      assert forall m :: 0 < m <= k - 1 ==> js[m] == m;
      IdentityDraws(Swap(w, k, 0), js, k - 1);
    } else {
      assert js[i] == i;
      assert Swap(w, i, i) == w;
      OneSwapShuffled(w, k, i - 1);
    }
  }

  /** A word with two different letters has draws that scramble it into a
      different word, so the retry can end. */
  lemma CanDiffer(w: string)
    requires TwoLetters(w)
    ensures exists js :: ValidDraws(js, |w|) && Scrambled(w, js) != w
  {
    var i, j :| 0 <= i < |w| && 0 <= j < |w| && w[i] != w[j];
    var k := if w[i] != w[0] then i else j;
    assert w[k] != w[0];
    var js := OneSwap(|w|, k);
    OneSwapShuffled(w, k, |w| - 1);
    assert Scrambled(w, js)[0] == w[k];
  }

  /** Every word of the list has two different letters. */
  lemma WordsHaveTwoLetters()
    ensures forall k :: 0 <= k < |Words| ==> TwoLetters(Words[k])
  {
    forall k | 0 <= k < |Words| ensures TwoLetters(Words[k]) {
      var w := Words[k];
      assert w[0] != w[1];
    }
  }

  /** `charAt(0)`: the first letter, or "" for the empty word. */
  function FirstLetter(w: string): (r: string)
    ensures w != [] ==> r == [w[0]]
    ensures w == [] ==> r == []
  {
    if w == [] then [] else w[..1]
  }

  class Game {
    var original: string
    var scrambled: string
    var guess: string
    var score: nat
    var hints: nat
    var isCorrect: bool

    /** The shown word is a rearrangement of the hidden one, and the hint
        count never passes its starting value. */
    ghost predicate Valid()
      reads this
    {
      multiset(scrambled) == multiset(original) && hints <= MaxHints
    }

    constructor ()
      ensures Valid()
      ensures original == "" && scrambled == "" && guess == ""
      ensures score == 0 && hints == MaxHints && !isCorrect
    {
      original, scrambled, guess := "", "", "";
      score, hints, isCorrect := 0, MaxHints, false;
    }

    /** selectRandomWord: `choice` is the drawn index, `rounds` the draws of
        the scramble passes, at least one of which changes the word. The
        guess and the success flag are cleared; score and hints stay. */
    method SelectRandomWord(choice: nat, rounds: seq<seq<nat>>)
      requires Valid()
      requires choice < |Words|
      requires forall k :: 0 <= k < |rounds| ==> ValidDraws(rounds[k], |Words[choice]|)
      requires exists k :: 0 <= k < |rounds| && Scrambled(Words[choice], rounds[k]) != Words[choice]
      modifies this
      ensures Valid()
      ensures original == Words[choice]
      ensures scrambled != original
      ensures exists k: nat :: FirstChange(original, rounds, k) && scrambled == Scrambled(original, rounds[k])
      ensures guess == "" && !isCorrect
      ensures score == old(score) && hints == old(hints)
    {
      var word := Words[choice];
      var r := ScrambleWord(word, rounds);
      original := word;
      scrambled := r.value;
      guess := "";
      isCorrect := false;
    }

    /** handleSubmit, up to the timer that selects the next word: a match
        ignoring letter case scores a point. The form is disabled while
        isCorrect holds, but the handler itself does not check. */
    method Submit() returns (correct: bool)
      requires Valid()
      modifies this
      ensures Valid()
      ensures correct <==> ToLower(old(guess)) == ToLower(old(original))
      ensures correct ==> score == old(score) + 1 && isCorrect
      ensures !correct ==> score == old(score) && isCorrect == old(isCorrect)
      ensures original == old(original) && scrambled == old(scrambled)
      ensures guess == old(guess) && hints == old(hints)
    {
      correct := ToLower(guess) == ToLower(original);
      if correct {
        score := score + 1;
        isCorrect := true;
      }
    }

    /** useHint: the first letter, at the price of one hint, while hints
        remain; nothing otherwise. */
    method UseHint() returns (hint: Option<string>)
      requires Valid()
      modifies this
      ensures Valid()
      ensures old(hints) > 0 ==> hint == Some(FirstLetter(original)) && hints == old(hints) - 1
      ensures old(hints) == 0 ==> hint == None && hints == 0
      ensures original == old(original) && scrambled == old(scrambled) && guess == old(guess)
      ensures score == old(score) && isCorrect == old(isCorrect)
    {
      if hints > 0 {
        hint := Some(FirstLetter(original));
        hints := hints - 1;
      } else {
        hint := None;
      }
    }

    /** resetGame: score and hints back to their starting values, and a new
        word. */
    method ResetGame(choice: nat, rounds: seq<seq<nat>>)
      requires Valid()
      requires choice < |Words|
      requires forall k :: 0 <= k < |rounds| ==> ValidDraws(rounds[k], |Words[choice]|)
      requires exists k :: 0 <= k < |rounds| && Scrambled(Words[choice], rounds[k]) != Words[choice]
      modifies this
      ensures Valid()
      ensures score == 0 && hints == MaxHints
      ensures original == Words[choice] && scrambled != original
      ensures exists k: nat :: FirstChange(original, rounds, k) && scrambled == Scrambled(original, rounds[k])
      ensures guess == "" && !isCorrect
    {
      score := 0;
      hints := MaxHints;
      SelectRandomWord(choice, rounds);
    }
  }
}
