// The hangman game: a hidden word shown as a mask of '_', letters guessed
// one at a time, six misses allowed.

module Hangman {

  datatype Status = Playing | Won | Lost

  const MaxMisses: nat := 6

  /** The word lists of the four categories. */
  const Categories: seq<seq<string>> := [
    ["elephant", "giraffe", "penguin", "kangaroo", "dolphin", "butterfly", "crocodile"],
    ["strawberry", "pineapple", "watermelon", "blueberry", "kiwifruit", "dragonfruit"],
    ["australia", "brazil", "canada", "germany", "japan", "mexico", "switzerland"],
    ["javascript", "python", "typescript", "react", "component", "function", "variable"]
  ]

  /** A word the game can be played with: it has a letter to hide, and no
      letter of it can be mistaken for the mask character. */
  predicate Playable(word: string) {
    word != [] && '_' !in word
  }

  predicate LowerLetters(w: string) {
    forall i :: 0 <= i < |w| ==> 'a' <= w[i] <= 'z'
  }

  /** Every word of every category is playable. */
  lemma CategoryWordsPlayable()
    ensures forall c, k :: 0 <= c < |Categories| && 0 <= k < |Categories[c]| ==> Playable(Categories[c][k])
  {
    forall c, k | 0 <= c < |Categories| && 0 <= k < |Categories[c]|
      ensures Playable(Categories[c][k])
    {
      var w := Categories[c][k];
      assert LowerLetters(w) && w != [];
    }
  }

  /** `'_'.repeat(n)` */
  function Underscores(n: nat): (r: string)
    ensures |r| == n && forall i :: 0 <= i < n ==> r[i] == '_'
  {
    if n == 0 then [] else Underscores(n - 1) + ['_']
  }

  /** The mask a word shows once these letters have been guessed. */
  ghost predicate MaskFor(masked: string, word: string, guessed: seq<char>) {
    |masked| == |word| &&
    forall i :: 0 <= i < |word| ==> masked[i] == if word[i] in guessed then word[i] else '_'
  }

  /** How many of the guessed letters are not in the word. */
  function MissCount(guessed: seq<char>, word: string): nat {
    if guessed == [] then 0
    else MissCount(guessed[..|guessed| - 1], word) + (if guessed[|guessed| - 1] in word then 0 else 1)
  }

  ghost predicate Distinct(s: seq<char>) {
    forall i, j :: 0 <= i < j < |s| ==> s[i] != s[j]
  }

  /** The loop of handleLetterGuess that builds the new mask: the letter is
      shown wherever the word has it, every other position keeps its mask. */
  method Reveal(word: string, masked: string, letter: char) returns (newMasked: string)
    requires |masked| == |word|
    ensures |newMasked| == |word|
    ensures forall i :: 0 <= i < |word| && word[i] == letter ==> newMasked[i] == letter
    ensures forall i :: 0 <= i < |word| && word[i] != letter ==> newMasked[i] == masked[i]
  {
    newMasked := "";
    var i := 0;
    while i < |word|
      invariant 0 <= i <= |word|
      invariant |newMasked| == i
      invariant forall k :: 0 <= k < i ==> newMasked[k] == if word[k] == letter then letter else masked[k]
    {
      if word[i] == letter {
        newMasked := newMasked + [letter];
      } else {
        newMasked := newMasked + [masked[i]];
      }
      i := i + 1;
    }
  }

  class Game {
    var word: string
    var masked: string
    var guessed: seq<char>
    var misses: nat
    var status: Status

    /** The mask shows exactly the guessed letters of the word; the misses
        are the guessed letters the word lacks, never more than six; the
        game is won exactly when nothing is hidden and lost exactly at six
        misses. */
    ghost predicate Valid()
      reads this
    {
      && Playable(word)
      && MaskFor(masked, word, guessed)
      && Distinct(guessed)
      && misses == MissCount(guessed, word)
      && misses <= MaxMisses
      && (status == Won <==> '_' !in masked)
      && (status == Lost <==> misses == MaxMisses)
    }

    /** initializeGame, with the word drawn by the caller. */
    constructor (w: string)
      requires Playable(w)
      ensures Valid()
      ensures word == w && masked == Underscores(|w|) && guessed == [] && misses == 0 && status == Playing
    {
      var mask := Underscores(|w|);
      assert mask[0] == '_';
      word, masked, guessed, misses, status := w, mask, [], 0, Playing;
    }

    /** handleLetterGuess */
    method Guess(letter: char)
      requires Valid()
      modifies this
      ensures Valid()
      ensures word == old(word)
      ensures old(status) != Playing || letter in old(guessed) ==>
        masked == old(masked) && guessed == old(guessed) && misses == old(misses) && status == old(status)
      ensures old(status) == Playing && letter !in old(guessed) ==>
        && guessed == old(guessed) + [letter]
        && |masked| == |old(masked)|
        && (forall i :: 0 <= i < |word| ==> masked[i] == if word[i] == letter then letter else old(masked)[i])
        && misses == old(misses) + (if letter in word then 0 else 1)
    {
      if status != Playing || letter in guessed {
        return;
      }
      ghost var before := guessed;
      guessed := guessed + [letter];
      assert guessed[..|guessed| - 1] == before;
      forall i | 0 <= i < |word| ensures (word[i] in guessed) == (word[i] in before || word[i] == letter) {
      }
      if letter in word {
        masked := Reveal(word, masked, letter);
        if '_' !in masked {
          status := Won;
        }
      } else {
        misses := misses + 1;
        if misses >= MaxMisses {
          status := Lost;
        }
      }
    }
  }
}
