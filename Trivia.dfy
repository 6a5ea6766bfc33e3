// The trivia quiz: five questions drawn from a bank of ten, one answer per
// question, a point for each correct answer, and a closing message chosen
// by the final score.

module Trivia {
  import opened Common

  datatype Question = Question(question: string, options: seq<string>, correctAnswer: nat)

  /** The question bank, in source order. */
  const Bank: seq<Question> := [
    Question("Which planet is known as the Red Planet?", ["Venus", "Mars", "Jupiter", "Saturn"], 1),
    Question("What is the capital city of Japan?", ["Seoul", "Beijing", "Tokyo", "Bangkok"], 2),
    Question("Which element has the chemical symbol 'O'?", ["Gold", "Oxygen", "Osmium", "Oganesson"], 1),
    Question("Who painted the Mona Lisa?", ["Vincent van Gogh", "Pablo Picasso", "Leonardo da Vinci", "Michelangelo"], 2),
    Question("What is the largest ocean on Earth?", ["Atlantic Ocean", "Indian Ocean", "Arctic Ocean", "Pacific Ocean"], 3),
    Question("Which programming language was developed by Apple Inc.?", ["Java", "Swift", "Python", "C#"], 1),
    Question("What is the tallest mountain in the world?", ["K2", "Mount Everest", "Kangchenjunga", "Lhotse"], 1),
    Question("Which country is known as the Land of the Rising Sun?", ["China", "Thailand", "Japan", "South Korea"], 2),
    Question("What is the smallest prime number?", ["0", "1", "2", "3"], 2),
    Question("Which of these is NOT a primary color?", ["Red", "Blue", "Green", "Yellow"], 3)
  ]

  /** The number of questions a quiz takes from the shuffled bank. */
  const QuizLength: nat := 5

  /** The answer of a question points at one of its options. */
  predicate WellFormed(q: Question) {
    q.correctAnswer < |q.options|
  }

  ghost predicate Distinct(s: seq<Question>) {
    forall i, j :: 0 <= i < j < |s| ==> s[i] != s[j]
  }

  /** Every bank question is well formed, and no question appears twice. */
  lemma BankWellFormed()
    ensures |Bank| == 10
    ensures forall k :: 0 <= k < |Bank| ==> WellFormed(Bank[k])
    ensures Distinct(Bank)
  {
  }

  /** An arrangement of the bank: each bank position exactly once. */
  ghost predicate IsOrder(order: seq<nat>) {
    && |order| == |Bank|
    && (forall k :: 0 <= k < |order| ==> order[k] < |Bank|)
    && (forall i, j :: 0 <= i < j < |order| ==> order[i] != order[j])
  }

  /** The questions at the first five positions of an arrangement. */
  function Draw(order: seq<nat>): (r: seq<Question>)
    requires IsOrder(order)
    ensures |r| == QuizLength
    ensures forall k :: 0 <= k < QuizLength ==> r[k] == Bank[order[k]]
  {
    seq(QuizLength, k requires 0 <= k < QuizLength => Bank[order[k]])
  }

  /** A drawn quiz has five distinct, well-formed bank questions. */
  lemma DrawDistinct(order: seq<nat>)
    requires IsOrder(order)
    ensures Distinct(Draw(order))
    ensures forall k :: 0 <= k < QuizLength ==> WellFormed(Draw(order)[k])
  {
    BankWellFormed();
  }

  /** The closing message. */
  datatype Verdict = Perfect | Good | KeepPracticing

  /** The message for a final score out of n questions. `score >= n / 2` is
      a comparison with a real number, here written as `2 * score >= n`. */
  function FinalVerdict(score: nat, n: nat): (v: Verdict)
    ensures v == Perfect <==> score == n
    ensures v == Good <==> score != n && 2 * score >= n
    ensures v == KeepPracticing <==> score != n && 2 * score < n
  {
    if score == n then Perfect
    else if 2 * score >= n then Good
    else KeepPracticing
  }

  /** Out of five: five is perfect, three or four is good, two or fewer
      asks for practice. */
  lemma VerdictOutOfFive(score: nat)
    requires score <= QuizLength
    ensures score == 5 ==> FinalVerdict(score, QuizLength) == Perfect
    ensures 3 <= score <= 4 ==> FinalVerdict(score, QuizLength) == Good
    ensures score <= 2 ==> FinalVerdict(score, QuizLength) == KeepPracticing
  {
  }

  class Quiz {
    var questions: seq<Question>
    var index: nat
    var score: nat
    var selected: Option<nat>
    var gameOver: bool
    var loading: bool

    /** Before the first quiz is drawn nothing is shown but the loading
        text. Once drawn, the quiz has five distinct well-formed bank
        questions, the index stays inside it, the score counts at most the
        questions answered so far, and the quiz ends only on an answered
        last question. */
    ghost predicate Valid()
      reads this
    {
      && (loading ==> questions == [] && index == 0 && score == 0 && selected == None && !gameOver)
      && (!loading ==>
        && |questions| == QuizLength
        && Distinct(questions)
        && (forall k :: 0 <= k < |questions| ==> WellFormed(questions[k]))
        && index < |questions|
        && score <= index + (if selected.Some? then 1 else 0)
        && (gameOver ==> index == |questions| - 1 && selected.Some?))
    }

    constructor ()
      ensures Valid() && loading
      ensures questions == [] && index == 0 && score == 0 && selected == None && !gameOver
    {
      questions, index, score, selected, gameOver, loading := [], 0, 0, None, false, true;
    }

    /** initializeGame: `order` is the arrangement the shuffle left the
        bank in; the quiz is its first five questions. */
    method Initialize(order: seq<nat>)
      requires IsOrder(order)
      modifies this
      ensures Valid()
      ensures questions == Draw(order)
      ensures index == 0 && score == 0 && selected == None && !gameOver && !loading
    {
      DrawDistinct(order);
      questions := Draw(order);
      index, score, selected, gameOver, loading := 0, 0, None, false, false;
    }

    /** handleOptionSelect, up to the timer: the first selection is final,
        and it scores a point exactly when it is the correct option. */
    method Select(option: nat)
      requires Valid() && !loading
      modifies this
      ensures Valid()
      ensures questions == old(questions) && index == old(index)
      ensures gameOver == old(gameOver) && loading == old(loading)
      ensures old(selected).Some? ==> selected == old(selected) && score == old(score)
      ensures old(selected).None? ==>
        && selected == Some(option)
        && score == old(score) + (if option == questions[index].correctAnswer then 1 else 0)
    {
      if selected.Some? {
        return;
      }
      selected := Some(option);
      if option == questions[index].correctAnswer {
        score := score + 1;
      }
    }

    /** The body of the timer handleOptionSelect starts: the next question
        with no selection, or the end of the quiz after the last one. */
    method Advance()
      requires Valid() && !loading && selected.Some?
      modifies this
      ensures Valid()
      ensures questions == old(questions) && score == old(score) && loading == old(loading)
      ensures old(index) < |questions| - 1 ==>
        index == old(index) + 1 && selected == None && gameOver == old(gameOver)
      ensures old(index) == |questions| - 1 ==>
        index == old(index) && selected == old(selected) && gameOver
    {
      if index < |questions| - 1 {
        index := index + 1;
        selected := None;
      } else {
        gameOver := true;
      }
    }

    /** The score and the closing message on the completed quiz. */
    method Result() returns (finalScore: nat, v: Verdict)
      requires Valid() && !loading && gameOver
      ensures finalScore == score <= |questions| == QuizLength
      ensures v == FinalVerdict(score, |questions|)
    {
      finalScore := score;
      v := FinalVerdict(score, |questions|);
    }
  }
}
