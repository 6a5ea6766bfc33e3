// The mental-health screen's self-assessment: a cursor walks the two
// questions, the last answer turns the answers into a wellness score, and
// the screen flips between the score and the resource list.

module Wellness {
  import opened Common

  /** The two questions, each answered with a value from 0 to 3. */
  const QuestionCount: nat := 2
  const OptionValues: set<int> := {0, 1, 2, 3}

  function Sum(answers: seq<int>): int {
    if answers == [] then 0 else answers[0] + Sum(answers[1..])
  }

  lemma {:induction false} SumBounds(answers: seq<int>)
    requires forall i :: 0 <= i < |answers| ==> answers[i] in OptionValues
    ensures 0 <= Sum(answers) <= 3 * |answers|
  {
    if answers != [] {
      SumBounds(answers[1..]);
    }
  }

  lemma {:induction false} SumZero(answers: seq<int>)
    requires forall i :: 0 <= i < |answers| ==> answers[i] == 0
    ensures Sum(answers) == 0
  {
    if answers != [] {
      SumZero(answers[1..]);
    }
  }

  /** `Math.max(0, 100 - sum * 20)`: never negative, always a multiple of
      20, at most 100 unless the total is negative, and 0 exactly from a
      total of 5. */
  function WellnessScore(answers: seq<int>): (r: int)
    ensures r >= 0 && r % 20 == 0
    ensures Sum(answers) >= 0 ==> r <= 100
    ensures r == 0 <==> Sum(answers) >= 5
  {
    var raw := 100 - Sum(answers) * 20;
    if raw < 0 then 0 else raw
  }

  /** With answers taken from the options, the score lies in [0, 100]: all
      zeros give 100, a total of 5 or more gives 0, and every other total t
      gives 100 - 20 t. */
  lemma ScoreRange(answers: seq<int>)
    requires forall i :: 0 <= i < |answers| ==> answers[i] in OptionValues
    ensures 0 <= WellnessScore(answers) <= 100
    ensures WellnessScore(answers) == 100 <==> Sum(answers) == 0
    ensures WellnessScore(answers) == 100 <==> forall i :: 0 <= i < |answers| ==> answers[i] == 0
    ensures Sum(answers) >= 5 ==> WellnessScore(answers) == 0
    ensures Sum(answers) < 5 ==> WellnessScore(answers) == 100 - 20 * Sum(answers)
  {
    SumBounds(answers);
    if Sum(answers) == 0 {
      ZeroSumAllZero(answers);
    } else if forall i :: 0 <= i < |answers| ==> answers[i] == 0 {
      SumZero(answers);
    }
  }

  /** With option values, a zero total means every answer is 0. */
  lemma {:induction false} ZeroSumAllZero(answers: seq<int>)
    requires forall i :: 0 <= i < |answers| ==> answers[i] in OptionValues
    requires Sum(answers) == 0
    ensures forall i :: 0 <= i < |answers| ==> answers[i] == 0
  {
    if answers != [] {
      SumBounds(answers[1..]);
      ZeroSumAllZero(answers[1..]);
      assert forall i :: 1 <= i < |answers| ==> answers[i] == answers[1..][i - 1];
    }
  }

  lemma AllZeroScoresFull(answers: seq<int>)
    requires forall i :: 0 <= i < |answers| ==> answers[i] == 0
    ensures WellnessScore(answers) == 100
  {
    SumZero(answers);
  }

  datatype Band = High | Medium | Low

  /** The message band shown with the score. */
  function ScoreBand(score: int): (b: Band)
    ensures b == High <==> score >= 70
    ensures b == Medium <==> 40 <= score < 70
    ensures b == Low <==> score < 40
  {
    if score >= 70 then High else if score >= 40 then Medium else Low
  }

  /** With two answers from the options, totals 0 and 1 read as high,
      2 and 3 as medium, and 4 or more as low. */
  lemma BandOfTotal(answers: seq<int>)
    requires |answers| == QuestionCount
    requires forall i :: 0 <= i < |answers| ==> answers[i] in OptionValues
    ensures Sum(answers) <= 1 ==> ScoreBand(WellnessScore(answers)) == High
    ensures 2 <= Sum(answers) <= 3 ==> ScoreBand(WellnessScore(answers)) == Medium
    ensures Sum(answers) >= 4 ==> ScoreBand(WellnessScore(answers)) == Low
  {
    SumBounds(answers);
  }

  /** `newAnswers[i] = value` on a copy of the answers, where i is at most
      the current length. */
  function SetAnswer(answers: seq<int>, i: nat, value: int): (r: seq<int>)
    requires i <= |answers|
    ensures |r| == if i < |answers| then |answers| else |answers| + 1
    ensures r[i] == value
    ensures forall j :: 0 <= j < |answers| && j != i ==> r[j] == answers[j]
  {
    if i < |answers| then answers[i := value] else answers + [value]
  }

  class Assessment {
    var current: nat
    var answers: seq<int>
    var score: Option<int>
    var showResources: bool

    /** The cursor always names a question. Before the score exists there is
        one answer per question passed; afterwards there is one answer per
        question and the score is computed from them. */
    ghost predicate Valid()
      reads this
    {
      && current < QuestionCount
      && (score.None? ==> |answers| == current)
      && (score.Some? ==> current == QuestionCount - 1 && |answers| == QuestionCount
                          && score.value == WellnessScore(answers))
    }

    constructor ()
      ensures Valid()
      ensures current == 0 && answers == [] && score == None && showResources
    {
      current, answers, score, showResources := 0, [], None, true;
    }

    /** handleAnswerSelect */
    method AnswerSelect(value: int)
      requires Valid()
      modifies this
      ensures Valid()
      ensures answers == SetAnswer(old(answers), old(current), value)
      ensures old(current) < QuestionCount - 1 ==>
        current == old(current) + 1 && score == old(score) && showResources == old(showResources)
      ensures old(current) == QuestionCount - 1 ==>
        current == old(current) && score == Some(WellnessScore(answers)) && showResources
    {
      answers := SetAnswer(answers, current, value);
      if current < QuestionCount - 1 {
        current := current + 1;
      } else {
        score := Some(WellnessScore(answers));
        showResources := true;
      }
    }

    /** restartAssessment: the view flag is left as it is. */
    method Restart()
      modifies this
      ensures Valid()
      ensures answers == [] && current == 0 && score == None
      ensures showResources == old(showResources)
    {
      answers, current, score := [], 0, None;
    }

    /** toggleView: only once a score exists. */
    method ToggleView()
      requires Valid()
      modifies this
      ensures Valid()
      ensures old(score).None? ==> showResources == old(showResources)
      ensures old(score).Some? ==> showResources == !old(showResources)
      ensures current == old(current) && answers == old(answers) && score == old(score)
    {
      if score.Some? {
        showResources := !showResources;
      }
    }
  }

  /** Answering both questions from a fresh start reaches the score, whose
      value is the formula applied to the two answers. */
  method AnswerBoth(a: int, b: int) returns (s: int)
    requires a in OptionValues && b in OptionValues
    ensures s == WellnessScore([a, b]) && 0 <= s <= 100
  {
    var w := new Assessment();
    w.AnswerSelect(a);
    assert w.score == None && w.current == 1;
    w.AnswerSelect(b);
    assert w.answers == [a, b];
    s := w.score.value;
    ScoreRange(w.answers);
  }
}
