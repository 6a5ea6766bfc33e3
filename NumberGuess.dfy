// The number guessing game: a target from 1 to 100, seven attempts, and a
// hint after every guess.

module NumberGuess {
  import opened Common

  const MaxAttempts: nat := 7
  const Low: int := 1
  const High: int := 100

  datatype Hint = Intro | GotIt | GameOver(target: int) | TooLow | TooHigh

  /** The start of the game-over text; the target follows it. */
  const GameOverPrefix: string := "Game over! The number was "

  /** The text shown for a hint. Only the game-over text starts with the
      game-over prefix, and what follows it reads back as the target. */
  function HintText(h: Hint): (r: string)
    ensures h.GameOver? <==> |r| >= |GameOverPrefix| && r[..|GameOverPrefix|] == GameOverPrefix
    ensures h.GameOver? && h.target >= 0 ==>
      && (forall i :: |GameOverPrefix| <= i < |r| ==> IsDigit(r[i]))
      && DigitsValue(r[|GameOverPrefix|..]) == h.target
  {
    assert |GameOverPrefix| == 26 && GameOverPrefix[0] == 'G';
    match h
    case Intro =>
      var t := "I'm thinking of a number between 1 and 100";
      assert t[0] == 'I' && |t| >= 26 && t[..26][0] == 'I';
      t
    case GotIt => "You got it!"
    case GameOver(t) =>
      assert (GameOverPrefix + Decimal(t))[|GameOverPrefix|..] == Decimal(t);
      GameOverPrefix + Decimal(t)
    case TooLow => "Too low! Try a higher number"
    case TooHigh => "Too high! Try a lower number"
  }

  /** Different hints (with targets that are not negative) never show the
      same text, so the history tells every hint apart. */
  lemma HintTextInjective(h1: Hint, h2: Hint)
    requires h1.GameOver? ==> h1.target >= 0
    requires h2.GameOver? ==> h2.target >= 0
    ensures HintText(h1) == HintText(h2) ==> h1 == h2
  {
    if HintText(h1) == HintText(h2) && h1.GameOver? && h2.GameOver? {
      assert HintText(h1)[|GameOverPrefix|..] == HintText(h2)[|GameOverPrefix|..];
    }
  }

  predicate IsDigit(c: char) {
    '0' <= c <= '9'
  }

  function Digit(d: nat): (c: char)
    requires d < 10
    ensures IsDigit(c) && c as int - '0' as int == d
  {
    ('0' as int + d) as char
  }

  /** The number a string of decimal digits denotes, read from the left. */
  function DigitsValue(s: string): int {
    if s == [] then 0
    else DigitsValue(s[..|s| - 1]) * 10 + (s[|s| - 1] as int - '0' as int)
  }

  /** The decimal spelling of an integer, as a template string shows it:
      digits that read back as the number, with no leading zero, after a
      minus sign for a negative number. */
  function Decimal(n: int): (r: string)
    ensures r != []
    ensures n >= 0 ==> (forall i :: 0 <= i < |r| ==> IsDigit(r[i])) && DigitsValue(r) == n
    ensures n >= 0 ==> (r[0] == '0' <==> n == 0) && (n == 0 ==> r == "0")
    ensures n < 0 ==> r[0] == '-' && |r| >= 2
    ensures n < 0 ==> (forall i :: 1 <= i < |r| ==> IsDigit(r[i])) && DigitsValue(r[1..]) == -n
    decreases if n < 0 then 1 - n else n
  {
    if n < 0 then
      var d := Decimal(-n);
      assert ("-" + d)[1..] == d;
      "-" + d
    else if n < 10 then [Digit(n)]
    else
      var d := Decimal(n / 10);
      assert (d + [Digit(n % 10)])[..|d|] == d;
      d + [Digit(n % 10)]
  }

  /** One row of the guess history. */
  datatype Row = Row(guess: int, hint: Hint)

  /** The hint a valid guess earns on the given attempt. The exact guess is
      checked before the attempt limit. */
  function Judge(guess: int, target: int, attempt: nat): (h: Hint)
    ensures h == GotIt <==> guess == target
    ensures h.GameOver? <==> guess != target && attempt >= MaxAttempts
    ensures h.GameOver? ==> h.target == target
    ensures h == TooLow <==> guess != target && attempt < MaxAttempts && guess < target
    ensures h == TooHigh <==> guess != target && attempt < MaxAttempts && guess > target
  {
    if guess == target then GotIt
    else if attempt >= MaxAttempts then GameOver(target)
    else if guess < target then TooLow
    else TooHigh
  }

  class Game {
    var target: int
    var guess: string
    var attempts: nat
    var gameOver: bool
    var hint: Hint
    var history: seq<Row>

    /** A game in progress: one history row per attempt, the limit not
        passed, and the game over once the limit is reached. */
    ghost predicate Valid()
      reads this
    {
      && Low <= target <= High
      && |history| == attempts
      && attempts <= MaxAttempts
      && (attempts == MaxAttempts ==> gameOver)
    }

    /** initializeGame, with the target drawn by the caller. */
    constructor (t: int)
      requires Low <= t <= High
      ensures Valid()
      ensures target == t && guess == "" && attempts == 0 && !gameOver && hint == Intro && history == []
    {
      target, guess, attempts, gameOver, hint, history := t, "", 0, false, Intro, [];
    }

    /** handleSubmit. `parsed` is `parseInt(guess)`, None for NaN. The form
        is disabled once the game is over, but the handler itself does not
        check. */
    method Submit(parsed: Option<int>) returns (accepted: bool)
      modifies this
      ensures accepted <==> parsed.Some? && Low <= parsed.value <= High
      ensures target == old(target)
      ensures !accepted ==>
        attempts == old(attempts) && hint == old(hint) && history == old(history)
        && gameOver == old(gameOver) && guess == old(guess)
      ensures accepted ==>
        && attempts == old(attempts) + 1
        && hint == Judge(parsed.value, target, attempts)
        && history == old(history) + [Row(parsed.value, hint)]
        && gameOver == (old(gameOver) || hint.GotIt? || hint.GameOver?)
        && guess == ""
    {
      if parsed.None? || parsed.value < Low || parsed.value > High {
        return false;
      }
      var g := parsed.value;
      attempts := attempts + 1;
      var newHint := Judge(g, target, attempts);
      if newHint.GotIt? || newHint.GameOver? {
        gameOver := true;
      }
      hint := newHint;
      history := history + [Row(g, newHint)];
      guess := "";
      accepted := true;
    }
  }

  /** Submitting while the form is enabled keeps the game in progress
      consistent: attempts never pass seven, and the seventh ends it. */
  method SubmitWhileOpen(g: Game, parsed: Option<int>)
    requires g.Valid() && !g.gameOver
    modifies g
    ensures g.Valid()
    ensures g.attempts <= MaxAttempts
  {
    var _ := g.Submit(parsed);
  }
}
