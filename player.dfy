/**
 * The player's score tracker (`Player` in player.py). `Tally` is the value of
 * its counters; the class updates them in place and is specified by it.
 */
module Players {

  /** Score, answer counters and streaks of a player. */
  datatype Tally = Tally(
    score: int,
    correctAnswers: int,
    wrongAnswers: int,
    totalQuestions: int,
    currentStreak: int,
    bestStreak: int)

  /** What `get_stats` reports. */
  datatype Stats = Stats(
    name: string,
    score: int,
    correctAnswers: int,
    wrongAnswers: int,
    totalQuestions: int,
    accuracy: real,
    currentStreak: int,
    bestStreak: int)

  /** The counters of a new or reset player. */
  function Zero(): Tally {
    Tally(0, 0, 0, 0, 0, 0)
  }

  /**
   * The counters move together: every answer is correct or wrong, the current
   * streak never exceeds the best one, nor the best one the correct answers.
   */
  predicate Consistent(t: Tally) {
    && 0 <= t.correctAnswers && 0 <= t.wrongAnswers
    && t.correctAnswers + t.wrongAnswers == t.totalQuestions
    && 0 <= t.currentStreak <= t.bestStreak <= t.correctAnswers
  }

  function Max(a: int, b: int): int {
    if a < b then b else a
  }

  /** `add_correct_answer(points, bonus)` on the counters. */
  function WithCorrect(t: Tally, points: int, bonus: int): (r: Tally)
    ensures r.score == t.score + points + bonus
    ensures r.currentStreak == t.currentStreak + 1
    ensures r.bestStreak == Max(t.bestStreak, r.currentStreak)
    ensures r.correctAnswers == t.correctAnswers + 1 && r.totalQuestions == t.totalQuestions + 1
    ensures r.wrongAnswers == t.wrongAnswers
    ensures Consistent(t) ==> Consistent(r)
  {
    var streak := t.currentStreak + 1;
    Tally(t.score + points + bonus, t.correctAnswers + 1, t.wrongAnswers, t.totalQuestions + 1,
          streak, if streak > t.bestStreak then streak else t.bestStreak)
  }

  /** `add_wrong_answer` on the counters. */
  function WithWrong(t: Tally): (r: Tally)
    ensures r.wrongAnswers == t.wrongAnswers + 1 && r.totalQuestions == t.totalQuestions + 1
    ensures r.currentStreak == 0
    ensures r.score == t.score && r.bestStreak == t.bestStreak && r.correctAnswers == t.correctAnswers
    ensures Consistent(t) ==> Consistent(r)
  {
    t.(wrongAnswers := t.wrongAnswers + 1, totalQuestions := t.totalQuestions + 1, currentStreak := 0)
  }

  /** `get_accuracy`: the percentage of correct answers, 0 before any answer. */
  function Accuracy(correctAnswers: int, totalQuestions: int): real {
    if totalQuestions == 0 then 0.0
    else (correctAnswers as real / totalQuestions as real) * 100.0
  }

  /** The accuracy is the share of correct answers in percent, and lies in 0..100. */
  lemma AccuracyIsPercentage(correctAnswers: int, totalQuestions: int)
    ensures totalQuestions == 0 ==> Accuracy(correctAnswers, totalQuestions) == 0.0
    ensures totalQuestions != 0 ==>
              Accuracy(correctAnswers, totalQuestions) * totalQuestions as real == correctAnswers as real * 100.0
    ensures 0 <= correctAnswers <= totalQuestions ==> 0.0 <= Accuracy(correctAnswers, totalQuestions) <= 100.0
  {
    if totalQuestions != 0 {
      var share := correctAnswers as real / totalQuestions as real;
      assert share * totalQuestions as real == correctAnswers as real;
      if 0 <= correctAnswers <= totalQuestions {
        assert 0.0 <= share <= 1.0;
      }
    }
  }

  class Player {
    var name: string
    var score: int
    var correctAnswers: int
    var wrongAnswers: int
    var currentStreak: int
    var bestStreak: int
    var totalQuestions: int

    /** The counters as a value. */
    function Counters(): Tally
      reads this
    {
      Tally(score, correctAnswers, wrongAnswers, totalQuestions, currentStreak, bestStreak)
    }

    ghost predicate Valid()
      reads this
    {
      Consistent(Counters())
    }

    /** A new player: all counters at zero, which is a valid state. */
    constructor (name: string)
      ensures this.name == name && Counters() == Zero()
    {
      this.name := name;
      score := 0;
      correctAnswers := 0;
      wrongAnswers := 0;
      currentStreak := 0;
      bestStreak := 0;
      totalQuestions := 0;
    }

    method AddCorrectAnswer(points: int := 10, bonus: int := 0)
      requires Valid()
      modifies this
      ensures Valid()
      ensures Counters() == WithCorrect(old(Counters()), points, bonus)
      ensures name == old(name)
    {
      score := score + points + bonus;
      correctAnswers := correctAnswers + 1;
      totalQuestions := totalQuestions + 1;
      currentStreak := currentStreak + 1;
      if currentStreak > bestStreak {
        bestStreak := currentStreak;
      }
    }

    method AddWrongAnswer()
      requires Valid()
      modifies this
      ensures Valid()
      ensures Counters() == WithWrong(old(Counters()))
      ensures name == old(name)
    {
      wrongAnswers := wrongAnswers + 1;
      totalQuestions := totalQuestions + 1;
      currentStreak := 0;
    }

    function GetAccuracy(): (r: real)
      reads this
      ensures totalQuestions == 0 ==> r == 0.0
      ensures totalQuestions != 0 ==> r * totalQuestions as real == correctAnswers as real * 100.0
      ensures Valid() ==> 0.0 <= r <= 100.0
    {
      AccuracyIsPercentage(correctAnswers, totalQuestions);
      Accuracy(correctAnswers, totalQuestions)
    }

    /** `get_stats`: every field as it is now, with the accuracy; nothing changes. */
    function GetStats(): (s: Stats)
      reads this
      ensures s.name == name && s.score == score && s.accuracy == GetAccuracy()
      ensures s.correctAnswers == correctAnswers && s.wrongAnswers == wrongAnswers
      ensures s.totalQuestions == totalQuestions
      ensures s.currentStreak == currentStreak && s.bestStreak == bestStreak
      ensures Valid() ==> s.correctAnswers + s.wrongAnswers == s.totalQuestions && 0.0 <= s.accuracy <= 100.0
    {
      Stats(name, score, correctAnswers, wrongAnswers, totalQuestions, GetAccuracy(),
            currentStreak, bestStreak)
    }

    /** `reset`: every counter back to zero; the name stays. */
    method Reset()
      modifies this
      ensures Valid()
      ensures Counters() == Zero() && name == old(name)
    {
      score, correctAnswers, wrongAnswers := 0, 0, 0;
      currentStreak, bestStreak, totalQuestions := 0, 0, 0;
    }
  }
}
