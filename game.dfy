/**
 * The game controller (`Game` in game.py): it owns the quiz, the player and
 * the story, starts and stops a session, scores answers with the streak bonus
 * and advances through the questions.
 */
module Games {
  import opened Wrappers
  import opened Json
  import opened Config
  import opened Questions
  import opened Players
  import opened Quizzes
  import opened Stories

  // ----- The scoring rule of `answer`, on the player's counters -----

  /** The bonus for a correct answer, paid when the streak before it is at least 3. */
  function StreakBonus(streakBefore: int): (bonus: int)
    ensures bonus == 0 || bonus == BonusPointsStreak
    ensures bonus == BonusPointsStreak <==> streakBefore >= StreakThreshold
  {
    if streakBefore >= StreakThreshold then BonusPointsStreak else 0
  }

  /** What `answer` does to the counters once the question is known. */
  function AnswerEffect(t: Tally, isCorrect: bool): (r: Tally)
    ensures isCorrect ==> r == WithCorrect(t, PointsPerCorrect, StreakBonus(t.currentStreak))
    ensures !isCorrect ==> r == WithWrong(t)
    ensures Consistent(t) ==> Consistent(r)
  {
    if isCorrect then WithCorrect(t, PointsPerCorrect, StreakBonus(t.currentStreak)) else WithWrong(t)
  }

  /** The counters of a fresh player after answering with the given outcomes, in order. */
  function Play(answers: seq<bool>): Tally {
    if answers == [] then Zero()
    else AnswerEffect(Play(answers[..|answers| - 1]), answers[|answers| - 1])
  }

  /** `answers[i..j]` are all correct. */
  predicate IsRun(answers: seq<bool>, i: int, j: int) {
    0 <= i <= j <= |answers| && forall k :: i <= k < j ==> answers[k]
  }

  /** Answer `k` is correct and comes right after three correct answers. */
  predicate EarnsBonus(answers: seq<bool>, k: int) {
    3 <= k < |answers| && answers[k] && answers[k - 1] && answers[k - 2] && answers[k - 3]
  }

  /** The number of answers that earn the streak bonus. */
  function BonusCount(answers: seq<bool>): nat {
    if answers == [] then 0
    else BonusCount(answers[..|answers| - 1]) + (if EarnsBonus(answers, |answers| - 1) then 1 else 0)
  }

  /** The counters always move together, from the zero state through every answer. */
  lemma {:induction false} PlayConsistent(answers: seq<bool>)
    ensures Consistent(Play(answers))
    ensures Play(answers).totalQuestions == |answers|
    ensures Play(answers).correctAnswers == multiset(answers)[true]
    ensures Play(answers).wrongAnswers == multiset(answers)[false]
  {
    if answers != [] {
      var prefix := answers[..|answers| - 1];
      assert answers == prefix + [answers[|answers| - 1]];
      PlayConsistent(prefix);
    }
  }

  /** The current streak is the run of correct answers at the end of the history. */
  lemma {:induction false} PlayStreak(answers: seq<bool>)
    ensures var s := Play(answers).currentStreak;
            && 0 <= s <= |answers|
            && IsRun(answers, |answers| - s, |answers|)
            && (s < |answers| ==> !answers[|answers| - s - 1])
  {
    if answers != [] {
      PlayStreak(answers[..|answers| - 1]);
    }
  }

  /** The bonus is paid on the previous streak being at least 3 exactly when the last three answers were correct. */
  lemma StreakAtLeastThree(answers: seq<bool>)
    ensures Play(answers).currentStreak >= 3 <==>
              (|answers| >= 3 && answers[|answers| - 1] && answers[|answers| - 2] && answers[|answers| - 3])
  {
    PlayStreak(answers);
  }

  /** A run of correct answers that ends the history is no longer than the current streak. */
  lemma RunToEndWithinStreak(answers: seq<bool>, i: int)
    requires IsRun(answers, i, |answers|)
    ensures |answers| - i <= Play(answers).currentStreak
  {
    PlayStreak(answers);
  }

  /** The best streak is the longest run of correct answers anywhere in the history. */
  lemma {:induction false} PlayBestStreak(answers: seq<bool>)
    ensures var best := Play(answers).bestStreak;
            && (exists i, j :: IsRun(answers, i, j) && j - i == best)
            && (forall i, j :: IsRun(answers, i, j) ==> j - i <= best)
  {
    var n := |answers|;
    var t := Play(answers);
    if n == 0 {
      assert IsRun(answers, 0, 0);
    } else {
      var prefix := answers[..n - 1];
      var p := Play(prefix);
      PlayBestStreak(prefix);
      PlayStreak(answers);
      PlayConsistent(answers);
      var i0, j0 :| IsRun(prefix, i0, j0) && j0 - i0 == p.bestStreak;
      assert IsRun(answers, i0, j0);
      if answers[n - 1] {
        assert t.bestStreak == Max(p.bestStreak, t.currentStreak);
        assert IsRun(answers, n - t.currentStreak, n);
      } else {
        assert t.bestStreak == p.bestStreak;
      }
      forall i, j | IsRun(answers, i, j)
        ensures j - i <= t.bestStreak
      {
        if j < n {
          assert IsRun(prefix, i, j);
        } else {
          RunToEndWithinStreak(answers, i);
        }
      }
    }
  }

  /** Ten points per correct answer, and five more for each answer that earns the bonus. */
  lemma {:induction false} PlayScore(answers: seq<bool>)
    ensures Play(answers).score == PointsPerCorrect * multiset(answers)[true] + BonusPointsStreak * BonusCount(answers)
  {
    if answers != [] {
      var n := |answers|;
      var prefix := answers[..n - 1];
      var last := answers[n - 1];
      assert answers == prefix + [last];
      assert multiset(answers)[true] == multiset(prefix)[true] + (if last then 1 else 0);
      PlayScore(prefix);
      StreakAtLeastThree(prefix);
      assert EarnsBonus(answers, n - 1) <==> last && Play(prefix).currentStreak >= 3;
      assert BonusCount(answers) == BonusCount(prefix) + (if last && Play(prefix).currentStreak >= 3 then 1 else 0);
    }
  }

  /** `k` correct answers in a row. */
  function AllCorrect(k: nat): (r: seq<bool>)
    ensures |r| == k && forall i :: 0 <= i < k ==> r[i]
  {
    seq(k, _ => true)
  }

  /** A fresh player answering `k` questions right in a row has `10 k` points plus `5` for each answer after the third. */
  lemma {:induction false} AllCorrectScore(k: nat)
    ensures Play(AllCorrect(k)).currentStreak == k
    ensures Play(AllCorrect(k)).score == PointsPerCorrect * k + (if k > 3 then BonusPointsStreak * (k - 3) else 0)
  {
    if k > 0 {
      assert AllCorrect(k)[..k - 1] == AllCorrect(k - 1);
      AllCorrectScore(k - 1);
    }
  }

  /** Four correct answers in a row from a fresh player give the scores 10, 20, 30, 45. */
  lemma FourCorrectAnswers()
    ensures Play([true]).score == 10
    ensures Play([true, true]).score == 20
    ensures Play([true, true, true]).score == 30
    ensures Play([true, true, true, true]).score == 45
  {
    AllCorrectScore(1);
    AllCorrectScore(2);
    AllCorrectScore(3);
    AllCorrectScore(4);
    assert [true] == AllCorrect(1);
    assert [true, true] == AllCorrect(2);
    assert [true, true, true] == AllCorrect(3);
    assert [true, true, true, true] == AllCorrect(4);
  }

  /** A wrong answer costs nothing and keeps the best streak, whatever came before. */
  lemma WrongAnswerKeepsScore(answers: seq<bool>)
    ensures Play(answers + [false]).score == Play(answers).score
    ensures Play(answers + [false]).bestStreak == Play(answers).bestStreak
    ensures Play(answers + [false]).currentStreak == 0
  {
    assert (answers + [false])[..|answers|] == answers;
  }

  /** `get_results`: the player's statistics with the quiz length as the question total, and the two flags. */
  datatype Results = Results(stats: Stats, isFinished: bool, storyCompleted: bool)

  class Game {
    const quiz: Quiz
    const player: Player
    const story: Story
    var isRunning: bool

    ghost predicate Valid()
      reads this, quiz, player, story
    {
      quiz.Valid() && player.Valid() && story.Valid()
    }

    /**
     * A new game over the loaded questions, comments and story beats, with the
     * default player name; not running yet.
     */
    constructor (questions: seq<Question>, introComments: map<int, map<string, Value>>,
                 correctComments: map<int, string>, wrongComments: map<int, string>,
                 beats: map<int, StoryBeat>)
      requires IntroTypedForAll(introComments, questions)
      requires BeatsIndexed(beats)
      ensures fresh(quiz) && fresh(player) && fresh(story)
      ensures !isRunning
      ensures quiz.currentIndex == 0 && |quiz.questions| == |questions|
      ensures forall i :: 0 <= i < |questions| ==>
                quiz.questions[i] == WithComments(questions[i], introComments, correctComments, wrongComments)
      ensures player.name == DefaultPlayerName && player.Counters() == Zero()
      ensures story.beats == beats && story.shownBeats == {} && story.currentQuestion == 0
      ensures Valid()
    {
      quiz := new Quiz(questions, introComments, correctComments, wrongComments);
      player := new Player(DefaultPlayerName);
      story := new Story(beats);
      isRunning := false;
    }

    /** `set_player_name` */
    method SetPlayerName(name: string)
      requires Valid()
      modifies player`name
      ensures Valid() && player.name == name
      ensures player.Counters() == old(player.Counters())
    {
      player.name := name;
    }

    /** `start`: running, at the first question, with the story reset. */
    method Start()
      requires Valid()
      modifies this`isRunning, quiz`currentIndex, story
      ensures Valid() && isRunning
      ensures quiz.currentIndex == 0 && quiz.questions == old(quiz.questions)
      ensures story.shownBeats == {} && story.currentQuestion == 0
    {
      isRunning := true;
      quiz.GoToFirst();
      story.Reset();
    }

    /** `stop`: only the running flag goes down. */
    method Stop()
      modifies this`isRunning
      ensures !isRunning
    {
      isRunning := false;
    }

    /** `get_current_question`: the question under the cursor, if any. */
    function GetCurrentQuestion(): (r: Option<Question>)
      reads quiz
      ensures r.Some? <==> 0 <= quiz.currentIndex < |quiz.questions|
      ensures r.Some? ==> r.value == quiz.questions[quiz.currentIndex]
      ensures quiz.Valid() ==> (r.Some? <==> |quiz.questions| > 0)
    {
      quiz.GetQuestion(None)
    }

    /**
     * `answer(i)`: scores the current question. A correct answer earns
     * `POINTS_PER_CORRECT`, plus `BONUS_POINTS_STREAK` when the streak before
     * it is at least 3; a wrong one is counted and breaks the streak. Without a
     * current question nothing changes and the answer is not correct.
     */
    method Answer(answerIndex: int) returns (isCorrect: bool)
      requires Valid()
      modifies player
      ensures Valid() && player.name == old(player.name)
      ensures GetCurrentQuestion().None? ==> !isCorrect && player.Counters() == old(player.Counters())
      ensures GetCurrentQuestion().Some? ==>
                && isCorrect == IsCorrectAnswer(GetCurrentQuestion().value, answerIndex)
                && player.Counters() == AnswerEffect(old(player.Counters()), isCorrect)
    {
      var question := GetCurrentQuestion();
      if question.None? {
        return false;
      }
      isCorrect := IsCorrectAnswer(question.value, answerIndex);
      if isCorrect {
        var points := PointsPerCorrect;
        var bonus := 0;
        if player.currentStreak >= StreakThreshold {
          bonus := BonusPointsStreak;
        }
        player.AddCorrectAnswer(points, bonus);
      } else {
        player.AddWrongAnswer();
      }
    }

    /** `next_question`: advances the quiz, and the story's counter with it, unless at the last question. */
    method NextQuestion() returns (advanced: bool)
      requires Valid()
      modifies quiz`currentIndex, story`currentQuestion
      ensures Valid()
      ensures advanced <==> old(quiz.HasNext())
      ensures quiz.currentIndex == Advance(old(quiz.currentIndex), |quiz.questions|)
      ensures story.currentQuestion == if advanced then old(story.currentQuestion) + 1 else old(story.currentQuestion)
    {
      var next := quiz.GetNextQuestion();
      if next.Some? {
        story.currentQuestion := story.currentQuestion + 1;
      }
      advanced := next.Some?;
    }

    /** `check_story_beat`: the beat of the current question's 1-based number, if it has not been shown. */
    method CheckStoryBeat() returns (beat: Option<StoryBeat>)
      requires Valid()
      modifies story`shownBeats
      ensures Valid()
      ensures var n := quiz.currentIndex + 1;
              && (beat.Some? <==> n in story.beats && n !in old(story.shownBeats))
              && (beat.Some? ==> beat.value == story.beats[n])
              && story.shownBeats == if beat.Some? then old(story.shownBeats) + {n} else old(story.shownBeats)
    {
      var (current, _) := quiz.GetProgress();
      beat := story.GetStoryBeat(current);
    }

    /** `is_finished`: no question after the current one. */
    predicate IsFinished()
      reads quiz
      ensures IsFinished() <==> !quiz.HasNext()
      ensures quiz.Valid() ==>
                (IsFinished() <==> |quiz.questions| == 0 || quiz.currentIndex == |quiz.questions| - 1)
    {
      !quiz.HasNext()
    }

    /** `get_results` */
    function GetResults(): (r: Results)
      reads quiz, player, story
      ensures r.stats.totalQuestions == |quiz.questions|
      ensures r.stats == player.GetStats().(totalQuestions := |quiz.questions|)
      ensures r.isFinished == IsFinished()
      ensures r.storyCompleted <==> |story.shownBeats| == story.Length()
      ensures story.Valid() ==> (r.storyCompleted <==> story.shownBeats == story.beats.Keys)
    {
      ShownCountIsTotalIffAllShown(story.shownBeats, story.beats.Keys);
      Results(player.GetStats().(totalQuestions := quiz.Count()), IsFinished(),
              |story.shownBeats| == story.Length())
    }

    /** `reset`: back to the first question, player counters zeroed (name kept), story reset, not running. */
    method Reset()
      requires Valid()
      modifies this`isRunning, quiz`currentIndex, player, story
      ensures Valid() && !isRunning
      ensures quiz.currentIndex == 0 && quiz.questions == old(quiz.questions)
      ensures player.Counters() == Zero() && player.name == old(player.name)
      ensures story.shownBeats == {} && story.currentQuestion == 0
    {
      quiz.GoToFirst();
      player.Reset();
      story.Reset();
      isRunning := false;
    }
  }
}
