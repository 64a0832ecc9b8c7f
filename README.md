# Russian Quiz Remake — the turn logic in Dafny

This project models the core of a narrative text quiz game. It covers the
question record and its dictionary form, the player's score tracker, the quiz
with its question cursor and its comment merge, the game controller that scores
answers with a streak bonus, and the loader's validation of question records.
Each part is written in the form the game itself uses:

- `Questions` (question.dfy): the `Question` record as a datatype, with pure
  functions for checking an answer, the correct text, the numbered options, and
  `from_dict` / `to_dict` over JSON-like values (`Json`, json.dfy).
- `Players` (player.dfy): `Player` is a class whose methods update its counters
  in place. `Tally` is the value of those counters, and `WithCorrect` /
  `WithWrong` say what one answer does to it.
- `Quizzes` (quiz.dfy): `Quiz` is a class holding the question list and the
  cursor `currentIndex`. Its navigation methods move the cursor, and
  `ApplyComments` merges the three comment maps into the questions with a loop.
  The constructor takes the questions and the maps directly, not file paths.
- `Stories` (story.dfy): the story component the game drives. story.py is not
  part of this model, so `Story` is kept abstract: beats keyed by trigger
  question, the set of shown beats, a question counter, `Reset`, and a lookup
  that returns a beat at most once.
- `Games` (game.dfy): the `Game` controller as a class that owns a quiz, a
  player and a story. `Play` replays a history of right and wrong answers
  through the scoring rule of `answer`. Lemmas relate that replay to
  definitions written directly over the history: counts, runs of correct
  answers, and the answers that earn the bonus.
- `Loader` (loader.dfy): `validate_question` as a chain of guards, the counting
  loop of `validate_questions_file`, and the fallbacks of `load_questions` and
  `load_comments` over data that is already parsed.
- `Config` (config.dfy) holds the scoring constants 10 and 5, the bonus threshold
  3 that game.py writes inline, and the default player name.

Three behaviours of the code that are easy to misread:

- The streak bonus is paid when the streak *before* the answer is at least 3.
  So four correct answers in a row score 10, 20, 30, 45, and the fourth is the
  first to earn the bonus (not the third).
- Building the quiz does not validate questions: `from_dict` takes any record,
  so an out-of-range `correct` is not rejected at load time.
- `check_story_beat` goes straight to `Story.get_story_beat`, and nothing in
  the game marks a beat shown separately. The model therefore lets the lookup
  mark the beat it returns.

Python's `isinstance(x, int)` holds for booleans, and the model keeps that:
`Json.IsInt` accepts `Bool`, and `AsInt` reads `True` as 1. Python's negative
indexing in `get_correct_answer_text` is kept too. `go_to_last` on an empty quiz
leaves the cursor at -1, and the quiz invariant allows that.

## Model

| member | source | states |
|---|---|---|
| `Questions.NewQuestion` | RQR/src/core/question.py:26-34 | the four core fields as given, commentary, emoji and tags empty; the question is well formed exactly when `0 <= correct < len(options)` |
| `Questions.IsCorrectAnswer` | RQR/src/core/question.py:45-55 | on a well-formed question, an accepted index is a position in the options whose text is the correct answer's text |
| `Questions.CorrectAnswerText` | RQR/src/core/question.py:57-64 | the result is one of the options; for a well-formed question it is `options[correct]`; defined exactly where Python does not raise (`-len <= correct < len`) |
| `Questions.AcceptedAnswerHasCorrectText` | RQR/src/core/question.py:45-64 | an accepted index points at the correct answer's text; when no option text repeats, an index whose text is the correct one is accepted |
| `Questions.OptionsNumbered` | RQR/src/core/question.py:36-43 | as many entries as options; entry `i` is the numeral of `i + 1`, then ". ", then option `i` |
| `Questions.ParseDecimalOfDecimal` | RQR/src/core/question.py:43 | reading back the decimal numeral written for a number gives that number |
| `Questions.NumberedOptionParses` | RQR/src/core/question.py:36-43 | entry `i` of the numbered list reads back as the pair (number `i + 1`, option `i`) |
| `Questions.NumberedOptionsDistinct` | RQR/src/core/question.py:36-43 | two different positions always give different entries, even when option texts repeat |
| `Questions.FromDict` | RQR/src/core/question.py:67-82 | a present id, question or correct is the record's value (a boolean read as 1 or 0); present options give the same number of entries, entry k being the k-th string; missing keys give id 0, question "", options [] and correct 0; commentary, emoji and tags start empty |
| `Questions.ToDict` | RQR/src/core/question.py:84-96 | exactly the keys id, question, options, correct, each with its declared type |
| `Questions.FromDictToDict` | RQR/src/core/question.py:67-96 | `from_dict(to_dict(q))` keeps id, question, options and correct, and empties the commentary |
| `Questions.ToDictIgnoresCommentary` | RQR/src/core/question.py:91-96 | questions that differ only in commentary, emoji or tags serialise the same way |
| `Players.WithCorrect` | RQR/src/core/player.py:40-46 | score rises by `points + bonus`; correct, total and streak rise by 1; wrong is unchanged; best becomes max(old best, new streak); consistent counters stay consistent |
| `Players.WithWrong` | RQR/src/core/player.py:52-54 | wrong and total rise by 1, the streak drops to 0, score, correct and best are unchanged; consistency is kept |
| `Players.AccuracyIsPercentage` | RQR/src/core/player.py:63-65 | 0 when nothing was answered; otherwise accuracy times total is 100 times correct, and it lies in 0..100 when correct <= total |
| `Players.Player.constructor` | RQR/src/core/player.py:24-30 | a new player carries the name given and all counters at zero |
| `Players.Player.AddCorrectAnswer` | RQR/src/core/player.py:32-46 | with Python's defaults `points = 10`, `bonus = 0`, the counters become `WithCorrect` of the old ones; the name and the invariant are kept |
| `Players.Player.AddWrongAnswer` | RQR/src/core/player.py:48-54 | the counters become `WithWrong` of the old ones; the name and the invariant are kept |
| `Players.Player.GetAccuracy` | RQR/src/core/player.py:56-65 | 0 with no answers; otherwise the percentage of correct answers, within 0..100 for a valid player |
| `Players.Player.GetStats` | RQR/src/core/player.py:67-83 | every field reported as it is, accuracy included; correct + wrong = total for a valid player; nothing changes |
| `Players.Player.Reset` | RQR/src/core/player.py:85-94 | score, counters and both streaks back to zero; the name unchanged |
| `Quizzes.WithComments` | RQR/src/core/quiz.py:120-130 | the core fields stay; correct/wrong comments become the map entry for the id or ""; emoji, intro text and tags are taken from the intro entry only when it is non-empty, else kept |
| `Quizzes.WithCommentsIdempotent` | RQR/src/core/quiz.py:114-130 | merging a second time changes nothing |
| `Quizzes.WithCommentsKeepsCore` | RQR/src/core/quiz.py:114-130 | the merge changes neither what `to_dict` writes nor whether the correct index is valid |
| `Quizzes.AdvanceKeepsCursorValid` | RQR/src/core/quiz.py:156-159 | advancing keeps the cursor valid, and it stays put exactly when it is not before the last question |
| `Quizzes.AdvanceTimesStopsAtLast` | RQR/src/core/quiz.py:149-159 | after `k` advances from a valid position `i` the cursor is at `min(i + k, len - 1)` |
| `Quizzes.Quiz.constructor` | RQR/src/core/quiz.py:25-46 | the cursor starts at 0, the maps are stored, and every question is the merge of the given one, in the given order |
| `Quizzes.Quiz.ApplyComments` | RQR/src/core/quiz.py:114-130 | same length and order; question `i` becomes `WithComments` of the old question `i` |
| `Quizzes.Quiz.Count` | RQR/src/core/quiz.py:228-230 | the number of questions |
| `Quizzes.Quiz.GetQuestion` | RQR/src/core/quiz.py:132-147 | the question at the index (the cursor when none is given) exactly when it is in range, else None; a non-empty valid quiz always has a current question |
| `Quizzes.Quiz.GetNextQuestion` | RQR/src/core/quiz.py:149-159 | advances and returns the new current question exactly when the cursor is before the last question; otherwise None and the cursor is unchanged |
| `Quizzes.Quiz.HasNext` | RQR/src/core/quiz.py:161-168 | true exactly when `current_index < len - 1`, that is, when a question exists after the cursor |
| `Quizzes.Quiz.HasPrevious` | RQR/src/core/quiz.py:170-177 | true exactly when `current_index > 0`, that is, when a question exists before the cursor |
| `Quizzes.Quiz.GoToQuestion` | RQR/src/core/quiz.py:179-192 | moves and returns true exactly for an index in range; otherwise false and the cursor is unchanged |
| `Quizzes.Quiz.GoToFirst` | RQR/src/core/quiz.py:194-196 | the cursor is 0 and there is no previous question |
| `Quizzes.Quiz.GoToLast` | RQR/src/core/quiz.py:198-200 | the cursor is `len - 1` (-1 when empty) and there is no next question |
| `Quizzes.Quiz.Shuffle` | RQR/src/core/quiz.py:202-206 | the questions become the chosen permutation of themselves and the cursor returns to 0 |
| `Quizzes.Quiz.GetProgress` | RQR/src/core/quiz.py:208-215 | `(current_index + 1, len)`; in a non-empty quiz the first part is in 1..len, and equals len exactly when there is no next question |
| `Stories.ShownCountIsTotalIffAllShown` | RQR/src/core/game.py:146 | when the shown beats are among the beats, their counts are equal exactly when every beat was shown |
| `Stories.Story.constructor` | RQR/src/core/game.py:40 | the beats as given, none shown, counter at 0 |
| `Stories.Story.Length` | RQR/src/core/game.py:146 | `len(story)` is the number of beats |
| `Stories.Story.Reset` | RQR/src/core/game.py:58 | no beat shown and the counter at 0 |
| `Stories.Story.GetStoryBeat` | RQR/src/core/game.py:117-125 | the beat triggered by question `n` exactly when one exists and has not been shown; returning it marks it shown, so it fires once |
| `Games.StreakBonus` | RQR/src/core/game.py:93-97 | the bonus is `BONUS_POINTS_STREAK` exactly when the streak before the answer is at least 3, otherwise 0 |
| `Games.AnswerEffect` | RQR/src/core/game.py:88-101 | a correct answer applies `add_correct_answer(10, bonus)`, a wrong one `add_wrong_answer`; consistency is kept |
| `Games.PlayConsistent` | RQR/src/core/player.py:40-54 | from the zero state, any history keeps correct + wrong = total, with correct, wrong and total equal to the numbers of right answers, wrong answers and answers |
| `Games.PlayStreak` | RQR/src/core/player.py:43-54 | the current streak is the run of correct answers that ends the history, and it cannot be extended further back |
| `Games.StreakAtLeastThree` | RQR/src/core/game.py:96 | the streak is at least 3 exactly when the last three answers were correct |
| `Games.RunToEndWithinStreak` | RQR/src/core/player.py:43-54 | no run of correct answers that ends the history is longer than the current streak |
| `Games.PlayBestStreak` | RQR/src/core/player.py:45-46 | the best streak is the length of the longest run of correct answers anywhere in the history |
| `Games.PlayScore` | RQR/src/core/game.py:90-99 | score = 10 × correct answers + 5 × the correct answers that follow three correct answers directly |
| `Games.AllCorrectScore` | RQR/src/core/game.py:90-99 | `k` correct answers in a row from a fresh player give streak `k` and score `10k`, plus `5(k - 3)` when `k > 3` |
| `Games.FourCorrectAnswers` | RQR/src/core/game.py:96 | four correct answers in a row from a fresh player score 10, 20, 30, 45 |
| `Games.WrongAnswerKeepsScore` | RQR/src/core/game.py:100-101 | after any history, a wrong answer leaves score and best streak unchanged and zeroes the streak |
| `Games.Game.constructor` | RQR/src/core/game.py:30-41 | fresh quiz, player and story; the quiz merged from the given data with the cursor at 0; the player named "Алексей" with zero counters; nothing shown; not running |
| `Games.Game.SetPlayerName` | RQR/src/core/game.py:43-52 | the player's name changes and its counters do not |
| `Games.Game.Start` | RQR/src/core/game.py:54-58 | running; cursor at 0 with the questions unchanged; story reset |
| `Games.Game.Stop` | RQR/src/core/game.py:60-62 | only the running flag is cleared |
| `Games.Game.GetCurrentQuestion` | RQR/src/core/game.py:64-71 | the question under the cursor exactly when the cursor is in range; a valid quiz has one exactly when it is non-empty |
| `Games.Game.Answer` | RQR/src/core/game.py:73-103 | with no current question, returns false and the counters are unchanged; otherwise returns `is_correct_answer(i)` and the counters become `AnswerEffect` of the old ones; the name is kept |
| `Games.Game.NextQuestion` | RQR/src/core/game.py:105-115 | true exactly when the quiz had a next question; the cursor advances as `get_next_question` moves it; the story counter rises by 1 exactly then |
| `Games.Game.CheckStoryBeat` | RQR/src/core/game.py:117-125 | the beat of the current 1-based question number, exactly when it exists and has not been shown; it is then marked shown |
| `Games.Game.IsFinished` | RQR/src/core/game.py:127-134 | true exactly when the quiz has no next question, that is, when the quiz is empty or the cursor is on the last question |
| `Games.Game.GetResults` | RQR/src/core/game.py:136-147 | the player's statistics with `total_questions` replaced by the quiz length; the finished flag; story completed exactly when every beat was shown |
| `Games.Game.Reset` | RQR/src/core/game.py:149-156 | cursor at 0, counters zeroed with the name kept, story reset, not running |
| `Loader.FirstMissing` | src/utils/loader.py:122-127 | no key reported exactly when all the required keys are present; otherwise the reported key is the first one missing, in check order |
| `Loader.NoneMissingIffAllPresent` | src/utils/loader.py:122-127 | the key check passes exactly when id, question, options and correct are all present |
| `Loader.Diagnose` | src/utils/loader.py:122-149 | the verdict of the first guard that fails, in the order of the source: a missing-key verdict exactly when a key is missing, naming the first missing one in the order id, question, options, correct; past the key check all four keys are present; a type verdict names the first field, in that order, without its declared type (all earlier fields have theirs), and it is `id` exactly when the id is not an int; with no key or type verdict all four fields are typed; the range verdict exactly when a fully typed record has `correct` outside the options |
| `Loader.ValidateQuestion` | src/utils/loader.py:112-151 | true exactly when all four keys are present, id and correct are ints (booleans included), question is a string, options is a list and `0 <= correct < len(options)` |
| `Loader.MissingFieldRejected` | src/utils/loader.py:122-127 | a record lacking any required key is rejected, and the warning names the first missing required key in check order |
| `Loader.WrongTypeRejected` | src/utils/loader.py:129-144 | with all keys present, a non-int id or correct, a non-string question or non-list options is rejected as a type error |
| `Loader.TypedRecordValidIffInRange` | src/utils/loader.py:146-151 | a record that passes the key and type checks is valid exactly when `0 <= correct < len(options)`, and otherwise it fails on the range |
| `Loader.ValidRecordGivesWellFormedQuestion` | src/utils/loader.py:112-151 | a valid record with string options becomes, through `from_dict`, a question whose correct index is valid for its options |
| `Loader.ToDictValidIffWellFormed` | src/utils/loader.py:146-151 | what `to_dict` writes passes validation exactly when the question's correct index is in range |
| `Loader.CountValid` | src/utils/loader.py:170-173 | the number of valid records never exceeds the number of records |
| `Loader.CountValidFullIffAllValid` | src/utils/loader.py:170-176 | every record counts as valid exactly when every record is valid |
| `Loader.LoadQuestions` | src/utils/loader.py:86-89 | `[]` with no data or no "questions" entry; otherwise the records of that entry, in order |
| `Loader.LoadComments` | src/utils/loader.py:102-106 | `{}` with no data or no "comments" entry; otherwise that entry |
| `Loader.ValidateQuestionsFile` | src/utils/loader.py:154-176 | `valid_count` is the number of valid records; the result is true exactly when the list is non-empty and every record is valid |

## Left out

- Questions.FromDict: requires each field it reads, when present, to have the declared type (an int or bool for id and correct, a string for question, a list of strings for options). Python copies whatever value is there and so builds an ill-typed object, which the typed `Question` cannot represent.
- Quizzes.Quiz.constructor: requires the intro-comment entry of each question's id, when there is one, to give a string emoji and text and a list of string tags when present. This is the same restriction as for `from_dict`, applied to `_apply_comments`. Entries for ids that no question has are never read and are not restricted.
- Quizzes.Quiz.ApplyComments: requires the same typing of the intro-comment entries its questions read.
- Games.Game.constructor: requires the same typing of the intro-comment entries the questions read, and requires each story beat to be filed under its own trigger question.
- Loader.LoadQuestions: requires the "questions" entry, when present, to be a list of objects. Python hands any other value on. In `validate_questions_file` a falsy value (null, `0`, `0.0`, `false`, `""`, `{}`) stops at the emptiness test and gives False. A non-empty object or string is iterated by key or by character, and each key or character is then a string record, handled as the next line says. A non-zero number or `true` makes the loop raise TypeError.
- Loader.ValidateQuestionsFile: requires the same shape of the "questions" entry. It returns `valid_count` beside the verdict, where Python only prints it. For a record that is not an object, Python behaves as follows:
  - a string is tested with substring `in`, so it is rejected unless it contains all four key names, and then `question["id"]` raises TypeError;
  - a list is rejected unless it holds all four key names as elements, and then indexing by a string raises TypeError;
  - null, a number or a boolean makes the first `in` test raise TypeError.
- Loader.LoadComments: requires the "comments" entry, when present, to be an object. The keys stay strings, because the `int(key)` conversion is string parsing and is left out.
- Questions.CorrectAnswerText: requires `-len(options) <= correct < len(options)`. Outside that range Python raises IndexError. Quiz building does not validate `correct`, and the console UI calls this function, so such a question would crash there. That crash is not modelled.
- Questions.FromDict: reads a boolean id or correct as the integer 1 or 0. Python keeps the boolean, so `to_dict(from_dict(r))` writes `true` where the model writes `1`.
- Players.AccuracyIsPercentage: the accuracy is computed over exact reals; floating-point rounding of `(correct / total) * 100` is not modelled.
- Players.Player.GetAccuracy: states the same exact-real equality (accuracy times total is 100 times correct), which Python's float result does not meet exactly in general.
- Stories.Story.GetStoryBeat: story.py is not part of this model. The lookup returns an unshown beat and marks it shown; that is an assumption about the missing file. `Reset` is assumed to set the question counter to 0. Acts, characters, `get_beats_by_act` and `get_progress_by_act` are left out for the same reason. Under this assumption the console UI's final-beat branch (RQR/src/ui/console_ui.py:311-314) never shows a beat: it calls `check_story_beat` a second time for the same question in the same loop iteration, after only `answer`, which does not touch the story.
- Games.Game.SetPlayerName: it does not update the story's copy of the player name, because the story's player is defined in story.py.
- Questions are values: the merge and `shuffle` replace list elements, so aliasing between a `Question` object held by a caller and the quiz's list is not modelled.
- `Quiz.shuffle` picks its order with `random`. Here the order is a parameter that must be a permutation of the questions.
- File reading, JSON parsing, path checks, `DataLoader.load_json` / `save_json` and the `[WARNING]`/`[INFO]` prints are I/O. `Diagnose` records which warning would be printed.
- `get_progress_percent` is floating-point arithmetic.
- The console UI (input loops, rendering, quit keywords) and the process entry are presentation and I/O.
- `__str__`, `__repr__` and `__iter__` are not game logic.
