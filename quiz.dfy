/**
 * The quiz (`Quiz` in quiz.py): the ordered question list, the merge of the
 * separately loaded commentary into it, and the cursor `current_index`.
 */
module Quizzes {
  import opened Wrappers
  import opened Json
  import opened Questions

  /** An intro-comment entry (`{"emoji": ..., "text": ..., "tags": [...]}`) whose fields, when present, have those types. */
  predicate IntroEntryTyped(entry: map<string, Value>) {
    && ("emoji" in entry ==> entry["emoji"].Str?)
    && ("text" in entry ==> entry["text"].Str?)
    && ("tags" in entry ==> IsStringList(entry["tags"]))
  }

  /** The intro entry a question with this id reads, if there is one, is typed. */
  predicate IntroTypedFor(intro: map<int, map<string, Value>>, id: int) {
    id in intro ==> IntroEntryTyped(intro[id])
  }

  /** Every intro entry that one of the questions reads is typed; entries for other ids are never read. */
  predicate IntroTypedForAll(intro: map<int, map<string, Value>>, questions: seq<Question>) {
    forall i :: 0 <= i < |questions| ==> IntroTypedFor(intro, questions[i].id)
  }

  /** `d.get(key, default)` for a key whose value, when present, is a list of strings. */
  function GetStrings(d: map<string, Value>, key: string, default: seq<string>): seq<string>
    requires key in d ==> IsStringList(d[key])
  {
    if key in d then Strings(d[key].items) else default
  }

  /**
   * The body of the `_apply_comments` loop for one question: emoji, intro text
   * and tags come from a non-empty intro entry, the two answer comments from
   * their maps or "".
   */
  function WithComments(q: Question, intro: map<int, map<string, Value>>,
                        correctComments: map<int, string>, wrongComments: map<int, string>): (r: Question)
    requires IntroTypedFor(intro, q.id)
    ensures r.id == q.id && r.question == q.question && r.options == q.options && r.correct == q.correct
    ensures r.correctComment == (if q.id in correctComments then correctComments[q.id] else "")
    ensures r.wrongComment == (if q.id in wrongComments then wrongComments[q.id] else "")
    ensures q.id in intro && intro[q.id] != map[] ==>
              && r.emoji == GetStr(intro[q.id], "emoji", "")
              && r.introComment == GetStr(intro[q.id], "text", "")
              && r.tags == GetStrings(intro[q.id], "tags", [])
    ensures !(q.id in intro && intro[q.id] != map[]) ==>
              r.emoji == q.emoji && r.introComment == q.introComment && r.tags == q.tags
  {
    var introData := if q.id in intro then intro[q.id] else map[];
    var q' := if introData != map[] then
                q.(emoji := GetStr(introData, "emoji", ""),
                   introComment := GetStr(introData, "text", ""),
                   tags := GetStrings(introData, "tags", []))
              else q;
    q'.(correctComment := if q.id in correctComments then correctComments[q.id] else "",
        wrongComment := if q.id in wrongComments then wrongComments[q.id] else "")
  }

  /** Merging twice gives what merging once gives: the pass only reads the maps. */
  lemma WithCommentsIdempotent(q: Question, intro: map<int, map<string, Value>>,
                               correctComments: map<int, string>, wrongComments: map<int, string>)
    requires IntroTypedFor(intro, q.id)
    ensures var once := WithComments(q, intro, correctComments, wrongComments);
            WithComments(once, intro, correctComments, wrongComments) == once
  {
  }

  /** The merge never changes what `to_dict` writes, nor whether the question is well formed. */
  lemma WithCommentsKeepsCore(q: Question, intro: map<int, map<string, Value>>,
                              correctComments: map<int, string>, wrongComments: map<int, string>)
    requires IntroTypedFor(intro, q.id)
    ensures ToDict(WithComments(q, intro, correctComments, wrongComments)) == ToDict(q)
    ensures WellFormed(WithComments(q, intro, correctComments, wrongComments)) == WellFormed(q)
  {
    ToDictIgnoresCommentary(q, WithComments(q, intro, correctComments, wrongComments));
  }

  /** The cursor is a position of the list; an empty list leaves it at 0 or, after `go_to_last`, -1. */
  predicate CursorValid(index: int, count: nat) {
    if count == 0 then index == 0 || index == -1 else 0 <= index < count
  }

  /** Where `get_next_question` leaves the cursor. */
  function Advance(index: int, count: nat): int {
    if index < count - 1 then index + 1 else index
  }

  /** The cursor after `steps` calls of `get_next_question`. */
  function AdvanceTimes(index: int, count: nat, steps: nat): int {
    if steps == 0 then index else Advance(AdvanceTimes(index, count, steps - 1), count)
  }

  /**
   * Repeated advancing walks the list one question at a time and stops at the
   * last one: after `steps` calls the cursor is at `min(index + steps, count - 1)`.
   */
  lemma {:induction false} AdvanceTimesStopsAtLast(index: int, count: nat, steps: nat)
    requires 0 <= index < count
    ensures AdvanceTimes(index, count, steps) == if index + steps < count - 1 then index + steps else count - 1
  {
    if steps > 0 {
      AdvanceTimesStopsAtLast(index, count, steps - 1);
    }
  }

  /** Advancing keeps the cursor valid. */
  lemma AdvanceKeepsCursorValid(index: int, count: nat)
    requires CursorValid(index, count)
    ensures CursorValid(Advance(index, count), count)
    ensures Advance(index, count) == index <==> !(index < count - 1)
  {
  }

  class Quiz {
    var questions: seq<Question>
    var currentIndex: int
    const introComments: map<int, map<string, Value>>
    const correctComments: map<int, string>
    const wrongComments: map<int, string>

    ghost predicate Valid()
      reads this
    {
      CursorValid(currentIndex, |questions|)
    }

    /**
     * Builds the quiz from the loaded questions and the three comment maps,
     * then merges the comments into the questions.
     */
    constructor (questions: seq<Question>, introComments: map<int, map<string, Value>>,
                 correctComments: map<int, string>, wrongComments: map<int, string>)
      requires IntroTypedForAll(introComments, questions)
      ensures currentIndex == 0
      ensures this.introComments == introComments && this.correctComments == correctComments
      ensures this.wrongComments == wrongComments
      ensures |this.questions| == |questions|
      ensures forall i :: 0 <= i < |questions| ==>
                this.questions[i] == WithComments(questions[i], introComments, correctComments, wrongComments)
      ensures Valid()
    {
      this.questions := questions;
      this.currentIndex := 0;
      this.introComments := introComments;
      this.correctComments := correctComments;
      this.wrongComments := wrongComments;
      new;
      ApplyComments();
    }

    /** `_apply_comments`: merges the comments into every question, in place, keeping the order. */
    method ApplyComments()
      requires IntroTypedForAll(introComments, questions)
      modifies this`questions
      ensures |questions| == |old(questions)|
      ensures forall i :: 0 <= i < |questions| ==>
                questions[i] == WithComments(old(questions)[i], introComments, correctComments, wrongComments)
    {
      var i := 0;
      while i < |questions|
        invariant 0 <= i <= |questions| == |old(questions)|
        invariant forall k :: 0 <= k < i ==>
                    questions[k] == WithComments(old(questions)[k], introComments, correctComments, wrongComments)
        invariant forall k :: i <= k < |questions| ==> questions[k] == old(questions)[k]
      {
        questions := questions[i := WithComments(questions[i], introComments, correctComments, wrongComments)];
        i := i + 1;
      }
    }

    /** `__len__` */
    function Count(): (n: nat)
      reads this
      ensures n == |questions|
    {
      |questions|
    }

    /** `get_question(index)`: the question at `index`, or at the cursor when none is given. */
    function GetQuestion(index: Option<int>): (r: Option<Question>)
      reads this
      ensures var i := index.GetOr(currentIndex);
              (r.Some? <==> 0 <= i < |questions|) && (r.Some? ==> r.value == questions[i])
      ensures Valid() && index == None && |questions| > 0 ==> r.Some?
    {
      var i := index.GetOr(currentIndex);
      if 0 <= i < |questions| then Some(questions[i]) else None
    }

    /** `get_next_question`: moves to the next question and returns it, unless at the last one. */
    method GetNextQuestion() returns (next: Option<Question>)
      requires Valid()
      modifies this`currentIndex
      ensures Valid()
      ensures currentIndex == Advance(old(currentIndex), |questions|)
      ensures next.Some? <==> old(currentIndex) < |questions| - 1
      ensures next.Some? ==> currentIndex == old(currentIndex) + 1 && next.value == questions[currentIndex]
    {
      if currentIndex < |questions| - 1 {
        currentIndex := currentIndex + 1;
        next := Some(questions[currentIndex]);
      } else {
        next := None;
      }
    }

    /** `has_next`: there is a question after the cursor. */
    predicate HasNext()
      reads this
      ensures HasNext() <==> currentIndex < |questions| - 1
      ensures Valid() ==> (HasNext() <==> GetQuestion(Some(currentIndex + 1)).Some?)
    {
      currentIndex < |questions| - 1
    }

    /** `has_previous`: there is a question before the cursor. */
    predicate HasPrevious()
      reads this
      ensures HasPrevious() <==> currentIndex > 0
      ensures Valid() ==> (HasPrevious() <==> GetQuestion(Some(currentIndex - 1)).Some?)
    {
      currentIndex > 0
    }

    /** `go_to_question(index)`: jumps there when `index` is a position of the list. */
    method GoToQuestion(index: int) returns (moved: bool)
      requires Valid()
      modifies this`currentIndex
      ensures Valid()
      ensures moved <==> 0 <= index < |questions|
      ensures currentIndex == if moved then index else old(currentIndex)
      ensures moved ==> GetQuestion(None) == Some(questions[index])
    {
      if 0 <= index < |questions| {
        currentIndex := index;
        moved := true;
      } else {
        moved := false;
      }
    }

    method GoToFirst()
      requires Valid()
      modifies this`currentIndex
      ensures Valid() && currentIndex == 0
      ensures !HasPrevious()
    {
      currentIndex := 0;
    }

    method GoToLast()
      requires Valid()
      modifies this`currentIndex
      ensures Valid() && currentIndex == |questions| - 1
      ensures !HasNext()
    {
      currentIndex := |questions| - 1;
    }

    /**
     * `shuffle`: the list is put in the order `permutation`, which stands for
     * the one `random.shuffle` picks, and the cursor returns to the start.
     */
    method Shuffle(permutation: seq<Question>)
      requires Valid()
      requires multiset(permutation) == multiset(questions)
      modifies this
      ensures Valid() && questions == permutation && currentIndex == 0
      ensures multiset(questions) == multiset(old(questions))
    {
      questions := permutation;
      currentIndex := 0;
    }

    /** `get_progress`: the 1-based number of the current question and the count. */
    function GetProgress(): (r: (int, nat))
      reads this
      ensures r.0 == currentIndex + 1 && r.1 == |questions|
      ensures Valid() && |questions| > 0 ==> 1 <= r.0 <= r.1
      ensures Valid() && |questions| > 0 ==> (r.0 == r.1 <==> !HasNext())
    {
      (currentIndex + 1, |questions|)
    }
  }
}
