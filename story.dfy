/**
 * The story component the game drives (`Story` from story.py, which is not
 * part of this model). It is kept abstract: beats keyed by the question number
 * that triggers them, the set of beats already shown, a question counter, a
 * reset, and a lookup that fires each beat at most once.
 */
module Stories {
  import opened Wrappers

  datatype Mood = Normal | Dramatic | Calm | Mysterious | Emotional

  datatype StoryBeat = StoryBeat(
    triggerQuestion: int,
    speaker: string,
    mood: Mood,
    title: string,
    text: string,
    act: int)

  /** Every beat is filed under its own trigger question. */
  predicate BeatsIndexed(beats: map<int, StoryBeat>) {
    forall n :: n in beats ==> beats[n].triggerQuestion == n
  }

  /** Among the beats, as many are shown as exist exactly when all of them are shown. */
  lemma ShownCountIsTotalIffAllShown<T>(shown: set<T>, all: set<T>)
    ensures shown <= all ==> (|shown| == |all| <==> shown == all)
  {
    if shown <= all && shown != all {
      assert shown + (all - shown) == all;
      var x :| x in all - shown;
      assert shown <= all - {x};
      assert |all - {x}| == |all| - 1;
      assert |shown| <= |all - {x}| by { SubsetCardinality(shown, all - {x}); }
    }
  }

  lemma {:induction false} SubsetCardinality<T>(small: set<T>, big: set<T>)
    requires small <= big
    ensures |small| <= |big|
  {
    if small != {} {
      var y :| y in small;
      SubsetCardinality(small - {y}, big - {y});
    }
  }

  class Story {
    const beats: map<int, StoryBeat>
    var shownBeats: set<int>
    var currentQuestion: int

    ghost predicate Valid()
      reads this
    {
      shownBeats <= beats.Keys && BeatsIndexed(beats)
    }

    constructor (beats: map<int, StoryBeat>)
      requires BeatsIndexed(beats)
      ensures this.beats == beats && shownBeats == {} && currentQuestion == 0
      ensures Valid()
    {
      this.beats := beats;
      shownBeats := {};
      currentQuestion := 0;
    }

    /** `len(story)`: the number of beats. */
    function Length(): (n: nat)
      ensures n == |beats.Keys|
    {
      |beats|
    }

    /** `reset`: nothing shown yet, the counter back at the start. */
    method Reset()
      requires Valid()
      modifies this`shownBeats, this`currentQuestion
      ensures Valid() && shownBeats == {} && currentQuestion == 0
    {
      shownBeats := {};
      currentQuestion := 0;
    }

    /**
     * `get_story_beat(n)`: the beat triggered by question `n`, the first time
     * only; returning it marks it shown.
     */
    method GetStoryBeat(questionNumber: int) returns (beat: Option<StoryBeat>)
      requires Valid()
      modifies this`shownBeats
      ensures Valid()
      ensures beat.Some? <==> questionNumber in beats && questionNumber !in old(shownBeats)
      ensures beat.Some? ==> beat.value == beats[questionNumber] && beat.value.triggerQuestion == questionNumber
      ensures shownBeats == if beat.Some? then old(shownBeats) + {questionNumber} else old(shownBeats)
      ensures questionNumber in beats ==> questionNumber in shownBeats
    {
      if questionNumber in beats && questionNumber !in shownBeats {
        shownBeats := shownBeats + {questionNumber};
        beat := Some(beats[questionNumber]);
      } else {
        beat := None;
      }
    }
  }
}
