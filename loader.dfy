/**
 * The content checks of the data loader (`DataLoader` in loader.py):
 * validation of question records, the count over a question file, and the
 * fallbacks of `load_questions` / `load_comments` on already parsed data.
 */
module Loader {
  import opened Wrappers
  import opened Json
  import opened Questions

  /** The keys `validate_question` demands, in the order it checks them. */
  const RequiredFields: seq<string> := ["id", "question", "options", "correct"]

  /** Which guard of `validate_question` stops a record; each raises its own warning. */
  datatype Verdict =
    | Accepted
    | MissingField(field: string)
    | WrongType(field: string)
    | CorrectOutOfRange

  /** The first of `fields` the record lacks, if any. */
  function FirstMissing(fields: seq<string>, record: map<string, Value>): (r: Option<string>)
    ensures r.None? <==> forall k :: 0 <= k < |fields| ==> fields[k] in record
    ensures r.Some? ==> exists k :: 0 <= k < |fields| && fields[k] == r.value && r.value !in record &&
                                   forall j :: 0 <= j < k ==> fields[j] in record
  {
    if fields == [] then None
    else if fields[0] !in record then Some(fields[0])
    else
      var rest := FirstMissing(fields[1..], record);
      assert rest.Some? ==> exists k :: 1 <= k < |fields| && fields[k] == rest.value && rest.value !in record &&
                                       forall j :: 1 <= j < k ==> fields[j] in record;
      rest
  }

  /** No required key is missing exactly when all four are present. */
  lemma NoneMissingIffAllPresent(record: map<string, Value>)
    ensures FirstMissing(RequiredFields, record).None? <==>
              "id" in record && "question" in record && "options" in record && "correct" in record
  {
    var fields := RequiredFields;
    assert fields[0] == "id" && fields[1] == "question" && fields[2] == "options" && fields[3] == "correct";
  }

  /** The type `validate_question` demands of a required field: a string prompt, a list of options, ints otherwise. */
  predicate HasDeclaredType(field: string, value: Value) {
    if field == "question" then value.Str?
    else if field == "options" then value.List?
    else IsInt(value)
  }

  /**
   * The guards of `validate_question`, in order: required keys, the four types,
   * the range of `correct`. The verdict is the first guard that fails.
   */
  function Diagnose(record: map<string, Value>): (v: Verdict)
    ensures v.MissingField? <==> FirstMissing(RequiredFields, record).Some?
    ensures v.MissingField? ==> v.field == FirstMissing(RequiredFields, record).value
    ensures v.MissingField? ==> v.field in RequiredFields && v.field !in record
    ensures v == WrongType("id") <==> !v.MissingField? && !IsInt(record["id"])
    ensures !v.MissingField? ==> "id" in record && "question" in record && "options" in record && "correct" in record
    ensures v.WrongType? ==>
              exists k :: 0 <= k < |RequiredFields| && RequiredFields[k] == v.field &&
                          RequiredFields[k] in record && !HasDeclaredType(v.field, record[v.field]) &&
                          forall j :: 0 <= j < k ==>
                            RequiredFields[j] in record && HasDeclaredType(RequiredFields[j], record[RequiredFields[j]])
    ensures !v.MissingField? && !v.WrongType? ==>
              forall k :: 0 <= k < |RequiredFields| ==>
                RequiredFields[k] in record && HasDeclaredType(RequiredFields[k], record[RequiredFields[k]])
    ensures v == CorrectOutOfRange <==>
              && "id" in record && "question" in record && "options" in record && "correct" in record
              && IsInt(record["id"]) && record["question"].Str? && record["options"].List? && IsInt(record["correct"])
              && !(0 <= AsInt(record["correct"]) < |record["options"].items|)
  {
    NoneMissingIffAllPresent(record);
    match FirstMissing(RequiredFields, record)
    case Some(field) => MissingField(field)
    case None =>
      assert RequiredFields[0] in record && RequiredFields[1] in record;
      assert RequiredFields[2] in record && RequiredFields[3] in record;
      if !IsInt(record["id"]) then WrongType("id")
      else if !record["question"].Str? then WrongType("question")
      else if !record["options"].List? then WrongType("options")
      else if !IsInt(record["correct"]) then WrongType("correct")
      else if !(0 <= AsInt(record["correct"]) < |record["options"].items|) then CorrectOutOfRange
      else Accepted
  }

  /**
   * A question record as the file format wants it: all four keys, an int id
   * and correct index (Python's int, so booleans pass), a string prompt, a
   * list of options, and a correct index inside that list.
   */
  predicate WellFormedRecord(record: map<string, Value>) {
    && "id" in record && "question" in record && "options" in record && "correct" in record
    && IsInt(record["id"]) && record["question"].Str? && record["options"].List? && IsInt(record["correct"])
    && 0 <= AsInt(record["correct"]) < |record["options"].items|
  }

  /** `validate_question`: the record passes every guard. */
  function ValidateQuestion(record: map<string, Value>): (ok: bool)
    ensures ok <==> WellFormedRecord(record)
  {
    NoneMissingIffAllPresent(record);
    Diagnose(record) == Accepted
  }

  /** A missing required key is reported, and the first missing one in check order is the one named. */
  lemma MissingFieldRejected(record: map<string, Value>, field: string)
    requires field in RequiredFields && field !in record
    ensures !ValidateQuestion(record)
    ensures Diagnose(record).MissingField?
    ensures Diagnose(record).field in RequiredFields && Diagnose(record).field !in record
    ensures Diagnose(record) == MissingField(FirstMissing(RequiredFields, record).value)
  {
    var k :| 0 <= k < |RequiredFields| && RequiredFields[k] == field;
  }

  /** A record with all keys and the four right types is valid exactly when `correct` indexes its options. */
  lemma TypedRecordValidIffInRange(record: map<string, Value>)
    requires "id" in record && "question" in record && "options" in record && "correct" in record
    requires IsInt(record["id"]) && record["question"].Str? && record["options"].List? && IsInt(record["correct"])
    ensures ValidateQuestion(record) <==> 0 <= AsInt(record["correct"]) < |record["options"].items|
    ensures !ValidateQuestion(record) ==> Diagnose(record) == CorrectOutOfRange
  {
    assert FirstMissing(RequiredFields, record).None?;
  }

  /** An id or correct index that is not an int, a prompt that is not a string, options that are not a list: rejected. */
  lemma WrongTypeRejected(record: map<string, Value>)
    requires "id" in record && "question" in record && "options" in record && "correct" in record
    requires !IsInt(record["id"]) || !record["question"].Str? || !record["options"].List? || !IsInt(record["correct"])
    ensures !ValidateQuestion(record) && Diagnose(record).WrongType?
  {
    assert FirstMissing(RequiredFields, record).None?;
  }

  /**
   * A record that passes validation, with string options, becomes through
   * `from_dict` a question whose correct index is valid for its own options.
   */
  lemma ValidRecordGivesWellFormedQuestion(record: map<string, Value>)
    requires ValidateQuestion(record)
    requires AllStrings(record["options"].items)
    ensures FieldsTyped(record)
    ensures WellFormed(FromDict(record))
    ensures FromDict(record).correct == AsInt(record["correct"])
  {
  }

  /** What `to_dict` writes is valid exactly when the question is well formed. */
  lemma ToDictValidIffWellFormed(q: Question)
    ensures ValidateQuestion(ToDict(q)) <==> WellFormed(q)
  {
  }

  /** How many of the records pass `validate_question`. */
  function CountValid(records: seq<map<string, Value>>): (n: nat)
    ensures n <= |records|
  {
    if records == [] then 0
    else CountValid(records[..|records| - 1]) + (if ValidateQuestion(records[|records| - 1]) then 1 else 0)
  }

  /** All records count as valid exactly when every one of them is valid. */
  lemma {:induction false} CountValidFullIffAllValid(records: seq<map<string, Value>>)
    ensures CountValid(records) == |records| <==> forall k :: 0 <= k < |records| ==> ValidateQuestion(records[k])
  {
    if records != [] {
      var prefix := records[..|records| - 1];
      CountValidFullIffAllValid(prefix);
      assert forall k :: 0 <= k < |prefix| ==> prefix[k] == records[k];
    }
  }

  /** The top-level `"questions"` entry, when present, is a list of objects. */
  predicate QuestionsEntryShaped(data: Option<map<string, Value>>) {
    data.Some? && "questions" in data.value ==>
      && data.value["questions"].List?
      && forall k :: 0 <= k < |data.value["questions"].items| ==> data.value["questions"].items[k].Object?
  }

  /** The dictionaries inside a list of JSON objects, in order. */
  function Objects(vs: seq<Value>): (r: seq<map<string, Value>>)
    requires forall k :: 0 <= k < |vs| ==> vs[k].Object?
    ensures |r| == |vs|
    ensures forall k :: 0 <= k < |vs| ==> r[k] == vs[k].fields
  {
    if vs == [] then [] else [vs[0].fields] + Objects(vs[1..])
  }

  /**
   * `load_questions` after `load_json`: `None` (no file) gives `[]`,
   * otherwise the `"questions"` entry or `[]`.
   */
  function LoadQuestions(data: Option<map<string, Value>>): (r: seq<map<string, Value>>)
    requires QuestionsEntryShaped(data)
    ensures data.None? ==> r == []
    ensures data.Some? && "questions" !in data.value ==> r == []
    ensures data.Some? && "questions" in data.value ==>
              |r| == |data.value["questions"].items| &&
              forall k :: 0 <= k < |r| ==> data.value["questions"].items[k] == Object(r[k])
  {
    match data
    case None => []
    case Some(d) => if "questions" in d then Objects(d["questions"].items) else []
  }

  /** The top-level `"comments"` entry, when present, is an object. */
  predicate CommentsEntryShaped(data: Option<map<string, Value>>) {
    data.Some? && "comments" in data.value ==> data.value["comments"].Object?
  }

  /**
   * `load_comments` after `load_json`: `None` gives `{}`, otherwise the
   * `"comments"` entry or `{}` (keys left as the strings of the file).
   */
  function LoadComments(data: Option<map<string, Value>>): (r: map<string, Value>)
    requires CommentsEntryShaped(data)
    ensures data.None? ==> r == map[]
    ensures data.Some? && "comments" !in data.value ==> r == map[]
    ensures data.Some? && "comments" in data.value ==> Object(r) == data.value["comments"]
  {
    match data
    case None => map[]
    case Some(d) => if "comments" in d then d["comments"].fields else map[]
  }

  /**
   * `validate_questions_file` over the parsed file: false for an empty or
   * missing question list, otherwise whether every record is valid. It also
   * returns `valid_count`, the number it reports.
   */
  method ValidateQuestionsFile(data: Option<map<string, Value>>) returns (ok: bool, validCount: nat)
    requires QuestionsEntryShaped(data)
    ensures validCount == CountValid(LoadQuestions(data))
    ensures ok <==> |LoadQuestions(data)| > 0 &&
                    forall k :: 0 <= k < |LoadQuestions(data)| ==> ValidateQuestion(LoadQuestions(data)[k])
  {
    var questions := LoadQuestions(data);
    if |questions| == 0 {
      return false, 0;
    }
    validCount := 0;
    var i := 0;
    while i < |questions|
      invariant 0 <= i <= |questions|
      invariant validCount == CountValid(questions[..i])
    {
      assert questions[..i + 1][..i] == questions[..i];
      if ValidateQuestion(questions[i]) {
        validCount := validCount + 1;
      }
      i := i + 1;
    }
    assert questions[..i] == questions;
    CountValidFullIffAllValid(questions);
    ok := validCount == |questions|;
  }
}
