/**
 * A quiz question (`Question` in question.py): the four core fields that are
 * loaded from the question file, plus commentary, emoji and tags that a later
 * merge pass fills in.
 */
module Questions {
  import opened Wrappers
  import opened Json

  datatype Question = Question(
    id: int,
    question: string,
    options: seq<string>,
    correct: int,
    introComment: string,
    correctComment: string,
    wrongComment: string,
    emoji: string,
    tags: seq<string>)

  /** The dataclass constructor: the four core fields, everything else empty. */
  function NewQuestion(id: int, question: string, options: seq<string>, correct: int): (q: Question)
    ensures q.id == id && q.question == question && q.options == options && q.correct == correct
    ensures q.introComment == q.correctComment == q.wrongComment == q.emoji == "" && q.tags == []
    ensures WellFormed(q) <==> 0 <= correct < |options|
  {
    Question(id, question, options, correct, "", "", "", "", [])
  }

  /** The correct index is a position in the question's own options. */
  predicate WellFormed(q: Question) {
    0 <= q.correct < |q.options|
  }

  /** `is_correct_answer`: the chosen index is the correct one. */
  predicate IsCorrectAnswer(q: Question, answerIndex: int)
    ensures IsCorrectAnswer(q, answerIndex) && WellFormed(q) ==>
              0 <= answerIndex < |q.options| && q.options[answerIndex] == CorrectAnswerText(q)
  {
    answerIndex == q.correct
  }

  /** Python's `s[i]`, which counts from the end for a negative `i`. */
  function PyIndex<T>(s: seq<T>, i: int): T
    requires -|s| <= i < |s|
  {
    if 0 <= i then s[i] else s[|s| + i]
  }

  /**
   * `get_correct_answer_text`: `options[correct]`. Python raises an IndexError
   * outside `-len(options) <= correct < len(options)`, and counts from the end
   * for a negative index.
   */
  function CorrectAnswerText(q: Question): (r: string)
    requires -|q.options| <= q.correct < |q.options|
    ensures r in q.options
    ensures WellFormed(q) ==> r == q.options[q.correct]
  {
    PyIndex(q.options, q.correct)
  }

  /**
   * On a well-formed question, an option in range is accepted exactly when its
   * text is the correct answer's text, provided no option text is repeated.
   */
  lemma AcceptedAnswerHasCorrectText(q: Question, i: int)
    requires WellFormed(q) && 0 <= i < |q.options|
    ensures IsCorrectAnswer(q, i) ==> q.options[i] == CorrectAnswerText(q)
    ensures (forall j, k :: 0 <= j < k < |q.options| ==> q.options[j] != q.options[k]) ==>
              (q.options[i] == CorrectAnswerText(q) ==> IsCorrectAnswer(q, i))
  {
  }

  // ----- Decimal numerals, as Python's f"{n}" writes a natural number -----

  predicate IsDigit(c: char) {
    '0' <= c <= '9'
  }

  predicate AllDigits(s: string) {
    forall k :: 0 <= k < |s| ==> IsDigit(s[k])
  }

  function DigitChar(d: int): (c: char)
    requires 0 <= d < 10
    ensures IsDigit(c)
  {
    ('0' as int + d) as char
  }

  function DigitValue(c: char): int
    requires IsDigit(c)
  {
    c as int - '0' as int
  }

  /** The decimal numeral of `n`: digits only, no leading zero. */
  function Decimal(n: nat): (s: string)
    ensures 1 <= |s| && AllDigits(s)
    ensures s[0] == '0' ==> n == 0
  {
    if n < 10 then [DigitChar(n)] else Decimal(n / 10) + [DigitChar(n % 10)]
  }

  /** The value of a string of decimal digits. */
  function ParseDecimal(s: string): nat
    requires AllDigits(s)
  {
    if s == [] then 0 else ParseDecimal(s[..|s| - 1]) * 10 + DigitValue(s[|s| - 1])
  }

  lemma {:induction false} ParseDecimalOfDecimal(n: nat)
    ensures ParseDecimal(Decimal(n)) == n
  {
    var s := Decimal(n);
    if n >= 10 {
      assert s[..|s| - 1] == Decimal(n / 10);
      ParseDecimalOfDecimal(n / 10);
    }
  }

  /** The length of the run of digits that `s` starts with. */
  function LeadingDigits(s: string): (n: nat)
    ensures n <= |s|
    ensures AllDigits(s[..n])
    ensures n < |s| ==> !IsDigit(s[n])
  {
    if s == [] || !IsDigit(s[0]) then 0 else 1 + LeadingDigits(s[1..])
  }

  lemma {:induction false} LeadingDigitsOfNumeral(d: string, rest: string)
    requires AllDigits(d)
    requires rest != [] && !IsDigit(rest[0])
    ensures LeadingDigits(d + rest) == |d|
  {
    if d != [] {
      assert (d + rest)[1..] == d[1..] + rest;
      LeadingDigitsOfNumeral(d[1..], rest);
    }
  }

  /** One entry of the numbered list: `f"{number}. {option}"`. */
  function NumberedOption(number: nat, option: string): string {
    Decimal(number) + ". " + option
  }

  /** `get_options_numbered`: `["1. a", "2. b", ...]`. */
  function OptionsNumbered(q: Question): (r: seq<string>)
    ensures |r| == |q.options|
    ensures forall i :: 0 <= i < |r| ==> r[i] == NumberedOption(i + 1, q.options[i])
  {
    seq(|q.options|, i requires 0 <= i < |q.options| => NumberedOption(i + 1, q.options[i]))
  }

  /** Reads a numbered entry back: its number and the option text after ". ". */
  function ParseNumbered(entry: string): Option<(nat, string)> {
    var n := LeadingDigits(entry);
    if 0 < n && n + 2 <= |entry| && entry[n] == '.' && entry[n + 1] == ' ' then
      Some((ParseDecimal(entry[..n]), entry[n + 2..]))
    else
      None
  }

  /** Entry `i` of the numbered list carries the number `i + 1` and exactly option `i`. */
  lemma NumberedOptionParses(q: Question, i: int)
    requires 0 <= i < |q.options|
    ensures ParseNumbered(OptionsNumbered(q)[i]) == Some((i + 1, q.options[i]))
  {
    var d := Decimal(i + 1);
    var entry := OptionsNumbered(q)[i];
    assert entry == d + (". " + q.options[i]);
    LeadingDigitsOfNumeral(d, ". " + q.options[i]);
    assert entry[..|d|] == d;
    assert entry[|d| + 2..] == q.options[i];
    ParseDecimalOfDecimal(i + 1);
  }

  /** The numbered entries are pairwise distinct, even when option texts repeat. */
  lemma NumberedOptionsDistinct(q: Question, i: int, j: int)
    requires 0 <= i < j < |q.options|
    ensures OptionsNumbered(q)[i] != OptionsNumbered(q)[j]
  {
    NumberedOptionParses(q, i);
    NumberedOptionParses(q, j);
  }

  // ----- Conversion to and from the question file's dictionaries -----

  /**
   * The fields `from_dict` reads have the types the dataclass declares. Python
   * does not check this; a record that breaks it gives an ill-typed object.
   */
  predicate FieldsTyped(d: map<string, Value>) {
    && ("id" in d ==> IsInt(d["id"]))
    && ("question" in d ==> d["question"].Str?)
    && ("options" in d ==> IsStringList(d["options"]))
    && ("correct" in d ==> IsInt(d["correct"]))
  }

  /** `from_dict`: each core field from the record or its default; commentary empty. */
  function FromDict(d: map<string, Value>): (q: Question)
    requires FieldsTyped(d)
    ensures "id" !in d ==> q.id == 0
    ensures "question" !in d ==> q.question == ""
    ensures "options" !in d ==> q.options == []
    ensures "correct" !in d ==> q.correct == 0
    ensures "id" in d ==> q.id == AsInt(d["id"])
    ensures "question" in d ==> q.question == d["question"].s
    ensures "options" in d ==> |q.options| == |d["options"].items| &&
                               forall k :: 0 <= k < |q.options| ==> q.options[k] == d["options"].items[k].s
    ensures "correct" in d ==> q.correct == AsInt(d["correct"])
    ensures q.introComment == q.correctComment == q.wrongComment == q.emoji == "" && q.tags == []
  {
    NewQuestion(
      if "id" in d then AsInt(d["id"]) else 0,
      GetStr(d, "question", ""),
      if "options" in d then Strings(d["options"].items) else [],
      if "correct" in d then AsInt(d["correct"]) else 0)
  }

  /** `to_dict`: the four core fields; commentary, emoji and tags are not written. */
  function ToDict(q: Question): (d: map<string, Value>)
    ensures d.Keys == {"id", "question", "options", "correct"}
    ensures FieldsTyped(d)
  {
    map["id" := Int(q.id), "question" := Str(q.question),
        "options" := List(StringValues(q.options)), "correct" := Int(q.correct)]
  }

  /** Reading back what `to_dict` wrote keeps the core fields and drops the commentary. */
  lemma FromDictToDict(q: Question)
    ensures FromDict(ToDict(q)) == NewQuestion(q.id, q.question, q.options, q.correct)
  {
    StringsOfStringValues(q.options);
  }

  /** `to_dict` does not see the commentary, emoji or tags. */
  lemma ToDictIgnoresCommentary(q: Question, p: Question)
    requires q.id == p.id && q.question == p.question && q.options == p.options && q.correct == p.correct
    ensures ToDict(q) == ToDict(p)
  {
  }
}
