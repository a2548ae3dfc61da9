/**
 Default and answer-map step results (`ORKStep+ResultsExtension`): a step builds a step result
 carrying its identifier, and question and form steps add one question result per answered (or
 defaulted) question, mapped by the question's answer format.
 */
module StepResults {
  import opened Wrappers
  import opened Values

  /** The answer formats whose mapping is modelled; `Unsupported` is a format with no mapping. */
  datatype AnswerFormat =
    | TextChoiceFormat(choices: seq<Value>)
    | BooleanFormat
    | TextFormat
    | EmailFormat
    | MoodScaleFormat
    | Unsupported

  /** The result objects built here, plus the tracked-data selection result other steps record. */
  datatype Result =
    | ChoiceResult(identifier: string, choiceAnswers: seq<Value>)
    | BooleanResult(identifier: string, booleanAnswer: int)
    | TextResult(identifier: string, textAnswer: Option<string>)
    | MoodScaleResult(identifier: string, scaleAnswer: Option<int>)
    | DataSelectionResult(identifier: string)

  /** The `answer` a question result reports, which is what survey rules test. */
  function Answer(r: Result): Option<Value> {
    match r
    case ChoiceResult(_, choices) => Some(List(choices))
    case BooleanResult(_, b) => Some(Num(b))
    case TextResult(_, t) => if t.Some? then Some(Text(t.value)) else None
    case MoodScaleResult(_, s) => if s.Some? then Some(Num(s.value)) else None
    case DataSelectionResult(_) => None
  }

  // ---------------------------------------------------------------------------
  // Text choices
  // ---------------------------------------------------------------------------

  /** How many of the choices occur among the answers (the `filter` in `isValidAnswer`). */
  function MatchingChoices(choices: seq<Value>, answers: seq<Value>): nat {
    if choices == [] then 0
    else (if choices[0] in answers then 1 else 0) + MatchingChoices(choices[1..], answers)
  }

  /** `isValidAnswer`: a list whose length is the number of choices it contains. */
  predicate IsValidAnswer(choices: seq<Value>, answer: Value)
    ensures IsValidAnswer(choices, answer) ==> answer.List? && |answer.items| <= |choices|
    ensures answer == List([]) ==> IsValidAnswer(choices, answer)
  {
    MatchingAtMostChoices(choices, if answer.List? then answer.items else []);
    answer.List? && MatchingChoices(choices, answer.items) == |answer.items|
  }

  lemma {:induction false} MatchingAtMostChoices(choices: seq<Value>, answers: seq<Value>)
    ensures MatchingChoices(choices, answers) <= |choices|
    ensures answers == [] ==> MatchingChoices(choices, answers) == 0
  {
    if choices != [] {
      MatchingAtMostChoices(choices[1..], answers);
    }
  }

  /** `answer as? [AnyObject]`, with a single non-list answer wrapped in a list. */
  function ChoiceAnswers(answer: Option<Value>): (r: Option<seq<Value>>)
    ensures r.None? <==> answer.None?
    ensures answer.Some? && answer.value.List? ==> r == Some(answer.value.items)
    ensures answer.Some? && !answer.value.List? ==> r == Some([answer.value])
  {
    match answer
    case None => None
    case Some(List(items)) => Some(items)
    case Some(v) => Some([v])
  }

  /**
   `ORKTextChoiceAnswerFormat.questionResult`: nil without choices or for an invalid answer;
   otherwise the (listed) answer, or the last choice's value when there is no answer.
   */
  function TextChoiceResult(choices: seq<Value>, identifier: string, answer: Option<Value>): (r: Option<Result>)
    ensures |choices| == 0 ==> r.None?
    ensures r.Some? ==> r.value.ChoiceResult? && r.value.identifier == identifier
    ensures |choices| > 0 && answer.None? ==> r == Some(ChoiceResult(identifier, [choices[|choices| - 1]]))
    ensures |choices| > 0 && answer.Some? ==>
              (r.Some? <==> IsValidAnswer(choices, List(ChoiceAnswers(answer).value)))
    ensures r.Some? && answer.Some? ==> r.value.choiceAnswers == ChoiceAnswers(answer).value
  {
    if |choices| == 0 then None
    else
      var choiceAnswers := ChoiceAnswers(answer);
      if choiceAnswers.Some? && !IsValidAnswer(choices, List(choiceAnswers.value)) then None
      else if choiceAnswers.Some? then Some(ChoiceResult(identifier, choiceAnswers.value))
      else Some(ChoiceResult(identifier, [choices[|choices| - 1]]))
  }

  function Elements(s: seq<Value>): set<Value> {
    set x | x in s
  }

  predicate Distinct(s: seq<Value>) {
    forall i, j :: 0 <= i < j < |s| ==> s[i] != s[j]
  }

  lemma {:induction false} ElementsAtMostLength(s: seq<Value>)
    ensures |Elements(s)| <= |s|
    ensures Distinct(s) ==> |Elements(s)| == |s|
  {
    if s != [] {
      ElementsAtMostLength(s[1..]);
      ElementsOfNonEmpty(s);
    }
  }

  /** The elements of a non-empty sequence are its head and the elements of its tail. */
  lemma ElementsOfNonEmpty(s: seq<Value>)
    requires s != []
    ensures Elements(s) == {s[0]} + Elements(s[1..])
    ensures Distinct(s) ==> Distinct(s[1..]) && s[0] !in Elements(s[1..])
  {
    if Distinct(s) {
      forall k | 0 <= k < |s[1..]| ensures s[1..][k] != s[0] {
        assert s[1..][k] == s[k + 1];
      }
    }
  }

  /** With distinct choices, the count is the number of distinct answers that are choices. */
  lemma {:induction false} MatchingChoicesCounts(choices: seq<Value>, answers: seq<Value>)
    requires Distinct(choices)
    ensures MatchingChoices(choices, answers) == |Elements(choices) * Elements(answers)|
  {
    if choices != [] {
      var c, rest := choices[0], choices[1..];
      ElementsOfNonEmpty(choices);
      MatchingChoicesCounts(rest, answers);
      assert c in answers <==> c in Elements(answers);
      IntersectionWithOneMore(c, Elements(rest), Elements(answers));
    }
  }

  lemma IntersectionWithOneMore(c: Value, rest: set<Value>, answers: set<Value>)
    requires c !in rest
    ensures |({c} + rest) * answers| == (if c in answers then 1 else 0) + |rest * answers|
  {
    if c in answers {
      assert ({c} + rest) * answers == {c} + rest * answers;
    } else {
      assert ({c} + rest) * answers == rest * answers;
    }
  }

  lemma SubsetCardinality(a: set<Value>, b: set<Value>)
    requires a <= b
    ensures |a| <= |b|
  {
    assert b == a + (b - a);
  }

  /**
   What validity means when the choices are distinct: a valid answer selects only offered
   choices, and a repetition-free selection of offered choices is valid.
   */
  lemma ValidAnswerMeaning(choices: seq<Value>, answers: seq<Value>)
    requires Distinct(choices)
    ensures IsValidAnswer(choices, List(answers)) ==> forall a :: a in answers ==> a in choices
    ensures Distinct(answers) && (forall a :: a in answers ==> a in choices) ==> IsValidAnswer(choices, List(answers))
  {
    MatchingChoicesCounts(choices, answers);
    ElementsAtMostLength(answers);
    var both := Elements(choices) * Elements(answers);
    if a :| a in answers && a !in choices {
      assert both <= Elements(answers) - {a};
      SubsetCardinality(both, Elements(answers) - {a});
      assert |Elements(answers) - {a}| == |Elements(answers)| - 1;
    }
    if forall a :: a in answers ==> a in choices {
      assert both == Elements(answers);
    }
  }

  /** Offering a choice twice lets an answer that is not a choice at all pass as valid. */
  lemma DuplicateChoicesAdmitForeignAnswer()
    ensures IsValidAnswer([Num(1), Num(1)], List([Num(1), Num(2)]))
    ensures Num(2) !in [Num(1), Num(1)]
  {
  }

  // ---------------------------------------------------------------------------
  // The other modelled formats
  // ---------------------------------------------------------------------------

  /** `ORKBooleanAnswerFormat.questionResult`: a number is kept, anything else records false. */
  function BooleanQuestionResult(identifier: string, answer: Option<Value>): (r: Result)
    ensures r.BooleanResult? && r.identifier == identifier
    ensures answer.Some? && answer.value.Num? ==> Answer(r) == answer
    ensures !(answer.Some? && answer.value.Num?) ==> Answer(r) == Some(False)
  {
    match answer
    case Some(Num(n)) => BooleanResult(identifier, n)
    case _ => BooleanResult(identifier, 0)
  }

  /** `ORKTextAnswerFormat.questionResult` (and the e-mail format): only text is recorded. */
  function TextQuestionResult(identifier: string, answer: Option<Value>): (r: Result)
    ensures r.TextResult? && r.identifier == identifier
    ensures Answer(r).Some? <==> answer.Some? && answer.value.Text?
    ensures Answer(r).Some? ==> Answer(r) == answer
  {
    match answer
    case Some(Text(s)) => TextResult(identifier, Some(s))
    case _ => TextResult(identifier, None)
  }

  /**
   `ORKMoodScaleAnswerFormat.questionResult`: a number is a mood-scale answer, a list a choice
   answer, any other value a one-choice answer, and no answer an empty mood-scale result.
   */
  function MoodScaleQuestionResult(identifier: string, answer: Option<Value>): (r: Result)
    ensures r.identifier == identifier
    ensures answer.None? ==> r == MoodScaleResult(identifier, None)
    ensures answer.Some? && answer.value.Num? ==> r.MoodScaleResult? && Answer(r) == answer
    ensures answer.Some? && answer.value.List? ==> r.ChoiceResult? && Answer(r) == answer
    ensures answer.Some? && answer.value.Text? ==> r.ChoiceResult? && Answer(r) == Some(List([answer.value]))
  {
    match answer
    case Some(Num(n)) => MoodScaleResult(identifier, Some(n))
    case Some(List(items)) => ChoiceResult(identifier, items)
    case Some(v) => ChoiceResult(identifier, [v])
    case None => MoodScaleResult(identifier, None)
  }

  /** `SBAQuestionResultMapping.questionResult`, dispatched on the answer format. */
  function QuestionResult(format: AnswerFormat, identifier: string, answer: Option<Value>): (r: Option<Result>)
    ensures r.Some? ==> r.value.identifier == identifier
    ensures format.Unsupported? ==> r.None?
  {
    match format
    case TextChoiceFormat(choices) => TextChoiceResult(choices, identifier, answer)
    case BooleanFormat => Some(BooleanQuestionResult(identifier, answer))
    case TextFormat => Some(TextQuestionResult(identifier, answer))
    case EmailFormat => Some(TextQuestionResult(identifier, answer))
    case MoodScaleFormat => Some(MoodScaleQuestionResult(identifier, answer))
    case Unsupported => None
  }

  /** Whether a format yields a result when asked for a default (nil) answer. */
  predicate HasDefault(format: AnswerFormat) {
    !format.Unsupported? && !(format.TextChoiceFormat? && format.choices == [])
  }

  lemma DefaultAnswerResult(format: AnswerFormat, identifier: string)
    ensures QuestionResult(format, identifier, None).Some? <==> HasDefault(format)
  {
  }

  // ---------------------------------------------------------------------------
  // Step results
  // ---------------------------------------------------------------------------

  datatype FormItem = FormItem(identifier: string, answerFormat: AnswerFormat)

  /** The step classes that build results: any step, a form step, a question step. */
  datatype StepDef =
    | BaseStep(identifier: string)
    | FormStep(identifier: string, formItems: Option<seq<FormItem>>)
    | QuestionStep(identifier: string, answerFormat: AnswerFormat)

  /** `ORKStepResult` (a nil `results` array is the empty sequence). */
  datatype StepResult = StepResult(identifier: string, results: seq<Result>)

  /** `answerMap?[key]` */
  function Lookup(answerMap: Option<map<string, Value>>, key: string): (r: Option<Value>)
    ensures r.Some? <==> answerMap.Some? && key in answerMap.value
  {
    if answerMap.Some? && key in answerMap.value then Some(answerMap.value[key]) else None
  }

  /**
   What one form item contributes (the closure given to `sba_mapAndFilter`): nothing unless it
   was answered or defaults are wanted, and then its format's mapped result.
   */
  function Contribution(item: FormItem, answerMap: Option<map<string, Value>>, shouldSetDefault: bool): (r: Option<Result>)
    ensures Lookup(answerMap, item.identifier).None? && !shouldSetDefault ==> r.None?
    ensures Lookup(answerMap, item.identifier).Some? || shouldSetDefault ==>
              r == QuestionResult(item.answerFormat, item.identifier, Lookup(answerMap, item.identifier))
  {
    var answer := Lookup(answerMap, item.identifier);
    if answer.Some? || shouldSetDefault then QuestionResult(item.answerFormat, item.identifier, answer) else None
  }

  /**
   The `sba_mapAndFilter` over the form items: each result is some item's contribution, and no
   item contributes more than one.
   */
  function FormResults(items: seq<FormItem>, answerMap: Option<map<string, Value>>, shouldSetDefault: bool): (r: seq<Result>)
    ensures |r| <= |items|
    ensures forall x :: x in r ==> exists i :: 0 <= i < |items| && Contribution(items[i], answerMap, shouldSetDefault) == Some(x)
  {
    if items == [] then []
    else
      var rest := FormResults(items[1..], answerMap, shouldSetDefault);
      assert forall j :: 1 <= j < |items| ==> items[j] == items[1..][j - 1];
      match Contribution(items[0], answerMap, shouldSetDefault)
      case Some(r) => [r] + rest
      case None => rest
  }

  /** The positions of the items that contributed a result, in order. */
  function FormSources(items: seq<FormItem>, answerMap: Option<map<string, Value>>, shouldSetDefault: bool): seq<nat> {
    if items == [] then []
    else
      var rest := Shifted(FormSources(items[1..], answerMap, shouldSetDefault));
      if Contribution(items[0], answerMap, shouldSetDefault).Some? then [0] + rest else rest
  }

  function Shifted(o: seq<nat>): (r: seq<nat>)
    ensures |r| == |o| && forall k :: 0 <= k < |o| ==> r[k] == o[k] + 1
  {
    seq(|o|, k requires 0 <= k < |o| => o[k] + 1)
  }

  predicate Increasing(o: seq<nat>) {
    forall k, l :: 0 <= k < l < |o| ==> o[k] < o[l]
  }

  /** The sources of a non-empty list of items: its head when it contributes, then the tail's, one further on. */
  lemma FormSourcesUnfold(items: seq<FormItem>, answerMap: Option<map<string, Value>>, shouldSetDefault: bool)
    requires items != []
    ensures var c := Contribution(items[0], answerMap, shouldSetDefault);
            && FormSources(items, answerMap, shouldSetDefault) ==
               (if c.Some? then [0] else []) + Shifted(FormSources(items[1..], answerMap, shouldSetDefault))
            && FormResults(items, answerMap, shouldSetDefault) ==
               (if c.Some? then [c.value] else []) + FormResults(items[1..], answerMap, shouldSetDefault)
  {
    if Contribution(items[0], answerMap, shouldSetDefault).None? {
      assert [] + Shifted(FormSources(items[1..], answerMap, shouldSetDefault))
             == Shifted(FormSources(items[1..], answerMap, shouldSetDefault));
      assert [] + FormResults(items[1..], answerMap, shouldSetDefault) == FormResults(items[1..], answerMap, shouldSetDefault);
    }
  }

  /** Each result is the contribution of the item at its source position. */
  lemma {:induction false} FormSourcesMatch(items: seq<FormItem>, answerMap: Option<map<string, Value>>, shouldSetDefault: bool)
    ensures var o, rs := FormSources(items, answerMap, shouldSetDefault), FormResults(items, answerMap, shouldSetDefault);
            && |o| == |rs|
            && forall k :: 0 <= k < |o| ==> o[k] < |items| && Contribution(items[o[k]], answerMap, shouldSetDefault) == Some(rs[k])
  {
    if items != [] {
      var tail := items[1..];
      FormSourcesMatch(tail, answerMap, shouldSetDefault);
      FormSourcesUnfold(items, answerMap, shouldSetDefault);
      MatchOneFurther(items, answerMap, shouldSetDefault,
                      FormSources(tail, answerMap, shouldSetDefault), FormResults(tail, answerMap, shouldSetDefault));
    }
  }

  /** The inductive step of `FormSourcesMatch`, over the tail's positions and results as plain sequences. */
  lemma MatchOneFurther(items: seq<FormItem>, answerMap: Option<map<string, Value>>, shouldSetDefault: bool,
                        o': seq<nat>, rs': seq<Result>)
    requires items != [] && |o'| == |rs'|
    requires forall k :: 0 <= k < |o'| ==>
               o'[k] < |items| - 1 && Contribution(items[1..][o'[k]], answerMap, shouldSetDefault) == Some(rs'[k])
    ensures var c := Contribution(items[0], answerMap, shouldSetDefault);
            var o, rs := (if c.Some? then [0] else []) + Shifted(o'), (if c.Some? then [c.value] else []) + rs';
            && |o| == |rs|
            && forall k :: 0 <= k < |o| ==> o[k] < |items| && Contribution(items[o[k]], answerMap, shouldSetDefault) == Some(rs[k])
  {
    var c := Contribution(items[0], answerMap, shouldSetDefault);
    var lead: seq<nat> := if c.Some? then [0] else [];
    var front: seq<Result> := if c.Some? then [c.value] else [];
    var o, rs := lead + Shifted(o'), front + rs';
    forall k | 0 <= k < |o|
      ensures o[k] < |items| && Contribution(items[o[k]], answerMap, shouldSetDefault) == Some(rs[k])
    {
      if k >= |lead| {
        assert o[k] == o'[k - |lead|] + 1 && rs[k] == rs'[k - |lead|];
        assert items[o[k]] == items[1..][o'[k - |lead|]];
      }
    }
  }

  /** The source positions increase. */
  lemma {:induction false} FormSourcesIncreasing(items: seq<FormItem>, answerMap: Option<map<string, Value>>, shouldSetDefault: bool)
    ensures Increasing(FormSources(items, answerMap, shouldSetDefault))
  {
    if items != [] {
      FormSourcesIncreasing(items[1..], answerMap, shouldSetDefault);
      FormSourcesUnfold(items, answerMap, shouldSetDefault);
      ShiftedIncreasing(FormSources(items[1..], answerMap, shouldSetDefault));
    }
  }

  /** Shifting increasing positions one further on keeps them increasing, with or without a leading 0. */
  lemma ShiftedIncreasing(o: seq<nat>)
    requires Increasing(o)
    ensures Increasing(Shifted(o)) && Increasing([0] + Shifted(o))
  {
    var shifted := Shifted(o);
    var all := [0] + shifted;
    forall k, l | 0 <= k < l < |all| ensures all[k] < all[l] {
      assert all[l] == shifted[l - 1];
      if k > 0 {
        assert all[k] == shifted[k - 1];
      }
    }
  }

  /** Every item that contributes a result is a source. */
  lemma {:induction false} FormSourcesComplete(items: seq<FormItem>, answerMap: Option<map<string, Value>>, shouldSetDefault: bool)
    ensures forall i :: 0 <= i < |items| && Contribution(items[i], answerMap, shouldSetDefault).Some? ==>
              i in FormSources(items, answerMap, shouldSetDefault)
  {
    if items != [] {
      var tail := items[1..];
      FormSourcesComplete(tail, answerMap, shouldSetDefault);
      FormSourcesUnfold(items, answerMap, shouldSetDefault);
      var o' := FormSources(tail, answerMap, shouldSetDefault);
      var lead: seq<nat> := if Contribution(items[0], answerMap, shouldSetDefault).Some? then [0] else [];
      var o := lead + Shifted(o');
      forall i | 0 <= i < |items| && Contribution(items[i], answerMap, shouldSetDefault).Some?
        ensures i in o
      {
        if i > 0 {
          assert tail[i - 1] == items[i];
          var k :| 0 <= k < |o'| && o'[k] == i - 1;
          assert o[|lead| + k] == i;
        }
      }
    }
  }

  /**
   A form step's results are a filter-map of its items: each result is the contribution of the
   item it comes from, those items are in increasing order, and every item that contributes a
   result is among them.
   */
  lemma FormResultsInOrder(items: seq<FormItem>, answerMap: Option<map<string, Value>>, shouldSetDefault: bool)
    ensures var o, rs := FormSources(items, answerMap, shouldSetDefault), FormResults(items, answerMap, shouldSetDefault);
            && |o| == |rs|
            && (forall k :: 0 <= k < |o| ==> o[k] < |items| && Contribution(items[o[k]], answerMap, shouldSetDefault) == Some(rs[k]))
            && (forall k, l :: 0 <= k < l < |o| ==> o[k] < o[l])
            && (forall i :: 0 <= i < |items| && Contribution(items[i], answerMap, shouldSetDefault).Some? ==> i in o)
  {
    FormSourcesMatch(items, answerMap, shouldSetDefault);
    FormSourcesIncreasing(items, answerMap, shouldSetDefault);
    FormSourcesComplete(items, answerMap, shouldSetDefault);
  }

  /** `stepResult(with:shouldSetDefault:)` for the three step classes. */
  function StepResultFor(step: StepDef, answerMap: Option<map<string, Value>>, shouldSetDefault: bool): (r: StepResult)
    ensures r.identifier == step.identifier
    ensures step.BaseStep? ==> r.results == []
    ensures step.FormStep? && step.formItems.None? ==> r.results == []
    ensures step.FormStep? && step.formItems.Some? ==>
              r.results == FormResults(step.formItems.value, answerMap, shouldSetDefault)
    ensures step.QuestionStep? ==>
              var answer := Lookup(answerMap, step.identifier);
              var mapped := QuestionResult(step.answerFormat, step.identifier, answer);
              && (r.results != [] <==> (answer.Some? || shouldSetDefault) && mapped.Some?)
              && (r.results != [] ==> r.results == [mapped.value])
  {
    match step
    case BaseStep(identifier) => StepResult(identifier, [])
    case FormStep(identifier, formItems) =>
      StepResult(identifier, if formItems.Some? then FormResults(formItems.value, answerMap, shouldSetDefault) else [])
    case QuestionStep(identifier, format) =>
      var answer := Lookup(answerMap, identifier);
      if answer.Some? || shouldSetDefault then
        match QuestionResult(format, identifier, answer)
        case Some(q) => StepResult(identifier, [q])
        case None => StepResult(identifier, [])
      else StepResult(identifier, [])
  }

  /** `defaultStepResult()`: the result without answers, with every question defaulted. */
  function DefaultStepResult(step: StepDef): (r: StepResult)
    ensures r.identifier == step.identifier
    ensures step.QuestionStep? ==> (|r.results| == 1 <==> HasDefault(step.answerFormat))
  {
    StepResultFor(step, None, true)
  }

  /** An `ORKStepResult` object: created with its step's identifier, its `results` assigned after. */
  class StepResultObject {
    const identifier: string
    var results: seq<Result>

    constructor (identifier: string)
      ensures this.identifier == identifier && results == []
    {
      this.identifier := identifier;
      results := [];
    }

    function Value(): StepResult
      reads this
    {
      StepResult(identifier, results)
    }
  }

  /**
   `stepResult(with:shouldSetDefault:)` as the step classes run it: the base step allocates the
   result, and form and question steps then assign its `results`.
   */
  method MakeStepResult(step: StepDef, answerMap: Option<map<string, Value>>, shouldSetDefault: bool)
    returns (r: StepResultObject)
    ensures fresh(r)
    ensures r.Value() == StepResultFor(step, answerMap, shouldSetDefault)
  {
    r := new StepResultObject(step.identifier);
    match step {
      case BaseStep(_) =>
      case FormStep(_, formItems) =>
        r.results := if formItems.Some? then FormResults(formItems.value, answerMap, shouldSetDefault) else [];
      case QuestionStep(identifier, format) =>
        var answer := Lookup(answerMap, identifier);
        if answer.Some? || shouldSetDefault {
          var mapped := QuestionResult(format, identifier, answer);
          if mapped.Some? {
            r.results := [mapped.value];
          }
        }
    }
  }

  function ResultIdentifiers(rs: seq<Result>): seq<string> {
    if rs == [] then [] else [rs[0].identifier] + ResultIdentifiers(rs[1..])
  }

  function ItemIdentifiers(items: seq<FormItem>): seq<string> {
    if items == [] then [] else [items[0].identifier] + ItemIdentifiers(items[1..])
  }

  /** `a` is `b` with some elements left out. */
  predicate IsSubsequence(a: seq<string>, b: seq<string>)
    decreases |b|
  {
    if a == [] then true
    else if b == [] then false
    else if a[0] == b[0] then IsSubsequence(a[1..], b[1..])
    else IsSubsequence(a, b[1..])
  }

  /** A form step's results follow its items: at most one each, in item order. */
  lemma {:induction false} FormResultsFollowItems(items: seq<FormItem>, answerMap: Option<map<string, Value>>, shouldSetDefault: bool)
    ensures IsSubsequence(ResultIdentifiers(FormResults(items, answerMap, shouldSetDefault)), ItemIdentifiers(items))
  {
    if items != [] {
      FormResultsFollowItems(items[1..], answerMap, shouldSetDefault);
      var rest := FormResults(items[1..], answerMap, shouldSetDefault);
      var rs := FormResults(items, answerMap, shouldSetDefault);
      if rs != rest {
        assert ResultIdentifiers(rs) == [items[0].identifier] + ResultIdentifiers(rest);
      } else {
        SubsequenceOfTail(ResultIdentifiers(rest), ItemIdentifiers(items[1..]), items[0].identifier);
      }
    }
  }

  lemma {:induction false} SubsequenceOfTail(a: seq<string>, b: seq<string>, x: string)
    requires IsSubsequence(a, b)
    ensures IsSubsequence(a, [x] + b)
    decreases |b|, 1
  {
    assert ([x] + b)[1..] == b;
    if a != [] && a[0] == x {
      SubsequenceDropHead(a, b);
    }
  }

  lemma {:induction false} SubsequenceDropHead(a: seq<string>, b: seq<string>)
    requires a != [] && IsSubsequence(a, b)
    ensures IsSubsequence(a[1..], b)
    decreases |b|, 0
  {
    assert [b[0]] + b[1..] == b;
    if a[0] != b[0] {
      SubsequenceDropHead(a, b[1..]);
    }
    SubsequenceOfTail(a[1..], b[1..], b[0]);
  }

  /** Without answers and without defaults a form step records nothing. */
  lemma {:induction false} NoAnswersNoResults(items: seq<FormItem>)
    ensures FormResults(items, None, false) == []
  {
    if items != [] {
      NoAnswersNoResults(items[1..]);
    }
  }

  /** With defaults, a form step whose formats all have a default records one result per item. */
  lemma {:induction false} DefaultOnePerItem(items: seq<FormItem>, answerMap: Option<map<string, Value>>)
    requires forall i :: 0 <= i < |items| ==> HasDefault(items[i].answerFormat)
    requires forall i :: 0 <= i < |items| ==> items[i].answerFormat.TextChoiceFormat? ==>
               Lookup(answerMap, items[i].identifier).None?
    ensures |FormResults(items, answerMap, true)| == |items|
    ensures ResultIdentifiers(FormResults(items, answerMap, true)) == ItemIdentifiers(items)
    ensures forall i :: 0 <= i < |items| ==>
              QuestionResult(items[i].answerFormat, items[i].identifier, Lookup(answerMap, items[i].identifier))
              == Some(FormResults(items, answerMap, true)[i])
  {
    if items != [] {
      DefaultOnePerItem(items[1..], answerMap);
      var answer := Lookup(answerMap, items[0].identifier);
      DefaultAnswerResult(items[0].answerFormat, items[0].identifier);
      var q := QuestionResult(items[0].answerFormat, items[0].identifier, answer);
      assert q.Some?;
      assert FormResults(items, answerMap, true) == [q.value] + FormResults(items[1..], answerMap, true);
      DefaultValuesOneFurther(items, answerMap, q.value, FormResults(items[1..], answerMap, true));
    }
  }

  /** The inductive step of the values in `DefaultOnePerItem`, over the tail's results as a plain sequence. */
  lemma DefaultValuesOneFurther(items: seq<FormItem>, answerMap: Option<map<string, Value>>, first: Result, rest: seq<Result>)
    requires items != [] && |rest| == |items| - 1
    requires QuestionResult(items[0].answerFormat, items[0].identifier, Lookup(answerMap, items[0].identifier)) == Some(first)
    requires forall i :: 0 <= i < |items| - 1 ==>
               QuestionResult(items[1..][i].answerFormat, items[1..][i].identifier, Lookup(answerMap, items[1..][i].identifier))
               == Some(rest[i])
    ensures forall i :: 0 <= i < |items| ==>
              QuestionResult(items[i].answerFormat, items[i].identifier, Lookup(answerMap, items[i].identifier))
              == Some(([first] + rest)[i])
  {
    forall i | 1 <= i < |items|
      ensures QuestionResult(items[i].answerFormat, items[i].identifier, Lookup(answerMap, items[i].identifier))
              == Some(([first] + rest)[i])
    {
      assert items[i] == items[1..][i - 1];
    }
  }
}
