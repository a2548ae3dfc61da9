/**
 How compiled survey rules read the answers that the result mapping records: choice answers are
 recorded as lists, which is why rules on choice subtypes compare against one-element lists.
 */
module RuleAnswers {
  import opened Wrappers
  import opened Values
  import opened SurveyItemType
  import opened StepResults
  import opened SurveyRule

  /**
   An `equal v` rule on a choice question holds on the recorded answer for a scalar choice `w`
   exactly when `w` is `v`.
   */
  lemma ChoiceRuleOnMappedAnswer(choices: seq<Value>, v: Value, w: Value, subtype: FormSubtype, identifier: string)
    requires Distinct(choices) && v in choices && w in choices && !w.List?
    requires IsChoice(subtype)
    ensures var rule := RuleItem(Some(subtype), None, None, Some(v), None);
            var mapped := TextChoiceResult(choices, identifier, Some(w));
            && RulePredicate(rule, subtype).Some?
            && mapped.Some?
            && (Eval(RulePredicate(rule, subtype).value, Answer(mapped.value)) <==> v == w)
  {
    ValidAnswerMeaning(choices, [w]);
  }

  /**
   Without the list wrapping (a non-choice subtype) the same rule never holds on a recorded
   choice answer, whatever was selected.
   */
  lemma UnwrappedRuleMissesChoiceAnswer(choices: seq<Value>, v: Value, w: Value, subtype: FormSubtype, identifier: string)
    requires !v.List? && !IsChoice(subtype)
    requires TextChoiceResult(choices, identifier, Some(w)).Some?
    ensures var rule := RuleItem(Some(subtype), None, None, Some(v), None);
            !Eval(RulePredicate(rule, subtype).value, Answer(TextChoiceResult(choices, identifier, Some(w)).value))
  {
  }

  /**
   A skip rule ("no answer") holds on a defaulted result exactly for the formats whose default
   records no answer: text, e-mail and mood scale; a defaulted choice or boolean result counts
   as answered.
   */
  lemma SkipRuleOnDefaultResult(format: AnswerFormat, identifier: string)
    requires HasDefault(format)
    ensures QuestionResult(format, identifier, None).Some?
    ensures Eval(Predicate.Skip, Answer(QuestionResult(format, identifier, None).value))
            <==> format.TextFormat? || format.EmailFormat? || format.MoodScaleFormat?
  {
    DefaultAnswerResult(format, identifier);
  }
}
