/**
 Survey rules (`SBASurveyRule`): a rule item ("if the answer is X, skip to Y") is compiled into
 a predicate over the owning step's answer plus a skip target, and a rule group compiles its
 items into rule objects whose fields are set after allocation.
 */
module SurveyRule {
  import opened Wrappers
  import opened Values
  import opened SurveyItemType

  /** `SBASurveyRuleOperator` */
  datatype Operator = Skip | Equal | NotEqual | LessThan | GreaterThan | LessThanEqual | GreaterThanEqual | OtherThan

  function OperatorRaw(op: Operator): string {
    match op
    case Skip => "de"
    case Equal => "eq"
    case NotEqual => "ne"
    case LessThan => "lt"
    case GreaterThan => "gt"
    case LessThanEqual => "le"
    case GreaterThanEqual => "ge"
    case OtherThan => "ot"
  }

  /** `SBASurveyRuleOperator(rawValue:)` */
  function ParseOperator(s: string): Option<Operator> {
    if s == "de" then Some(Operator.Skip)
    else if s == "eq" then Some(Equal)
    else if s == "ne" then Some(NotEqual)
    else if s == "lt" then Some(LessThan)
    else if s == "gt" then Some(GreaterThan)
    else if s == "le" then Some(LessThanEqual)
    else if s == "ge" then Some(GreaterThanEqual)
    else if s == "ot" then Some(Operator.OtherThan)
    else None
  }

  lemma OperatorRoundTrip(op: Operator, s: string)
    ensures ParseOperator(OperatorRaw(op)) == Some(op)
    ensures ParseOperator(s).Some? ==> OperatorRaw(ParseOperator(s).value) == s
  {
    match op
    case Skip =>
    case Equal =>
    case NotEqual =>
    case LessThan =>
    case GreaterThan =>
    case LessThanEqual =>
    case GreaterThanEqual =>
    case OtherThan =>
  }

  // ---------------------------------------------------------------------------
  // Rule predicates, evaluated against the `answer` of the step's result
  // ---------------------------------------------------------------------------

  /**
   The predicates the compiler builds, each over the key path `answer`:
   Skip is "answer = NULL", Eq "answer = v", Ne "answer <> v", OtherThan "NOT (v IN answer)",
   and Lt, Le, Gt, Ge the ordering comparisons "answer < v" and so on.
   */
  datatype Predicate =
    | Skip
    | Eq(v: Value)
    | Ne(v: Value)
    | OtherThan(v: Value)
    | Lt(v: Value)
    | Le(v: Value)
    | Gt(v: Value)
    | Ge(v: Value)

  /** Ordering of answers; only numbers are ordered in this model. */
  predicate Below(a: Value, b: Value) {
    a.Num? && b.Num? && a.n < b.n
  }

  predicate AtMost(a: Value, b: Value) {
    a.Num? && b.Num? && a.n <= b.n
  }

  /** Evaluates a predicate against an answer; `None` is a missing (nil) answer. */
  predicate Eval(p: Predicate, answer: Option<Value>)
    ensures answer.None? ==> (Eval(p, answer) <==> p.Skip? || p.Ne? || p.OtherThan?)
  {
    match p
    case Skip => answer.None?
    case Eq(v) => answer == Some(v)
    case Ne(v) => answer != Some(v)
    case OtherThan(v) => !(answer.Some? && answer.value.List? && v in answer.value.items)
    case Lt(v) => answer.Some? && Below(answer.value, v)
    case Le(v) => answer.Some? && AtMost(answer.value, v)
    case Gt(v) => answer.Some? && Below(v, answer.value)
    case Ge(v) => answer.Some? && AtMost(v, answer.value)
  }

  /** `=` and `<>` are complements, and each strict ordering excludes the opposite non-strict one. */
  lemma ComparisonsComplement(v: Value, answer: Option<Value>)
    ensures Eval(Eq(v), answer) <==> !Eval(Ne(v), answer)
    ensures Eval(Lt(v), answer) ==> !Eval(Ge(v), answer)
    ensures Eval(Gt(v), answer) ==> !Eval(Le(v), answer)
  {
  }

  // ---------------------------------------------------------------------------
  // Compiling one rule item
  // ---------------------------------------------------------------------------

  /** `SBASurveyRuleItem` */
  datatype RuleItem = RuleItem(
    formSubtype: Option<FormSubtype>,
    resultIdentifier: Option<string>,
    skipIdentifier: Option<string>,
    expectedAnswer: Option<Value>,
    ruleOperator: Option<Operator>)

  /** The operator in force: the given one, else `equal` with an expected answer, else `skip`. */
  function EffectiveOperator(rule: RuleItem): (op: Operator)
    ensures rule.ruleOperator.Some? ==> op == rule.ruleOperator.value
    ensures rule.ruleOperator.None? && rule.expectedAnswer.None? ==> op == Operator.Skip
    ensures rule.ruleOperator.None? && rule.expectedAnswer.Some? ==> op == Equal
  {
    rule.ruleOperator.GetOr(if rule.expectedAnswer.None? then Operator.Skip else Equal)
  }

  /** Choice answers are recorded as lists, so choice subtypes compare against a list. */
  predicate IsChoice(subtype: FormSubtype) {
    subtype == SingleChoice || subtype == MultipleChoice
  }

  /**
   `rulePredicate(with:)`: nil when a comparison operator has no expected answer (the
   configuration error the source asserts on); otherwise the predicate for the operator.
   */
  function RulePredicate(rule: RuleItem, subtype: FormSubtype): (r: Option<Predicate>)
    ensures r.None? <==> rule.expectedAnswer.None? && rule.ruleOperator.Some? && rule.ruleOperator.value != Operator.Skip
  {
    var op := EffectiveOperator(rule);
    if rule.expectedAnswer.None? && op != Operator.Skip then None
    else
      var isArray := IsChoice(subtype);
      match op
      case Skip => Some(Predicate.Skip)
      case Equal =>
        var value := rule.expectedAnswer.value;
        Some(Eq(if isArray then List([value]) else value))
      case NotEqual =>
        var value := rule.expectedAnswer.value;
        Some(Ne(if isArray then List([value]) else value))
      case OtherThan =>
        var value := rule.expectedAnswer.value;
        if isArray then Some(Predicate.OtherThan(value)) else Some(Ne(value))
      case GreaterThan => Some(Gt(rule.expectedAnswer.value))
      case GreaterThanEqual => Some(Ge(rule.expectedAnswer.value))
      case LessThan => Some(Lt(rule.expectedAnswer.value))
      case LessThanEqual => Some(Le(rule.expectedAnswer.value))
  }

  /** A skip rule (explicit, or defaulted from a missing answer) holds exactly when there is no answer. */
  lemma SkipRuleMeansNoAnswer(rule: RuleItem, subtype: FormSubtype, answer: Option<Value>)
    requires EffectiveOperator(rule) == Operator.Skip
    ensures RulePredicate(rule, subtype).Some?
    ensures Eval(RulePredicate(rule, subtype).value, answer) <==> answer.None?
  {
  }

  /**
   Equality rules: for a choice subtype the answer must be the one-element list holding the
   expected value; for any other subtype it must be the value itself. `notEqual` is the negation.
   */
  lemma EqualityRuleMeaning(rule: RuleItem, subtype: FormSubtype, answer: Option<Value>)
    requires rule.expectedAnswer.Some?
    requires EffectiveOperator(rule) == Equal || EffectiveOperator(rule) == NotEqual
    ensures RulePredicate(rule, subtype).Some?
    ensures var expected := if IsChoice(subtype) then List([rule.expectedAnswer.value]) else rule.expectedAnswer.value;
            Eval(RulePredicate(rule, subtype).value, answer)
            <==> (EffectiveOperator(rule) == Equal <==> answer == Some(expected))
  {
  }

  /**
   `otherThan`: for a choice subtype it holds when the expected value is not among the selected
   choices (in particular when nothing was answered); otherwise when the answer differs from it.
   */
  lemma OtherThanRuleMeaning(rule: RuleItem, subtype: FormSubtype, answer: Option<Value>)
    requires rule.expectedAnswer.Some? && EffectiveOperator(rule) == Operator.OtherThan
    ensures RulePredicate(rule, subtype).Some?
    ensures IsChoice(subtype) ==>
              (Eval(RulePredicate(rule, subtype).value, answer)
               <==> !(answer.Some? && answer.value.List? && rule.expectedAnswer.value in answer.value.items))
    ensures !IsChoice(subtype) ==>
              (Eval(RulePredicate(rule, subtype).value, answer) <==> answer != Some(rule.expectedAnswer.value))
  {
  }

  /** Ordering rules compare the numeric answer against the bare expected value, whatever the subtype. */
  lemma OrderingRuleMeaning(rule: RuleItem, subtype: FormSubtype, a: int, b: int)
    requires rule.expectedAnswer == Some(Num(b))
    requires EffectiveOperator(rule) in {LessThan, LessThanEqual, GreaterThan, GreaterThanEqual}
    ensures RulePredicate(rule, subtype).Some?
    ensures var holds := Eval(RulePredicate(rule, subtype).value, Some(Num(a)));
            && (EffectiveOperator(rule) == LessThan ==> (holds <==> a < b))
            && (EffectiveOperator(rule) == LessThanEqual ==> (holds <==> a <= b))
            && (EffectiveOperator(rule) == GreaterThan ==> (holds <==> a > b))
            && (EffectiveOperator(rule) == GreaterThanEqual ==> (holds <==> a >= b))
  {
  }

  /** An `equal true` rule on a single-choice question: only the answer [true] satisfies it. */
  lemma EqualTrueOnSingleChoice()
    ensures var p := RulePredicate(RuleItem(None, None, None, Some(True), Some(Equal)), SingleChoice);
            && p.Some?
            && Eval(p.value, Some(List([True])))
            && !Eval(p.value, Some(List([False])))
            && !Eval(p.value, None)
  {
  }

  // ---------------------------------------------------------------------------
  // Compiling a rule group
  // ---------------------------------------------------------------------------

  /** ResearchKit's `ORKNullStepIdentifier`, the "no jump" skip target. */
  const NullStepIdentifier: string := "ORKNullStepIdentifier"

  /** The part of an `SBASurveyRuleGroup` (a form-step survey item) that the rules read. */
  datatype RuleGroup = RuleGroup(
    identifier: Option<string>,
    surveyItemType: ItemType,
    skipIdentifier: Option<string>,
    rules: Option<seq<RuleItem>>)

  /** What one rule compiles to: the fields of its `SBASurveyRuleObject`. */
  datatype CompiledRule = CompiledRule(resultIdentifier: string, skipIdentifier: string, rulePredicate: Predicate)

  /**
   One rule of a group, or nil when there is no subtype (from the rule or the group), no
   identifier (from the rule or the group) or no predicate; skip rules are no exception.
   */
  function CompileRule(rule: RuleItem, group: RuleGroup): (r: Option<CompiledRule>)
    ensures r.Some? <==>
              && (rule.formSubtype.Some? || FormSubtypeOf(group.surveyItemType).Some?)
              && (rule.resultIdentifier.Some? || group.identifier.Some?)
              && !(rule.expectedAnswer.None? && rule.ruleOperator.Some? && rule.ruleOperator.value != Operator.Skip)
    ensures r.Some? ==> r.value.resultIdentifier == rule.resultIdentifier.GetOr(group.identifier.GetOr(""))
    ensures r.Some? && rule.skipIdentifier.Some? ==> r.value.skipIdentifier == rule.skipIdentifier.value
    ensures r.Some? && rule.skipIdentifier.None? && group.skipIdentifier.Some? ==>
              r.value.skipIdentifier == group.skipIdentifier.value
    ensures r.Some? && rule.skipIdentifier.None? && group.skipIdentifier.None? ==>
              r.value.skipIdentifier == NullStepIdentifier
    ensures r.Some? && rule.formSubtype.Some? ==>
              RulePredicate(rule, rule.formSubtype.value) == Some(r.value.rulePredicate)
    ensures r.Some? && rule.formSubtype.None? ==>
              FormSubtypeOf(group.surveyItemType).Some? &&
              RulePredicate(rule, FormSubtypeOf(group.surveyItemType).value) == Some(r.value.rulePredicate)
  {
    var subtype := if rule.formSubtype.Some? then rule.formSubtype else FormSubtypeOf(group.surveyItemType);
    var identifier := if rule.resultIdentifier.Some? then rule.resultIdentifier else group.identifier;
    if subtype.None? || identifier.None? then None
    else
      match RulePredicate(rule, subtype.value)
      case None => None
      case Some(p) =>
        var skip := rule.skipIdentifier.GetOr(group.skipIdentifier.GetOr(NullStepIdentifier));
        Some(CompiledRule(identifier.value, skip, p))
  }

  /**
   What a compiled equality rule tests: the answer against the expected value, wrapped as a
   one-element list when the subtype in force (the rule's own, else the group's) is a choice.
   */
  lemma CompiledEqualityRule(rule: RuleItem, group: RuleGroup, answer: Option<Value>)
    requires CompileRule(rule, group).Some?
    requires rule.expectedAnswer.Some?
    requires EffectiveOperator(rule) == Equal || EffectiveOperator(rule) == NotEqual
    ensures var subtype := if rule.formSubtype.Some? then rule.formSubtype.value
                           else FormSubtypeOf(group.surveyItemType).value;
            var expected := if IsChoice(subtype) then List([rule.expectedAnswer.value]) else rule.expectedAnswer.value;
            Eval(CompileRule(rule, group).value.rulePredicate, answer)
            <==> (EffectiveOperator(rule) == Equal <==> answer == Some(expected))
  {
    var subtype := if rule.formSubtype.Some? then rule.formSubtype.value
                   else FormSubtypeOf(group.surveyItemType).value;
    EqualityRuleMeaning(rule, subtype, answer);
  }

  /**
   The rule's own subtype comes before the group's: an `equal true` rule marked single choice
   compiles to a list comparison inside a text-field group, and to a bare comparison without
   the mark.
   */
  lemma RuleSubtypeTakesPrecedence()
    ensures var group := RuleGroup(Some("q"), Form(FormSubtype.Text), None, None);
            && CompileRule(RuleItem(Some(SingleChoice), None, None, Some(True), Some(Equal)), group)
               == Some(CompiledRule("q", NullStepIdentifier, Eq(List([True]))))
            && CompileRule(RuleItem(None, None, None, Some(True), Some(Equal)), group)
               == Some(CompiledRule("q", NullStepIdentifier, Eq(True)))
  {
  }

  /** The `mapAndFilter` over the rules, as a left fold: the survivors of `rules`, in order. */
  function CompileRules(rules: seq<RuleItem>, group: RuleGroup): (r: seq<CompiledRule>)
    ensures |r| <= |rules|
    ensures forall c :: c in r ==> exists i :: 0 <= i < |rules| && CompileRule(rules[i], group) == Some(c)
  {
    if rules == [] then []
    else
      var init := CompileRules(rules[..|rules| - 1], group);
      match CompileRule(rules[|rules| - 1], group)
      case None => init
      case Some(c) => init + [c]
  }

  /** Compiling is done rule by rule: compiling a concatenation concatenates the results. */
  lemma {:induction false} CompileRulesAppend(a: seq<RuleItem>, b: seq<RuleItem>, group: RuleGroup)
    ensures CompileRules(a + b, group) == CompileRules(a, group) + CompileRules(b, group)
    decreases |b|
  {
    if b == [] {
      assert a + b == a;
    } else {
      var b' := b[..|b| - 1];
      assert (a + b)[..|a + b| - 1] == a + b';
      CompileRulesAppend(a, b', group);
    }
  }

  /** Hence every survivor keeps its place: a single rule contributes its compiled form or nothing. */
  lemma {:induction false} CompileRulesSurvivors(rules: seq<RuleItem>, group: RuleGroup)
    ensures |CompileRules(rules, group)| <= |rules|
    ensures CompileRules(rules, group) == [] <==> forall i :: 0 <= i < |rules| ==> CompileRule(rules[i], group).None?
  {
    if rules != [] {
      var init := rules[..|rules| - 1];
      CompileRulesSurvivors(init, group);
      assert forall i :: 0 <= i < |init| ==> init[i] == rules[i];
    }
  }

  /** `SBASurveyRuleObject`: an identifier plus mutable skip identifier and predicate (nil when allocated). */
  class SurveyRuleObject {
    const identifier: string
    var skipIdentifier: Option<string>
    var rulePredicate: Option<Predicate>

    constructor (identifier: string)
      ensures this.identifier == identifier
      ensures skipIdentifier.None? && rulePredicate.None?
    {
      this.identifier := identifier;
      skipIdentifier := None;
      rulePredicate := None;
    }

    /** `resultIdentifier`: the rule tests the result carrying the object's own identifier. */
    function ResultIdentifier(): (r: string)
      ensures r == identifier
    {
      identifier
    }

    /** The object holds exactly the compiled rule `c`. */
    predicate Holds(c: CompiledRule)
      reads this
    {
      ResultIdentifier() == c.resultIdentifier && skipIdentifier == Some(c.skipIdentifier) && rulePredicate == Some(c.rulePredicate)
    }
  }

  /**
   `createSurveyRuleObjects()`: one fresh rule object per surviving rule, in input order, or nil
   when the group has no rules or none survives (never an empty list).
   */
  method CreateSurveyRuleObjects(group: RuleGroup) returns (r: Option<seq<SurveyRuleObject>>)
    ensures r.None? <==> group.rules.None? || CompileRules(group.rules.value, group) == []
    ensures r.Some? ==> |r.value| == |CompileRules(group.rules.value, group)|
    ensures r.Some? ==> forall i :: 0 <= i < |r.value| ==>
                          fresh(r.value[i]) && r.value[i].Holds(CompileRules(group.rules.value, group)[i])
    ensures r.Some? ==> forall i, j :: 0 <= i < j < |r.value| ==> r.value[i] != r.value[j]
  {
    if group.rules.None? {
      return None;
    }
    var rules := group.rules.value;
    var objects: seq<SurveyRuleObject> := [];
    for k := 0 to |rules|
      invariant |objects| == |CompileRules(rules[..k], group)|
      invariant forall i :: 0 <= i < |objects| ==>
                  fresh(objects[i]) && objects[i].Holds(CompileRules(rules[..k], group)[i])
      invariant forall i, j :: 0 <= i < j < |objects| ==> objects[i] != objects[j]
    {
      assert rules[..k + 1][..k] == rules[..k];
      match CompileRule(rules[k], group)
      case None =>
      case Some(c) =>
        var ruleObject := new SurveyRuleObject(c.resultIdentifier);
        ruleObject.skipIdentifier := Some(c.skipIdentifier);
        ruleObject.rulePredicate := Some(c.rulePredicate);
        objects := objects + [ruleObject];
    }
    assert rules[..|rules|] == rules;
    if |objects| == 0 {
      return None;
    }
    return Some(objects);
  }
}
