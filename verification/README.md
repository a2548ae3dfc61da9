# ResearchUXFactory survey assembly and navigation, in Dafny

This project models the survey-building core of ResearchUXFactory, a Swift library on top of
ResearchKit. The core has five parts:

- **Step-type classifier** (`SBASurveyItemType`). It maps an optional step-type token to one of
  instruction, form, dataGroups, consent, account, passcode, subtask or custom. The first match
  wins and `custom` is the fallback. It also provides the subtype accessors and the hand-written
  `==`.
- **Survey rule compiler** (`SBASurveyRule`). It turns a rule item into a predicate:
  - it defaults the operator;
  - it rejects a comparison without an expected answer;
  - it wraps the expected value in a one-element list for choice questions;
  - it resolves the skip target: rule, then group, then `ORKNullStepIdentifier`.

  `createSurveyRuleObjects` allocates one `SBASurveyRuleObject` per surviving rule, and these
  objects have mutable fields.
- **Tracked-data collection** (`SBATrackedDataObjectCollection`). It decides which part of a
  recurring tracking survey to include (`buildIncludes`). It then assembles those steps in one
  pass (`filteredSteps`). That pass notes the first activity step, seeds the survey task with stored
  selection results, and points the leading "changed?" rule at the activity steps. Finally it
  keeps its `SBATrackedDataStore` up to date during navigation (`nextStep`, `updateSelection`,
  `shouldSkip`).
- **Answer-to-result mapping** (`ORKStep+ResultsExtension`). It builds default and answer-map
  step results for plain, form and question steps. It covers the text-choice, boolean, text,
  e-mail and mood-scale answer formats, including `isValidAnswer`.
- **Array helpers** (`Array+Utilities`). These are the value-semantics appends and
  `sba_nextMatch`.

Dafny files and modules:

- `wrappers.dfy`: `Wrappers`.
- `values.dfy`: `Values`, which holds answer values: numbers, strings and lists.
- `survey_item_type.dfy`: `SurveyItemType`.
- `survey_rule.dfy`: `SurveyRule`.
- `step_results.dfy`: `StepResults`.
- `tracked_collection.dfy`: `TrackedCollection`.
- `array_utilities.dfy`: `ArrayUtilities`.
- `rule_answers.dfy`: `RuleAnswers`, which relates compiled rules to the answers the mapping
  records.

Code that builds values is modelled as datatypes and functions. Objects whose fields are updated
in place are classes:

- the rule object;
- the step result;
- the data store;
- the collection.

`filteredSteps` is a method with a loop whose invariants tie it to a filter-map specification.
The step factory, the store's own update routines and the `SBATrackingStepIncludes` helpers are
defined in files that are not part of this model. They are therefore passed in as functions.
Time is a whole number of seconds, and `now` is a parameter.

Behaviours of the code a reader might not expect:

- **Ordering rules on choice subtypes.** They are not rejected. They compare the answer with the
  bare expected value. In this model an ordering comparison holds only between numbers, so such
  a rule never holds on a list answer.
- **Skip rules.** They are dropped when there is no subtype, and when there is no identifier
  either.
- **`==` on `dataGroups`.** It is false even for equal payloads.
- **Time comparisons.** Elapsed time must be strictly greater than the interval.
- **Moment-in-day questions.** A missing `lastCompletionDate` also makes them due.
- **The post-pass.** It rewrites the first rule's skip target whatever that target was, without
  checking for the null-step sentinel.

## Model

| member | source | states |
|---|---|---|
| SurveyItemType.PasscodeTypeFromKey | ResearchUXFactory/SBASurveyItemType.swift:204-215 | "passcodeType6Digit" gives the 6-digit type, "passcodeType4Digit" the 4-digit type, any other key nil |
| SurveyItemType.PasscodeRoundTrip | ResearchUXFactory/SBASurveyItemType.swift:94-98 | each passcode type's key maps back to it, and a key that maps is that type's key |
| SurveyItemType.InstructionRoundTrip | ResearchUXFactory/SBASurveyItemType.swift:48-52 | parsing an instruction subtype's raw value gives it back, and a raw value that parses is that subtype's |
| SurveyItemType.FormRoundTrip | ResearchUXFactory/SBASurveyItemType.swift:54-72 | the same round trip for the 16 form subtypes |
| SurveyItemType.ConsentRoundTrip | ResearchUXFactory/SBASurveyItemType.swift:74-79 | the same round trip for the consent subtypes |
| SurveyItemType.AccountRoundTrip | ResearchUXFactory/SBASurveyItemType.swift:84-92 | the same round trip for the account subtypes |
| SurveyItemType.Classify | ResearchUXFactory/SBASurveyItemType.swift:100-134 | custom(nil) exactly for a missing token; a custom type carries its token; subtask only for "subtask"; dataGroups only for a "dataGroups"-prefixed token |
| SurveyItemType.ClassifyToken | ResearchUXFactory/SBASurveyItemType.swift:100-134 | classifying the canonical token of any step type gives that type back (a custom token only when no key claims it) |
| SurveyItemType.TokenOfClassify | ResearchUXFactory/SBASurveyItemType.swift:100-134 | every token not classified as dataGroups is the canonical token of its classification, so the classifier loses nothing |
| SurveyItemType.NilTokenIsNilType | ResearchUXFactory/SBASurveyItemType.swift:159-164 | a step type is the nil type exactly when it was classified from a missing token (the missing-token branch of the initializer is line 100) |
| SurveyItemType.CustomFallback | ResearchUXFactory/SBASurveyItemType.swift:103-133 | a token falls through to custom exactly when it is no key, not "subtask" and has no "dataGroups" prefix, and then custom carries the token itself |
| SurveyItemType.DataGroupsPrefix | ResearchUXFactory/SBASurveyItemType.swift:109-117 | a "dataGroups"-prefixed token gives dataGroups, with the form subtype named after "dataGroups." or multiple choice otherwise |
| SurveyItemType.ExampleTokens | ResearchUXFactoryTests/ActiveTaskTests.swift:449 | "singleChoiceText" is a single-choice form, "instruction" an instruction step, an unknown token a custom step (the test manifest uses "instruction" at line 349) |
| SurveyItemType.FormSubtypeOf | ResearchUXFactory/SBASurveyItemType.swift:136-143 | a form subtype exactly for form and dataGroups steps, namely their payload |
| SurveyItemType.ConsentSubtypeOf | ResearchUXFactory/SBASurveyItemType.swift:145-150 | a consent subtype exactly for consent steps |
| SurveyItemType.AccountSubtypeOf | ResearchUXFactory/SBASurveyItemType.swift:152-157 | an account subtype exactly for account steps |
| SurveyItemType.IsNilType | ResearchUXFactory/SBASurveyItemType.swift:159-164 | true exactly for a custom step without a token |
| SurveyItemType.UsesPlaceholderText | ResearchUXFactory/SBASurveyItemType.swift:166-168 | true exactly for text and multi-line text form steps |
| SurveyItemType.CustomTypeIdentifier | ResearchUXFactory/SBASurveyItemType.swift:196-201 | the token of a custom step, nil for every other step type |
| SurveyItemType.Equals | ResearchUXFactory/SBASurveyItemType.swift:174-192 | `==` holds only between identical step types, and never on dataGroups |
| SurveyItemType.EqualsIsStructuralExceptDataGroups | ResearchUXFactory/SBASurveyItemType.swift:174-192 | `==` holds exactly when both sides are the same step type and that type is not dataGroups |
| SurveyItemType.DataGroupsNeverEqual | ResearchUXFactory/SBASurveyItemType.swift:174-192 | a dataGroups step type is not even equal to itself |
| SurveyRule.OperatorRoundTrip | ResearchUXFactory/SBASurveyRule.swift:62-71 | each operator's two-letter code parses back to it, and a code that parses is that operator's |
| SurveyRule.EffectiveOperator | ResearchUXFactory/SBASurveyRule.swift:112 | the given operator, else equal when an answer is expected, else skip |
| SurveyRule.RulePredicate | ResearchUXFactory/SBASurveyRule.swift:108-149 | nil exactly when an explicit non-skip operator has no expected answer |
| SurveyRule.Eval | ResearchUXFactory/SBASurveyRule.swift:124-147 | on a missing answer exactly "answer = NULL", "answer <> v" and "NOT (v IN answer)" hold |
| SurveyRule.ComparisonsComplement | ResearchUXFactory/SBASurveyRule.swift:126-147 | "=" and "<>" are complements; "<" excludes ">=" and ">" excludes "<=" |
| SurveyRule.SkipRuleMeansNoAnswer | ResearchUXFactory/SBASurveyRule.swift:124-125 | a skip rule holds exactly when there is no answer |
| SurveyRule.EqualityRuleMeaning | ResearchUXFactory/SBASurveyRule.swift:121-131 | equal (notEqual) holds exactly when the answer is (is not) the expected value, wrapped as a one-element list for choice subtypes |
| SurveyRule.OtherThanRuleMeaning | ResearchUXFactory/SBASurveyRule.swift:132-139 | otherThan holds when the value is not among the selected choices (choice subtypes) or differs from the answer (other subtypes) |
| SurveyRule.OrderingRuleMeaning | ResearchUXFactory/SBASurveyRule.swift:140-147 | the ordering operators compare a numeric answer with the bare expected number, whatever the subtype |
| SurveyRule.EqualTrueOnSingleChoice | ResearchUXFactory/SBASurveyRule.swift:121-128 | an "equal true" single-choice rule accepts [true] and rejects [false] and no answer |
| SurveyRule.CompileRule | ResearchUXFactory/SBASurveyRule.swift:189-206 | a rule survives exactly when it has a subtype, an identifier and a predicate; its predicate is the rule predicate for the rule's own subtype when it has one and for the group's otherwise; its result identifier and skip target follow the rule-then-group-then-null-step fallback |
| SurveyRule.CompiledEqualityRule | ResearchUXFactory/SBASurveyRule.swift:192-203 | a compiled equal (notEqual) rule holds exactly when the answer is (is not) the expected value, wrapped as a one-element list when the subtype in force is a choice |
| SurveyRule.RuleSubtypeTakesPrecedence | ResearchUXFactory/SBASurveyRule.swift:194 | the rule's own subtype wins over the group's: an equal-true rule marked single choice in a text-field group compiles to a list comparison, unmarked to a bare one |
| SurveyRule.CompileRules | ResearchUXFactory/SBASurveyRule.swift:191-210 | no more survivors than rules, and every survivor is the compiled form of one of the rules |
| SurveyRule.CompileRulesAppend | ResearchUXFactory/SBASurveyRule.swift:191-207 | compiling is rule by rule: a concatenation of rules compiles to the concatenation of their survivors |
| SurveyRule.CompileRulesSurvivors | ResearchUXFactory/SBASurveyRule.swift:191-210 | no more survivors than rules, and none exactly when every rule is dropped |
| SurveyRule.SurveyRuleObject.constructor | ResearchUXFactory/SBASurveyRule.swift:220-227 | a rule object starts with its identifier and no skip target or predicate |
| SurveyRule.SurveyRuleObject.ResultIdentifier | ResearchUXFactory/SBASurveyRule.swift:222-224 | the rule tests the result named by the object's own identifier |
| SurveyRule.CreateSurveyRuleObjects | ResearchUXFactory/SBASurveyRule.swift:186-214 | nil exactly when the rules are nil or none survives; otherwise one fresh object per survivor, in order, pairwise distinct, holding its compiled identifier, skip target and predicate |
| StepResults.ChoiceAnswers | ResearchUXFactory/ORKStep+ResultsExtension.swift:115-119 | a list answer is kept, any other answer becomes a one-element list, no answer stays absent |
| StepResults.IsValidAnswer | ResearchUXFactory/ORKStep+ResultsExtension.swift:138-147 | a valid answer is a list no longer than the choices, and the empty list is valid |
| StepResults.TextChoiceResult | ResearchUXFactory/ORKStep+ResultsExtension.swift:110-136 | nil without choices or for an invalid answer; otherwise a choice result with the listed answer, or the last choice when there is no answer |
| StepResults.ValidAnswerMeaning | ResearchUXFactory/ORKStep+ResultsExtension.swift:138-147 | with distinct choices, a valid answer selects only offered choices, and a repetition-free selection of offered choices is valid |
| StepResults.DuplicateChoicesAdmitForeignAnswer | ResearchUXFactory/ORKStep+ResultsExtension.swift:138-147 | with a choice offered twice, an answer containing a value that is no choice still counts as valid |
| StepResults.BooleanQuestionResult | ResearchUXFactory/ORKStep+ResultsExtension.swift:168-179 | a boolean result reporting a numeric answer as given and false for anything else |
| StepResults.TextQuestionResult | ResearchUXFactory/ORKStep+ResultsExtension.swift:215-237 | a text result that reports an answer exactly when the answer was a string, namely that string |
| StepResults.MoodScaleQuestionResult | ResearchUXFactory/ORKStep+ResultsExtension.swift:271-287 | a number gives a mood-scale result, a list a choice result with that list, another value a one-choice result, no answer an empty mood-scale result |
| StepResults.QuestionResult | ResearchUXFactory/ORKStep+ResultsExtension.swift:96-105 | a mapped result carries the question's identifier; an unsupported format maps to nothing |
| StepResults.DefaultAnswerResult | ResearchUXFactory/ORKStep+ResultsExtension.swift:110-136 | every modelled format yields a default result, except a text choice without choices (the other formats' mappings are at lines 170-177, 217-222 and 271-287) |
| StepResults.StepResultFor | ResearchUXFactory/ORKStep+ResultsExtension.swift:53-81 | the step's identifier; no results for a plain step or a form step without items; a form step with items records its items' contributions (see FormResultsInOrder); a question step has the one mapped result exactly when it was answered or defaulted and the mapping gives one |
| StepResults.DefaultStepResult | ResearchUXFactory/ORKStep+ResultsExtension.swift:43-45 | the default result carries the step's identifier, and a question step has one result exactly when its format has a default |
| StepResults.StepResultObject.constructor | ResearchUXFactory/ORKStep+ResultsExtension.swift:53-55 | a step result starts with the step's identifier and no results |
| StepResults.MakeStepResult | ResearchUXFactory/ORKStep+ResultsExtension.swift:53-81 | a fresh step result object whose identifier and results are those of the step-result specification |
| StepResults.Contribution | ResearchUXFactory/ORKStep+ResultsExtension.swift:61-64 | an item contributes nothing when unanswered without defaults, and otherwise its format's mapped result of its answer |
| StepResults.FormResults | ResearchUXFactory/ORKStep+ResultsExtension.swift:59-66 | no more results than items, and every result is some item's contribution |
| StepResults.FormResultsInOrder | ResearchUXFactory/ORKStep+ResultsExtension.swift:59-66 | the results are a filter-map of the items: each is the contribution of its item, those items are in increasing order, and every item that contributes a result is represented |
| StepResults.FormResultsFollowItems | ResearchUXFactory/ORKStep+ResultsExtension.swift:59-66 | a form step's results follow its items: their identifiers are a subsequence of the item identifiers |
| StepResults.NoAnswersNoResults | ResearchUXFactory/ORKStep+ResultsExtension.swift:62-63 | without answers and defaults a form step records nothing |
| StepResults.DefaultOnePerItem | ResearchUXFactory/ORKStep+ResultsExtension.swift:59-66 | with defaults and defaultable formats a form step records exactly one result per item, in item order, each being that item's mapped result of its answer (or of no answer) |
| RuleAnswers.ChoiceRuleOnMappedAnswer | ResearchUXFactory/SBASurveyRule.swift:119-128 | an equal rule on a choice question holds on the recorded answer for a choice exactly when that choice is the expected value |
| RuleAnswers.UnwrappedRuleMissesChoiceAnswer | ResearchUXFactory/SBASurveyRule.swift:121-128 | without the list wrapping (a non-choice subtype) an equal rule never holds on a recorded choice answer |
| RuleAnswers.SkipRuleOnDefaultResult | ResearchUXFactory/SBASurveyRule.swift:124-125 | a skip rule ("answer = NULL") holds on a defaulted result exactly for text, e-mail and mood-scale formats (their defaults at lines 217-222 and 287 of ORKStep+ResultsExtension.swift record no answer) |
| ArrayUtilities.Appending | ResearchUXFactory/Array+Utilities.swift:61-65 | one element longer, the receiver as prefix, the new element last |
| ArrayUtilities.AppendingContents | ResearchUXFactory/Array+Utilities.swift:74-78 | the receiver followed by the contents, lengths adding up |
| ArrayUtilities.AppendingNothing | ResearchUXFactory/Array+Utilities.swift:74-78 | appending no contents gives the receiver |
| ArrayUtilities.AppendingSingleton | ResearchUXFactory/Array+Utilities.swift:61-78 | appending a one-element array is appending its element |
| ArrayUtilities.AppendingOneByOne | ResearchUXFactory/Array+Utilities.swift:61-78 | appending contents at once equals appending their elements one at a time |
| ArrayUtilities.NextMatch | ResearchUXFactory/Array+Utilities.swift:45-48 | with nothing to match, the first element, nil exactly for an empty array; otherwise the array's search for an equal element |
| TrackedCollection.FirstTracking | ResearchUXFactory/SBATrackedDataObjectCollection.swift:314 | a tracked item is found exactly when some item is tracked |
| TrackedCollection.FindTracked | ResearchUXFactory/SBATrackedDataObjectCollection.swift:279-285 | the first survey item tagged with the tracking type, nil exactly when there is none |
| TrackedCollection.Emit | ResearchUXFactory/SBATrackedDataObjectCollection.swift:233-262 | non-survey elements emit nothing; a tracked item emits the factory's tracked step exactly when its type is included; an untracked item emits the factory's step exactly when the survey is included |
| TrackedCollection.EmittedInOrder | ResearchUXFactory/SBATrackedDataObjectCollection.swift:233-262 | the steps are a filter-map of the elements: each comes from its element, in increasing element order, and every emitting element is represented |
| TrackedCollection.FirstActivity | ResearchUXFactory/SBATrackedDataObjectCollection.swift:248-250 | the identifier of the first emitted activity step, nil exactly when no activity step is emitted |
| TrackedCollection.FirstActivityAppend | ResearchUXFactory/SBATrackedDataObjectCollection.swift:248-250 | one more element sets the first activity only while there is none |
| TrackedCollection.FirstActivityStable | ResearchUXFactory/SBATrackedDataObjectCollection.swift:248-250 | later activity steps never overwrite the first activity |
| TrackedCollection.Seeded | ResearchUXFactory/SBATrackedDataObjectCollection.swift:252-255 | an element seeds a result only as an emitted selection step, and an emitted selection step seeds exactly its stored result |
| TrackedCollection.SeededFromSelections | ResearchUXFactory/SBATrackedDataObjectCollection.swift:252-255 | every seeded result is the stored result of an emitted selection step, and there are no more of them than steps |
| TrackedCollection.LinkTarget | ResearchUXFactory/SBATrackedDataObjectCollection.swift:269-274 | the rewritten rule is the first rule of the first step exactly when that step is a navigation form step with a survey rule object first, there is a first activity, and the includes continue to the activity steps; nothing otherwise |
| TrackedCollection.TrackedDataStore.UpdateTrackedData | ResearchUXFactory/SBATrackedDataObjectCollection.swift:196 | the store state becomes the store's own update of the step result |
| TrackedCollection.TrackedDataStore.UpdateMomentInDay | ResearchUXFactory/SBATrackedDataObjectCollection.swift:202 | the store state becomes the store's own moment-in-day update of the step result |
| TrackedCollection.TrackedDataObjectCollection.constructor | ResearchUXFactory/SBATrackedDataObjectCollection.swift:45-65 | the schema identifier defaults to the collection's task identifier, activity steps are not forced, and the intervals are 30 days and 20 minutes |
| TrackedCollection.TrackedDataObjectCollection.FindStep | ResearchUXFactory/SBATrackedDataObjectCollection.swift:279-285 | a survey item of the collection tagged with the tracking type, nil exactly when none is |
| TrackedCollection.TrackedDataObjectCollection.ShouldIncludeChangedStep | ResearchUXFactory/SBATrackedDataObjectCollection.swift:287-295 | due only with a changed step, a last tracking-survey date and a positive interval; given the step and the date, due exactly when the interval is positive and more than the interval has elapsed |
| TrackedCollection.TrackedDataObjectCollection.HasTrackedItems | ResearchUXFactory/SBATrackedDataObjectCollection.swift:310-315 | true exactly when there are selected items and one of them is tracked |
| TrackedCollection.TrackedDataObjectCollection.ShouldIncludeMomentInDayQuestions | ResearchUXFactory/SBATrackedDataObjectCollection.swift:297-308 | never without tracked items; always with tracked items when forced or when there are no moment-in-day results or no completion date; otherwise due exactly when the interval is positive and more than the interval has elapsed since the last completion |
| TrackedCollection.TrackedDataObjectCollection.DueStaysDue | ResearchUXFactory/SBATrackedDataObjectCollection.swift:287-308 | the changed step and the moment-in-day questions, once due, stay due as time passes |
| TrackedCollection.TrackedDataObjectCollection.BuildIncludes | ResearchUXFactory/SBATrackedDataObjectCollection.swift:137-159 | stand-alone exactly for the last step; survey and activity exactly when nothing was selected; the changed cases only when the changed step is due, split on tracked items; activity only with tracked items; nothing exactly when no part is due |
| TrackedCollection.TrackedDataObjectCollection.FilteredSteps | ResearchUXFactory/SBATrackedDataObjectCollection.swift:227-277 | the steps and seeded results of the filter-map specification, and the post-pass target now skips to the first activity step; nothing else changes |
| TrackedCollection.TrackedDataObjectCollection.TransformToTaskAndIncludes | ResearchUXFactory/SBATrackedDataObjectCollection.swift:114-135 | the includes decided beforehand, a task of the included steps seeded only with a non-empty result list, and the moment-in-day steps recorded only when there were none |
| TrackedCollection.TrackedDataObjectCollection.TransformToStep | ResearchUXFactory/SBATrackedDataObjectCollection.swift:161-173 | a subtask step for the survey task, carrying its task and schema identifiers exactly when the survey is included |
| TrackedCollection.TrackedDataObjectCollection.ShouldSkip | ResearchUXFactory/SBATrackedDataObjectCollection.swift:177-186 | only a tracked navigation step is skipped, decided from the selected items (none when nothing was selected) |
| TrackedCollection.TrackedDataObjectCollection.NextStep | ResearchUXFactory/SBATrackedDataObjectCollection.swift:188-206 | the proposed next step unchanged; the store takes the selection update, else the moment-in-day update, else stays |
| TrackedCollection.TrackedDataObjectCollection.UpdateSelection | ResearchUXFactory/SBATrackedDataObjectCollection.swift:208-218 | the store takes the selection step's result when the survey task result has one and is unchanged otherwise |

## Left out

- Files outside the core:
  - `SBAResourceFinder` does bundle and file I/O.
  - `SBAHealthKitWrapper.h` holds constants only.
  - `SBASurveyItemType` uses `parseSuffix(prefix:)`, which is not part of this model; it is taken
    to return the rest of the string after the prefix.
- NSPredicate and key-value coding are replaced by a closed predicate datatype and `Eval`.
  Ordering is defined on numbers only: an ordering comparison with a non-number evaluates to
  false.
- HealthKit, numeric, scale, date and time-of-day answer formats are left out. They involve
  floating point, units, ISO-8601 parsing and `ORKScaleAnswerFormat.defaultValue`.
- `questionType` is left out. Assigning it to a form item's result is ResearchKit metadata the
  rules never read.
- The `assertionFailure` calls on unsupported formats or invalid answers are left out; only
  their nil return is modelled.
- `sba_nextMatch` with a target delegates to `sba_next`, which is not part of this model.
  ArrayUtilities.NextMatch therefore takes that search as a parameter. The claim that it returns
  an equal element is not proved.
- Collaborators defined elsewhere are parameters. They are:
  - `SBABaseSurveyFactory.createSurveyStep`;
  - the store's `updateTrackedData(for:)`, `updateMomentInDay(for:)` and `stepResult(for:)`;
  - the `SBATrackingStepIncludes` helpers;
  - `SBATrackedNavigationStep.update(selectedItems:)` together with `shouldSkipStep`.

  Because of this, the in-place update of the navigation step is not modelled.
- `TrackedCollection.TrackedDataObjectCollection.UpdateSelection`: it does not model
  `activityTimingStep.update(selectedItems:)`, whose body is not part of this model.
- `TrackedCollection.TrackedDataObjectCollection.TransformToTaskAndIncludes`: it states the
  post-pass effect only when the moment-in-day pass does not run. When it does run, both passes
  may rewrite the same rule object, and only the frame is stated.
- The following identifier and lifecycle details are left out:
  - `task.conditionalRule = self`;
  - the shared data store singleton and `lazy` initialisers (the store is passed in);
  - the UUID default for `taskIdentifier` (passed in);
  - key-value-coding setters and `dictionaryRepresentationKeys`.
- The one-argument `filteredSteps(_:)` only calls FilteredSteps with the shared default
  factory. It is not modelled separately.
- `transformToStep` returns nil only if `transformToTaskAndIncludes` returns nil, which this code
  never does. TransformToStep therefore always returns a step.
- Time is modelled as whole seconds with `now` passed in. `timeIntervalSinceNow < -interval`
  becomes `now - date > interval`.
- An `ORKStepResult` whose `results` is nil is the same as one with no results.
- StepResults.FormResultsFollowItems: states only that the result identifiers follow the item
  identifiers in order; the result values and the completeness of the form-step results are
  stated by StepResults.FormResultsInOrder.
- Strings are sequences of code points. Swift compares `String` values under canonical
  equivalence and `hasPrefix` works on grapheme clusters, so the classifier's key and prefix
  tests, `SBASurveyRuleOperator(rawValue:)` and the result lookups by identifier agree with the
  source only for tokens without combining sequences.
