/**
 The tracked-data survey (`SBATrackedDataObjectCollection`): it decides which part of a
 tracking survey to show (the full survey, the "changed?" question, the moment-in-day activity
 questions, or nothing), assembles those steps from its survey items, seeds the survey task with stored
 selection results, and updates its tracked-data store as the participant moves through the survey.

 The step factory, the store's update routines and the `SBATrackingStepIncludes` helpers are
 defined elsewhere; they are parameters here. Times are whole seconds and `now` is passed in.
 */
module TrackedCollection {
  import opened Wrappers
  import opened StepResults
  import opened SurveyRule

  /** `SBATrackingStepType` */
  datatype TrackingType = Selection | Changed | Activity

  /** `SBATrackingStepIncludes` (its `.None` case is `NothingIncluded`) */
  datatype Includes = NothingIncluded | StandAloneSurvey | SurveyAndActivity | ChangedOnly | ChangedAndActivity | ActivityOnly

  /** A tracked data object (a medication, say) and whether the participant tracks it. */
  datatype TrackedItem = TrackedItem(identifier: string, tracking: bool)

  /** A survey item; `trackingType` is set when it is a tracked-step item with a tracking type. */
  datatype SurveyItem = SurveyItem(identifier: string, trackingType: Option<TrackingType>)

  /** An entry of the collection's `steps`, which may hold things that are not survey items. */
  datatype Element = SurveyItemElement(item: SurveyItem) | OtherElement

  /** A navigation rule: a survey rule object (updated in place) or any other rule. */
  datatype RuleRef = RuleObject(obj: SurveyRuleObject) | OtherRule

  /** Whether a step is an `SBANavigationFormStep`, and its `rules` when it is. */
  datatype FormRules = NotNavigationForm | NavigationForm(rules: Option<seq<RuleRef>>)

  /** Whether a step is an `SBATrackedSelectionStep`, and its `trackedResultIdentifier` when it is. */
  datatype SelectionInfo = NotSelection | SelectionStep(trackedResultIdentifier: Option<string>)

  /** The facets of an `ORKStep` that the collection inspects. */
  datatype Step = Step(
    identifier: string,
    trackingType: Option<TrackingType>,
    selection: SelectionInfo,
    isTrackedNavigation: bool,
    form: FormRules)

  /** A snapshot of the `SBATrackedDataStore` fields the collection reads and writes. */
  datatype StoreState = StoreState(
    selectedItems: Option<seq<TrackedItem>>,
    lastTrackingSurveyDate: Option<int>,
    lastCompletionDate: Option<int>,
    momentInDaySteps: Option<seq<Step>>,
    momentInDayResults: Option<seq<StepResult>>)

  /** `SBABaseSurveyFactory.createSurveyStep`, for tracked and for plain items. */
  datatype Factory = Factory(
    createTrackedStep: (SurveyItem, TrackingType, seq<TrackedItem>) -> Option<Step>,
    createStep: SurveyItem -> Option<Step>)

  /** The `SBATrackingStepIncludes` helpers. */
  datatype IncludeRules = IncludeRules(
    shouldInclude: (Includes, TrackingType) -> bool,
    includeSurvey: Includes -> bool,
    nextStepIfNoChange: Includes -> Option<TrackingType>)

  /** The store's own routines: `updateTrackedData(for:)`, `updateMomentInDay(for:)`, `stepResult(for:)`. */
  datatype StoreRoutines = StoreRoutines(
    updateTrackedData: (StoreState, StepResult) -> StoreState,
    updateMomentInDay: (StoreState, StepResult) -> StoreState,
    storedResult: (StoreState, Step) -> Option<StepResult>)

  /** What one assembly pass depends on. */
  datatype Context = Context(
    includes: Includes,
    rules: IncludeRules,
    factory: Factory,
    trackedItems: seq<TrackedItem>,
    store: StoreState,
    storedResult: (StoreState, Step) -> Option<StepResult>)

  /** An `ORKTaskResult`: its step results. */
  type TaskResult = seq<StepResult>

  /** The `SBANavigableOrderedTask` built for the survey. */
  datatype Task = Task(identifier: string, steps: seq<Step>, initialResults: Option<seq<StepResult>>)

  /** The `SBASubtaskStep` wrapping the survey task. */
  datatype SubtaskStep = SubtaskStep(task: Task, taskIdentifier: Option<string>, schemaIdentifier: Option<string>)

  const DefaultTrackingSurveyRepeatTimeInterval: int := 30 * 24 * 60 * 60
  const DefaultMomentInDayRepeatTimeInterval: int := 20 * 60

  // ---------------------------------------------------------------------------
  // Searches
  // ---------------------------------------------------------------------------

  /** `find { $0.tracking }` over the selected items. */
  function FirstTracking(items: seq<TrackedItem>): (r: Option<TrackedItem>)
    ensures r.Some? <==> exists i :: 0 <= i < |items| && items[i].tracking
    ensures r.Some? ==> r.value.tracking && r.value in items
  {
    if items == [] then None
    else if items[0].tracking then Some(items[0])
    else FirstTracking(items[1..])
  }

  /** Whether an element is a survey item tagged with the tracking type. */
  predicate IsTrackedAs(e: Element, t: TrackingType) {
    e.SurveyItemElement? && e.item.trackingType == Some(t)
  }

  /** `findStep(_:)`: the first survey item tagged with the tracking type. */
  function FindTracked(es: seq<Element>, t: TrackingType): (r: Option<SurveyItem>)
    ensures r.None? <==> forall i :: 0 <= i < |es| ==> !IsTrackedAs(es[i], t)
    ensures r.Some? ==> exists i :: 0 <= i < |es| && es[i] == SurveyItemElement(r.value) && IsTrackedAs(es[i], t) &&
                          forall j :: 0 <= j < i ==> !IsTrackedAs(es[j], t)
  {
    if es == [] then None
    else if IsTrackedAs(es[0], t) then Some(es[0].item)
    else
      var r := FindTracked(es[1..], t);
      assert forall j :: 1 <= j < |es| ==> es[j] == es[1..][j - 1];
      r
  }

  /** `stepResult(forStepIdentifier:)` of a task result. */
  function FindStepResult(result: TaskResult, identifier: string): (r: Option<StepResult>)
    ensures r.Some? ==> r.value in result && r.value.identifier == identifier
    ensures r.None? <==> forall i :: 0 <= i < |result| ==> result[i].identifier != identifier
  {
    if result == [] then None
    else if result[0].identifier == identifier then Some(result[0])
    else FindStepResult(result[1..], identifier)
  }

  /** `result(forIdentifier:)` of a step result. */
  function FindResult(stepResult: StepResult, identifier: string): (r: Option<Result>)
    ensures r.Some? ==> r.value in stepResult.results && r.value.identifier == identifier
  {
    FindIn(stepResult.results, identifier)
  }

  function FindIn(results: seq<Result>, identifier: string): (r: Option<Result>)
    ensures r.Some? ==> r.value in results && r.value.identifier == identifier
  {
    if results == [] then None
    else if results[0].identifier == identifier then Some(results[0])
    else FindIn(results[1..], identifier)
  }

  // ---------------------------------------------------------------------------
  // Assembly (`filteredSteps`)
  // ---------------------------------------------------------------------------

  /**
   The step one element contributes: a tracked item only when its type is included and the
   factory builds a step for it; an untracked item only when the survey is included; anything
   that is not a survey item never.
   */
  function Emit(ctx: Context, e: Element): (r: Option<Step>)
    ensures e.OtherElement? ==> r.None?
    ensures r.Some? && e.item.trackingType.Some? ==>
              ctx.rules.shouldInclude(ctx.includes, e.item.trackingType.value) &&
              r == ctx.factory.createTrackedStep(e.item, e.item.trackingType.value, ctx.trackedItems)
    ensures r.Some? && e.item.trackingType.None? ==>
              ctx.rules.includeSurvey(ctx.includes) && r == ctx.factory.createStep(e.item)
    ensures e.SurveyItemElement? && e.item.trackingType.Some? &&
            ctx.rules.shouldInclude(ctx.includes, e.item.trackingType.value) ==>
              r == ctx.factory.createTrackedStep(e.item, e.item.trackingType.value, ctx.trackedItems)
    ensures e.SurveyItemElement? && e.item.trackingType.None? && ctx.rules.includeSurvey(ctx.includes) ==>
              r == ctx.factory.createStep(e.item)
  {
    match e
    case OtherElement => None
    case SurveyItemElement(item) =>
      if item.trackingType.Some? then
        if ctx.rules.shouldInclude(ctx.includes, item.trackingType.value) then
          ctx.factory.createTrackedStep(item, item.trackingType.value, ctx.trackedItems)
        else None
      else if ctx.rules.includeSurvey(ctx.includes) then ctx.factory.createStep(item)
      else None
  }

  /** The emitted steps, in element order. */
  function EmittedSteps(ctx: Context, es: seq<Element>): seq<Step>
    decreases |es|
  {
    if es == [] then []
    else
      var e := Emit(ctx, es[|es| - 1]);
      EmittedSteps(ctx, es[..|es| - 1]) + (if e.Some? then [e.value] else [])
  }

  /** The positions of the elements that emitted a step, in order. */
  function Origins(ctx: Context, es: seq<Element>): seq<nat>
    decreases |es|
  {
    if es == [] then []
    else
      Origins(ctx, es[..|es| - 1]) + (if Emit(ctx, es[|es| - 1]).Some? then [|es| - 1] else [])
  }

  /**
   The output is a filter-map of the input: each emitted step is what its element emits, the
   elements it comes from are in increasing order, and every element that emits is among them.
   */
  lemma {:induction false} EmittedInOrder(ctx: Context, es: seq<Element>)
    ensures var o, out := Origins(ctx, es), EmittedSteps(ctx, es);
            && |o| == |out|
            && (forall k :: 0 <= k < |o| ==> o[k] < |es| && Emit(ctx, es[o[k]]) == Some(out[k]))
            && (forall k, l :: 0 <= k < l < |o| ==> o[k] < o[l])
            && (forall i :: 0 <= i < |es| && Emit(ctx, es[i]).Some? ==> i in o)
    decreases |es|
  {
    if es != [] {
      var init := es[..|es| - 1];
      EmittedInOrder(ctx, init);
      assert forall i :: 0 <= i < |init| ==> init[i] == es[i];
    }
  }

  /** Whether an element is a tracked activity item that emits a step. */
  predicate IsActivityEmit(ctx: Context, e: Element) {
    IsTrackedAs(e, Activity) && Emit(ctx, e).Some?
  }

  /** The identifier of the first emitted activity step. */
  function FirstActivity(ctx: Context, es: seq<Element>): (r: Option<string>)
    ensures r.None? <==> forall i :: 0 <= i < |es| ==> !IsActivityEmit(ctx, es[i])
    ensures r.Some? ==> exists i :: 0 <= i < |es| && IsActivityEmit(ctx, es[i]) &&
                          Emit(ctx, es[i]).value.identifier == r.value &&
                          forall j :: 0 <= j < i ==> !IsActivityEmit(ctx, es[j])
  {
    if es == [] then None
    else if IsActivityEmit(ctx, es[0]) then Some(Emit(ctx, es[0]).value.identifier)
    else
      var r := FirstActivity(ctx, es[1..]);
      assert forall j :: 1 <= j < |es| ==> es[j] == es[1..][j - 1];
      r
  }

  /** One more element changes the first activity only while there is none yet. */
  lemma {:induction false} FirstActivityAppend(ctx: Context, es: seq<Element>, e: Element)
    ensures FirstActivity(ctx, es + [e]) ==
            if FirstActivity(ctx, es).Some? then FirstActivity(ctx, es)
            else if IsActivityEmit(ctx, e) then Some(Emit(ctx, e).value.identifier)
            else None
  {
    if es != [] {
      assert (es + [e])[1..] == es[1..] + [e];
      FirstActivityAppend(ctx, es[1..], e);
    }
  }

  /** How the three accumulations of the assembly pass grow by one element. */
  lemma OneMoreElement(ctx: Context, es: seq<Element>, k: nat)
    requires k < |es|
    ensures EmittedSteps(ctx, es[..k + 1]) ==
            EmittedSteps(ctx, es[..k]) + (if Emit(ctx, es[k]).Some? then [Emit(ctx, es[k]).value] else [])
    ensures SeededResults(ctx, es[..k + 1]) ==
            SeededResults(ctx, es[..k]) + (if Seeded(ctx, es[k]).Some? then [Seeded(ctx, es[k]).value] else [])
    ensures FirstActivity(ctx, es[..k + 1]) ==
            if FirstActivity(ctx, es[..k]).Some? then FirstActivity(ctx, es[..k])
            else if IsActivityEmit(ctx, es[k]) then Some(Emit(ctx, es[k]).value.identifier)
            else None
  {
    assert es[..k + 1] == es[..k] + [es[k]];
    assert es[..k + 1][..k] == es[..k];
    FirstActivityAppend(ctx, es[..k], es[k]);
  }

  /** Later activity steps never overwrite the first one. */
  lemma {:induction false} FirstActivityStable(ctx: Context, es: seq<Element>, more: seq<Element>)
    requires FirstActivity(ctx, es).Some?
    ensures FirstActivity(ctx, es + more) == FirstActivity(ctx, es)
  {
    if es != [] && !IsActivityEmit(ctx, es[0]) {
      assert (es + more)[1..] == es[1..] + more;
      FirstActivityStable(ctx, es[1..], more);
    }
  }

  /** The stored result one element seeds the survey task with: only an emitted selection step's. */
  function Seeded(ctx: Context, e: Element): (r: Option<StepResult>)
    ensures r.Some? ==> IsTrackedAs(e, Selection) && Emit(ctx, e).Some? &&
                        r == ctx.storedResult(ctx.store, Emit(ctx, e).value)
    ensures IsTrackedAs(e, Selection) && Emit(ctx, e).Some? ==> r == ctx.storedResult(ctx.store, Emit(ctx, e).value)
  {
    if IsTrackedAs(e, Selection) then
      match Emit(ctx, e)
      case Some(step) => ctx.storedResult(ctx.store, step)
      case None => None
    else None
  }

  /** The stored results seeded by the elements, in element order. */
  function SeededResults(ctx: Context, es: seq<Element>): seq<StepResult>
    decreases |es|
  {
    if es == [] then []
    else
      var r := Seeded(ctx, es[|es| - 1]);
      SeededResults(ctx, es[..|es| - 1]) + (if r.Some? then [r.value] else [])
  }

  /** Every seeded result is the stored result of an emitted selection step; there are no more of them than steps. */
  lemma {:induction false} SeededFromSelections(ctx: Context, es: seq<Element>)
    ensures |SeededResults(ctx, es)| <= |EmittedSteps(ctx, es)|
    ensures forall r :: r in SeededResults(ctx, es) ==>
              exists i :: 0 <= i < |es| && IsTrackedAs(es[i], Selection) && Emit(ctx, es[i]).Some? &&
                          ctx.storedResult(ctx.store, Emit(ctx, es[i]).value) == Some(r)
    decreases |es|
  {
    if es != [] {
      var init := es[..|es| - 1];
      SeededFromSelections(ctx, init);
      assert forall i :: 0 <= i < |init| ==> init[i] == es[i];
    }
  }

  /**
   The post-pass target: the first rule of the first step, when that step is a navigation form
   step whose first rule is a survey rule object, an activity step was emitted, and the includes
   continue to the activity steps when nothing changed.
   */
  function LinkTarget(ctx: Context, steps: seq<Step>, firstActivity: Option<string>): (r: Option<SurveyRuleObject>)
    ensures r.Some? ==> |steps| > 0 && steps[0].form.NavigationForm? && steps[0].form.rules.Some? &&
                        |steps[0].form.rules.value| > 0 && steps[0].form.rules.value[0] == RuleObject(r.value)
    ensures r.Some? ==> firstActivity.Some? && ctx.rules.nextStepIfNoChange(ctx.includes) == Some(Activity)
    ensures |steps| > 0 && steps[0].form.NavigationForm? && steps[0].form.rules.Some? &&
            |steps[0].form.rules.value| > 0 && steps[0].form.rules.value[0].RuleObject? &&
            firstActivity.Some? && ctx.rules.nextStepIfNoChange(ctx.includes) == Some(Activity) ==>
              r == Some(steps[0].form.rules.value[0].obj)
  {
    if |steps| > 0 && steps[0].form.NavigationForm? && firstActivity.Some? &&
       steps[0].form.rules.Some? && |steps[0].form.rules.value| > 0 &&
       steps[0].form.rules.value[0].RuleObject? &&
       ctx.rules.nextStepIfNoChange(ctx.includes) == Some(Activity)
    then Some(steps[0].form.rules.value[0].obj)
    else None
  }

  /** The rule objects one assembly pass over the elements rewrites (none or one). */
  function PassTargets(ctx: Context, es: seq<Element>): (r: set<SurveyRuleObject>)
    ensures |r| <= 1
  {
    var t := LinkTarget(ctx, EmittedSteps(ctx, es), FirstActivity(ctx, es));
    if t.Some? then {t.value} else {}
  }

  // ---------------------------------------------------------------------------
  // The data store
  // ---------------------------------------------------------------------------

  /** `SBATrackedDataStore`: the fields the collection reads and updates. */
  class TrackedDataStore {
    var selectedItems: Option<seq<TrackedItem>>
    var lastTrackingSurveyDate: Option<int>
    var lastCompletionDate: Option<int>
    var momentInDaySteps: Option<seq<Step>>
    var momentInDayResults: Option<seq<StepResult>>

    constructor ()
      ensures State() == StoreState(None, None, None, None, None)
    {
      selectedItems := None;
      lastTrackingSurveyDate := None;
      lastCompletionDate := None;
      momentInDaySteps := None;
      momentInDayResults := None;
    }

    function State(): StoreState
      reads this
    {
      StoreState(selectedItems, lastTrackingSurveyDate, lastCompletionDate, momentInDaySteps, momentInDayResults)
    }

    method SetState(s: StoreState)
      modifies this
      ensures State() == s
    {
      selectedItems := s.selectedItems;
      lastTrackingSurveyDate := s.lastTrackingSurveyDate;
      lastCompletionDate := s.lastCompletionDate;
      momentInDaySteps := s.momentInDaySteps;
      momentInDayResults := s.momentInDayResults;
    }

    /** `updateTrackedData(for:)` */
    method UpdateTrackedData(routines: StoreRoutines, stepResult: StepResult)
      modifies this
      ensures State() == routines.updateTrackedData(old(State()), stepResult)
    {
      SetState(routines.updateTrackedData(State(), stepResult));
    }

    /** `updateMomentInDay(for:)` */
    method UpdateMomentInDay(routines: StoreRoutines, stepResult: StepResult)
      modifies this
      ensures State() == routines.updateMomentInDay(old(State()), stepResult)
    {
      SetState(routines.updateMomentInDay(State(), stepResult));
    }
  }

  // ---------------------------------------------------------------------------
  // The collection
  // ---------------------------------------------------------------------------

  class TrackedDataObjectCollection {
    const dataStore: TrackedDataStore
    var taskIdentifier: string
    var schemaIdentifier: string
    var alwaysIncludeActivitySteps: bool
    var items: seq<TrackedItem>
    var steps: seq<Element>
    var trackingSurveyRepeatTimeInterval: int
    var momentInDayRepeatTimeInterval: int

    /**
     A collection over a store, with the given task identifier (a fresh UUID when none is
     configured), the schema identifier defaulting to it, and the default repeat intervals.
     */
    constructor (dataStore: TrackedDataStore, taskIdentifier: string)
      ensures this.dataStore == dataStore && this.taskIdentifier == taskIdentifier
      ensures schemaIdentifier == taskIdentifier && !alwaysIncludeActivitySteps
      ensures items == [] && steps == []
      ensures trackingSurveyRepeatTimeInterval == DefaultTrackingSurveyRepeatTimeInterval
      ensures momentInDayRepeatTimeInterval == DefaultMomentInDayRepeatTimeInterval
    {
      this.dataStore := dataStore;
      this.taskIdentifier := taskIdentifier;
      schemaIdentifier := taskIdentifier;
      alwaysIncludeActivitySteps := false;
      items := [];
      steps := [];
      trackingSurveyRepeatTimeInterval := DefaultTrackingSurveyRepeatTimeInterval;
      momentInDayRepeatTimeInterval := DefaultMomentInDayRepeatTimeInterval;
    }

    /** `findStep(_:)` */
    function FindStep(t: TrackingType): (r: Option<SurveyItem>)
      reads this
      ensures r.None? <==> forall i :: 0 <= i < |steps| ==> !IsTrackedAs(steps[i], t)
      ensures r.Some? ==> r.value.trackingType == Some(t) && SurveyItemElement(r.value) in steps
    {
      FindTracked(steps, t)
    }

    /** `hasTrackedItems()`: some selected item is tracked. */
    predicate HasTrackedItems()
      reads this, dataStore
      ensures HasTrackedItems() <==>
                (dataStore.selectedItems.Some? &&
                 exists i :: 0 <= i < |dataStore.selectedItems.value| && dataStore.selectedItems.value[i].tracking)
    {
      dataStore.selectedItems.Some? && FirstTracking(dataStore.selectedItems.value).Some?
    }

    /** `shouldIncludeChangedStep()`: the last tracking survey is more than the repeat interval ago. */
    predicate ShouldIncludeChangedStep(now: int)
      reads this, dataStore
      ensures ShouldIncludeChangedStep(now) ==>
                (exists i :: 0 <= i < |steps| && IsTrackedAs(steps[i], Changed)) &&
                dataStore.lastTrackingSurveyDate.Some? && trackingSurveyRepeatTimeInterval > 0
      ensures (exists i :: 0 <= i < |steps| && IsTrackedAs(steps[i], Changed)) && dataStore.lastTrackingSurveyDate.Some? ==>
                (ShouldIncludeChangedStep(now) <==>
                 trackingSurveyRepeatTimeInterval > 0 &&
                 now - dataStore.lastTrackingSurveyDate.value > trackingSurveyRepeatTimeInterval)
    {
      && FindStep(Changed).Some?
      && dataStore.lastTrackingSurveyDate.Some?
      && trackingSurveyRepeatTimeInterval > 0
      && now - dataStore.lastTrackingSurveyDate.value > trackingSurveyRepeatTimeInterval
    }

    /** `shouldIncludeMomentInDayQuestions()` */
    predicate ShouldIncludeMomentInDayQuestions(now: int)
      reads this, dataStore
      ensures ShouldIncludeMomentInDayQuestions(now) ==> HasTrackedItems()
      ensures (HasTrackedItems() &&
               (alwaysIncludeActivitySteps || dataStore.momentInDayResults.None? || dataStore.lastCompletionDate.None?))
              ==> ShouldIncludeMomentInDayQuestions(now)
      ensures HasTrackedItems() && !alwaysIncludeActivitySteps &&
              dataStore.momentInDayResults.Some? && dataStore.lastCompletionDate.Some? ==>
                (ShouldIncludeMomentInDayQuestions(now) <==>
                 momentInDayRepeatTimeInterval > 0 &&
                 now - dataStore.lastCompletionDate.value > momentInDayRepeatTimeInterval)
    {
      if !HasTrackedItems() then false
      else if !alwaysIncludeActivitySteps && dataStore.momentInDayResults.Some? && dataStore.lastCompletionDate.Some? then
        momentInDayRepeatTimeInterval > 0 && now - dataStore.lastCompletionDate.value > momentInDayRepeatTimeInterval
      else true
    }

    /** Once a survey part is due it stays due as time passes. */
    lemma DueStaysDue(now: int, later: int)
      requires now <= later
      ensures ShouldIncludeChangedStep(now) ==> ShouldIncludeChangedStep(later)
      ensures ShouldIncludeMomentInDayQuestions(now) ==> ShouldIncludeMomentInDayQuestions(later)
    {
    }

    /** `buildIncludes(isLastStep:)`: the first applicable part, in a fixed order. */
    function BuildIncludes(isLastStep: bool, now: int): (r: Includes)
      reads this, dataStore
      ensures r == StandAloneSurvey <==> isLastStep
      ensures r == SurveyAndActivity <==> !isLastStep && dataStore.selectedItems.None?
      ensures r == ChangedOnly ==> ShouldIncludeChangedStep(now) && !HasTrackedItems()
      ensures r == ChangedAndActivity ==> ShouldIncludeChangedStep(now) && HasTrackedItems()
      ensures r == ActivityOnly ==> !ShouldIncludeChangedStep(now) && HasTrackedItems()
      ensures r == NothingIncluded <==>
                !isLastStep && dataStore.selectedItems.Some? &&
                !ShouldIncludeChangedStep(now) && !ShouldIncludeMomentInDayQuestions(now)
    {
      if isLastStep then StandAloneSurvey
      else if dataStore.selectedItems.None? then SurveyAndActivity
      else if ShouldIncludeChangedStep(now) then
        if !HasTrackedItems() then ChangedOnly else ChangedAndActivity
      else if ShouldIncludeMomentInDayQuestions(now) then ActivityOnly
      else NothingIncluded
    }

    /** The context of one assembly pass over this collection's items and store. */
    function Ctx(includes: Includes, rules: IncludeRules, factory: Factory, routines: StoreRoutines): Context
      reads this, dataStore
    {
      Context(includes, rules, factory, items, dataStore.State(), routines.storedResult)
    }

    /** The rule objects an assembly pass with these includes rewrites. */
    function Targets(includes: Includes, rules: IncludeRules, factory: Factory, routines: StoreRoutines): set<SurveyRuleObject>
      reads this, dataStore
    {
      PassTargets(Ctx(includes, rules, factory, routines), steps)
    }

    /**
     `filteredSteps(_:factory:)`: one pass over the elements building the steps and seeding stored
     selection results while noting the first activity step, then pointing the leading
     navigation rule at that activity step.
     */
    method FilteredSteps(includes: Includes, rules: IncludeRules, factory: Factory, routines: StoreRoutines)
      returns (out: seq<Step>, trackedResults: seq<StepResult>)
      modifies Targets(includes, rules, factory, routines)`skipIdentifier
      ensures var ctx := Ctx(includes, rules, factory, routines);
              && out == EmittedSteps(ctx, steps)
              && trackedResults == SeededResults(ctx, steps)
              && var t := LinkTarget(ctx, out, FirstActivity(ctx, steps));
                 t.Some? ==> t.value.skipIdentifier == FirstActivity(ctx, steps)
    {
      var ctx := Ctx(includes, rules, factory, routines);
      var es := steps;
      var firstActivityStepIdentifier: Option<string> := None;
      trackedResults := [];
      out := [];
      for k := 0 to |es|
        invariant out == EmittedSteps(ctx, es[..k])
        invariant trackedResults == SeededResults(ctx, es[..k])
        invariant firstActivityStepIdentifier == FirstActivity(ctx, es[..k])
      {
        var element := es[k];
        OneMoreElement(ctx, es, k);
        if element.SurveyItemElement? {
          var item := element.item;
          if item.trackingType.Some? {
            var trackingType := item.trackingType.value;
            if ctx.rules.shouldInclude(ctx.includes, trackingType) {
              var step := ctx.factory.createTrackedStep(item, trackingType, ctx.trackedItems);
              if step.Some? {
                if trackingType == Activity && firstActivityStepIdentifier.None? {
                  firstActivityStepIdentifier := Some(step.value.identifier);
                }
                if trackingType == Selection {
                  var result := ctx.storedResult(ctx.store, step.value);
                  if result.Some? {
                    trackedResults := trackedResults + [result.value];
                  }
                }
                out := out + [step.value];
              }
            }
          } else if ctx.rules.includeSurvey(ctx.includes) {
            var step := ctx.factory.createStep(item);
            if step.Some? {
              out := out + [step.value];
            }
          }
        }
      }
      assert es[..|es|] == es;
      var target := LinkTarget(ctx, out, firstActivityStepIdentifier);
      if target.Some? {
        target.value.skipIdentifier := firstActivityStepIdentifier;
      }
    }

    /**
     `transformToTaskAndIncludes(_:isLastStep:)`: the survey task of the included steps, seeded with
     the stored selection results when there are any; on the first run it also records the
     activity steps as the store's moment-in-day steps.
     */
    method TransformToTaskAndIncludes(factory: Factory, isLastStep: bool, now: int, rules: IncludeRules, routines: StoreRoutines)
      returns (task: Task, includes: Includes)
      modifies dataStore`momentInDaySteps
      modifies Targets(BuildIncludes(isLastStep, now), rules, factory, routines)`skipIdentifier
      modifies Targets(ActivityOnly, rules, factory, routines)`skipIdentifier
      ensures includes == old(BuildIncludes(isLastStep, now))
      ensures task.identifier == schemaIdentifier
      ensures task.steps == old(EmittedSteps(Ctx(BuildIncludes(isLastStep, now), rules, factory, routines), steps))
      ensures var seeds := old(SeededResults(Ctx(BuildIncludes(isLastStep, now), rules, factory, routines), steps));
              task.initialResults == if seeds == [] then None else Some(seeds)
      ensures old(dataStore.momentInDaySteps).Some? ==> dataStore.momentInDaySteps == old(dataStore.momentInDaySteps)
      ensures old(dataStore.momentInDaySteps).None? ==>
                dataStore.momentInDaySteps == Some(old(EmittedSteps(Ctx(ActivityOnly, rules, factory, routines), steps)))
      ensures old(dataStore.momentInDaySteps).Some? ==>
                var ctx := old(Ctx(BuildIncludes(isLastStep, now), rules, factory, routines));
                var t := LinkTarget(ctx, task.steps, FirstActivity(ctx, steps));
                t.Some? ==> t.value.skipIdentifier == FirstActivity(ctx, steps)
    {
      includes := BuildIncludes(isLastStep, now);
      ghost var activityCtx := Ctx(ActivityOnly, rules, factory, routines);
      ghost var activityTargets := Targets(ActivityOnly, rules, factory, routines);
      var out, trackedResults := FilteredSteps(includes, rules, factory, routines);
      assert Ctx(ActivityOnly, rules, factory, routines) == activityCtx;
      assert Targets(ActivityOnly, rules, factory, routines) == activityTargets;
      task := Task(schemaIdentifier, out, None);
      if dataStore.momentInDaySteps.None? {
        var activitySteps, _ := FilteredSteps(ActivityOnly, rules, factory, routines);
        dataStore.momentInDaySteps := Some(activitySteps);
      }
      if |trackedResults| > 0 {
        task := task.(initialResults := Some(trackedResults));
      }
    }

    /**
     `transformToStep(with:isLastStep:)`: the survey task wrapped in a subtask step, which carries the
     task and schema identifiers only when the full survey is included.
     */
    method TransformToStep(factory: Factory, isLastStep: bool, now: int, rules: IncludeRules, routines: StoreRoutines)
      returns (r: Option<SubtaskStep>)
      modifies dataStore`momentInDaySteps
      modifies Targets(BuildIncludes(isLastStep, now), rules, factory, routines)`skipIdentifier
      modifies Targets(ActivityOnly, rules, factory, routines)`skipIdentifier
      ensures r.Some? && r.value.task.identifier == schemaIdentifier
      ensures r.value.task.steps == old(EmittedSteps(Ctx(BuildIncludes(isLastStep, now), rules, factory, routines), steps))
      ensures var included := rules.includeSurvey(old(BuildIncludes(isLastStep, now)));
              && (included ==> r.value.taskIdentifier == Some(taskIdentifier) && r.value.schemaIdentifier == Some(schemaIdentifier))
              && (!included ==> r.value.taskIdentifier.None? && r.value.schemaIdentifier.None?)
    {
      var task, includes := TransformToTaskAndIncludes(factory, isLastStep, now, rules, routines);
      var subtaskStep := SubtaskStep(task, None, None);
      if rules.includeSurvey(includes) {
        subtaskStep := subtaskStep.(taskIdentifier := Some(taskIdentifier), schemaIdentifier := Some(schemaIdentifier));
      }
      r := Some(subtaskStep);
    }

    /**
     `shouldSkip(step:with:)`: only a tracked navigation step can be skipped, and it decides
     from the selected items (none when nothing was selected).
     */
    function ShouldSkip(step: Option<Step>, shouldSkipStep: (Step, seq<TrackedItem>) -> bool): (r: bool)
      reads this, dataStore
      ensures r ==> step.Some? && step.value.isTrackedNavigation
      ensures step.Some? && step.value.isTrackedNavigation && dataStore.selectedItems.None? ==>
                (r <==> shouldSkipStep(step.value, []))
      ensures step.Some? && step.value.isTrackedNavigation && dataStore.selectedItems.Some? ==>
                (r <==> shouldSkipStep(step.value, dataStore.selectedItems.value))
    {
      if step.None? || !step.value.isTrackedNavigation then false
      else shouldSkipStep(step.value, dataStore.selectedItems.GetOr([]))
    }

    /**
     `nextStep(previousStep:nextStep:with:)`: navigation goes on to the proposed next step; after a
     selection step with a tracked selection result the store records the selection, otherwise
     after an activity step with a result it records the moment in day, and otherwise it stays.
     */
    method NextStep(previousStep: Option<Step>, nextStep: Option<Step>, result: TaskResult, routines: StoreRoutines)
      returns (r: Option<Step>)
      modifies dataStore
      ensures r == nextStep
      ensures SelectionBranch(previousStep, result) ==>
                dataStore.State() == routines.updateTrackedData(old(dataStore.State()), FindStepResult(result, previousStep.value.identifier).value)
      ensures !SelectionBranch(previousStep, result) && ActivityBranch(previousStep, result) ==>
                dataStore.State() == routines.updateMomentInDay(old(dataStore.State()), FindStepResult(result, previousStep.value.identifier).value)
      ensures !SelectionBranch(previousStep, result) && !ActivityBranch(previousStep, result) ==>
                dataStore.State() == old(dataStore.State())
    {
      if SelectionBranch(previousStep, result) {
        dataStore.UpdateTrackedData(routines, FindStepResult(result, previousStep.value.identifier).value);
      } else if previousStep.Some? && previousStep.value.trackingType == Some(Activity) {
        var stepResult := FindStepResult(result, previousStep.value.identifier);
        if stepResult.Some? {
          dataStore.UpdateMomentInDay(routines, stepResult.value);
        }
      }
      r := nextStep;
    }

    /**
     `updateSelection(selectionStep:activityTimingStep:taskResult:)`: the store records the
     selection step's result when the survey task result has one, and is left alone otherwise.
     */
    method UpdateSelection(selectionStep: Step, taskResult: TaskResult, routines: StoreRoutines)
      modifies dataStore
      ensures FindStepResult(taskResult, selectionStep.identifier).None? ==> dataStore.State() == old(dataStore.State())
      ensures FindStepResult(taskResult, selectionStep.identifier).Some? ==>
                dataStore.State() == routines.updateTrackedData(old(dataStore.State()), FindStepResult(taskResult, selectionStep.identifier).value)
    {
      var stepResult := FindStepResult(taskResult, selectionStep.identifier);
      if stepResult.None? {
        return;
      }
      dataStore.UpdateTrackedData(routines, stepResult.value);
    }
  }

  /** The previous step is a selection step whose step result holds its tracked selection result. */
  predicate SelectionBranch(previous: Option<Step>, result: TaskResult) {
    && previous.Some?
    && previous.value.selection.SelectionStep?
    && var stepResult := FindStepResult(result, previous.value.identifier);
       && stepResult.Some?
       && previous.value.selection.trackedResultIdentifier.Some?
       && var tracked := FindResult(stepResult.value, previous.value.selection.trackedResultIdentifier.value);
          tracked.Some? && tracked.value.DataSelectionResult?
  }

  /** The previous step is an activity step with a step result. */
  predicate ActivityBranch(previous: Option<Step>, result: TaskResult) {
    previous.Some? && previous.value.trackingType == Some(Activity) && FindStepResult(result, previous.value.identifier).Some?
  }
}
