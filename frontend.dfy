/** The web front end's session state, updated in place by the page's helper
    functions and button handlers. Each method is tied to the function of
    `SessionModel` that gives the new session from the old one. */
module Frontend {
  import opened Text
  import opened SessionModel

  class Session {
    var userResponses: Answers
    var currentStage: int
    var travelPlan: Option<PlanSet>
    var comparisonMode: bool
    var selectedModel: string
    var showExamples: bool

    /** The session fields as one value. */
    function State(): SessionState
      reads this
    {
      SessionState(userResponses, currentStage, travelPlan, comparisonMode, selectedModel, showExamples)
    }

    /** The first run of the page fills in every field that is missing. */
    constructor ()
      ensures userResponses == map[] && currentStage == 0 && travelPlan == None
      ensures !comparisonMode && selectedModel == "openai" && !showExamples
      ensures State() == Initial()
    {
      userResponses := map[];
      currentStage := 0;
      travelPlan := None;
      comparisonMode := false;
      selectedModel := OpenAI.Key();
      showExamples := false;
    }

    method NextStage()
      modifies this
      ensures currentStage == old(currentStage) + 1
      ensures State() == old(State()).(stage := currentStage)
      ensures State() == SessionModel.NextStage(old(State()))
    {
      currentStage := currentStage + 1;
    }

    method PrevStage()
      modifies this
      ensures old(currentStage) > 0 ==> currentStage == old(currentStage) - 1
      ensures old(currentStage) <= 0 ==> currentStage == old(currentStage)
      ensures State() == old(State()).(stage := currentStage)
      ensures State() == SessionModel.PrevStage(old(State()))
    {
      if currentStage > 0 {
        currentStage := currentStage - 1;
      }
    }

    method GeneratePlan(b: Backends)
      modifies this
      ensures old(comparisonMode) ==> travelPlan == Some(b.compare(userResponses))
      ensures !old(comparisonMode) ==>
        travelPlan == Some(map[selectedModel := b.generate(userResponses, selectedModel)])
      ensures State() == old(State()).(plan := travelPlan)
      ensures State() == SessionModel.GeneratePlan(old(State()), b)
    {
      if comparisonMode {
        var plans := b.compare(userResponses);
        travelPlan := Some(plans);
      } else {
        var model := selectedModel;
        var plan := b.generate(userResponses, model);
        travelPlan := Some(map[model := plan]);
      }
    }

    method ResetApp()
      modifies this
      ensures userResponses == map[] && currentStage == 0 && travelPlan == None
      ensures !comparisonMode && selectedModel == "openai"
      ensures showExamples == old(showExamples)
      ensures State() == SessionModel.ResetApp(old(State()))
    {
      userResponses := map[];
      currentStage := 0;
      travelPlan := None;
      comparisonMode := false;
      selectedModel := OpenAI.Key();
    }

    /** A sidebar example destination button. */
    method PickDestination(d: Destination)
      modifies this
      ensures userResponses == old(userResponses)[DESTINATION_STAGE := d.Answer()]
      ensures State() == old(State()).(responses := userResponses)
      ensures State() == SessionModel.PickDestination(old(State()), d)
    {
      userResponses := userResponses[DESTINATION_STAGE := d.Answer()];
    }

    /** The "Continue" button on `stage`; `rejected` is the "required" error message. */
    method PressContinue(stage: Stage, input: string) returns (rejected: bool)
      modifies this
      ensures rejected == ContinueRejected(stage, input)
      ensures rejected ==> State() == old(State())
      ensures !rejected ==> userResponses == old(userResponses)[stage.name := input]
      ensures !rejected ==> currentStage == old(currentStage) + 1
      ensures State() == Continue(old(State()), stage, input)
    {
      rejected := ContinueRejected(stage, input);
      if !rejected {
        userResponses := userResponses[stage.name := input];
        NextStage();
      }
    }

    /** The comparison checkbox and the model radio button of the selection screen. */
    method SelectModels(compare: bool, radio: string)
      modifies this
      ensures comparisonMode == compare
      ensures selectedModel == if compare then old(selectedModel) else RadioSelector(radio)
      ensures State() == SessionModel.SelectModels(old(State()), compare, radio)
    {
      comparisonMode := compare;
      if !compare {
        selectedModel := RadioSelector(radio);
      }
    }

    /** "Choose OpenAI Plan" / "Choose Llama Plan". */
    method ChoosePlan(k: Backend)
      requires travelPlan.Some?
      modifies this
      ensures travelPlan == Some(map[k.Key() := GetOrEmpty(old(travelPlan).value, k.Label())])
      ensures !comparisonMode && selectedModel == k.Key()
      ensures State() == SessionModel.ChoosePlan(old(State()), k)
    {
      var text := GetOrEmpty(travelPlan.value, k.Label());
      travelPlan := Some(map[k.Key() := text]);
      comparisonMode := false;
      selectedModel := k.Key();
    }

    /** "Refine My Plan". */
    method RefinePlan(b: Backends, instruction: string)
      requires travelPlan.Some?
      requires !comparisonMode ==> |travelPlan.value| == 1
      modifies this
      ensures travelPlan.Some?
      ensures comparisonMode ==> travelPlan.value.Keys == {OpenAI.Label(), Llama.Label()}
      ensures !comparisonMode ==> travelPlan.value.Keys == old(travelPlan).value.Keys
      ensures State() == old(State()).(plan := travelPlan)
      ensures State() == SessionModel.RefinePlan(old(State()), b, instruction)
    {
      var m := travelPlan.value;
      if comparisonMode {
        var refinedOpenAI := b.refine(GetOrEmpty(m, OpenAI.Label()), instruction, OpenAI.Key());
        var refinedLlama := b.refine(GetOrEmpty(m, Llama.Label()), instruction, Llama.Key());
        travelPlan := Some(map[OpenAI.Label() := refinedOpenAI, Llama.Label() := refinedLlama]);
      } else {
        var key :| key in m;
        SoleKeyUnique(m, key);
        var selector := RefineSelector(key);
        var refined := b.refine(m[key], instruction, selector);
        travelPlan := Some(map[key := refined]);
      }
    }

    /** One run of `main`: the example buttons, the progress bar, "Start Over", then the
        screen the stage selects. */
    method HandleEvent(stages: seq<Stage>, b: Backends, e: Event)
      modifies this
      ensures State() == Step(stages, b, old(State()), e)
    {
      if e.PressDestination? {
        PickDestination(e.destination);
      } else if ProgressBarFails(currentStage, |stages|) {
        // the progress bar raises, and the run ends
      } else if e.PressStartOver? {
        ResetApp();
      } else if currentStage < |stages| {
        DrawnStageIsIndex(currentStage, |stages|);
        HandleCollect(CatalogEntry(stages, currentStage), e);
      } else if currentStage == |stages| {
        HandleSelect(b, e);
      } else {
        HandleReview(b, e);
      }
    }

    /** The collection screen for catalog entry `cur`. */
    method HandleCollect(cur: Stage, e: Event)
      modifies this
      ensures State() == Collect(old(State()), cur, e)
    {
      if cur.name == INTRODUCTION {
        if e.PressGetStarted? {
          NextStage();
        }
      } else {
        match e {
          case ToggleExamples(checked) =>
            showExamples := checked;
          case PressBack =>
            if currentStage > 1 {
              PrevStage();
            }
          case PressContinue(input) =>
            var _ := PressContinue(cur, input);
          case _ =>
        }
      }
    }

    /** The model selection screen. */
    method HandleSelect(b: Backends, e: Event)
      modifies this
      ensures State() == Select(old(State()), b, e)
    {
      match e {
        case ConfigureModels(compare, radio) =>
          SelectModels(compare, radio);
        case PressGenerate =>
          GeneratePlan(b);
          NextStage();
        case _ =>
      }
    }

    /** The review screen; nothing happens when it cannot be drawn. */
    method HandleReview(b: Backends, e: Event)
      modifies this
      ensures State() == Review(old(State()), b, e)
    {
      if travelPlan.Some? && (comparisonMode || |travelPlan.value| == 1) {
        match e {
          case PressChoose(k) =>
            if comparisonMode {
              ChoosePlan(k);
            }
          case PressRefine(instruction) =>
            RefinePlan(b, instruction);
          case PressNewTrip =>
            ResetApp();
          case _ =>
        }
      }
    }
  }
}
