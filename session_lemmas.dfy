/** What the session controller promises: the effect of each helper and handler,
    the invariant every reachable session keeps, and a worked scenario. */
module SessionLemmas {
  import opened Text
  import opened SessionModel

  // ---------------------------------------------------------------------------
  // Stage moves

  /** `next_stage` moves one stage on and changes nothing else. */
  lemma NextStageOnlyAdvances(s: SessionState)
    ensures NextStage(s).stage == s.stage + 1
    ensures NextStage(s).(stage := s.stage) == s
  {
  }

  /** `prev_stage` is a no-op at stage 0 and otherwise moves one stage back, so it
      never takes a non-negative stage below 0. */
  lemma PrevStageClamped(s: SessionState)
    ensures s.stage <= 0 ==> PrevStage(s) == s
    ensures s.stage > 0 ==> PrevStage(s).stage == s.stage - 1
    ensures PrevStage(s).(stage := s.stage) == s
    ensures s.stage >= 0 ==> PrevStage(s).stage >= 0
  {
  }

  /** Advancing then retreating from a non-negative stage restores the session, and
      retreating then advancing from a positive stage does too. */
  lemma AdvanceRetreatInverse(s: SessionState)
    ensures s.stage >= 0 ==> PrevStage(NextStage(s)) == s
    ensures s.stage > 0 ==> NextStage(PrevStage(s)) == s
  {
  }

  /** The "Back" button exists only on an answer screen past stage 1, where it moves
      one stage back; so pressing it never returns to stage 0, the introduction. */
  lemma BackNeverReachesIntroduction(stages: seq<Stage>, b: Backends, s: SessionState)
    ensures var r := Step(stages, b, s, PressBack);
      r == s || (1 < s.stage < |stages| && r == s.(stage := s.stage - 1))
    ensures 1 < s.stage < |stages| && stages[s.stage].name != INTRODUCTION ==>
      Step(stages, b, s, PressBack) == s.(stage := s.stage - 1)
    ensures s.stage >= 1 ==> Step(stages, b, s, PressBack).stage >= 1
  {
  }

  // ---------------------------------------------------------------------------
  // Collecting answers

  /** "Continue" leaves the session as it was exactly when the stage is required and
      the input has nothing but whitespace. */
  lemma ContinueRefusedIffBlankRequired(s: SessionState, stage: Stage, input: string)
    ensures Continue(s, stage, input) == s <==> stage.required && AllSpace(input)
  {
  }

  /** An accepted "Continue" stores the raw, untrimmed input under the stage's name,
      moves one stage on, and changes nothing else. */
  lemma ContinueStoresRawInput(s: SessionState, stage: Stage, input: string)
    requires !stage.required || !AllSpace(input)
    ensures var r := Continue(s, stage, input);
      && r.responses == s.responses[stage.name := input]
      && r.responses[stage.name] == input
      && r.stage == s.stage + 1
      && r.(responses := s.responses, stage := s.stage) == s
  {
  }

  /** A sidebar example button writes the destination answer and nothing else. */
  lemma PickDestinationWritesOneAnswer(s: SessionState, d: Destination)
    ensures var r := PickDestination(s, d);
      && r.responses.Keys == s.responses.Keys + {DESTINATION_STAGE}
      && r.responses[DESTINATION_STAGE] == d.Answer()
      && (forall k :: k in s.responses && k != DESTINATION_STAGE ==> r.responses[k] == s.responses[k])
      && r.(responses := s.responses) == s
  {
  }

  // ---------------------------------------------------------------------------
  // Reset

  /** `reset_app` gives the initial session whatever the prior one was, except that it
      keeps `show_examples`; doing it twice is the same as doing it once. */
  lemma ResetRestoresInitial(s: SessionState)
    ensures ResetApp(s) == Initial().(showExamples := s.showExamples)
    ensures ResetApp(ResetApp(s)) == ResetApp(s)
  {
  }

  /** "Start Over" in the sidebar resets the session on every screen: whenever the
      progress bar above it does not fail. */
  lemma StartOverOnEveryScreen(stages: seq<Stage>, b: Backends, s: SessionState)
    requires 0 <= s.stage || -100 * s.stage < |stages|
    ensures Step(stages, b, s, PressStartOver) == Initial().(showExamples := s.showExamples)
  {
    ProgressBarFailsIff(s.stage, |stages|);
  }

  // ---------------------------------------------------------------------------
  // Plans

  /** The shape of the plan map: the two backend labels in comparison mode, the
      selected backend's selector otherwise. */
  ghost predicate PlanShaped(s: SessionState)
    requires s.plan.Some?
  {
    if s.comparison then s.plan.value.Keys == {OpenAI.Label(), Llama.Label()}
    else s.plan.value.Keys == {s.model}
  }

  /** `generate_plan` stores one plan under the selector in single mode and the two
      labelled plans in comparison mode, and changes nothing but the plan. */
  lemma GeneratePlanShape(s: SessionState, b: Backends)
    requires CompareGivesBothLabels(b)
    ensures var r := GeneratePlan(s, b);
      && r.plan.Some? && PlanShaped(r)
      && (!s.comparison ==> |r.plan.value| == 1 && r.plan.value[s.model] == b.generate(s.responses, s.model))
      && r.(plan := s.plan) == s
  {
    if s.comparison {
      assert b.compare(s.responses).Keys == {OpenAI.Label(), Llama.Label()};
    }
  }

  /** "Generate My Travel Plan" takes the selection screen to the review screen with
      a plan of the right shape. */
  lemma GenerateMovesToReview(stages: seq<Stage>, b: Backends, s: SessionState)
    requires CompareGivesBothLabels(b)
    requires PhaseOf(s.stage, |stages|) == Selecting
    ensures var r := Step(stages, b, s, PressGenerate);
      && PhaseOf(r.stage, |stages|) == Reviewing
      && r.stage == |stages| + 1
      && r.plan.Some? && PlanShaped(r)
  {
    GeneratePlanShape(s, b);
  }

  /** Choosing a plan in the comparison view leaves one entry under the chosen
      selector, holding the old labelled plan or "" when it was missing. */
  lemma ChoosePlanCollapses(s: SessionState, k: Backend)
    requires s.plan.Some?
    ensures var r := ChoosePlan(s, k);
      && r.plan.Some? && r.plan.value.Keys == {k.Key()} && |r.plan.value| == 1
      && !r.comparison && r.model == k.Key()
      && PlanShaped(r)
      && (k.Label() in s.plan.value ==> r.plan.value[k.Key()] == s.plan.value[k.Label()])
      && (k.Label() !in s.plan.value ==> r.plan.value[k.Key()] == "")
      && r.(plan := s.plan, comparison := s.comparison, model := s.model) == s
  {
  }

  /** Refining keeps the key set of a well-shaped plan map, replaces the values with
      the refinements of the old ones, and changes nothing else. */
  lemma RefineKeepsKeys(s: SessionState, b: Backends, instruction: string)
    requires s.plan.Some? && PlanShaped(s)
    ensures var r := RefinePlan(s, b, instruction);
      && r.plan.Some? && r.plan.value.Keys == s.plan.value.Keys && PlanShaped(r)
      && (forall k :: k in s.plan.value ==>
            r.plan.value[k] == b.refine(s.plan.value[k], instruction, RefineSelector(k)))
      && r.(plan := s.plan) == s
  {
    var m := s.plan.value;
    if !s.comparison {
      assert m.Keys == {s.model};
      assert |m| == |m.Keys| == 1;
      var k := SoleKey(m);
      assert k == s.model;
    } else {
      var r := RefinePlan(s, b, instruction);
      assert r.plan.value.Keys == {OpenAI.Label(), Llama.Label()};
      assert RefineSelector(Llama.Label()) == Llama.Key();
    }
  }

  /** A single-mode refinement goes to the hosted backend exactly when the key is
      "openai" or "OpenAI". */
  lemma RefineSelectorChoice(key: string)
    ensures RefineSelector(key) == "openai" <==> key == "openai" || key == "OpenAI"
    ensures RefineSelector(key) == "openai" || RefineSelector(key) == "llama"
  {
  }

  /** The two radio options give the two selectors. */
  lemma RadioOptionsSelect()
    ensures RadioSelector(OPENAI_OPTION) == "openai"
    ensures RadioSelector(LLAMA_OPTION) == "llama"
  {
    assert StartsWith(OPENAI_OPTION, "OpenAI") by {
      assert OPENAI_OPTION[..6] == "OpenAI";
    }
    NotContainsWithoutFirstChar(LLAMA_OPTION, "OpenAI");
  }

  // ---------------------------------------------------------------------------
  // The invariant of reachable sessions

  /** Every session reachable from the initial one: the stage lies between 0 and one
      past the selection stage, the selector is one of the two, there is no plan
      before the review screen, and on the review screen there is a plan of the shape
      the mode calls for. */
  ghost predicate Inv(stages: seq<Stage>, s: SessionState) {
    && 0 <= s.stage <= |stages| + 1
    && (s.model == OpenAI.Key() || s.model == Llama.Key())
    && (s.stage <= |stages| ==> s.plan.None?)
    && (s.stage == |stages| + 1 ==> s.plan.Some? && PlanShaped(s))
  }

  lemma InitialInv(stages: seq<Stage>)
    ensures Inv(stages, Initial())
  {
  }

  /** Every user action keeps the invariant. */
  lemma StepKeepsInv(stages: seq<Stage>, b: Backends, s: SessionState, e: Event)
    requires CompareGivesBothLabels(b)
    requires Inv(stages, s)
    ensures Inv(stages, Step(stages, b, s, e))
  {
    var n := |stages|;
    if !e.PressDestination? && !e.PressStartOver? {
      match PhaseOf(s.stage, n)
      case Collecting =>
      case Selecting =>
        if e.PressGenerate? {
          GeneratePlanShape(s, b);
        }
      case Reviewing =>
        if e.PressRefine? {
          RefineKeepsKeys(s, b, e.instruction);
        } else if e.PressChoose? && s.comparison {
          ChoosePlanCollapses(s, e.backend);
        }
    }
  }

  /** Every sequence of user actions keeps the invariant. */
  lemma {:induction false} RunKeepsInv(stages: seq<Stage>, b: Backends, s: SessionState, events: seq<Event>)
    requires CompareGivesBothLabels(b)
    requires Inv(stages, s)
    ensures Inv(stages, Run(stages, b, s, events))
    decreases |events|
  {
    if events != [] {
      StepKeepsInv(stages, b, s, events[0]);
      RunKeepsInv(stages, b, Step(stages, b, s, events[0]), events[1..]);
    }
  }

  /** In every session reachable from the start, the stage is never negative, the
      review screen always has a plan, and the plan map has the shape of the mode. */
  lemma ReachableSessions(stages: seq<Stage>, b: Backends, events: seq<Event>)
    requires CompareGivesBothLabels(b)
    ensures var r := Run(stages, b, Initial(), events);
      && 0 <= r.stage <= |stages| + 1
      && (r.model == "openai" || r.model == "llama")
      && (PhaseOf(r.stage, |stages|) == Reviewing <==> r.plan.Some?)
      && (r.plan.Some? ==> PlanShaped(r))
  {
    InitialInv(stages);
    RunKeepsInv(stages, b, Initial(), events);
  }

  // ---------------------------------------------------------------------------
  // Negative stages, which no session reaches

  /** The progress bar fails exactly when the stage is negative and the catalog has at
      most 100 times as many stages as the stage is below 0: for an empty catalog, and
      whenever the percentage truncated toward zero is -1 or less. */
  lemma ProgressBarFailsIff(stage: int, n: nat)
    ensures ProgressBarFails(stage, n) <==> stage < 0 && n <= -100 * stage
  {
    if n > 0 && stage < n {
      var q := TruncDiv(100 * stage, n);
      if q < 0 {
        MulBelowNegOne(q, n);
      } else {
        assert 0 <= q * n;
      }
    }
  }

  lemma MulBelowNegOne(q: int, n: int)
    requires q <= -1 && 0 < n
    ensures q * n <= -n
  {
    assert (q + 1) * n <= 0;
  }

  /** When the progress bar fails, a run ends there: only the example buttons before
      it take effect. */
  lemma NegativeStageStopsAtProgressBar(stages: seq<Stage>, b: Backends, s: SessionState, e: Event)
    requires s.stage < 0 && |stages| <= -100 * s.stage
    ensures Step(stages, b, s, e) == if e.PressDestination? then PickDestination(s, e.destination) else s
  {
    ProgressBarFailsIff(s.stage, |stages|);
  }

  /** When it does not, "Start Over" resets, and otherwise the collection screen draws
      the catalog entry that Python's negative index counts from the end. */
  lemma NegativeStageCountsFromCatalogEnd(stages: seq<Stage>, b: Backends, s: SessionState, e: Event)
    requires s.stage < 0 && -100 * s.stage < |stages|
    requires !e.PressDestination?
    ensures -|stages| <= s.stage
    ensures Step(stages, b, s, e) ==
      if e.PressStartOver? then ResetApp(s) else Collect(s, stages[|stages| + s.stage], e)
  {
    ProgressBarFailsIff(s.stage, |stages|);
  }

  /** A catalog of 101 stages on stage -1: the percentage truncates to 0, so the bar is
      drawn and "Start Over" resets; Continue on the last entry moves to stage 0. */
  lemma LongCatalogNegativeStage(b: Backends)
    ensures var stages := seq(101, i => Stage("s", false));
      var s := Initial().(stage := -1);
      && Step(stages, b, s, PressStartOver) == Initial()
      && Step(stages, b, s, PressContinue("x")).stage == 0
  {
    var stages := seq(101, i => Stage("s", false));
    NegativeStageCountsFromCatalogEnd(stages, b, Initial().(stage := -1), PressStartOver);
    NegativeStageCountsFromCatalogEnd(stages, b, Initial().(stage := -1), PressContinue("x"));
  }

  /** Running one more action after a history is one more step. */
  lemma {:induction false} RunSnoc(stages: seq<Stage>, b: Backends, s: SessionState, events: seq<Event>, e: Event)
    ensures Run(stages, b, s, events + [e]) == Step(stages, b, Run(stages, b, s, events), e)
    decreases |events|
  {
    if events == [] {
      assert [] + [e] == [e];
    } else {
      assert (events + [e])[1..] == events[1..] + [e];
      RunSnoc(stages, b, Step(stages, b, s, events[0]), events[1..], e);
    }
  }

  /** Whatever happened before, "Start Over" brings back the initial session (with
      the examples checkbox as it was). */
  lemma StartOverAfterAnyHistory(stages: seq<Stage>, b: Backends, events: seq<Event>)
    ensures var before := Run(stages, b, Initial(), events);
      Run(stages, b, Initial(), events + [PressStartOver])
        == Initial().(showExamples := before.showExamples)
  {
    RunSnoc(stages, b, Initial(), events, PressStartOver);
    RunKeepsStageNonNegative(stages, b, Initial(), events);
  }

  /** Whatever the backends return, no sequence of actions takes a non-negative stage
      below 0. */
  lemma {:induction false} RunKeepsStageNonNegative(stages: seq<Stage>, b: Backends, s: SessionState, events: seq<Event>)
    requires 0 <= s.stage
    ensures 0 <= Run(stages, b, s, events).stage
    decreases |events|
  {
    if events != [] {
      var e := events[0];
      assert 0 <= Step(stages, b, s, e).stage by {
        if e.PressRefine? || e.PressChoose? {
          assert Step(stages, b, s, e).stage == s.stage;
        }
      }
      RunKeepsStageNonNegative(stages, b, Step(stages, b, s, e), events[1..]);
    }
  }

  // ---------------------------------------------------------------------------
  // A worked scenario: an introduction, a required destination and optional dates

  function ScenarioStages(): seq<Stage> {
    [Stage(INTRODUCTION, false), Stage(DESTINATION_STAGE, true), Stage("travel_dates", false)]
  }

  /** A blank destination is refused and the stage stays at 1; "Paris" is stored and
      the stage becomes 2. */
  lemma DestinationScenario(b: Backends)
    ensures var s1 := Step(ScenarioStages(), b, Initial(), PressGetStarted);
      && s1.stage == 1
      && Step(ScenarioStages(), b, s1, PressContinue("")) == s1
      && Step(ScenarioStages(), b, s1, PressContinue("  ")) == s1
      && Step(ScenarioStages(), b, s1, PressContinue("Paris")).stage == 2
      && Step(ScenarioStages(), b, s1, PressContinue("Paris")).responses == map[DESTINATION_STAGE := "Paris"]
  {
    var s1 := Step(ScenarioStages(), b, Initial(), PressGetStarted);
    assert AllSpace("  ");
    assert !AllSpace("Paris") by {
      assert !IsSpace("Paris"[0]);
    }
  }
}
