/** The session controller of the travel assistant's web front end as a pure state
    machine: the session fields, the helper functions that change them, and the
    dispatch of one user action (a button press or widget change) on the screen that
    the current stage selects. */
module SessionModel {
  import opened Text

  datatype Option<T> = None | Some(value: T)

  /** Collected answers, keyed by stage name. */
  type Answers = map<string, string>

  /** Generated plan texts, keyed by backend label. */
  type PlanSet = map<string, string>

  /** The two parts of a stage-catalog entry that the controller reads. */
  datatype Stage = Stage(name: string, required: bool)

  const INTRODUCTION := "introduction"
  const DESTINATION_STAGE := "travel_destination"

  /** The two text-generation backends. */
  datatype Backend = OpenAI | Llama {
    /** The selector stored in `selected_model` and used as the single-mode plan key. */
    function Key(): string {
      match this
      case OpenAI => "openai"
      case Llama => "llama"
    }

    /** The label under which a comparison holds this backend's plan. */
    function Label(): string {
      match this
      case OpenAI => "OpenAI"
      case Llama => "Llama 3.2"
    }
  }

  /** The example destinations offered in the sidebar. */
  datatype Destination = Paris | Tokyo | Rome | Athens {
    function Answer(): string {
      match this
      case Paris => "Paris, France"
      case Tokyo => "Tokyo, Japan"
      case Rome => "Rome, Italy"
      case Athens => "Athens, Greece"
    }
  }

  /** The two labels of the model radio button. */
  const OPENAI_OPTION := "OpenAI (More concise)"
  const LLAMA_OPTION := "Llama (More detailed)"

  /** The text-generation calls of the dialogue system, taken as given functions:
      `generate(answers, selector)`, `compare(answers)` and
      `refine(plan, instruction, selector)`. */
  datatype Backends = Backends(
    generate: (Answers, string) -> string,
    compare: Answers -> PlanSet,
    refine: (string, string, string) -> string)

  /** The shape the comparison call is relied on to return: one plan per backend label. */
  ghost predicate CompareGivesBothLabels(b: Backends) {
    forall a :: b.compare(a).Keys == {OpenAI.Label(), Llama.Label()}
  }

  /** The session fields. */
  datatype SessionState = SessionState(
    responses: Answers,
    stage: int,
    plan: Option<PlanSet>,
    comparison: bool,
    model: string,
    showExamples: bool)

  /** The state a new session starts in. */
  function Initial(): SessionState {
    SessionState(map[], 0, None, false, OpenAI.Key(), false)
  }

  /** The screen the stage index selects, for a catalog of `n` stages. */
  datatype Phase = Collecting | Selecting | Reviewing

  function PhaseOf(stage: int, n: int): Phase {
    if stage < n then Collecting else if stage == n then Selecting else Reviewing
  }

  /** `dialogue_stages[i]` with Python's indexing: a negative index counts from the end. */
  function CatalogEntry(stages: seq<Stage>, i: int): (r: Stage)
    requires -|stages| <= i < |stages|
    ensures 0 <= i ==> r == stages[i]
    ensures i < 0 ==> r == stages[|stages| + i]
  {
    stages[i % |stages|]
  }

  /** Python's `int(a / d)` for a positive `d`: the quotient rounded toward zero. */
  function TruncDiv(a: int, d: int): (q: int)
    requires d > 0
    ensures 0 <= a ==> 0 <= q * d <= a < q * d + d
    ensures a < 0 ==> q * d - d < a <= q * d <= 0
  {
    if a >= 0 then
      DivBounds(a, d);
      a / d
    else
      DivBounds(-a, d);
      -((-a) / d)
  }

  lemma DivBounds(a: int, d: int)
    requires 0 <= a && 0 < d
    ensures 0 <= (a / d) * d <= a < (a / d) * d + d
  {
    var q, r := a / d, a % d;
    assert a == d * q + r && 0 <= r < d;
    assert 0 <= q;
    assert d * q == q * d;
  }

  /** The sidebar's progress bar, drawn while collecting (stage below `n`), raises: for an
      empty catalog the percentage divides by zero, and otherwise `st.progress` refuses
      the percentage `int(stage / n * 100)` when it is below 0. */
  predicate ProgressBarFails(stage: int, n: nat) {
    stage < n && (n == 0 || TruncDiv(100 * stage, n) < 0)
  }

  /** `d.get(key, "")`. */
  function GetOrEmpty(m: PlanSet, key: string): string {
    if key in m then m[key] else ""
  }

  /** The one key of a one-entry map. */
  ghost function SoleKey(m: PlanSet): (k: string)
    requires |m| == 1
    ensures m.Keys == {k}
  {
    var k :| k in m;
    SoleKeyUnique(m, k);
    k
  }

  lemma SoleKeyUnique(m: PlanSet, k: string)
    requires |m| == 1 && k in m
    ensures m.Keys == {k}
  {
    var rest := m.Keys - {k};
    assert m.Keys == rest + {k};
    assert |rest| == 0;
  }

  /** The selector the model radio button stores: "openai" when the chosen option
      mentions OpenAI, "llama" otherwise. */
  function RadioSelector(option: string): string {
    if Contains(option, "OpenAI") then OpenAI.Key() else Llama.Key()
  }

  /** The backend a single-mode refinement goes to, from the plan's key. */
  function RefineSelector(key: string): string {
    if key == OpenAI.Key() || key == OpenAI.Label() then OpenAI.Key() else Llama.Key()
  }

  // ---------------------------------------------------------------------------
  // The helper functions of the front end

  /** `next_stage`. */
  function NextStage(s: SessionState): SessionState {
    s.(stage := s.stage + 1)
  }

  /** `prev_stage`: steps back unless already at stage 0 or below. */
  function PrevStage(s: SessionState): SessionState {
    if s.stage > 0 then s.(stage := s.stage - 1) else s
  }

  /** `reset_app`: every field except `show_examples` back to its initial value. */
  function ResetApp(s: SessionState): SessionState {
    s.(responses := map[], stage := 0, plan := None, comparison := false, model := OpenAI.Key())
  }

  /** `generate_plan`: one call to the comparison backend, or one call to the selected
      backend stored under its selector. */
  function GeneratePlan(s: SessionState, b: Backends): SessionState {
    if s.comparison then
      s.(plan := Some(b.compare(s.responses)))
    else
      s.(plan := Some(map[s.model := b.generate(s.responses, s.model)]))
  }

  // ---------------------------------------------------------------------------
  // The handlers inside `main`

  /** A sidebar example button: records the destination answer only. */
  function PickDestination(s: SessionState, d: Destination): SessionState {
    s.(responses := s.responses[DESTINATION_STAGE := d.Answer()])
  }

  /** The "Continue" button refuses a required stage whose input is blank. */
  predicate ContinueRejected(stage: Stage, input: string) {
    stage.required && IsBlank(input)
  }

  /** The "Continue" button on `stage`: shows an error and changes nothing when the
      input is refused, otherwise stores the raw input under the stage's name and
      moves on. */
  function Continue(s: SessionState, stage: Stage, input: string): SessionState {
    if ContinueRejected(stage, input) then s
    else NextStage(s.(responses := s.responses[stage.name := input]))
  }

  /** The comparison checkbox and, when it is off, the model radio button. */
  function SelectModels(s: SessionState, compare: bool, radio: string): SessionState {
    if compare then s.(comparison := true)
    else s.(comparison := false, model := RadioSelector(radio))
  }

  /** "Choose OpenAI Plan" / "Choose Llama Plan": keep that backend's plan alone under
      its selector and leave comparison mode. */
  function ChoosePlan(s: SessionState, k: Backend): SessionState
    requires s.plan.Some?
  {
    s.(plan := Some(map[k.Key() := GetOrEmpty(s.plan.value, k.Label())]),
       comparison := false,
       model := k.Key())
  }

  /** "Refine My Plan": in comparison mode both plans are refined by their own backend;
      otherwise the one plan is refined by the backend its key names. */
  ghost function RefinePlan(s: SessionState, b: Backends, instruction: string): SessionState
    requires s.plan.Some?
    requires !s.comparison ==> |s.plan.value| == 1
  {
    var m := s.plan.value;
    if s.comparison then
      s.(plan := Some(map[
        OpenAI.Label() := b.refine(GetOrEmpty(m, OpenAI.Label()), instruction, OpenAI.Key()),
        Llama.Label() := b.refine(GetOrEmpty(m, Llama.Label()), instruction, Llama.Key())]))
    else
      var k := SoleKey(m);
      s.(plan := Some(map[k := b.refine(m[k], instruction, RefineSelector(k))]))
  }

  // ---------------------------------------------------------------------------
  // One user action on the screen the stage selects

  datatype Event =
    | PressDestination(destination: Destination)
    | PressStartOver
    | PressGetStarted
    | ToggleExamples(checked: bool)
    | PressBack
    | PressContinue(input: string)
    | ConfigureModels(compare: bool, radio: string)
    | PressGenerate
    | PressChoose(backend: Backend)
    | PressRefine(instruction: string)
    | PressNewTrip

  /** The collection screen for catalog entry `cur`: the introduction offers only
      "Let's Get Started!", every other stage the examples checkbox, "Back" (past
      stage 1 only) and "Continue". */
  function Collect(s: SessionState, cur: Stage, e: Event): SessionState {
    if cur.name == INTRODUCTION then
      if e.PressGetStarted? then NextStage(s) else s
    else
      match e
      case ToggleExamples(checked) => s.(showExamples := checked)
      case PressBack => if s.stage > 1 then PrevStage(s) else s
      case PressContinue(input) => Continue(s, cur, input)
      case _ => s
  }

  /** The model selection screen. */
  function Select(s: SessionState, b: Backends, e: Event): SessionState {
    match e
    case ConfigureModels(compare, radio) => SelectModels(s, compare, radio)
    case PressGenerate => NextStage(GeneratePlan(s, b))
    case _ => s
  }

  /** The review screen. When there is no plan to show (or, outside comparison mode,
      not exactly one), drawing the screen fails before any button appears and the
      session is left as it was. */
  ghost function Review(s: SessionState, b: Backends, e: Event): SessionState {
    if s.plan.None? || (!s.comparison && |s.plan.value| != 1) then s
    else
      match e
      case PressChoose(k) => if s.comparison then ChoosePlan(s, k) else s
      case PressRefine(instruction) => RefinePlan(s, b, instruction)
      case PressNewTrip => ResetApp(s)
      case _ => s
  }

  /** One run of the page. The sidebar's example buttons come first and act on every
      screen. Next the sidebar draws the progress bar while collecting; when that fails
      the run ends there. Otherwise "Start Over" acts, and then the screen `PhaseOf`
      selects, where a collecting stage picks its catalog entry as Python indexes. */
  ghost function Step(stages: seq<Stage>, b: Backends, s: SessionState, e: Event): SessionState {
    if e.PressDestination? then PickDestination(s, e.destination)
    else if ProgressBarFails(s.stage, |stages|) then s
    else if e.PressStartOver? then ResetApp(s)
    else
      match PhaseOf(s.stage, |stages|)
      case Collecting =>
        DrawnStageIsIndex(s.stage, |stages|);
        Collect(s, CatalogEntry(stages, s.stage), e)
      case Selecting => Select(s, b, e)
      case Reviewing => Review(s, b, e)
  }

  /** When the progress bar is drawn without failing, the stage is an index Python
      accepts for the catalog. */
  lemma DrawnStageIsIndex(stage: int, n: nat)
    requires stage < n && !ProgressBarFails(stage, n)
    ensures 0 <= n + stage
  {
  }

  /** A sequence of user actions, one page run each. */
  ghost function Run(stages: seq<Stage>, b: Backends, s: SessionState, events: seq<Event>): SessionState
    decreases |events|
  {
    if events == [] then s else Run(stages, b, Step(stages, b, s, events[0]), events[1..])
  }
}
