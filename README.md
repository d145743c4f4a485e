# Session controller of the TravelSage travel assistant

The travel assistant's web front end (`frontend.py`) keeps one session per user in
Streamlit's session state. The session has six fields: the collected answers
(`user_responses`), the stage index (`current_stage`), the generated plans
(`travel_plan`: none, or a map from backend label to plan text), the comparison flag
(`comparison_mode`), the selected backend (`selected_model`, `"openai"` or `"llama"`)
and the examples checkbox (`show_examples`). Small helper functions
(`next_stage`, `prev_stage`, `generate_plan`, `reset_app`) and the button handlers
inside `main` change these fields. The stage index picks the screen: answers are
collected while it is below the number of catalog stages, the backend is chosen when
it equals that number, and the plan is shown, refined or narrowed beyond it.

This project models that state machine in Dafny.

- `text.dfy` (module `Text`) models the Python string operations the controller uses.
  These are `str.strip()`, with the whitespace set of Python's `str.isspace`, and
  substring search (`in`).
- `session_model.dfy` (module `SessionModel`) models the session as a value.
  `SessionState` holds the fields. There is one function per helper and handler.
  `Step` is one run of `main`: the example buttons, the progress bar, "Start Over",
  then the screen the stage selects.
  `Run` applies a sequence of user actions.
- `frontend.dfy` (module `Frontend`) has the class `Session`, whose fields are the
  session fields. Its methods update them in place, as the Python does. Each method's
  `ensures` gives the new fields and ties `State()` to the `SessionModel` function of
  the old state. `HandleEvent` is the dispatch of `main`.
- `session_lemmas.dfy` (module `SessionLemmas`) proves what the controller promises.
  It covers the stage moves, the answer validation, reset and the shapes of the plan
  map. It also proves an invariant that every action keeps, so it holds in every
  session reachable from the first page load.

Inputs the model takes as parameters:

- The stage catalog comes from `create_dialogue_stages` in `dialogue_system`, which is
  not part of this model. It is a parameter `stages: seq<Stage>`, where each entry has
  a name and a required flag. The introduction screen is chosen by the stage's name,
  as in the source, so nothing is assumed about the catalog's order.
- The backends `generate_travel_plan`, `compare_travel_plans` and `refine_travel_plan`
  also live in `dialogue_system`. They are the given functions of a `Backends` value.
  `compare_travel_plans` is taken to return what `compare_models` in `llm_setup.py`
  returns (lines 85-88): a map with exactly the keys `"OpenAI"` and `"Llama 3.2"`.
  This is the predicate `CompareGivesBothLabels`, a precondition of the lemmas that
  need it.
- Widget values (text areas, the checkbox, the radio button) are carried by the
  events. A Python exception while the page is drawn leaves the session as it was,
  because Streamlit keeps session state when a script run fails. The model treats
  such runs as leaving the state unchanged. Three places raise:
  - On the review screen, `next(iter(None))` and `None.get` fail when there is no plan.
  - On the single-mode review screen, `next(iter({}))` fails when the plan map is
    empty (frontend.py:237).
  - The sidebar's progress bar, drawn while collecting, fails for some negative
    stages (frontend.py:101-103). It divides by zero for an empty catalog. Otherwise
    `int(stage / n * 100)` truncates toward zero, and `st.progress` refuses the result
    when it is below 0, which is when `n <= 100 * -stage`. This happens after the
    example buttons and before "Start Over" and the main screen, so only an example
    button acts on such a run. On a negative stage where the bar is drawn, the
    collection screen shows `dialogue_stages[stage]`, which Python counts from the
    end of the catalog.

Details of the code the model follows:

- Reset sets the plan to none. It leaves `show_examples` as it was.
- The destination stage is named `travel_destination`.
- Continue stores the raw input as typed.
- The backend selector is a string. A single-mode refinement goes to the hosted
  backend for the key `"openai"` and also for `"OpenAI"`. Any other key goes to the
  local one.
- The Back button exists only on an answer screen past stage 1.

## Model

Each `Frontend.Session` row also covers the `SessionModel` function named in the
method's last `ensures`. These are `Initial`, `NextStage`, `PrevStage`, `GeneratePlan`,
`ResetApp`, `PickDestination`, `Continue` (with `ContinueRejected`), `SelectModels`,
`ChoosePlan`, `RefinePlan`, `Step`, `Collect`, `Select` and `Review`. `Run` is a
sequence of `Step`s. The helpers are as follows:
- `RadioSelector` models frontend.py:202.
- `RefineSelector` models frontend.py:280.
- `GetOrEmpty` models the `.get(label, "")` at frontend.py:222 and :230.
- `PhaseOf` models the stage tests at frontend.py:118 and :179.

| member | source | states |
|---|---|---|
| `Text.TrimStart` | frontend.py:172 | the result is the suffix of the input that starts at its first non-whitespace character; everything dropped is whitespace |
| `Text.TrimEnd` | frontend.py:172 | the result is the prefix of the input that ends at its last non-whitespace character; everything dropped is whitespace |
| `Text.Strip` | frontend.py:172 | `strip()` gives a slice of the input with only whitespace outside it; the result is empty exactly when every character is whitespace, and otherwise begins and ends with non-whitespace |
| `Text.TrimBothIsSlice` | frontend.py:172 | trimming the start and then the end leaves the slice of the input that starts after the leading whitespace, with only whitespace on either side |
| `Text.TrimBothEmptyIffAllSpace` | frontend.py:172 | trimming both ends leaves nothing if and only if the input is all whitespace |
| `SessionModel.SoleKey` | frontend.py:279 | `next(iter(plan))` on a one-entry plan map is the map's only key |
| `Frontend.Session.constructor` | frontend.py:40-51 | a new session has no answers, stage 0, no plan, comparison off, model "openai" and examples hidden |
| `Frontend.Session.NextStage` | frontend.py:54-55 | the stage goes up by one and no other field changes |
| `Frontend.Session.PrevStage` | frontend.py:58-60 | the stage goes down by one when it is positive and stays put otherwise; no other field changes |
| `Frontend.Session.GeneratePlan` | frontend.py:63-70 | in comparison mode the plan is the comparison call's map; otherwise it is one entry under the selected model holding that backend's plan; nothing else changes |
| `Frontend.Session.ResetApp` | frontend.py:73-78 | answers, stage, plan, comparison and model get their initial values; show_examples is kept |
| `Frontend.Session.PickDestination` | frontend.py:89-96 | an example button sets the travel_destination answer to its text and changes nothing else |
| `Frontend.Session.PressContinue` | frontend.py:171-177 | reports the error and changes nothing when a required stage gets blank input; otherwise stores the raw input under the stage name and advances by one |
| `Frontend.Session.SelectModels` | frontend.py:194-202 | comparison mode follows the checkbox; without comparison the model becomes "openai" when the radio option mentions OpenAI and "llama" otherwise |
| `Frontend.Session.ChoosePlan` | frontend.py:221-233 | the plan becomes one entry under the chosen selector holding the old labelled plan or ""; comparison off; model set to that selector |
| `Frontend.Session.RefinePlan` | frontend.py:259-288 | the plan map keeps its keys (both labels in comparison mode, the one key otherwise) and each value is refined by the backend its key names |
| `Frontend.Session.HandleEvent` | frontend.py:83-120 | one run of the page: the example buttons on every screen; nothing more when the progress bar fails; otherwise "Start Over", then the collection screen for the catalog entry Python's index selects, or the selection or review screen |
| `SessionModel.CatalogEntry` | frontend.py:120 | `dialogue_stages[i]` is entry `i` for a non-negative index and entry `n + i`, counted from the end, for a negative one |
| `SessionModel.TruncDiv` | frontend.py:102 | `int(a / d)` is the quotient rounded toward zero: at most `a` and within `d` of it for non-negative `a`, at least `a` and within `d` of it, and not above 0, for negative `a` |
| `SessionModel.DrawnStageIsIndex` | frontend.py:101-120 | when the progress bar is drawn without failing on a collecting stage, that stage is an index Python accepts for the catalog |
| `Frontend.Session.HandleCollect` | frontend.py:122-177 | the introduction offers only "Let's Get Started!"; other stages offer the examples checkbox, Back past stage 1, and Continue |
| `Frontend.Session.HandleSelect` | frontend.py:179-209 | the selection screen sets the mode and model, or generates a plan and advances |
| `Frontend.Session.HandleReview` | frontend.py:211-295 | the review screen chooses, refines or resets, and does nothing when it cannot be drawn |
| `SessionLemmas.NextStageOnlyAdvances` | frontend.py:54-55 | next_stage adds exactly one to the stage and leaves every other field unchanged |
| `SessionLemmas.PrevStageClamped` | frontend.py:58-60 | prev_stage at stage 0 is a no-op, elsewhere it subtracts exactly one, so a non-negative stage stays non-negative |
| `SessionLemmas.AdvanceRetreatInverse` | frontend.py:54-60 | advance then retreat restores any non-negative session; retreat then advance restores any positive one |
| `SessionLemmas.BackNeverReachesIntroduction` | frontend.py:164-168 | Back either changes nothing or moves from a stage above 1 to the one before, so it never lands on stage 0; on an answer screen past stage 1 it does move one stage back, changing nothing else |
| `SessionLemmas.ContinueRefusedIffBlankRequired` | frontend.py:171-177 | Continue leaves the session unchanged if and only if the stage is required and the input is all whitespace |
| `SessionLemmas.ContinueStoresRawInput` | frontend.py:174-177 | an accepted Continue stores the untrimmed input under the stage name, adds one to the stage and changes nothing else |
| `SessionLemmas.DestinationScenario` | frontend.py:171-177 | with stages introduction, required destination and optional dates: "" and "  " leave stage 1 as it was, "Paris" is stored and gives stage 2 |
| `SessionLemmas.PickDestinationWritesOneAnswer` | frontend.py:89-96 | an example button adds or overwrites the travel_destination answer only; other answers and fields are untouched |
| `SessionLemmas.ResetRestoresInitial` | frontend.py:73-78 | reset from any session gives the initial session except for show_examples, and is idempotent |
| `SessionLemmas.StartOverOnEveryScreen` | frontend.py:101-109 | the sidebar "Start Over" resets the session on every screen where the progress bar above it does not fail: every non-negative stage, and every negative one with `-100 * stage < n` |
| `SessionLemmas.ProgressBarFailsIff` | frontend.py:101-103 | the progress bar fails if and only if the stage is negative and `n <= 100 * -stage`; this includes every negative stage of an empty catalog |
| `SessionLemmas.NegativeStageStopsAtProgressBar` | frontend.py:89-104 | on a negative stage with `n <= 100 * -stage`, only the example buttons act, because the progress bar fails before anything else is drawn; every other action leaves the session unchanged |
| `SessionLemmas.NegativeStageCountsFromCatalogEnd` | frontend.py:101-120 | on a negative stage with `-100 * stage < n`, "Start Over" resets, and any other action other than an example button acts on the collection screen of catalog entry `n + stage` |
| `SessionLemmas.LongCatalogNegativeStage` | frontend.py:101-120 | with 101 stages on stage -1, the bar is drawn, "Start Over" gives the initial session, and Continue on the last entry moves to stage 0 |
| `SessionLemmas.StartOverAfterAnyHistory` | frontend.py:106-109 | after any sequence of actions from the first load, Start Over gives back the initial session with show_examples as it was |
| `SessionLemmas.GeneratePlanShape` | frontend.py:63-70 | in single mode the plan map has exactly one key, the selected model, holding that backend's plan; in comparison mode exactly the keys "OpenAI" and "Llama 3.2"; nothing else changes |
| `SessionLemmas.GenerateMovesToReview` | frontend.py:204-209 | generating on the selection screen leads to the review screen, at stage count plus one, with a plan of the mode's shape |
| `SessionLemmas.ChoosePlanCollapses` | frontend.py:219-233 | choosing leaves a one-entry map under "openai" or "llama" holding the old entry or "" if missing, comparison off and the model equal to that key; nothing else changes |
| `SessionLemmas.RefineKeepsKeys` | frontend.py:257-288 | refining a well-shaped plan keeps its key set and replaces every value with the refinement of the old one by the backend its key names; nothing else changes |
| `SessionLemmas.RefineSelectorChoice` | frontend.py:280 | the hosted backend is chosen exactly for the keys "openai" and "OpenAI", the local one for every other key |
| `SessionLemmas.RadioOptionsSelect` | frontend.py:197-202 | the option "OpenAI (More concise)" selects "openai" and "Llama (More detailed)" selects "llama" |
| `SessionLemmas.InitialInv` | frontend.py:40-51 | the initial session satisfies the reachable-session invariant |
| `SessionLemmas.StepKeepsInv` | frontend.py:117-295 | every user action keeps the stage within 0 and stage count plus one, the model one of the two selectors, no plan before review and a plan of the mode's shape during review |
| `SessionLemmas.RunKeepsInv` | frontend.py:117-295 | every sequence of user actions keeps that invariant |
| `SessionLemmas.RunKeepsStageNonNegative` | frontend.py:54-60 | from a non-negative stage, every sequence of actions keeps the stage non-negative |
| `SessionLemmas.ReachableSessions` | frontend.py:117-237 | in every reachable session the stage is never negative, the model is "openai" or "llama", a plan exists exactly on the review screen, and its keys match the mode |

## Left out

- Rendering: page config, CSS, titles, text, tabs, spinners, the download button, the example hint texts and `st.experimental_rerun` (frontend.py:8-37, 124-156, 213-248). These are display only. A rerun is one event of `Run`.
- The progress bar's display (frontend.py:101-104). The model keeps only whether drawing it fails.
- ProgressBarFails: computes `int(stage / n * 100)` on exact integers, as `TruncDiv(100 * stage, n)`. The source uses float division and multiplication. The two agree unless float rounding carries the quotient across -1.
- Negative stages are modelled as the code treats them, though no reachable session has one (`ReachableSessions`, `RunKeepsStageNonNegative`).
- `llm_setup.py`: `query_openai_api` and `query_local_llama` are network calls whose exceptions become error strings, and `test_travel_prompts` prints. Only the two-label shape of `compare_models` is kept, as the precondition `CompareGivesBothLabels`.
- `main.py`: argument parsing and launching a process.
- The stage catalog contents, the prompt construction and the refinement prompt templates. They live in `dialogue_system`, which is not part of this model, so they are parameters.
- Dictionary insertion order. On the single-mode review screen the source takes `next(iter(plan))`. The invariant proves that this map always has exactly one entry. For a multi-entry map, which cannot be reached, the model draws no review screen instead of choosing the first-inserted key.
- Widgets on one page run. The checkbox and radio values of the selection screen are written on every run before the Generate button is checked. The model makes them a separate `ConfigureModels` event that precedes `PressGenerate`. The examples checkbox is likewise a `ToggleExamples` event.
- Dictionary aliasing. `user_responses` is mutated in place in the source. In the model it is a map value that is reassigned, and nothing else shares it.
