# Skin-lesion analysis client — a verified Dafny model

This project models the client-side workflow of a skin-lesion classifier front end:

- **types.dfy** (`Types`): the patient record (`UserData`) and the report (`SkinAnalysisResult`). The string unions for gender, diagnosis code and urgency tier become datatypes. Each datatype has a `Code` function for its wire spelling and a `Parse` function that gives back the datatype value from the string.
- **generate_diagnosis.dfy** (`GenerateDiagnosis`): the constant `diagnosisInfo` table, with all seven entries transcribed. It also holds the lookup (total on the diagnosis datatype; `None` for a string that is not one of the table's own keys), the join of a code and a confidence with an entry into a report (`Enrich`), and the confidence clamp of the commented-out generator.
- **user_data_form.dfy** (`UserDataForm`): the submit guard and the button-enable check, the 15-entry lesion-area table with its `find`-based label lookup, and the form's `formData` state cell. That cell is a class whose handler methods each replace the record.
- **app.dfy** (`App`): the three-state controller (`form`, `loading`, `results`). The pure transition function `Next` says what each event does. The class `Controller` holds the three state cells, and each of its handlers is proved to perform exactly `Next`. The invariant `Inv` is what makes the non-null assertions in the results branch safe.
- **loading_screen.dfy** (`LoadingScreen`): the four-step schedule as a function of integer elapsed milliseconds. It covers the scheduling loop, the current step, the progress clamp, the completion time and the lit progress dots, plus the screen's state cells as a small class.
- **results_screen.dfy** (`ResultsScreen`): the display switches, each with its default branch, the gender label, the numbered lists and the upper-cased code.

The loading-complete event carries the classifier's answer as parameters: a diagnosis code and a confidence. `App.tsx` imports `generateSkinAnalysis`, but that function exists only as commented-out code (`src/utils/generateDiagnosis.ts:136-197`). The client module in `src/utils/api.ts` is never called.

Four facts about the code shape the model:
- The code has no failure or recovery transition.
- Gender admits `other`, although the form only produces male and female.
- A string outside the seven codes shows up only as `LookupCode` returning `None`.
- The commented-out generator produces confidences between 70 and 95, while the results screen multiplies confidence by 100 and so expects a fraction.

## Model

| member | source | states |
|---|---|---|
| `Types.ParseDiagnosis` | src/types/index.ts:11 | a string is a diagnosis exactly when it is the code of that one diagnosis among the seven |
| `Types.ParseUrgency` | src/types/index.ts:15 | a string is an urgency exactly when it is the code of one of the four tiers |
| `Types.ParseGender` | src/types/index.ts:5 | a string is a gender exactly when it is `male`, `female` or `other` |
| `Types.DiagnosisCodeInjective` | src/types/index.ts:11 | distinct diagnoses have distinct codes |
| `GenerateDiagnosis.TableKeysAreDiagnosisCodes` | src/utils/generateDiagnosis.ts:1-134 | the table has seven keys, and a string is a key exactly when it is a diagnosis code |
| `GenerateDiagnosis.LookupCode` | src/utils/generateDiagnosis.ts:1-134 | indexing with a string gives an entry exactly when it is one of the seven own keys, and `None` for every other string |
| `GenerateDiagnosis.Lookup` | src/utils/generateDiagnosis.ts:1-134 | lookup by diagnosis is total and agrees with indexing by its code |
| `GenerateDiagnosis.UrgencyOfEntries` | src/utils/generateDiagnosis.ts:2-133 | only `mel` is immediate; exactly `bcc` and `akiec` are urgent; `nv`, `bkl`, `vasc` and `df` are routine; no entry is `soon` |
| `GenerateDiagnosis.ListSizesOfEntries` | src/utils/generateDiagnosis.ts:7-132 | every entry has at least 5 recommendations and 3 next steps; `mel`, `bcc` and `akiec` have exactly 6 and 4, the others 5 and 3 |
| `GenerateDiagnosis.EntriesHaveText` | src/utils/generateDiagnosis.ts:2-133 | every entry has a non-empty name, description and findings text |
| `GenerateDiagnosis.BuildResultRoundTrip` | src/utils/generateDiagnosis.ts:187-196 | the join returns the code and confidence unchanged, and the whole entry can be read back from the report, lists in order |
| `GenerateDiagnosis.ReportIsBuiltFromItsParts` | src/utils/generateDiagnosis.ts:187-196 | every report is the join of its own code, confidence and entry |
| `GenerateDiagnosis.BuildResult` | src/utils/generateDiagnosis.ts:187-196 | the join keeps the code and confidence and copies the entry whole, which `EntryOf` reads back; the converse is `ReportIsBuiltFromItsParts` |
| `GenerateDiagnosis.Enrich` | src/utils/generateDiagnosis.ts:164-196 | enrichment keeps the code and confidence and carries exactly the table entry of that code |
| `GenerateDiagnosis.MelanomaReport` | src/utils/generateDiagnosis.ts:20-39 | a melanoma report is immediate and lists the six melanoma recommendations in table order |
| `GenerateDiagnosis.BaseConfidence` | src/utils/generateDiagnosis.ts:167-176 | every per-code base confidence lies in [78, 90] |
| `GenerateDiagnosis.BoostedConfidence` | src/utils/generateDiagnosis.ts:178-181 | the confidence before variation lies in [78, 98], and at most 90 without an image; the exact +8 is `ImageAddsEight` |
| `GenerateDiagnosis.Round` | src/utils/generateDiagnosis.ts:185 | `Math.round` gives the integer within half a unit of its argument, with halves going up |
| `GenerateDiagnosis.Confidence` | src/utils/generateDiagnosis.ts:166-185 | the confidence lies in [70, 95] for any variation; it equals the rounded value when that value is in range, and saturates to 95 above the range and to 70 below it |
| `GenerateDiagnosis.ImageAddsEight` | src/utils/generateDiagnosis.ts:178-181 | an image adds exactly 8 before variation, which is the same as 8 more variation, so it never lowers the confidence |
| `GenerateDiagnosis.GenerateSkinAnalysis` | src/utils/generateDiagnosis.ts:136-197 | the generated report carries the selected code with its table entry, and its confidence is the clamped value computed from that code's base, the image bonus and the variation, so it lies in [70, 95] |
| `UserDataForm.SubmitGuardStrongerThanButton` | src/components/UserDataForm.tsx:35-41 | submitting is allowed exactly when the button is enabled and an image is present |
| `UserDataForm.CanSubmit` | src/components/UserDataForm.tsx:37 | a record that passes the submit guard also enables the button; both directions are in `SubmitGuardStrongerThanButton` |
| `UserDataForm.IsFormValid` | src/components/UserDataForm.tsx:41 | the button-enable check: names, positive age and area, without the image (stated in `SubmitGuardStrongerThanButton`) |
| `UserDataForm.InitialFormIncomplete` | src/components/UserDataForm.tsx:10-19 | the initial form is neither valid nor submittable |
| `UserDataForm.Find` | src/components/UserDataForm.tsx:109 | returns the first entry matching both value and shown text, or undefined exactly when no entry matches |
| `UserDataForm.SelectedLabel` | src/components/UserDataForm.tsx:106-115 | the stored label is either the shown text or ''; it is the shown text exactly when some entry matches |
| `UserDataForm.SelectedLabelOfOption` | src/components/UserDataForm.tsx:43-59 | choosing any listed option stores that option's own label |
| `UserDataForm.PlaceholderHasNoLabel` | src/components/UserDataForm.tsx:117 | choosing the empty placeholder stores the label '' |
| `UserDataForm.ValueDoesNotDetermineLabel` | src/components/UserDataForm.tsx:43-59 | two entries share a value but have different labels, and selecting each stores a different label |
| `UserDataForm.Form.constructor` | src/components/UserDataForm.tsx:10-19 | the form starts from the initial record, with gender male |
| `UserDataForm.Form.HandleImageUpload` | src/components/UserDataForm.tsx:23-33 | with no chosen file nothing changes; otherwise only `image` and `imageUrl` change |
| `UserDataForm.Form.SetFirstName` | src/components/UserDataForm.tsx:80-82 | only `firstName` changes |
| `UserDataForm.Form.SetLastName` | src/components/UserDataForm.tsx:83-85 | only `lastName` changes |
| `UserDataForm.Form.SetAge` | src/components/UserDataForm.tsx:88-90 | only `age` changes |
| `UserDataForm.Form.SetGender` | src/components/UserDataForm.tsx:91-96 | only `gender` changes, and it stays male or female |
| `UserDataForm.Form.SelectLesionArea` | src/components/UserDataForm.tsx:106-115 | only `lesionArea` and `lesionLabel` change; they become the chosen value and its looked-up label |
| `UserDataForm.Form.HandleSubmit` | src/components/UserDataForm.tsx:35-39 | the form data is handed on unchanged exactly when all five conditions hold; otherwise nothing happens |
| `App.NextKeepsInv` | src/App.tsx:15-32 | every event keeps the invariant: loading implies user data, and results imply user data and analysis |
| `App.Next` | src/App.tsx:15-32 | each of the three handlers keeps the invariant, and restart always yields the initial cells |
| `App.RunKeepsInv` | src/App.tsx:15-32 | any sequence of events keeps the invariant |
| `App.ReachableStatesAreConsistent` | src/App.tsx:11-32 | every state reachable from the initial one satisfies the invariant that makes the `!` on lines 49-50 safe |
| `App.RestartIdempotent` | src/App.tsx:28-32 | restart always yields the empty form state, and a second restart changes nothing |
| `App.LoadingCompleteWithoutUser` | src/App.tsx:20-26 | loading-complete without user data changes nothing |
| `App.LoadingCompleteReport` | src/App.tsx:20-26 | from loading, completion moves to results with the same user and a report carrying the answer's code, confidence and table entry |
| `App.Render` | src/App.tsx:34-57 | the form is shown exactly in the form state; loading and results views carry the stored cells, which are present |
| `App.Controller.constructor` | src/App.tsx:11-13 | the controller starts in the form state with both cells null |
| `App.Controller.HandleFormSubmit` | src/App.tsx:15-18 | stores the data and moves to loading; the analysis cell is untouched |
| `App.Controller.HandleLoadingComplete` | src/App.tsx:20-26 | with user data, stores the enriched report and moves to results; without it, nothing changes |
| `App.Controller.HandleRestart` | src/App.tsx:28-32 | moves to the form state with both cells null |
| `LoadingScreen.StartTimeStep` | src/components/LoadingScreen.tsx:41-53 | each step starts one previous duration after the previous step |
| `LoadingScreen.TotalDuration` | src/components/LoadingScreen.tsx:23 | the sum of the step durations: 11000 ms for the four steps (stated in `AnalysisSchedule`) |
| `LoadingScreen.StartTime` | src/components/LoadingScreen.tsx:41-53 | the start after the last step is the total duration; each start adds the previous duration (`StartTimeStep`) |
| `LoadingScreen.AnalysisSchedule` | src/components/LoadingScreen.tsx:9-53 | the steps start at 0, 3000, 6500 and 9000 ms, and the total duration is 11000 ms |
| `LoadingScreen.StartTimesIncrease` | src/components/LoadingScreen.tsx:41-53 | with positive durations, later steps start strictly later |
| `LoadingScreen.ScheduleSteps` | src/components/LoadingScreen.tsx:40-53 | the loop schedules step i at the sum of the earlier durations; the completion that the last step's timer schedules falls at the total (none for an empty list) |
| `LoadingScreen.StepAt` | src/components/LoadingScreen.tsx:44-50 | the step shown is the last one whose timer has fired |
| `LoadingScreen.CurrentStep` | src/components/LoadingScreen.tsx:44-58 | the current step is always a valid index |
| `LoadingScreen.CurrentStepSchedule` | src/components/LoadingScreen.tsx:41-53 | the current step is 0 before 3000 ms, 1 before 6500, 2 before 9000 and 3 afterwards |
| `LoadingScreen.CurrentStepMonotone` | src/components/LoadingScreen.tsx:41-53 | the current step never decreases as time passes |
| `LoadingScreen.IconFallbackUnused` | src/components/LoadingScreen.tsx:58 | the fallback icon is never used |
| `LoadingScreen.CurrentIcon` | src/components/LoadingScreen.tsx:58 | the step icon with the `Scan` fallback, which `IconFallbackUnused` shows is never taken |
| `LoadingScreen.Progress` | src/components/LoadingScreen.tsx:26-35 | progress never exceeds 100, is non-negative from mount, and is 100 exactly from the total duration on, which is when the interval stops |
| `LoadingScreen.CompletionAtFullProgress` | src/components/LoadingScreen.tsx:23-48 | completion is scheduled at the total duration, the first moment progress reaches 100 |
| `LoadingScreen.LitDots` | src/components/LoadingScreen.tsx:130-137 | among n dots, current+1 are lit (all n if the step is past them) |
| `LoadingScreen.LitDotsFollowStep` | src/components/LoadingScreen.tsx:130-137 | the indicator always lights the current step index plus one dots |
| `LoadingScreen.ScreenState.constructor` | src/components/LoadingScreen.tsx:17-19 | the cells start at step 0 and progress 0, with the interval running |
| `LoadingScreen.ScreenState.Tick` | src/components/LoadingScreen.tsx:26-35 | the interval stores the elapsed time and clamped progress, and stops exactly once the total duration is reached |
| `LoadingScreen.ScreenState.StepTimerFired` | src/components/LoadingScreen.tsx:45-50 | a step timer sets the current step; only the last one schedules completion, one step duration later |
| `ResultsScreen.UrgencyIconOf` | src/components/ResultsScreen.tsx:11-19 | immediate and urgent share the warning icon, routine alone gets the check mark, and soon and unknown strings get info |
| `ResultsScreen.UrgencyColorOf` | src/components/ResultsScreen.tsx:21-29 | the four tiers get four distinct colours, and the blue default is given exactly to unknown strings |
| `ResultsScreen.UrgencyBadgeColorOf` | src/components/ResultsScreen.tsx:31-39 | the four tiers get four distinct badges, none equal to the default |
| `ResultsScreen.UrgencyTextOf` | src/components/ResultsScreen.tsx:41-49 | the four tiers get four distinct labels, and 'Evaluación Recomendada' is given exactly to unknown strings |
| `ResultsScreen.DiagnosisColorOf` | src/components/ResultsScreen.tsx:51-58 | `mel` alone is red; `bcc` and `akiec` are orange; `nv` and `bkl` are green; `vasc`, `df` and unknown codes get the blue default |
| `ResultsScreen.GenderLabelOf` | src/components/ResultsScreen.tsx:87 | 'Masculino' exactly for male, 'Femenino' exactly for female, and 'Otro' for every other string |
| `ResultsScreen.GetUrgencyIcon` | src/components/ResultsScreen.tsx:11-19 | the urgency icon switch with its default; its behaviour is stated in `UrgencyIconOf` |
| `ResultsScreen.GetUrgencyColor` | src/components/ResultsScreen.tsx:21-29 | the urgency colour switch with its default; its behaviour is stated in `UrgencyColorOf` |
| `ResultsScreen.GetUrgencyBadgeColor` | src/components/ResultsScreen.tsx:31-39 | the badge colour switch with its default; its behaviour is stated in `UrgencyBadgeColorOf` |
| `ResultsScreen.GetUrgencyText` | src/components/ResultsScreen.tsx:41-49 | the urgency label switch with its default; its behaviour is stated in `UrgencyTextOf` |
| `ResultsScreen.GetDiagnosisColor` | src/components/ResultsScreen.tsx:51-58 | the diagnosis colour switch with its default; its behaviour is stated in `DiagnosisColorOf` |
| `ResultsScreen.GenderLabel` | src/components/ResultsScreen.tsx:87 | the gender ternary; its behaviour is stated in `GenderLabelOf` |
| `ResultsScreen.EnrichedReportAvoidsDefaults` | src/components/ResultsScreen.tsx:113-131 | a report built from the table never falls into the urgency colour, badge or text default |
| `ResultsScreen.NumberFrom` | src/components/ResultsScreen.tsx:168-175 | rows keep the list's length and order, numbered consecutively from the given start |
| `ResultsScreen.Numbered` | src/components/ResultsScreen.tsx:184-191 | each list item i is shown as number i + 1 with its own text, in order |
| `ResultsScreen.ToUpperAscii` | src/components/ResultsScreen.tsx:151 | upper-casing keeps the length and maps each character to its ASCII capital |
| `ResultsScreen.UpperCaseInjective` | src/components/ResultsScreen.tsx:151 | two lower-case words with the same upper-cased form are equal |
| `ResultsScreen.DisplayedCodes` | src/components/ResultsScreen.tsx:214 | `mel` is shown as `MEL`, and the displayed codes still tell the seven diagnoses apart |

## Left out

- `GenerateDiagnosis.LookupCode`: models only the object's own keys. Indexing a JavaScript object with an inherited property name such as `constructor`, `toString` or `__proto__` returns an `Object.prototype` member, and the model does not capture that; no code path indexes the table with such a name.
- `src/utils/api.ts`: the network call, JSON parsing and the environment setting for the endpoint. `App` never calls it, so there is no classifier-failure transition. The classifier's answer arrives as the parameters of the loading-complete event.
- Timers and the clock (`setInterval`, `setTimeout`, `clearTimeout`, `Date.now`): elapsed time is an integer number of milliseconds. Timer cancellation on unmount is not modelled.
- `LoadingScreen.ScreenState.Tick`: stores elapsed milliseconds, where the source stores seconds (`elapsed / 1000`). Those seconds feed only `formatTime`, which is floating-point display and is not modelled.
- Floating-point display: the `toFixed` confidence percentage, the progress-ring rotation, the rounding of the progress label, and `formatTime`. Progress is modelled exactly as a real number.
- The random choices of the commented-out generator: the weighted diagnosis selection and `Math.random`. The selected code and the variation are parameters of `GenerateSkinAnalysis`.
- JSX markup, CSS class strings (kept as literal tokens), icon components (kept as datatypes), `URL.createObjectURL` (the preview URL is a parameter), image previews and the static disclaimer text.
- React semantics: re-rendering, hook dependencies, stale closures over `userData`, and effect cleanup. Every handler sees the current cells.
- `UserDataForm.Form.SetAge`: takes an integer. `parseInt` can give NaN for an empty field, and that case is not modelled. The guards `age <= 0` and `age > 0` differ only on NaN, so on integers the two checks agree.
- `UserDataForm.Form.SetGender`: requires male or female, because the select offers only those two options and its handler casts to that union.
- `App.Render`: the default branch of the state switch cannot be reached, because the state is a closed datatype. The function has no fallback view.
- `ResultsScreen.ToUpperAscii`: upper-cases ASCII letters only. JavaScript's `toUpperCase` is full Unicode, but all diagnosis codes are ASCII.
- The patient-data header, the summary card and the confidence bar of the results screen are plain markup around the mappings above, and are not modelled.
