# Virtual patient anxiety engine, modelled in Dafny

This project models the anxiety engine of a virtual-patient training
simulator. A doctor trainee talks to a simulated patient. The engine keeps
the patient's anxiety in [0, 1], records every exchange, and writes the
prompt that the dialogue service answers in the patient's voice. It also
scores the doctor's words against a keyword lexicon and blends that score
with the service's own estimate.

The model has four parts, one per source file:

- `PatientState` (`patient_state.dfy`, module `Patient`) is a class whose
  `UpdateState` changes its fields in place. The prompt text (`prompt.dfy`)
  and the transcript text (`transcript.dfy`) are pure functions of its state.
  The four anxiety bands are in `levels.dfy`. The records it is built from
  (`CaseData`, `PersonalityParams`, `DialogueTurn`) are datatypes in
  `records.dfy`.
- `AnxietyAnalyzer` (`analyzer.dfy`) is a class holding an immutable lexicon.
  `FindWords` and the multiplier loops are methods with loop invariants. Each
  is proved against a specification function (`Matched`, `ScaleBy`,
  `Multiplier`, `Analysis`), and the properties are proved about those
  functions.
- `AnxietyKeywords` (`keywords.dfy`) is the default lexicon, as a value.
- `AnxietyManager` (`manager.dfy`) is a class around an optional
  `PatientState`. It has null guards, default read-outs and the animator
  parameter.

Supporting modules:

- `numeric.dfy` holds Mathf's Clamp, Clamp01 and Sign, on reals.
- `text.dfy` holds ASCII `ToLower`, ordinal `Contains` and the regex
  `\b<word>\b` test.
- `format.dfy` holds the number formats used in interpolation: `:F2`, the
  default float rendering and integers. It also holds `Concat`, the in-order
  join of appended pieces that both the prompt's history section and the
  transcript are built from.

The model follows the code where the code and its own comments disagree:

- The comment at `Scripts/Managers/AnxietyManager.cs:60` says the update already
  includes a decay mechanism. `PatientState.UpdateState` applies none: the field
  `base_anxiety_decay` is loaded but never read. The model has no decay.

Modelling decisions:

- `AnxietyManager.UpdateAnxiety` passes five arguments to the four-parameter
  `PatientState.UpdateState`. The model passes
  `(delta, doctorSpeech, patientSpeech, understands)` and uses the level label
  only for the animator.
- The constructor reads `case_data.case_name`, which is a typo for
  `caseData.case_name`. The model takes the case name from the case data.
- The constructor parses JSON in the source. Here it takes the `CaseData`
  value directly.
- `CombineDeltas` is an instance method that reads no state. It is modelled
  as a static function.

## Model

| member | source | states |
|---|---|---|
| `Patient.PatientState.constructor` | PatientState.cs:26-59 | Copies the profile from the case data. Sets the anxiety to the initial value, unclamped, the turn to 0 and both lists to empty. Every SPIKES stage starts false. The state invariant holds. |
| `Patient.PatientState.UpdateState` | PatientState.cs:62-91 | The turn counter grows by exactly one. The anxiety becomes Clamp01(old + delta). Exactly one entry is appended, carrying the new turn, the two texts, the old and new anxiety and the flag; earlier entries are unchanged. A symptom note is added exactly when the doctor's words ask about symptoms. The invariant is preserved: one entry per turn, numbered from 1, anxieties chained, every result in [0, 1]. |
| `Patient.ConsistentStep` | PatientState.cs:64-80 | An entry that starts from the current anxiety, ends in [0, 1] and has the next number keeps the recorded history consistent. |
| `Patient.NotedSymptomsGrows` | PatientState.cs:83-87 | The notes grow by exactly one exactly when the doctor asks "什么症状" or "哪里不舒服". The old notes are kept as a prefix. Otherwise nothing changes. |
| `Patient.AnxietyBounded` | PatientState.cs:40-68 | After the first exchange the anxiety lies in [0, 1] whatever the initial value was. Before that, it does only if the initial value does. |
| `Patient.PatientState.GetAnxietyLevel` | PatientState.cs:94-100 | The reported level is always one of the four band labels. |
| `Patient.PatientState.GetResponseLengthRange` | PatientState.cs:103-109 | The bounds are the personality's minimum and maximum reply length, minimum first. The prompt quotes them (`Prompt.PromptStatesLengths`). |
| `Levels.LevelBands` | PatientState.cs:94-100 | Each label is reported exactly on its half-open band: none below 0.3, mild on [0.3, 0.6), significant on [0.6, 0.8), extreme from 0.8. |
| `Levels.LevelMonotone` | PatientState.cs:94-100 | More anxiety never gives a lower band. |
| `Levels.LevelThresholds` | PatientState.cs:96-99 | Each threshold belongs to the band above it. |
| `Prompt.RecentTurns` | PatientState.cs:153-154 | The window is the last min(3, n) history entries, in history order. |
| `Prompt.RecentTurnsSlide` | PatientState.cs:150-159 | After one more exchange the new turn joins the window at the end. Once three turns are shown, the oldest one leaves. |
| `Prompt.LastThreeExchanges` | PatientState.cs:150-161 | With three or more turns, the history section is the heading, then the last three exchanges in order (doctor line, then patient line), then a blank line. |
| `Prompt.ExchangesAppend` | PatientState.cs:154-159 | Rendering two consecutive runs of turns is rendering each in turn. |
| `Prompt.HistorySectionPresent` | PatientState.cs:150-161 | The history section is absent exactly when the history is empty. |
| `Prompt.PromptWindow` | PatientState.cs:112-179 | The prompt depends on the history only through its last three turns. |
| `Prompt.TraitChoice` | PatientState.cs:125-146 | The extrovert label and traits are chosen exactly when the personality is "extrovert". Every other string gets the introvert ones. |
| `Prompt.PromptRepeatsSpeech` | PatientState.cs:163-166 | The prompt contains the heading line "## 医生现在说" followed at once by the doctor's utterance on a line of its own. |
| `Prompt.PromptStatesLengths` | PatientState.cs:126-129 | The prompt contains a line break followed by the whole line "回答长度要求：<min>到<max>字之间", so the reply length bounds stand on a line of their own, minimum first. |
| `Prompt.PromptText` | PatientState.cs:112-179 | The prompt opens with the role section and closes with the required-output-format section. |
| `Transcript.LogText` | PatientState.cs:182-200 | The transcript opens with the four header lines naming the case, its personality and its initial anxiety. |
| `Transcript.LogGrows` | PatientState.cs:182-200 | Recording one more exchange extends the exported transcript by exactly that exchange's block. |
| `Transcript.BlocksAppend` | PatientState.cs:190-197 | The transcript body for two consecutive stretches of history is the body of each, in order. |
| `Transcript.BlocksSingle` | PatientState.cs:190-197 | One exchange gives exactly one block. |
| `Analyzer.AnxietyAnalyzer.constructor` | Scripts/Analyzers/AnxietyAnalyzer.cs:27-30 | The configuration is stored once and never changes. |
| `Analyzer.AnxietyAnalyzer.AnalyzeDoctorSpeech` | Scripts/Analyzers/AnxietyAnalyzer.cs:35-68 | Returns the specification result `Analysis`. The delta always lies in [-0.3, 0.3]. The match lists are null exactly when the utterance is null or empty or the configuration is missing, and then delta and raw score are 0. |
| `Analyzer.AnxietyAnalyzer.FindWords` | Scripts/Analyzers/AnxietyAnalyzer.cs:73-88 | Returns the listed words whose lower-case form occurs as a whole word, in list order. |
| `Analyzer.MatchedMembers` | Scripts/Analyzers/AnxietyAnalyzer.cs:73-88 | A word is reported exactly when it is listed and `\b<word>\b` matches the text. |
| `Analyzer.MatchedMultiplicity` | Scripts/Analyzers/AnxietyAnalyzer.cs:77-85 | A matching word is reported as often as it is listed, however often it occurs in the text. A non-matching word is never reported. |
| `Analyzer.AnxietyAnalyzer.GetIntensifierMultiplier` | Scripts/Analyzers/AnxietyAnalyzer.cs:93-116 | Returns the specification multiplier: the intensifier factors, then the softener factors. |
| `Analyzer.AnxietyAnalyzer.ApplyFactors` | Scripts/Analyzers/AnxietyAnalyzer.cs:98-113 | Multiplies by the factor once for each entry contained in the text, in list order. |
| `Analyzer.ScaleIsPower` | Scripts/Analyzers/AnxietyAnalyzer.cs:98-113 | Multiplying once per contained entry is multiplying by the factor raised to their number. |
| `Analyzer.MultiplierIsPowers` | Scripts/Analyzers/AnxietyAnalyzer.cs:93-116 | The multiplier is intensifierMultiplier^(intensifiers contained) × softenerMultiplier^(softeners contained). It is 1 when none is contained. |
| `Analyzer.CountContainedZero` | Scripts/Analyzers/AnxietyAnalyzer.cs:98-113 | No factor is counted exactly when no entry is contained. |
| `Analyzer.MultiplierPositive` | Scripts/Analyzers/AnxietyAnalyzer.cs:93-116 | With positive factors the multiplier is positive. |
| `Analyzer.AnalysisSign` | Scripts/Analyzers/AnxietyAnalyzer.cs:52-59 | With positive factors the delta has the sign of the raw score: positive, negative or zero with it. |
| `Analyzer.DefaultDirection` | Scripts/Analyzers/AnxietyAnalyzer.cs:42-59 | With the default lexicon, only positive matches lower anxiety and only negative matches raise it. |
| `Analyzer.CappedExample` | Scripts/Analyzers/AnxietyAnalyzer.cs:52-59 | No positive matches, two negative matches and multiplier 1.5 give raw 0.3 and 0.45, clamped to 0.3. |
| `Analyzer.ExampleIntensifier` | Scripts/Analyzers/AnxietyAnalyzer.cs:98-104 | "this is very serious, i'm afraid it might be cancer" contains the intensifier "very". |
| `Analyzer.ExampleSerious` | Scripts/Analyzers/AnxietyAnalyzer.cs:77-85 | In that text the default negative word "serious" is found as a whole word. |
| `Analyzer.ExampleCancer` | Scripts/Analyzers/AnxietyAnalyzer.cs:77-85 | In that text the default negative word "cancer" is found as a whole word, at the very end. |
| `Analyzer.AnxietyAnalyzer.CombineDeltas` | Scripts/Analyzers/AnxietyAnalyzer.cs:121-140 | The blend always lies in [-0.3, 0.3]. |
| `Analyzer.CombineMonotone` | Scripts/Analyzers/AnxietyAnalyzer.cs:121-134 | With the default weights, a larger service delta never gives a smaller blend, including where the sign agreement switches. |
| `Analyzer.CombineAgreeingSigns` | Scripts/Analyzers/AnxietyAnalyzer.cs:125-131 | When both deltas point the same strict way, so does the blend. |
| `Analyzer.CombineZeroCountsAsPositive` | Scripts/Analyzers/AnxietyAnalyzer.cs:128-131 | A zero service delta agrees with a positive keyword delta and is boosted (0.036). It does not agree with a negative one (-0.03). |
| `Text.IncurableIsNotCurable` | Scripts/Analyzers/AnxietyAnalyzer.cs:80-81 | "curable" is a substring of "incurable" but not a whole-word match. |
| `Text.AlsoContainsSo` | Scripts/Analyzers/AnxietyAnalyzer.cs:100 | Substring containment finds "so" inside "also"; the whole-word test does not. |
| `Text.ContainsSpec` | Scripts/Analyzers/AnxietyAnalyzer.cs:100 | The ordinal containment test succeeds exactly when the entry occurs at some index. |
| `Text.ContainsWholeWordSpec` | Scripts/Analyzers/AnxietyAnalyzer.cs:80-81 | The whole-word test succeeds exactly when `\b<word>\b` matches at some index. |
| `Text.WholeWordIsContained` | Scripts/Analyzers/AnxietyAnalyzer.cs:80-81 | Every whole-word match is also a substring match. |
| `Text.WholeWordNeighbours` | Scripts/Analyzers/AnxietyAnalyzer.cs:80 | For a word with word characters at both ends, `\b` on both sides means that the neighbours, where present, are not word characters. |
| `Text.LowerIdempotent` | Scripts/Analyzers/AnxietyAnalyzer.cs:42 | Lower-casing twice is lower-casing once. |
| `Numeric.Clamp` | Scripts/Analyzers/AnxietyAnalyzer.cs:59 | The result lies in the range. It is the value itself inside the range and the nearer end outside it. |
| `Numeric.Sign` | Scripts/Analyzers/AnxietyAnalyzer.cs:128 | Mathf.Sign is 1 exactly for non-negative values, zero included, and -1 otherwise. |
| `Keywords.DefaultWeights` | Scripts/Config/AnxietyKeywords.cs:45-48 | The positive weight is below 0 and the negative weight above 0. The intensifier factor exceeds 1 and the softener factor lies in (0, 1). |
| `Keywords.DefaultSizes` | Scripts/Config/AnxietyKeywords.cs:11-42 | The lists have 16 positive words, 21 negative words, 9 intensifiers and 9 softeners. |
| `Keywords.DefaultDisjoint` | Scripts/Config/AnxietyKeywords.cs:11-26 | No word is both positive and negative. |
| `Keywords.DefaultLowercase` | Scripts/Config/AnxietyKeywords.cs:11-42 | Every default entry is lower-case, so ToLower leaves it unchanged. |
| `Keywords.DefaultPhraseSofteners` | Scripts/Config/AnxietyKeywords.cs:38-42 | "a little", "kind of" and "a bit" are softeners with a space in them. |
| `Manager.AnxietyManager.constructor` | Scripts/Managers/AnxietyManager.cs:8-12 | A new manager has no session and has set no animator value. |
| `Manager.AnxietyManager.CurrentAnxiety` | Scripts/Managers/AnxietyManager.cs:16 | Gives 0.5 while no session exists, and the session's anxiety otherwise. |
| `Manager.AnxietyManager.CurrentAnxietyLevel` | Scripts/Managers/AnxietyManager.cs:17 | Gives "mild" while no session exists, and the session's band otherwise. It is always one of the four labels. |
| `Manager.AnxietyManager.GeneratePrompt` | Scripts/Managers/AnxietyManager.cs:32-41 | Gives exactly "Error: Patient not initialized" while no session exists, and the session's prompt otherwise. |
| `Manager.AnxietyManager.GetResponseLengthRange` | Scripts/Managers/AnxietyManager.cs:43-46 | Gives (0, 100) while no session exists, and the session's bounds otherwise. |
| `Manager.AnxietyManager.ExportDialogueLog` | Scripts/Managers/AnxietyManager.cs:69-78 | Gives nothing while no session exists, and the session's transcript otherwise. |
| `Manager.AnxietyManager.Initialize` | Scripts/Managers/AnxietyManager.cs:19-30 | Replaces any earlier session with a fresh one for the case: turn 0, empty history, anxiety equal to the initial value. |
| `Manager.AnxietyManager.UpdateAnxiety` | Scripts/Managers/AnxietyManager.cs:48-66 | Changes nothing while no session exists. Otherwise the session performs UpdateState, and an attached animator gets the value for the service's level label. |
| `Manager.AnxietyManager.UpdateAvatarAnimation` | Scripts/Managers/AnxietyManager.cs:81-101 | Without an animator nothing happens. Otherwise the animator's value is the mapping of the label. |
| `Manager.AnimatorValue` | Scripts/Managers/AnxietyManager.cs:86-100 | The animator value is always one of 0.3, 0.6, 1.0 and the default 0.5. |
| `Manager.AnimatorTable` | Scripts/Managers/AnxietyManager.cs:86-100 | Ignoring case: "mild" gives 0.3, "moderate" 0.6 and "severe" 1.0. Every other label, and only those, gives 0.5. |
| `Manager.AnimatorIgnoresCase` | Scripts/Managers/AnxietyManager.cs:86 | The mapping of a label equals the mapping of its lower-case form. |
| `Manager.AnimatorOnEngineLabels` | Scripts/Managers/AnxietyManager.cs:86-100 | Among the engine's own labels only "mild" moves the animator off 0.5: "none", "significant" and "extreme" all give 0.5. |

## Left out

- Unity: MonoBehaviour lifecycle, serialized fields, `Animator.SetFloat` (modelled as the stored value `animatorLevel`), `Debug.Log` and `Debug.LogError`. The model treats `patientState` as null until `Initialize`. Unity's serializer would instead fill the serialized field of a manager loaded from a scene with a default `PatientState`, so the null guards would not fire there. That case is not modelled.
- JSON: `JsonUtility.FromJson` and `ToJson`. The constructor and `Initialize` take a `CaseData` value.
- File I/O: `File.WriteAllText` in the manager's `ExportDialogueLog`. The model returns the transcript string.
- `DateTime.Now`: the timestamp of a `DialogueTurn` is nondeterministic, and the datatype has no timestamp.
- `LLMService.cs` (a network round trip) and `Scripts/Debug/AnxietyDebugger.cs` (UI refresh) are not part of this model.
- The root `AnxietyManager.cs` is a superseded duplicate of the manager and is not part of this model.
- `AnalysisResult.ToString` and the debug messages are not modelled. They are diagnostic text only.
- Floating point: `float` is `real`. The bands and caps compare against exact 0.3, 0.6 and 0.8, not their single-precision neighbours. `:F2` rounds half away from zero. The default float rendering is rounded to seven decimals with trailing zeros trimmed. .NET differs from this in three ways not modelled: it writes very small or very large floats in exponent form (`1E-05`), it rounds the default rendering to significant digits rather than decimal places, and both renderings use the current culture's decimal separator. NaN is not modelled either. `Mathf.Clamp01` passes NaN through unchanged, so in the source a NaN delta leaves the anxiety NaN from then on, and `GetAnxietyLevel` then reports "extreme". The [0, 1] bounds of `Patient.PatientState.UpdateState` and `Patient.AnxietyBounded` hold in the source only for deltas that are not NaN.
- Text:
  - `ToLower` maps only ASCII capitals; culture-specific casing is not modelled.
  - `\w` counts only ASCII letters, digits, `_` and the CJK ideographs U+4E00 to U+9FFF as word characters.
  - A line break is "\n", not the platform's newline.
- Null inputs: only the analyzer's utterance and configuration can be null (`Option`). Null lists inside a lexicon, and null strings elsewhere, are not modelled.
- Patient.PatientState.UpdateState: the contract does not restate the transcript. It says which entry is appended, and `Transcript.LogGrows` says that appending an entry adds exactly its block to `ExportDialogueLog`.
- Patient.PatientState.GeneratePrompt and Patient.PatientState.ExportDialogueLog: these are specified by the `Prompt` and `Transcript` lemmas on `PromptText` and `LogText`, which they return. They have no contracts of their own.
- Analyzer.ExampleSerious: the worked example proves that "very", "serious" and "cancer" are found and the arithmetic `CappedExample`. It does not prove that no other word of the lexicon matches, so the full delta of the example sentence is not stated as one lemma.
- `spikes_progress` is only a constant map. Nothing reads it or writes it after construction.
