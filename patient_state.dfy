/**
 * The per-session patient (PatientState): a profile fixed at construction,
 * and the anxiety, turn counter, symptom notes and dialogue history that each
 * exchange updates.
 */
module Patient {
  import opened Numeric
  import opened Text
  import opened Format
  import opened Records
  import opened Levels
  import Prompt
  import Transcript

  /** The six SPIKES stages, each not yet reached. */
  const SpikesStart: map<string, bool> :=
    map["setting" := false, "perception" := false, "invitation" := false,
        "knowledge" := false, "emotion" := false, "strategy" := false]

  /** The two phrases that mark the doctor asking about symptoms. */
  predicate AsksAboutSymptoms(doctorSpeech: string)
  {
    Contains(doctorSpeech, "什么症状") || Contains(doctorSpeech, "哪里不舒服")
  }

  /** The note kept when the doctor asks about symptoms. */
  function SymptomNote(turn: int, patientSpeech: string): string
  {
    "Turn " + IntToString(turn) + ": " + patientSpeech
  }

  /** The symptom notes after an exchange: one more exactly when the doctor asked about symptoms. */
  function NotedSymptoms(notes: seq<string>, turn: int, doctorSpeech: string, patientSpeech: string): seq<string>
  {
    if AsksAboutSymptoms(doctorSpeech) then notes + [SymptomNote(turn, patientSpeech)] else notes
  }

  /** The notes grow by exactly one, at the end, when the doctor asks about symptoms, and stay as they are otherwise. */
  lemma NotedSymptomsGrows(notes: seq<string>, turn: int, doctorSpeech: string, patientSpeech: string)
    ensures var notes' := NotedSymptoms(notes, turn, doctorSpeech, patientSpeech);
            && (|notes'| == |notes| + 1 <==> AsksAboutSymptoms(doctorSpeech))
            && (!AsksAboutSymptoms(doctorSpeech) <==> notes' == notes)
            && notes'[..|notes|] == notes
  {
  }

  /**
   * The anxiety values of the history link up: the first exchange starts
   * from `initial`, each starts where the previous one ended, and `current`
   * is where the last one ended (or `initial` when there is none).
   */
  predicate Chained(initial: real, history: seq<DialogueTurn>, current: real)
  {
    && (history == [] ==> current == initial)
    && (history != [] ==> history[0].anxietyBefore == initial && history[|history| - 1].anxietyAfter == current)
    && (forall k :: 0 < k < |history| ==> history[k - 1].anxietyAfter == history[k].anxietyBefore)
  }

  /**
   * One history entry per turn, numbered from 1; anxieties chained from the
   * initial value to the current one; every recorded result in [0, 1]; at
   * most one symptom note per turn.
   */
  predicate Consistent(initial: real, turn: int, history: seq<DialogueTurn>, current: real, notes: seq<string>)
  {
    && turn == |history|
    && (forall k :: 0 <= k < |history| ==> history[k].turn == k + 1)
    && Chained(initial, history, current)
    && (forall k :: 0 <= k < |history| ==> 0.0 <= history[k].anxietyAfter <= 1.0)
    && |notes| <= turn
  }

  /** Recording an exchange that starts from the current anxiety and ends in [0, 1] keeps the state consistent. */
  lemma ConsistentStep(initial: real, history: seq<DialogueTurn>, current: real, notes: seq<string>,
                       entry: DialogueTurn, notes': seq<string>)
    requires Consistent(initial, |history|, history, current, notes)
    requires entry.turn == |history| + 1 && entry.anxietyBefore == current
    requires 0.0 <= entry.anxietyAfter <= 1.0
    requires |notes'| <= |notes| + 1
    ensures Consistent(initial, |history| + 1, history + [entry], entry.anxietyAfter, notes')
  {
  }

  class PatientState {
    const caseId: string
    const caseName: string
    const personality: string
    const personalityParams: PersonalityParams
    const initialAnxiety: real
    const symptoms: string
    /** Set up with every stage false and never read or written again. */
    const spikesProgress: map<string, bool>

    var currentAnxiety: real
    var conversationTurn: int
    var symptomsMentioned: seq<string>
    var dialogueHistory: seq<DialogueTurn>

    /** The recorded state is consistent (see Consistent). */
    predicate Valid()
      reads this
    {
      Consistent(initialAnxiety, conversationTurn, dialogueHistory, currentAnxiety, symptomsMentioned)
    }

    constructor (caseData: CaseData)
      ensures Valid()
      ensures caseId == caseData.caseId && caseName == caseData.caseName
      ensures personality == caseData.personality && personalityParams == caseData.personalityParams
      ensures initialAnxiety == caseData.initialAnxiety && symptoms == caseData.symptoms
      ensures currentAnxiety == caseData.initialAnxiety
      ensures conversationTurn == 0 && symptomsMentioned == [] && dialogueHistory == []
      ensures spikesProgress == SpikesStart
    {
      caseId := caseData.caseId;
      caseName := caseData.caseName;
      personality := caseData.personality;
      personalityParams := caseData.personalityParams;
      initialAnxiety := caseData.initialAnxiety;
      symptoms := caseData.symptoms;
      currentAnxiety := caseData.initialAnxiety;
      conversationTurn := 0;
      symptomsMentioned := [];
      dialogueHistory := [];
      spikesProgress := SpikesStart;
    }

    /**
     * Records one exchange: the turn counter moves on by one, the anxiety
     * moves by `deltaAnxiety` clamped into [0, 1], exactly one entry joins
     * the history, and a symptom note joins exactly when the doctor asked
     * about symptoms.
     */
    method UpdateState(deltaAnxiety: real, doctorSpeech: string, patientSpeech: string, understands: bool)
      requires Valid()
      modifies this
      ensures Valid()
      ensures conversationTurn == old(conversationTurn) + 1
      ensures currentAnxiety == Clamp01(old(currentAnxiety) + deltaAnxiety)
      ensures 0.0 <= currentAnxiety <= 1.0
      ensures dialogueHistory == old(dialogueHistory)
                + [DialogueTurn(conversationTurn, doctorSpeech, patientSpeech, old(currentAnxiety), currentAnxiety, understands)]
      ensures symptomsMentioned == NotedSymptoms(old(symptomsMentioned), conversationTurn, doctorSpeech, patientSpeech)
    {
      conversationTurn := conversationTurn + 1;

      var oldAnxiety := currentAnxiety;
      currentAnxiety := Clamp01(currentAnxiety + deltaAnxiety);

      var entry := DialogueTurn(conversationTurn, doctorSpeech, patientSpeech, oldAnxiety, currentAnxiety, understands);
      ConsistentStep(initialAnxiety, dialogueHistory, oldAnxiety, symptomsMentioned, entry,
                     NotedSymptoms(symptomsMentioned, conversationTurn, doctorSpeech, patientSpeech));
      dialogueHistory := dialogueHistory + [entry];

      if AsksAboutSymptoms(doctorSpeech) {
        symptomsMentioned := symptomsMentioned + [SymptomNote(conversationTurn, patientSpeech)];
      }
    }

    /** The band of the current anxiety. */
    function GetAnxietyLevel(): (level: string)
      reads this`currentAnxiety
      ensures Rank(level) >= 0
    {
      AnxietyLevel(currentAnxiety)
    }

    /** The reply length bounds of the personality, minimum first. */
    function GetResponseLengthRange(): (range: (int, int))
      ensures range.0 == personalityParams.responseLengthMin && range.1 == personalityParams.responseLengthMax
    {
      (personalityParams.responseLengthMin, personalityParams.responseLengthMax)
    }

    /** The prompt for the doctor's utterance, from the profile, the current anxiety and the recent history. */
    function GeneratePrompt(doctorSpeech: string): string
      reads this`currentAnxiety, this`dialogueHistory
    {
      Prompt.PromptText(symptoms, personality, currentAnxiety, GetResponseLengthRange(), dialogueHistory, doctorSpeech)
    }

    /** The transcript of the case and every recorded exchange. */
    function ExportDialogueLog(): string
      reads this`dialogueHistory
    {
      Transcript.LogText(caseName, caseId, personality, initialAnxiety, dialogueHistory)
    }
  }

  /**
   * The anxiety lies in [0, 1] once there has been an exchange, whatever the
   * initial value was; before that it is the unclamped initial value.
   */
  lemma AnxietyBounded(initial: real, history: seq<DialogueTurn>, current: real, notes: seq<string>)
    requires Consistent(initial, |history|, history, current, notes)
    requires history != [] || 0.0 <= initial <= 1.0
    ensures 0.0 <= current <= 1.0
  {
    if history != [] {
      assert history[|history| - 1].anxietyAfter == current;
    }
  }
}
