/**
 * The session wrapper (AnxietyManager): an optional PatientState behind
 * null guards, read-outs with defaults while no session exists, and the
 * animator parameter set from the dialogue service's level label.
 */
module Manager {
  import opened Wrappers
  import opened Numeric
  import opened Text
  import opened Records
  import opened Levels
  import opened Patient

  /** What GeneratePrompt answers while no session exists. */
  const NotInitialized: string := "Error: Patient not initialized"

  /**
   * The value of the animator's "AnxietyLevel" parameter for a level label,
   * ignoring letter case: mild 0.3, moderate 0.6, severe 1.0, anything else 0.5.
   */
  function AnimatorValue(level: string): (value: real)
    ensures value == 0.3 || value == 0.6 || value == 1.0 || value == 0.5
  {
    match Lower(level)
    case "mild" => 0.3
    case "moderate" => 0.6
    case "severe" => 1.0
    case _ => 0.5
  }

  class AnxietyManager {
    /** Whether an animator is attached; the animator is never replaced. */
    const hasAnimator: bool
    /** The last value given to the animator's "AnxietyLevel" parameter, if any. */
    var animatorLevel: Option<real>
    var patientState: PatientState?

    /** A session, when there is one, is consistent. */
    predicate Valid()
      reads this, patientState
    {
      patientState != null ==> patientState.Valid()
    }

    constructor (hasAnimator: bool)
      ensures Valid()
      ensures this.hasAnimator == hasAnimator
      ensures patientState == null && animatorLevel == None
    {
      this.hasAnimator := hasAnimator;
      animatorLevel := None;
      patientState := null;
    }

    /** The current anxiety, or 0.5 while no session exists. */
    function CurrentAnxiety(): (anxiety: real)
      reads this, patientState
      ensures patientState == null ==> anxiety == 0.5
      ensures patientState != null ==> anxiety == patientState.currentAnxiety
    {
      if patientState == null then 0.5 else patientState.currentAnxiety
    }

    /** The band of the current anxiety, or "mild" while no session exists: always one of the four labels. */
    function CurrentAnxietyLevel(): (level: string)
      reads this, patientState
      ensures patientState == null ==> level == "mild"
      ensures patientState != null ==> level == patientState.GetAnxietyLevel()
      ensures Rank(level) >= 0
    {
      if patientState == null then "mild" else patientState.GetAnxietyLevel()
    }

    /** The session's prompt, or the fixed error text while no session exists. */
    function GeneratePrompt(doctorSpeech: string): (prompt: string)
      reads this, patientState
      ensures patientState == null ==> prompt == NotInitialized
      ensures patientState != null ==> prompt == patientState.GeneratePrompt(doctorSpeech)
    {
      if patientState == null then NotInitialized else patientState.GeneratePrompt(doctorSpeech)
    }

    /** The session's reply length bounds, or (0, 100) while no session exists. */
    function GetResponseLengthRange(): (range: (int, int))
      reads this, patientState
      ensures patientState == null ==> range == (0, 100)
      ensures patientState != null ==> range == patientState.GetResponseLengthRange()
    {
      if patientState == null then (0, 100) else patientState.GetResponseLengthRange()
    }

    /** The session's transcript, or nothing while no session exists. */
    function ExportDialogueLog(): (log: Option<string>)
      reads this, patientState
      ensures log == None <==> patientState == null
      ensures patientState != null ==> log == Some(patientState.ExportDialogueLog())
    {
      if patientState == null then None else Some(patientState.ExportDialogueLog())
    }

    /** Starts a fresh session for the case, dropping any earlier one. */
    method Initialize(caseData: CaseData)
      modifies this
      ensures Valid()
      ensures patientState != null && fresh(patientState)
      ensures patientState.caseName == caseData.caseName && patientState.caseId == caseData.caseId
      ensures patientState.personality == caseData.personality
      ensures patientState.personalityParams == caseData.personalityParams
      ensures patientState.symptoms == caseData.symptoms
      ensures patientState.currentAnxiety == caseData.initialAnxiety
      ensures patientState.conversationTurn == 0 && patientState.dialogueHistory == []
      ensures patientState.symptomsMentioned == []
      ensures animatorLevel == old(animatorLevel)
    {
      patientState := new PatientState(caseData);
    }

    /**
     * Records one exchange in the session and moves the animator to the
     * service's level label; does nothing while no session exists.
     */
    method UpdateAnxiety(deltaFromLLM: real, anxietyLevelFromLLM: string,
                         doctorSpeech: string, patientSpeech: string, understands: bool)
      requires Valid()
      modifies this, patientState
      ensures Valid()
      ensures patientState == old(patientState)
      ensures old(patientState) == null ==> animatorLevel == old(animatorLevel)
      ensures old(patientState) != null ==>
                && patientState.conversationTurn == old(patientState.conversationTurn) + 1
                && patientState.currentAnxiety == Clamp01(old(patientState.currentAnxiety) + deltaFromLLM)
                && patientState.dialogueHistory == old(patientState.dialogueHistory)
                     + [DialogueTurn(patientState.conversationTurn, doctorSpeech, patientSpeech,
                                     old(patientState.currentAnxiety), patientState.currentAnxiety, understands)]
                && patientState.symptomsMentioned == NotedSymptoms(old(patientState.symptomsMentioned),
                                                                   patientState.conversationTurn, doctorSpeech, patientSpeech)
                && animatorLevel == if hasAnimator then Some(AnimatorValue(anxietyLevelFromLLM)) else old(animatorLevel)
    {
      if patientState == null {
        return;
      }
      patientState.UpdateState(deltaFromLLM, doctorSpeech, patientSpeech, understands);
      UpdateAvatarAnimation(anxietyLevelFromLLM);
    }

    /** Gives the animator the value for the level label; nothing happens without an animator. */
    method UpdateAvatarAnimation(anxietyLevel: string)
      modifies this
      ensures patientState == old(patientState)
      ensures animatorLevel == if hasAnimator then Some(AnimatorValue(anxietyLevel)) else old(animatorLevel)
    {
      if !hasAnimator {
        return;
      }
      animatorLevel := Some(AnimatorValue(anxietyLevel));
    }
  }

  /** Each value is given exactly for its label, in any letter case; every other label gets 0.5. */
  lemma AnimatorTable(level: string)
    ensures AnimatorValue(level) == 0.3 <==> Lower(level) == "mild"
    ensures AnimatorValue(level) == 0.6 <==> Lower(level) == "moderate"
    ensures AnimatorValue(level) == 1.0 <==> Lower(level) == "severe"
    ensures AnimatorValue(level) == 0.5 <==> Lower(level) !in {"mild", "moderate", "severe"}
  {
  }

  /** The animator mapping ignores letter case. */
  lemma AnimatorIgnoresCase(level: string)
    ensures AnimatorValue(Lower(level)) == AnimatorValue(level)
  {
    LowerIdempotent(level);
  }

  /** A label already in lower case is looked up as it is. */
  lemma AnimatorOnLowercase(level: string)
    requires forall i :: 0 <= i < |level| ==> !IsUpper(level[i])
    ensures AnimatorValue(level) == if level == "mild" then 0.3
                                    else if level == "moderate" then 0.6
                                    else if level == "severe" then 1.0
                                    else 0.5
  {
    LowerOfLowercase(level);
  }

  /**
   * Fed the engine's own band labels, the animator tells only the mild band
   * apart: "none", "significant" and "extreme" all fall to the default 0.5.
   */
  lemma AnimatorOnEngineLabels(level: string)
    requires Rank(level) >= 0
    ensures AnimatorValue(level) == if level == "mild" then 0.3 else 0.5
  {
    assert level in {"none", "mild", "significant", "extreme"};
    AnimatorOnLowercase(level);
  }
}
