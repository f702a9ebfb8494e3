/**
 * The plain records the engine is configured with and keeps: a case as
 * loaded from its description, the personality parameters inside it, and one
 * recorded exchange of the dialogue.
 */
module Records {

  /** Personality parameters of a case; the decay rate is loaded but never read by the engine. */
  datatype PersonalityParams = PersonalityParams(
    baseAnxietyDecay: real,
    responseLengthMin: int,
    responseLengthMax: int)

  /** A case description: identity, personality, initial anxiety and symptoms. */
  datatype CaseData = CaseData(
    caseId: string,
    caseName: string,
    personality: string,   // "extrovert" or "introvert"
    personalityParams: PersonalityParams,
    initialAnxiety: real,
    symptoms: string)

  /** One recorded exchange: the turn number, both utterances and the anxiety around it. */
  datatype DialogueTurn = DialogueTurn(
    turn: int,
    doctor: string,
    patient: string,
    anxietyBefore: real,
    anxietyAfter: real,
    understands: bool)
}
