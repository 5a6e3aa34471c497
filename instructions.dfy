/**
 * The fixed role instruction that each step sends with the transcript
 * (app.py:177-194, 221-236, 261-270, 294-316). Their wording carries no logic:
 * each is a constant whose value the model leaves unspecified, so everything
 * proved holds whatever the instructions say.
 */
module Instructions {

  /** Step 0: listen to the first impression and judgment, reply with one question (app.py:177-194). */
  const FirstImpressionInstruction: string

  /** Step 1: hint at emotional or exaggerated wording (app.py:221-236). */
  const EmotionalLanguageInstruction: string

  /** Step 2: missing information and sources (app.py:261-270). */
  const MissingInformationInstruction: string

  /** Step 3: final judgment and the summary of the day (app.py:294-316). */
  const FinalJudgmentInstruction: string

  /** The instruction sent with the submission of step k. */
  function ForStep(k: nat): string
    requires k < 4
  {
    if k == 0 then FirstImpressionInstruction
    else if k == 1 then EmotionalLanguageInstruction
    else if k == 2 then MissingInformationInstruction
    else FinalJudgmentInstruction
  }
}
