/**
 * The job entrypoint's choice of agent: the job's metadata selects the review
 * agent or the planning agent, each with its own opening line; the review
 * agent's instructions come from the summary file.
 */
module Sessions {
  import opened Wrappers
  import opened SummaryStore

  /** The only metadata value that selects the review agent. */
  const REVIEW_COACH := "review-coach"

  const OPENING_HEAD := "\nLet's take a breath.\n\n"
  const REVIEW_OPENING := OPENING_HEAD + "It's the end of the week."
                          + " Let's look back at what you set out to do and see how it went.\n"
  const PLANNING_OPENING := OPENING_HEAD + "This is a short weekly focus check.\n\n" + "What's on your mind?\n"

  /** `ReviewAgent` or `VoiceAgent`. */
  datatype Persona = Planning | Review

  /** The agent chosen for a job and the opening it is asked to speak. */
  datatype Dispatch = Dispatch(persona: Persona, opening: string)

  /** `ctx.job.metadata or ""`. */
  function Mode(metadata: Option<string>): string {
    match metadata
    case None => ""
    case Some(m) => m
  }

  /** The branch in `entrypoint` on the mode. */
  function Resolve(metadata: Option<string>): (d: Dispatch)
    ensures d.persona == Review <==> metadata == Some(REVIEW_COACH)
    ensures d.opening == if d.persona == Review then REVIEW_OPENING else PLANNING_OPENING
  {
    if Mode(metadata) == REVIEW_COACH then Dispatch(Review, REVIEW_OPENING)
    else Dispatch(Planning, PLANNING_OPENING)
  }

  /** The two openings differ, so the opening spoken tells which agent runs. */
  lemma OpeningIdentifiesPersona(m1: Option<string>, m2: Option<string>)
    requires Resolve(m1).opening == Resolve(m2).opening
    ensures Resolve(m1).persona == Resolve(m2).persona
  {
  }

  /** Missing metadata, empty metadata and every other tag select the planning agent. */
  lemma FallsBackToPlanning(metadata: Option<string>)
    requires metadata != Some(REVIEW_COACH)
    ensures Resolve(metadata) == Resolve(None) == Resolve(Some(""))
    ensures Resolve(metadata) == Dispatch(Planning, PLANNING_OPENING)
  {
  }

  /** The texts of prompts/weekly_coach_system.txt and prompts/weekly_review_system.txt. */
  datatype Prompts = Prompts(coach: string, review: string)

  /** The agent a job runs: which one, its instructions and its opening. */
  datatype AgentSetup = AgentSetup(persona: Persona, instructions: string, opening: string)

  /**
   * `entrypoint` up to the start of the conversation: the chosen agent is
   * constructed, reading the summary file when it is the review agent.
   */
  function StartSession(metadata: Option<string>, prompts: Prompts, file: SummaryFile): (r: Result<AgentSetup, string>)
    ensures r.Failure? <==> metadata == Some(REVIEW_COACH) && file.NonObject?
    ensures r.Success? ==> r.value.persona == Resolve(metadata).persona && r.value.opening == Resolve(metadata).opening
    ensures metadata != Some(REVIEW_COACH) ==> r == Success(AgentSetup(Planning, prompts.coach, PLANNING_OPENING))
    ensures metadata == Some(REVIEW_COACH) && r.Success? ==>
              ReviewInstructions(prompts.review, file) == Success(r.value.instructions)
  {
    var d := Resolve(metadata);
    if d.persona == Review then
      match ReviewInstructions(prompts.review, file)
      case Success(instructions) => Success(AgentSetup(Review, instructions, d.opening))
      case Failure(e) => Failure(e)
    else
      Success(AgentSetup(Planning, prompts.coach, d.opening))
  }

  /**
   * Monday to Friday: once a planning session has written its summary, a
   * review job is started with that summary under the commitments heading.
   */
  lemma ReviewSeesLastSummary(summary: string, prompts: Prompts)
    ensures StartSession(Some(REVIEW_COACH), prompts, Written(summary))
            == Success(AgentSetup(Review, prompts.review + COMMITMENTS_HEADING + summary, REVIEW_OPENING))
  {
  }

  /** Without a readable summary a review job is told to ask the user instead. */
  lemma ReviewFallsBack(prompts: Prompts, file: SummaryFile)
    requires file.Absent? || file.Malformed?
    ensures StartSession(Some(REVIEW_COACH), prompts, file)
            == Success(AgentSetup(Review, prompts.review + NO_COMMITMENTS, REVIEW_OPENING))
  {
  }
}
