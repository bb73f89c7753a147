/**
 * The single-slot summary handoff: `send_session_summary` overwrites
 * data/latest_summary.json with `{"summary": s}`, and `ReviewAgent.__init__`
 * reads that file once to build the review agent's instructions.
 *
 * The file is modelled by what `json.loads` makes of it rather than by its text.
 */
module SummaryStore {
  import opened Wrappers

  datatype SummaryFile =
    | Absent                              // the file does not exist
    | Malformed                           // `json.loads` raises JSONDecodeError
    | NonObject                           // well-formed JSON that is not an object
    | Object(fields: map<string, string>) // a JSON object

  const SUMMARY_KEY := "summary"
  const COMMITMENTS_HEADING := "\n\nThe user's Monday commitments:\n"
  const NO_COMMITMENTS := "\n\nNo Monday commitments were found." + " Ask the user what they set out to do this week."
  /** What escapes `ReviewAgent.__init__` when the JSON value has no `.get`. */
  const ATTRIBUTE_ERROR := "AttributeError"

  /** The file written by `send_session_summary(summary)`. */
  function Written(summary: string): SummaryFile {
    Object(map[SUMMARY_KEY := summary])
  }

  /**
   * The store's read: the commitments the review agent injects, or None when
   * it falls back. A missing "summary" key reads as the empty text, as
   * `data.get("summary", "")` does.
   */
  function Read(file: SummaryFile): (commitments: Option<string>)
    ensures commitments.Some? <==> file.Object?
    ensures file.Object? && SUMMARY_KEY in file.fields ==> commitments == Some(file.fields[SUMMARY_KEY])
    ensures file.Object? && SUMMARY_KEY !in file.fields ==> commitments == Some("")
  {
    match file
    case Object(fields) => Some(if SUMMARY_KEY in fields then fields[SUMMARY_KEY] else "")
    case _ => None
  }

  /**
   * `ReviewAgent.__init__`: the review prompt `base` followed by the injected
   * commitments or by the fallback instruction; a JSON value that is not an
   * object makes `data.get` raise, which nothing catches.
   */
  function ReviewInstructions(base: string, file: SummaryFile): (r: Result<string, string>)
    ensures r.Failure? <==> file.NonObject?
    ensures r.Failure? ==> r.error == ATTRIBUTE_ERROR
    ensures r.Success? ==> base <= r.value
    ensures r.Success? && Read(file).None? ==> r.value == base + NO_COMMITMENTS
    ensures r.Success? && Read(file).Some? ==> r.value == base + COMMITMENTS_HEADING + Read(file).value
  {
    match file
    case Absent => Success(base + NO_COMMITMENTS)
    case Malformed => Success(base + NO_COMMITMENTS)
    case NonObject => Failure(ATTRIBUTE_ERROR)
    case Object(fields) =>
      var commitments := if SUMMARY_KEY in fields then fields[SUMMARY_KEY] else "";
      Success(base + COMMITMENTS_HEADING + commitments)
  }

  /** Reading back what was written gives the summary that was written. */
  lemma ReadWritten(summary: string)
    ensures Read(Written(summary)) == Some(summary)
  {
  }

  /** Write then read: the review agent sees exactly the last written summary. */
  lemma WriteThenReview(base: string, summary: string)
    ensures ReviewInstructions(base, Written(summary)) == Success(base + COMMITMENTS_HEADING + summary)
  {
  }

  /**
   * The review instructions tell the fallback apart from every injected text
   * and tell injected texts apart from one another: equal instructions from
   * the same prompt mean equal reads of the store.
   */
  lemma InstructionsDetermineRead(base: string, f1: SummaryFile, f2: SummaryFile)
    requires ReviewInstructions(base, f1).Success? && ReviewInstructions(base, f2).Success?
    requires ReviewInstructions(base, f1) == ReviewInstructions(base, f2)
    ensures Read(f1) == Read(f2)
  {
    var i := ReviewInstructions(base, f1).value;
    var k := |base| + 2;
    assert NO_COMMITMENTS[2] == 'N' && COMMITMENTS_HEADING[2] == 'T';
    assert forall f :: ReviewInstructions(base, f).Success? ==>
      ReviewInstructions(base, f).value[k] == if Read(f).Some? then 'T' else 'N';
    if Read(f1).Some? && Read(f2).Some? {
      var h := |base| + |COMMITMENTS_HEADING|;
      assert Read(f1).value == i[h..] == Read(f2).value;
    }
  }
}
