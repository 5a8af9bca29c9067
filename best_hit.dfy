/**
 * Reading the best hit of a result list, shared by the reasoner and the
 * agent graph: its score decides the mode, its solution is the DIRECT answer.
 */
module BestHit {
  import opened Retriever

  /** The score of the best hit, 0.0 for an empty list (`results[0]` or `{}`, then `.get("score", 0.0)`). */
  function BestScore(results: seq<Hit>): (s: real)
    ensures results == [] ==> s == 0.0
    ensures results != [] ==> s == results[0].score
  {
    if results == [] then 0.0 else results[0].score
  }

  const NoSolution := "No solution found."

  /**
   * The DIRECT answer as the code has it, `best.get("solution", "No solution
   * found.")`: a hit always has its solution key, so the default is never used
   * and a best hit with an empty solution (every incident record has one)
   * gives an empty answer.
   */
  function DirectAnswerAsWritten(results: seq<Hit>): (r: string)
    ensures results != [] ==> r == results[0].solution
  {
    if results == [] then NoSolution else results[0].solution
  }

  /** The DIRECT answer as intended: the best solution, or the placeholder when there is none. */
  function DirectAnswer(results: seq<Hit>): (r: string)
    ensures r != ""
    ensures results != [] && results[0].solution != "" ==> r == results[0].solution
    ensures results == [] || results[0].solution == "" ==> r == NoSolution
  {
    if results == [] || results[0].solution == "" then NoSolution else results[0].solution
  }

  /**
   * An incident record (problem text only) ranked first: the code answers with
   * an empty string, the intended reading answers with the placeholder.
   */
  lemma EmptySolutionAnswer()
    ensures DirectAnswerAsWritten([Hit(1, 0.9, "Router drops connection", "", "incident_record", "", "")]) == ""
    ensures DirectAnswer([Hit(1, 0.9, "Router drops connection", "", "incident_record", "", "")]) == NoSolution
  {
  }
}
