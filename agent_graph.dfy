/**
 * The two-node agent graph: the retriever node fills the shared state with
 * the top five hits and the top score, the decision either ends the run with
 * the best hit's solution or hands over to the reasoner node in hybrid or
 * fallback mode, and the reasoner node asks the local language model
 * (optional, and able to fail) for troubleshooting steps.
 */
module AgentGraph {
  import opened Wrappers
  import opened Text
  import opened Sequences
  import opened Retriever
  import opened BestHit

  const HighConf: real := 0.5
  const MediumConf: real := 0.35

  /** The `mode` of the state: "retriever-only", "hybrid" or "fallback". */
  datatype Mode = RetrieverOnly | Hybrid | Fallback

  /** Where the graph goes after the decision. */
  datatype Next = ToReasoner | End

  /** The final output dict; only the direct answer carries `best_score`. */
  datatype Output = Output(query: string, mode: Mode, bestScore: Option<real>, summary: string,
                           answer: string, retrievedSolutions: seq<Hit>)

  /** What the language model did with a prompt. */
  datatype Generation = Generated(text: string) | Failed(message: string)

  /** The language model, when it could be loaded. */
  datatype Llm = NoLlm | Loaded(generate: string -> Generation)

  const FallbackSteps: seq<string> := [
    "Check cable and power connections.",
    "Restart the affected network device.",
    "Verify IP assignment and DHCP lease.",
    "Test DNS and routing paths.",
    "Review firewall, VLAN, or VPN settings.",
    "Check logs and recent firmware updates."
  ]

  /** The steps, one per line. */
  function StepsText(): (r: string)
    ensures |r| >= |FallbackSteps[0]| > 0
  {
    JoinStartsWith("\n", FallbackSteps);
    Join("\n", FallbackSteps)
  }

  const AgentTeam := "BlueCom Network Troubleshooter Agent Team"

  const SystemFraming := "You are part of the " + AgentTeam + " \U{2014} "
    + "an AI assistant that helps telecom engineers diagnose and fix network issues. "
    + "Respond clearly, using 3\U{2013}5 short, numbered steps. "
    + "Focus on practical technical reasoning."

  const NoHistory := "No historical data found."

  /** A hit with a non-blank problem or solution. */
  predicate NonBlank(doc: Hit) {
    Strip(doc.problem) != "" || Strip(doc.solution) != ""
  }

  function KeepNonBlank(docs: seq<Hit>): (r: seq<Hit>)
    ensures |r| <= |docs|
    ensures forall d :: d in r <==> d in docs && NonBlank(d)
    ensures forall d :: multiset(r)[d] == if NonBlank(d) then multiset(docs)[d] else 0
    ensures IsSubsequence(r, docs)
  {
    if docs == [] then []
    else
      var rest := KeepNonBlank(docs[1..]);
      assert docs == [docs[0]] + docs[1..];
      ConsFilterStep(docs[0], rest, docs[1..], NonBlank);
      (if NonBlank(docs[0]) then [docs[0]] else []) + rest
  }

  /** The docs the prompt may quote: the non-blank ones among the first three. */
  function ValidDocs(results: seq<Hit>): (r: seq<Hit>)
    ensures |r| <= 3
    ensures forall d :: d in r <==> d in Take(results, 3) && NonBlank(d)
    ensures forall d :: multiset(r)[d] == if NonBlank(d) then multiset(Take(results, 3))[d] else 0
    ensures IsSubsequence(r, results)
  {
    var first := Take(results, 3);
    assert results == first + results[|first|..];
    ExtendRight(KeepNonBlank(first), first, results[|first|..]);
    KeepNonBlank(first)
  }

  function DocText(doc: Hit): string {
    "Problem: " + doc.problem + "\nSolution: " + doc.solution
  }

  /** The retriever context of the prompt. */
  function Context(docs: seq<Hit>): string {
    if docs == [] then NoHistory
    else Join("\n\n", seq(|docs|, i requires 0 <= i < |docs| => DocText(docs[i])))
  }

  /** The template of each mode, as the f-string lays it out (with its leading and trailing newline). */
  function Prompt(query: string, results: seq<Hit>, mode: Mode): string {
    var context := Context(ValidDocs(results));
    "\n" + PromptBody(query, context, mode) + "\n"
  }

  /** The part of each template before its context: framing, then the customer issue. */
  function PromptBody(query: string, context: string, mode: Mode): string {
    SystemFraming + IssueLead + query + PromptTail(context, mode)
  }

  const IssueLead := "\n\nCustomer issue: "

  /** The part of each template after the query: a heading, the context, and the instruction. */
  function PromptTail(context: string, mode: Mode): string {
    match mode
    case RetrieverOnly => "\n\nRelevant historical match:\n" + context + "\n\n" + Instruction(mode)
    case Hybrid => "\n\nSimilar known issues and resolutions:\n" + context + "\n\n" + Instruction(mode)
    case Fallback => "\n\nNo historical matches found.\n" + Instruction(mode)
  }

  const DirectInstruction := "Provide a short, direct fix or summary based on the retrieved solution."
  const HybridInstruction := "Generate 3\U{2013}5 concise troubleshooting steps combining past data with logical technical reasoning."
  const FallbackInstruction := "Generate 3\U{2013}5 helpful troubleshooting steps that are general, logical, and relevant to the issue."

  function Instruction(mode: Mode): string {
    match mode
    case RetrieverOnly => DirectInstruction
    case Hybrid => HybridInstruction
    case Fallback => FallbackInstruction
  }

  const Unavailable := "\U{26A0}\U{FE0F} Gemma unavailable \U{2014} fallback steps:\n"
  const GenerationFailed := "\U{26A0}\U{FE0F} Gemma generation failed: "
  const MinResponse: nat := 30

  /** `response.strip().replace("\n\n", "\n")`. */
  function Cleaned(text: string): string {
    ReplaceAll(Strip(text), "\n\n", "\n")
  }

  /** What the model did with the stripped prompt, or `None` when no model is loaded. */
  function Outcome(llm: Llm, prompt: string): Option<Generation> {
    match llm
    case NoLlm => None
    case Loaded(generate) => Some(generate(Strip(prompt)))
  }

  /** The answer for an outcome of the model. */
  function AnswerFor(outcome: Option<Generation>): (r: string)
    ensures r != ""
  {
    match outcome
    case None => Unavailable + StepsText()
    case Some(Failed(e)) => GenerationFailed + e + "\nFallback:\n" + StepsText()
    case Some(Generated(text)) =>
      var response := Cleaned(text);
      if |response| < MinResponse then StepsText() else response
  }

  /** `reason_with_local_llm(query, docs, mode)`: the model sees the stripped prompt. */
  function ReasonWithLocalLlm(query: string, results: seq<Hit>, mode: Mode, llm: Llm): (r: string)
    ensures r != ""
  {
    AnswerFor(Outcome(llm, Prompt(query, results, mode)))
  }

  /** The decision of `decide_next`, from the results and the confidence in the state. */
  function Route(results: seq<Hit>, confidence: real): Mode {
    if results == [] then Fallback
    else if Lower(results[0].source) == "error" || confidence == 0.0 then Fallback
    else if confidence >= HighConf then RetrieverOnly
    else if MediumConf <= confidence < HighConf then Hybrid
    else Fallback
  }

  /** The output `decide_next` writes when it ends the run. */
  const DirectSummary := "High confidence retriever answer used directly."
  const LocalSummary := "Generated locally using Google Gemma 2B-Instruct model"

  function DirectOutput(query: string, results: seq<Hit>, confidence: real): Output {
    Output(query, RetrieverOnly, Some(confidence), DirectSummary,
           DirectAnswer(results), Take(results, 3))
  }

  /** The output `reasoner_node` writes. */
  function ReasonerOutput(query: string, results: seq<Hit>, mode: Mode, llm: Llm): Output {
    Output(query, mode, None, LocalSummary,
           ReasonWithLocalLlm(query, results, mode, llm), Take(results, 3))
  }

  /**
   * The shared state.  A key the graph has not written yet reads as the
   * default its reader gives: no results, confidence 0.0, no mode, no output.
   */
  class AgentState {
    var query: string
    var results: seq<Hit>
    var confidence: real
    var mode: Option<Mode>
    var reasonerOutput: Option<Output>

    /** The state `{"query": q}` the graph is invoked with. */
    constructor(query: string)
      ensures this.query == query && results == [] && confidence == 0.0
      ensures mode == None && reasonerOutput == None
    {
      this.query := query;
      results := [];
      confidence := 0.0;
      mode := None;
      reasonerOutput := None;
    }

    /** `retriever_node`: the top five hits, and the first one's score (0.0 for none) as the confidence. */
    method RetrieverNode(backend: Backend)
      modifies this
      ensures Retrieved(backend, 5, results)
      ensures confidence == BestScore(results)
      ensures query == old(query) && mode == old(mode) && reasonerOutput == old(reasonerOutput)
    {
      var retrieved := Retrieve(backend, 5);
      results := retrieved;
      confidence := BestScore(retrieved);
    }

    /** `decide_next`: records the mode, and ends the run with the direct output at high confidence. */
    method DecideNext() returns (next: Next)
      modifies this
      ensures mode == Some(Route(results, old(confidence)))
      ensures next == End <==> Route(results, old(confidence)) == RetrieverOnly
      ensures confidence == (if results == [] then 0.0 else old(confidence))
      ensures next == End ==> reasonerOutput == Some(DirectOutput(query, results, old(confidence)))
      ensures next == ToReasoner ==> reasonerOutput == old(reasonerOutput)
      ensures query == old(query) && results == old(results)
    {
      if results == [] {
        mode := Some(Fallback);
        confidence := 0.0;
        return ToReasoner;
      }
      var top := results[0];
      var topScore := confidence;
      if Lower(top.source) == "error" || topScore == 0.0 {
        mode := Some(Fallback);
        return ToReasoner;
      }
      if topScore >= HighConf {
        mode := Some(RetrieverOnly);
        reasonerOutput := Some(DirectOutput(query, results, topScore));
        return End;
      }
      if MediumConf <= topScore < HighConf {
        mode := Some(Hybrid);
        return ToReasoner;
      }
      mode := Some(Fallback);
      return ToReasoner;
    }

    /** `reasoner_node`: the mode defaults to fallback. */
    method ReasonerNode(llm: Llm)
      modifies this
      ensures reasonerOutput == Some(ReasonerOutput(query, results, mode.GetOr(Fallback), llm))
      ensures query == old(query) && results == old(results)
      ensures confidence == old(confidence) && mode == old(mode)
    {
      var m := mode.GetOr(Fallback);
      reasonerOutput := Some(ReasonerOutput(query, results, m, llm));
    }
  }

  /**
   * One run of the graph from `{"query": q}`: retriever, decision, and the
   * reasoner unless the decision ended the run.  The output is always there,
   * echoes the query and the mode, and has a non-empty answer.
   */
  method RunGraph(query: string, backend: Backend, llm: Llm) returns (state: AgentState)
    ensures fresh(state)
    ensures state.query == query
    ensures Retrieved(backend, 5, state.results)
    ensures state.mode == Some(Route(state.results, BestScore(state.results)))
    ensures state.reasonerOutput.Some?
    ensures state.reasonerOutput.value.query == query
    ensures state.reasonerOutput.value.mode == state.mode.value
    ensures state.reasonerOutput.value.answer != ""
    ensures |state.reasonerOutput.value.retrievedSolutions| <= 3
    ensures state.confidence == BestScore(state.results)
    ensures state.mode.value == RetrieverOnly ==>
      state.reasonerOutput.value == DirectOutput(query, state.results, BestScore(state.results))
    ensures state.mode.value != RetrieverOnly ==>
      state.reasonerOutput.value == ReasonerOutput(query, state.results, state.mode.value, llm)
  {
    state := new AgentState(query);
    state.RetrieverNode(backend);
    var next := state.DecideNext();
    if next == ToReasoner {
      state.ReasonerNode(llm);
    }
  }

  // ---------------------------------------------------------------------
  // Properties of the decision
  // ---------------------------------------------------------------------

  /** No results: fallback, and on to the reasoner. */
  lemma RouteEmpty(confidence: real)
    ensures Route([], confidence) == Fallback
  {
  }

  /** A top hit from the error path (any case of "error") or a score of exactly 0.0 falls back. */
  lemma RouteErrorOrZero(results: seq<Hit>, confidence: real)
    requires results != []
    requires Lower(results[0].source) == "error" || confidence == 0.0
    ensures Route(results, confidence) == Fallback
  {
  }

  /**
   * Past those checks the confidence alone decides: 0.5 and above is direct,
   * [0.35, 0.5) hybrid, the rest fallback; the three are exclusive and exhaustive.
   */
  lemma RouteBands(results: seq<Hit>, confidence: real)
    requires results != [] && Lower(results[0].source) != "error" && confidence != 0.0
    ensures Route(results, confidence) == RetrieverOnly <==> confidence >= 0.5
    ensures Route(results, confidence) == Hybrid <==> 0.35 <= confidence < 0.5
    ensures Route(results, confidence) == Fallback <==> confidence < 0.35
  {
  }

  /** Both retriever sentinels lead to the reasoner in fallback mode. */
  lemma SentinelsFallBack(message: string)
    ensures Route([ErrorHit(message)], BestScore([ErrorHit(message)])) == Fallback
    ensures Route([NoRecordsHit], BestScore([NoRecordsHit])) == Fallback
  {
    assert Lower("Error") == "error" by {
      assert Lower("Error")[0] == 'e';
    }
  }

  // ---------------------------------------------------------------------
  // Properties of the prompt and the answer
  // ---------------------------------------------------------------------

  /** The context is the no-data line exactly when no doc qualifies. */
  lemma ContextEmptyIff(results: seq<Hit>)
    ensures Context(ValidDocs(results)) == NoHistory <==> ValidDocs(results) == []
  {
    var docs := ValidDocs(results);
    if docs != [] {
      var parts := seq(|docs|, i requires 0 <= i < |docs| => DocText(docs[i]));
      JoinStartsWith("\n\n", parts);
      assert StartsWith(parts[0], "P");
      assert Context(docs)[0] == 'P';
    }
  }

  /** Every instruction ends with a full stop. */
  lemma InstructionEnds(mode: Mode)
    ensures Instruction(mode) != [] && Instruction(mode)[|Instruction(mode)| - 1] == '.'
  {
    assert DirectInstruction[|DirectInstruction| - 1] == '.';
    assert HybridInstruction[|HybridInstruction| - 1] == '.';
    assert FallbackInstruction[|FallbackInstruction| - 1] == '.';
  }

  /** Every template ends with a full stop. */
  lemma TailEnds(context: string, mode: Mode)
    ensures PromptTail(context, mode) != [] && PromptTail(context, mode)[|PromptTail(context, mode)| - 1] == '.'
  {
    InstructionEnds(mode);
    var head := if mode == Fallback then "\n\nNo historical matches found.\n"
      else if mode == Hybrid then "\n\nSimilar known issues and resolutions:\n" + context + "\n\n"
      else "\n\nRelevant historical match:\n" + context + "\n\n";
    assert PromptTail(context, mode) == head + Instruction(mode);
    LastOfConcat(head, Instruction(mode));
  }

  lemma FramingStarts()
    ensures |SystemFraming| > 0 && SystemFraming[0] == 'Y'
  {
    FirstOfConcat("You are part of the ", AgentTeam + " \U{2014} ");
  }

  /** The template body begins with the framing's first letter and ends with a full stop. */
  lemma BodyStripped(query: string, context: string, mode: Mode)
    ensures PromptBody(query, context, mode) != []
    ensures IsStripped(PromptBody(query, context, mode))
  {
    var tail := PromptTail(context, mode);
    var body := PromptBody(query, context, mode);
    FramingStarts();
    TailEnds(context, mode);
    FirstOfConcat(SystemFraming, IssueLead + query + tail);
    LastOfConcat(SystemFraming + IssueLead + query, tail);
  }

  /** The framing and the query both sit inside the newline-framed template. */
  lemma BodyHasFramingAndQuery(query: string, context: string, mode: Mode)
    ensures Contains("\n" + PromptBody(query, context, mode) + "\n", SystemFraming)
    ensures Contains("\n" + PromptBody(query, context, mode) + "\n", query)
  {
    FramedParts(SystemFraming, IssueLead, query, PromptTail(context, mode));
  }

  /** Every prompt carries the system framing and the query, and the model sees it without its frame of newlines. */
  lemma PromptFraming(query: string, results: seq<Hit>, mode: Mode)
    ensures Contains(Prompt(query, results, mode), SystemFraming)
    ensures Contains(Prompt(query, results, mode), query)
    ensures Strip(Prompt(query, results, mode)) == PromptBody(query, Context(ValidDocs(results)), mode)
  {
    var context := Context(ValidDocs(results));
    BodyHasFramingAndQuery(query, context, mode);
    BodyStripped(query, context, mode);
    StripPadded("\n", PromptBody(query, context, mode), "\n");
  }

  /** The fallback prompt does not depend on the retrieved hits. */
  lemma FallbackPromptIgnoresHits(query: string, a: seq<Hit>, b: seq<Hit>)
    ensures Prompt(query, a, Fallback) == Prompt(query, b, Fallback)
  {
  }

  /**
   * The answer without a model is the steps under the "unavailable" banner; a
   * failure gives the message and then the steps; a cleaned response under 30
   * characters is replaced by the steps, a longer one is the answer.
   */
  lemma LlmAnswers(outcome: Option<Generation>)
    ensures outcome.None? ==> AnswerFor(outcome) == Unavailable + StepsText()
    ensures outcome.Some? && outcome.value.Failed? ==>
              StartsWith(AnswerFor(outcome), GenerationFailed + outcome.value.message)
              && EndsWith(AnswerFor(outcome), "\nFallback:\n" + StepsText())
    ensures outcome.Some? && outcome.value.Generated? && |Cleaned(outcome.value.text)| < MinResponse ==>
              AnswerFor(outcome) == StepsText()
    ensures outcome.Some? && outcome.value.Generated? && |Cleaned(outcome.value.text)| >= MinResponse ==>
              AnswerFor(outcome) == Cleaned(outcome.value.text)
  {
    if outcome.Some? && outcome.value.Failed? {
      var e := outcome.value.message;
      ConcatEnds(GenerationFailed + e, "\nFallback:\n" + StepsText());
      assert AnswerFor(outcome) == (GenerationFailed + e) + ("\nFallback:\n" + StepsText());
    }
  }

  /** The model is asked exactly when it is loaded, and with the stripped prompt. */
  lemma ModelSeesStrippedPrompt(query: string, results: seq<Hit>, mode: Mode, llm: Llm)
    ensures llm.NoLlm? ==> ReasonWithLocalLlm(query, results, mode, llm) == Unavailable + StepsText()
    ensures llm.Loaded? ==>
              ReasonWithLocalLlm(query, results, mode, llm)
              == AnswerFor(Some(llm.generate(PromptBody(query, Context(ValidDocs(results)), mode))))
  {
    PromptFraming(query, results, mode);
  }
}
