/**
 * The answer composer (`reason`): the best score of the retrieved list picks
 * one of three modes, and each mode builds its answer from a fixed template,
 * the best hit's solution and the heuristic synthesis.  The `:.2f` rendering
 * of the score in the summary is a parameter.
 */
module Reasoner {
  import opened Text
  import opened Retriever
  import opened BestHit

  const HighConf: real := 0.5
  const MediumConf: real := 0.35

  const FallbackSteps: seq<string> := [
    "Check physical connections (LAN cables, patch panels, RJ45 ports).",
    "Restart the affected network device (router/switch) and verify power.",
    "Verify device IP configuration (IP, subnet mask, gateway) and DHCP status.",
    "Test connectivity using ping, tracert (tracepath) to check latency and hops.",
    "Check DNS settings: try nslookup/dig and flush DNS cache on client.",
    "Review firewall, ACLs, VPN or proxy rules that could block traffic.",
    "Check recent configuration changes or firmware upgrades and roll back if needed.",
    "Collect logs from network device/system and inspect for errors (timestamps)."
  ]

  const SynthesisPrefix := "Synthesized reasoning:\n"
  const SynthesisLimit: nat := 800

  /**
   * `_call_llm_for_reasoning`: the prefix followed by the first 800 characters
   * of the prompt, so never more than 823 characters; a prompt of at most 800
   * characters comes back whole.
   */
  function CallLlmForReasoning(prompt: string): (r: string)
    ensures |r| <= |SynthesisPrefix| + SynthesisLimit
    ensures StartsWith(r, SynthesisPrefix)
    ensures StartsWith(prompt, r[|SynthesisPrefix|..])
    ensures |prompt| <= SynthesisLimit ==> r == SynthesisPrefix + prompt
    ensures |prompt| > SynthesisLimit ==> |r| == |SynthesisPrefix| + SynthesisLimit
  {
    var r := SynthesisPrefix + Take(prompt, SynthesisLimit);
    assert r[..|SynthesisPrefix|] == SynthesisPrefix;
    assert r[|SynthesisPrefix|..] == Take(prompt, SynthesisLimit);
    r
  }

  /** The `mode` field: "DIRECT", "HYBRID" or "FALLBACK". */
  datatype Mode = Direct | Hybrid | Fallback

  /** The output dict: query, mode, best_score, summary, answer, results. */
  datatype Response = Response(query: string, mode: Mode, bestScore: real, summary: string,
                               answer: string, results: seq<Hit>)

  /** `best.get("solution", "")`. */
  function BestSolution(results: seq<Hit>): string {
    if results == [] then "" else results[0].solution
  }

  /** The confidence bands. */
  function ModeFor(score: real): Mode {
    if score >= HighConf then Direct
    else if score >= MediumConf then Hybrid
    else Fallback
  }

  /** Each step as a "- " bullet. */
  function Bulleted(steps: seq<string>): (r: seq<string>)
    ensures |r| == |steps|
    ensures forall i :: 0 <= i < |steps| ==> r[i] == "- " + steps[i]
  {
    seq(|steps|, i requires 0 <= i < |steps| => "- " + steps[i])
  }

  /** The first four steps, bulleted, one per line. */
  function HybridSteps(): string {
    Join("\n", Bulleted(FallbackSteps[..4]))
  }

  /** All eight steps, bulleted, one per line. */
  function AllSteps(): string {
    Join("\n", Bulleted(FallbackSteps))
  }

  function HybridAnswer(retrieved: string): string {
    "Partial match found:\n\n" + retrieved + "\n\n"
    + CallLlmForReasoning(retrieved + "\n\n" + HybridSteps()) + "\n\n" + HybridSteps()
  }

  function FallbackAnswer(): string {
    "No close match found.\n" + CallLlmForReasoning(Join("\n", FallbackSteps[..6])) + "\n\n" + AllSteps()
  }

  function Summary(mode: Mode, shown: string): string {
    match mode
    case Direct => "High confidence (" + shown + "). Direct solution found."
    case Hybrid => "Medium confidence (" + shown + "). Combining retrieved insight with fallback steps."
    case Fallback => "Low confidence (" + shown + "). Using fallback troubleshooting."
  }

  /** `reason(query)` once the retrieved list is known; `format` renders the score with two decimals. */
  function Reason(query: string, results: seq<Hit>, format: real -> string): (r: Response)
    ensures r.query == query && r.results == results && r.bestScore == BestScore(results)
    ensures r.mode == ModeFor(BestScore(results))
    ensures r.summary == Summary(r.mode, format(r.bestScore))
    ensures r.answer != ""
  {
    var score := BestScore(results);
    var mode := ModeFor(score);
    var answer := match mode
      case Direct => DirectAnswer(results)
      case Hybrid => HybridAnswer(BestSolution(results))
      case Fallback => FallbackAnswer();
    Response(query, mode, score, Summary(mode, format(score)), answer, results)
  }

  /** `reason(query)`: retrieve the top five, then compose. */
  method ReasonQuery(query: string, backend: Backend, format: real -> string) returns (r: Response)
    ensures Retrieved(backend, 5, r.results)
    ensures r == Reason(query, r.results, format)
  {
    var results := Retrieve(backend, 5);
    r := Reason(query, results, format);
  }

  // ---------------------------------------------------------------------
  // Properties
  // ---------------------------------------------------------------------

  /** The three bands are exclusive and exhaustive, with 0.5 DIRECT and 0.35 HYBRID. */
  lemma ModeBands(score: real)
    ensures ModeFor(score) == Direct <==> score >= 0.5
    ensures ModeFor(score) == Hybrid <==> 0.35 <= score < 0.5
    ensures ModeFor(score) == Fallback <==> score < 0.35
  {
  }

  /** Nothing retrieved: score 0.0 and the FALLBACK answer. */
  lemma EmptyResultsFallBack(query: string, format: real -> string)
    ensures Reason(query, [], format).bestScore == 0.0
    ensures Reason(query, [], format).mode == Fallback
    ensures Reason(query, [], format).answer == FallbackAnswer()
  {
  }

  /** A DIRECT answer is the best hit's solution, or the placeholder when it has none. */
  lemma DirectAnswers(query: string, results: seq<Hit>, format: real -> string)
    requires BestScore(results) >= HighConf
    ensures results != []
    ensures Reason(query, results, format).mode == Direct
    ensures results[0].solution != "" ==> Reason(query, results, format).answer == results[0].solution
    ensures results[0].solution == "" ==> Reason(query, results, format).answer == NoSolution
  {
  }

  /**
   * A HYBRID answer opens with the retrieved solution and the synthesis and
   * closes with the first four steps bulleted.
   */
  lemma HybridAnswers(query: string, results: seq<Hit>, format: real -> string)
    requires MediumConf <= BestScore(results) < HighConf
    ensures Reason(query, results, format).mode == Hybrid
    ensures StartsWith(Reason(query, results, format).answer,
                       "Partial match found:\n\n" + BestSolution(results) + "\n\n" + SynthesisPrefix)
    ensures EndsWith(Reason(query, results, format).answer, "\n\n" + HybridSteps())
  {
    HybridAnswerShape(BestSolution(results));
  }

  lemma HybridAnswerShape(retrieved: string)
    ensures StartsWith(HybridAnswer(retrieved), "Partial match found:\n\n" + retrieved + "\n\n" + SynthesisPrefix)
    ensures EndsWith(HybridAnswer(retrieved), "\n\n" + HybridSteps())
  {
    var llm := CallLlmForReasoning(retrieved + "\n\n" + HybridSteps());
    AroundSynthesis("Partial match found:\n\n" + retrieved + "\n\n", llm, "\n\n", HybridSteps());
  }

  /** Text around a synthesis starts with the text before it and the synthesis prefix, and ends with the text after it. */
  lemma AroundSynthesis(head: string, llm: string, sep: string, steps: string)
    requires StartsWith(llm, SynthesisPrefix)
    ensures StartsWith(head + llm + sep + steps, head + SynthesisPrefix)
    ensures EndsWith(head + llm + sep + steps, sep + steps)
  {
    var rest := llm[|SynthesisPrefix|..];
    assert llm == SynthesisPrefix + rest;
    assert head + llm + sep + steps == (head + SynthesisPrefix) + (rest + sep + steps);
    assert head + llm + sep + steps == (head + llm) + (sep + steps);
    ConcatEnds(head + SynthesisPrefix, rest + sep + steps);
    ConcatEnds(head + llm, sep + steps);
  }

  /** Each of the first six steps is under 90 characters, so their join is not truncated. */
  lemma SixStepsFit()
    ensures |Join("\n", FallbackSteps[..6])| <= SynthesisLimit
  {
    var six := FallbackSteps[..6];
    assert forall i :: 0 <= i < 6 ==> |six[i]| <= 90;
    JoinBound("\n", six, 90);
  }

  /**
   * The FALLBACK answer is the banner, the synthesis of the first six steps
   * in full (they fit in 800 characters), and then all eight steps bulleted.
   */
  lemma FallbackAnswers(query: string, results: seq<Hit>, format: real -> string)
    requires BestScore(results) < MediumConf
    ensures Reason(query, results, format).mode == Fallback
    ensures Reason(query, results, format).answer
         == "No close match found.\n" + SynthesisPrefix + Join("\n", FallbackSteps[..6]) + "\n\n" + AllSteps()
  {
    SixStepsFit();
  }
}
