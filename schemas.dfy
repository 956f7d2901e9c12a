/** The frozen records exchanged by triage, the executor and synthesis. */
module Schemas {
  import opened Wrappers
  import opened Config
  import opened RoleMaps

  /** One council seat; `modelHint` pins a model and bypasses routing. */
  datatype CouncilSeat = CouncilSeat(role: CouncilRole, systemPrompt: string, modelHint: Option<string> := None)

  /** The execution plan produced by triage. */
  datatype TriageOutput = TriageOutput(
    reconstructedQuery: string,
    complexity: ComplexityDomain,
    council: seq<CouncilSeat>,
    loopGrammar: LoopGrammar,
    loopCount: int,
    redTeamFlavor: RedTeamFlavor,
    synthesisInstruction: string,
    shortCircuitAllowed: bool := false,
    allowEarlyExit: bool := true)

  /** The field constraints the schema declares: 3 to 5 seats and 2 to 5 loops. */
  predicate FieldConstraints(t: TriageOutput) {
    3 <= |t.council| <= 5 && 2 <= t.loopCount <= 5
  }

  /**
   * Building a plan through the schema: the field constraints are checked and a
   * violation is a validation error; omitted flags take their declared defaults.
   */
  function ValidateFields(t: TriageOutput): (r: Result<TriageOutput, string>)
    ensures r.Ok? <==> 3 <= |t.council| <= 5 && 2 <= t.loopCount <= 5
    ensures r.Ok? ==> r.value == t
  {
    if !(3 <= |t.council| <= 5) then Err("council: list should have 3 to 5 items")
    else if !(2 <= t.loopCount <= 5) then Err("loop_count: input should be between 2 and 5")
    else Ok(t)
  }


  /** The record of one deliberation round. */
  datatype LoopRecord = LoopRecord(
    loopNumber: int,
    councilResponses: RoleMap,
    modelsUsed: RoleMap,
    redTeamCritique: string,
    redTeamModel: string,
    deltaDetected: bool)

  /** What the executor returns; the trace and the plan are kept only under observability. */
  datatype ExecutorResult = ExecutorResult(
    finalResponse: string,
    loopsExecuted: int,
    earlyExit: bool,
    reasoningTrace: Option<seq<LoopRecord>> := None,
    triageOutput: Option<TriageOutput> := None)

  /**
   * The declared defaults: a plan built without the two flags gets short-circuiting off
   * and early exit on, a seat has no hint, and a result carries no trace and no plan.
   */
  lemma PlanDefaults(q: string, c: ComplexityDomain, council: seq<CouncilSeat>, g: LoopGrammar,
                     n: int, f: RedTeamFlavor, s: string, answer: string, loops: int, early: bool)
    ensures !TriageOutput(q, c, council, g, n, f, s).shortCircuitAllowed
    ensures TriageOutput(q, c, council, g, n, f, s).allowEarlyExit
    ensures CouncilSeat(RedTeam, s).modelHint == None
    ensures ExecutorResult(answer, loops, early).reasoningTrace.None?
    ensures ExecutorResult(answer, loops, early).triageOutput.None?
  {
  }
}
