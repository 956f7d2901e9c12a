/**
 * The triage agent: one call that turns the user's query into a plan, the
 * unwrapping of a fenced reply, and the checks a plan must pass beyond its
 * schema.
 */
module Triage {
  import opened Wrappers
  import opened Strings
  import opened Config
  import opened Schemas
  import opened Transport
  import opened EngineSettings
  import Executor

  /** `TriageError`, and its subclass `TriageValidationError` for plans that break a constraint. */
  datatype TriageFailure = TriageError(message: string) | TriageValidationError(message: string)

  /** The number of critic seats in a council. */
  function RedTeamCount(council: seq<CouncilSeat>): (n: nat)
    ensures n <= |council|
  {
    if council == [] then 0
    else RedTeamCount(council[..|council| - 1]) + (if council[|council| - 1].role == RedTeam then 1 else 0)
  }

  /**
   * `_validate_triage_output`: the first constraint the plan breaks, checked in
   * the order seat count, critic count, loop count, short-circuit; `None` when
   * it breaks none.
   */
  function Violation(output: TriageOutput): Option<string> {
    var seatCount := |output.council|;
    var redTeamCount := RedTeamCount(output.council);
    if !(3 <= seatCount <= 5) then
      Some("Council must have 3-5 seats, got " + IntToString(seatCount))
    else if redTeamCount != 1 then
      Some("Council must have exactly 1 RED_TEAM seat, got " + IntToString(redTeamCount))
    else if !(2 <= output.loopCount <= 5) then
      Some("Loop count must be 2-5, got " + IntToString(output.loopCount))
    else if output.shortCircuitAllowed && output.complexity != Simple then
      Some("short_circuit_allowed=True requires complexity=SIMPLE, got complexity=" + ComplexityValue(output.complexity))
    else None
  }

  /** The constraints a plan must meet, all four together. */
  predicate ValidPlan(output: TriageOutput) {
    ValidCounts(output) && (output.shortCircuitAllowed ==> output.complexity == Simple)
  }

  /** The first three constraints: the seat count, the critic count and the loop count. */
  predicate ValidCounts(output: TriageOutput) {
    && 3 <= |output.council| <= 5
    && RedTeamCount(output.council) == 1
    && 2 <= output.loopCount <= 5
  }

  /** A plan passes the checks exactly when it meets all four constraints. */
  lemma PassesIffValid(output: TriageOutput)
    ensures Violation(output).None? <==> ValidPlan(output)
  {
  }

  /**
   * A plan passes exactly when it meets all four constraints; otherwise the
   * violation reported is that of the first check it fails.
   */
  lemma ViolationIff(output: TriageOutput)
    ensures Violation(output).None? <==> ValidPlan(output)
    ensures output.shortCircuitAllowed && output.complexity != Simple && ValidCounts(output) ==>
      Violation(output) == Some("short_circuit_allowed=True requires complexity=SIMPLE, got complexity=" + ComplexityValue(output.complexity))
    ensures !(3 <= |output.council| <= 5) ==>
      Violation(output) == Some("Council must have 3-5 seats, got " + IntToString(|output.council|))
    ensures 3 <= |output.council| <= 5 && RedTeamCount(output.council) != 1 ==>
      Violation(output) == Some("Council must have exactly 1 RED_TEAM seat, got " + IntToString(RedTeamCount(output.council)))
    ensures 3 <= |output.council| <= 5 && RedTeamCount(output.council) == 1 && !(2 <= output.loopCount <= 5) ==>
      Violation(output) == Some("Loop count must be 2-5, got " + IntToString(output.loopCount))
  {
  }

  /** The critic seats and the deliberating seats together make up the council. */
  lemma {:induction false} RedTeamCountSplit(council: seq<CouncilSeat>)
    ensures RedTeamCount(council) + |Executor.DeliberatingSeats(council)| == |council|
    decreases |council|
  {
    if council != [] {
      RedTeamCountSplit(council[..|council| - 1]);
    }
  }

  /**
   * A plan that passes leaves two to four deliberating seats for the rounds,
   * and it short-circuits exactly when it allows short-circuiting.
   */
  lemma ValidPlanCouncil(output: TriageOutput)
    requires Violation(output).None?
    ensures 2 <= |Executor.DeliberatingSeats(output.council)| <= 4
    ensures |Executor.DeliberatingSeats(output.council)| == |output.council| - 1
    ensures Executor.ShortCircuits(output) <==> output.shortCircuitAllowed
  {
    RedTeamCountSplit(output.council);
  }

  // Fence stripping.

  const Fence: string := "```"

  /** The lines of the body, once the opening fence line and a closing fence line are dropped. */
  function FenceBody(lines: seq<string>): seq<string>
    requires |lines| >= 1
  {
    var rest := lines[1..];
    if rest != [] && Strip(rest[|rest| - 1]) == Fence then rest[..|rest| - 1] else rest
  }

  /** The fence-stripping part of `_parse_json_response`. */
  function StripFences(response: string): string {
    var text := Strip(response);
    if StartsWith(text, Fence) then Join("\n", FenceBody(Split(text, '\n'))) else text
  }

  /** The first line of a text that starts with a fence starts with the fence. */
  lemma FirstLineFence(text: string)
    requires StartsWith(text, Fence)
    ensures StartsWith(Split(text, '\n')[0], Fence)
  {
    if '\n' in text {
      var i := IndexOf(text, '\n');
      assert Split(text, '\n')[0] == text[..i];
      assert text[..i][..3] == text[..3];
    }
  }

  /** The lines end on a closing fence: a last line, after the first, that is a fence once trimmed. */
  predicate ClosedFence(lines: seq<string>) {
    |lines| >= 2 && Strip(lines[|lines| - 1]) == Fence
  }

  /** Where the body ends: before a closing fence, or at the end. */
  function BodyEnd(lines: seq<string>): nat {
    if ClosedFence(lines) then |lines| - 1 else |lines|
  }

  /**
   * An unfenced reply is only trimmed. A fenced reply loses its first line,
   * which holds the opening fence, and its last line only when that line is
   * a fence once trimmed: the first line, the body's lines and the dropped
   * closing line, joined again, give back the trimmed reply.
   */
  lemma StripFencesShape(response: string)
    ensures var text := Strip(response);
      !StartsWith(text, Fence) ==> StripFences(response) == text
    ensures var text := Strip(response);
      var lines := Split(text, '\n');
      StartsWith(text, Fence) ==>
        && StartsWith(lines[0], Fence)
        && StripFences(response) == Join("\n", FenceBody(lines))
        && FenceBody(lines) == lines[1..BodyEnd(lines)]
        && Join("\n", [lines[0]] + FenceBody(lines) + (if ClosedFence(lines) then [lines[|lines| - 1]] else [])) == text
  {
    var text := Strip(response);
    if StartsWith(text, Fence) {
      FencedShape(text);
    }
  }

  /** The fenced case of `StripFencesShape`, for the trimmed reply. */
  lemma FencedShape(text: string)
    requires StartsWith(text, Fence)
    ensures var lines := Split(text, '\n');
      && StartsWith(lines[0], Fence)
      && FenceBody(lines) == lines[1..BodyEnd(lines)]
      && Join("\n", [lines[0]] + FenceBody(lines) + (if ClosedFence(lines) then [lines[|lines| - 1]] else [])) == text
  {
    var lines := Split(text, '\n');
    FirstLineFence(text);
    SplitJoin(text, '\n');
    FenceBodyRejoin(lines);
  }

  /** The first line, the body and the closing line (when it is dropped) make up the lines. */
  lemma FenceBodyRejoin(lines: seq<string>)
    requires |lines| >= 1
    ensures FenceBody(lines) == lines[1..BodyEnd(lines)]
    ensures [lines[0]] + FenceBody(lines) + (if ClosedFence(lines) then [lines[|lines| - 1]] else []) == lines
  {
    FenceBodyEnd(lines);
    LinesRejoin(lines, ClosedFence(lines));
  }

  /** The body runs from the second line to `BodyEnd`. */
  lemma FenceBodyEnd(lines: seq<string>)
    requires |lines| >= 1
    ensures FenceBody(lines) == lines[1..BodyEnd(lines)]
  {
    var rest := lines[1..];
    assert rest != [] ==> rest[|rest| - 1] == lines[|lines| - 1];
  }

  /** A sequence is its head, its middle, and its last element when that is set apart. */
  lemma LinesRejoin<T>(xs: seq<T>, closed: bool)
    requires |xs| >= 1 && (closed ==> |xs| >= 2)
    ensures [xs[0]] + xs[1..if closed then |xs| - 1 else |xs|] + (if closed then [xs[|xs| - 1]] else []) == xs
  {
    if closed {
      assert xs == [xs[0]] + xs[1..|xs| - 1] + [xs[|xs| - 1]];
    } else {
      assert xs == [xs[0]] + xs[1..];
    }
  }

  // The triage call.

  /**
   * What the JSON decoder and the schema make of the unfenced reply: not
   * JSON, JSON that does not fit the plan's shape, or a plan (whose field
   * constraints are checked next).
   */
  datatype Decoded = NotJson(error: string) | BadShape(error: string) | Decoded(plan: TriageOutput)

  /** The triage call: the triage system prompt, then the user's query, addressed to the triage model. */
  function TriageCall(systemPrompt: string, query: string, config: EngineConfig): Call {
    Call([SystemMessage(systemPrompt), UserMessage(query)], config.triageModel)
  }

  /** A triage run: the plan or the failure, and the calls made. */
  datatype TriageRun = TriageRun(result: Result<TriageOutput, TriageFailure>, log: seq<Exchange>)

  /** `run_triage`, with the JSON decoding and the schema's shape check as `decode`. */
  function RunTriage(decode: string -> Decoded, systemPrompt: string, o: Oracle, log: seq<Exchange>,
                     query: string, config: EngineConfig): TriageRun {
    var ex := Send(o, log, TriageCall(systemPrompt, query, config));
    var l := log + [ex];
    match ex.outcome
    case Failed(e) => TriageRun(Err(TriageError("Triage LLM call failed: " + e)), l)
    case Answered(reply) =>
      match decode(StripFences(reply.content))
      case NotJson(e) => TriageRun(Err(TriageError("Failed to parse triage response as JSON: " + e)), l)
      case BadShape(e) => TriageRun(Err(TriageValidationError("Invalid triage output structure: " + e)), l)
      case Decoded(plan) =>
        match ValidateFields(plan)
        case Err(e) => TriageRun(Err(TriageValidationError("Invalid triage output structure: " + e)), l)
        case Ok(output) =>
          match Violation(output)
          case Some(v) => TriageRun(Err(TriageValidationError(v)), l)
          case None => TriageRun(Ok(output), l)
  }

  /**
   * Triage makes exactly one call. It returns a plan exactly when the call
   * was answered and the unfenced reply decodes to a plan that meets its
   * field constraints and all four checks; that plan is then valid. A failed
   * call or a reply that is not JSON is a triage error; a reply that is JSON
   * but not a valid plan is a validation error.
   */
  lemma RunTriageOutcome(decode: string -> Decoded, systemPrompt: string, o: Oracle, log: seq<Exchange>,
                         query: string, config: EngineConfig)
    ensures var r := RunTriage(decode, systemPrompt, o, log, query, config);
      var out := o.answer(|log|, TriageCall(systemPrompt, query, config));
      && r.log == log + [Send(o, log, TriageCall(systemPrompt, query, config))]
      && (out.Failed? ==> r.result == Err(TriageError("Triage LLM call failed: " + out.error)))
      && (r.result.Ok? <==>
            && out.Answered?
            && decode(StripFences(out.reply.content)).Decoded?
            && var plan := decode(StripFences(out.reply.content)).plan;
               FieldConstraints(plan) && ValidPlan(plan) && r.result.value == plan)
      && (r.result.Ok? ==> ValidPlan(r.result.value) && FieldConstraints(r.result.value))
      && (out.Answered? && decode(StripFences(out.reply.content)).NotJson? ==> r.result.Err? && r.result.error.TriageError?)
      && (out.Answered? && !decode(StripFences(out.reply.content)).NotJson? && r.result.Err? ==>
            r.result.error.TriageValidationError?)
  {
    var r := RunTriage(decode, systemPrompt, o, log, query, config);
    var out := o.answer(|log|, TriageCall(systemPrompt, query, config));
    if out.Answered? {
      var d := decode(StripFences(out.reply.content));
      if d.Decoded? {
        PassesIffValid(d.plan);
      }
    }
  }
}
