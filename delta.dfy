/** Whether the council's positions changed between two rounds. */
module Delta {
  import opened Wrappers
  import opened Strings
  import opened Config
  import opened RoleMaps
  import opened Transport
  import opened RoutingBase
  import opened EngineSettings

  /** The three lines one position contributes: the bracketed role label, the response, an empty line. */
  function EntryLines(e: Entry): seq<string> {
    ["[" + RoleLabel(e.role) + "]", e.text, ""]
  }

  /** The lines of all positions, in map order. */
  function PositionLines(positions: RoleMap): (lines: seq<string>)
    ensures |lines| == 3 * |positions|
  {
    if positions == [] then []
    else PositionLines(positions[..|positions| - 1]) + EntryLines(positions[|positions| - 1])
  }

  /** The positions as the judge reads them. */
  function PositionsText(positions: RoleMap): string {
    Join("\n", PositionLines(positions))
  }

  /** Position `k` occupies lines 3k, 3k+1 and 3k+2: label, response, blank. */
  lemma {:induction false} PositionLinesAt(positions: RoleMap, k: nat)
    requires k < |positions|
    ensures PositionLines(positions)[3 * k] == "[" + RoleLabel(positions[k].role) + "]"
    ensures PositionLines(positions)[3 * k + 1] == positions[k].text
    ensures PositionLines(positions)[3 * k + 2] == ""
  {
    var init := positions[..|positions| - 1];
    if k < |positions| - 1 {
      PositionLinesAt(init, k);
    }
  }

  /** `_format_positions`: one line at a time, three per position. */
  method FormatPositions(positions: RoleMap) returns (text: string)
    ensures text == PositionsText(positions)
  {
    var lines: seq<string> := [];
    for k := 0 to |positions|
      invariant lines == PositionLines(positions[..k])
    {
      assert positions[..k + 1][..k] == positions[..k];
      lines := lines + EntryLines(positions[k]);
    }
    assert positions[..|positions|] == positions;
    text := Join("\n", lines);
  }

  const JudgeInstruction: string := "You are a judge. Answer only YES or NO."

  const JudgeHead: string := "Did positions materially change?\n\nPRIOR:\n"
  const JudgeMid: string := "\n\nCURRENT:\n"
  const JudgeTail: string := "\n\nAnswer YES if substantive changes occurred. Answer NO if changes are only cosmetic."

  /** The judge's question, with both rounds' positions spelled out. */
  function JudgeQuestion(prior: RoleMap, current: RoleMap): string {
    JudgeHead + PositionsText(prior) + JudgeMid + PositionsText(current) + JudgeTail
  }

  /** The judge call: the fixed instruction, then the question, addressed to the auto model. */
  function JudgeCall(prior: RoleMap, current: RoleMap): Call {
    Call([SystemMessage(JudgeInstruction), UserMessage(JudgeQuestion(prior, current))], AutoModel)
  }

  /** The judge always asks the auto model, and its question quotes both rounds' positions in full. */
  lemma JudgeCallQuotesBoth(prior: RoleMap, current: RoleMap)
    ensures var c := JudgeCall(prior, current);
      && c.model == AutoModel
      && |c.messages| == 2 && c.messages[0] == SystemMessage(JudgeInstruction) && c.messages[1].role == "user"
      && OccursAt(c.messages[1].content, PositionsText(prior), |JudgeHead|)
      && OccursAt(c.messages[1].content, PositionsText(current), |JudgeHead| + |PositionsText(prior)| + |JudgeMid|)
  {
    QuotesBoth(JudgeHead, PositionsText(prior), JudgeMid, PositionsText(current), JudgeTail);
  }

  /** The judge's verdict: "YES" anywhere in the upper-cased reply. */
  predicate JudgeSaysChanged(reply: string) {
    Contains(Upper(reply), "YES")
  }

  /** The verdict is a substring test, in both directions, and case does not matter. */
  lemma JudgeVerdictIff(reply: string)
    ensures JudgeSaysChanged(reply) <==> exists i :: OccursAt(Upper(reply), "YES", i)
  {
    ContainsIff(Upper(reply), "YES");
  }

  /** Lower-case answers count, and so does any word that merely contains the letters. */
  lemma JudgeVerdictExamples()
    ensures JudgeSaysChanged("yes")
    ensures !JudgeSaysChanged("NO")
    ensures JudgeSaysChanged("No - only their eyes changed")
  {
    JudgeVerdictIff("yes");
    assert OccursAt(Upper("yes"), "YES", 0);
    JudgeVerdictIff("NO");
    JudgeVerdictIff("No - only their eyes changed");
    assert OccursAt(Upper("No - only their eyes changed"), "YES", 17);
  }

  /** The call the built-in judge makes for a prior and a current round's positions. */
  type JudgeCalls = (RoleMap, RoleMap) -> Call

  /**
   * `strategy.detect(prior, current)`. The judge makes no call for a first
   * round; otherwise it makes one call, `judge(prior, current)` (which is
   * `JudgeCall` when the executor runs the round), and a failed call fails
   * the round.
   */
  function Detect(strategy: DeltaStrategy, judge: JudgeCalls, o: Oracle, log: seq<Exchange>,
                  prior: Option<RoleMap>, current: RoleMap): (r: Run<bool>)
    ensures strategy.Custom? ==> r == Done(strategy.detect(prior, current), log)
    ensures strategy.LLMJudge? && prior.None? ==> r == Done(true, log)
    ensures strategy.LLMJudge? && prior.Some? ==>
      && r.log == log + [Send(o, log, judge(prior.value, current))]
      && (r.Done? <==> r.log[|log|].outcome.Answered?)
      && (r.Done? ==> r.value == JudgeSaysChanged(r.log[|log|].outcome.reply.content))
      && (r.Aborted? ==> r.log[|log|].outcome == Failed(r.error))
  {
    match strategy
    case Custom(detect) => Done(detect(prior, current), log)
    case LLMJudge =>
      if prior.None? then Done(true, log)
      else
        var ex := Send(o, log, judge(prior.value, current));
        match ex.outcome
        case Answered(reply) => Done(JudgeSaysChanged(reply.content), log + [ex])
        case Failed(e) => Aborted(e, log + [ex])
  }

  /**
   * The rule every grammar applies after its calls: the strategy's verdict
   * when there is a strategy and a non-empty prior round, "changed" otherwise.
   */
  function RoundDelta(strategy: Option<DeltaStrategy>, judge: JudgeCalls, o: Oracle, log: seq<Exchange>,
                      prior: Option<RoleMap>, current: RoleMap): (r: Run<bool>)
    ensures strategy.None? || prior.None? || prior == Some([]) ==> r == Done(true, log)
    ensures strategy.Some? && prior.Some? && prior.value != [] ==> r == Detect(strategy.value, judge, o, log, prior, current)
  {
    if strategy.Some? && prior.Some? && prior.value != [] then Detect(strategy.value, judge, o, log, prior, current)
    else Done(true, log)
  }

  /** "Unchanged" is reported only with a strategy and a non-empty prior, and from the judge only on a reply without "YES". */
  lemma UnchangedNeedsEvidence(strategy: Option<DeltaStrategy>, judge: JudgeCalls, o: Oracle, log: seq<Exchange>,
                               prior: Option<RoleMap>, current: RoleMap)
    requires RoundDelta(strategy, judge, o, log, prior, current) == Done(false, RoundDelta(strategy, judge, o, log, prior, current).log)
    ensures strategy.Some? && prior.Some? && prior.value != []
    ensures strategy == Some(LLMJudge) ==>
      var r := RoundDelta(strategy, judge, o, log, prior, current);
      |r.log| == |log| + 1 && r.log[|log|].outcome.Answered? && !JudgeSaysChanged(r.log[|log|].outcome.reply.content)
  {
  }

  /** The delta rule makes at most one call, the judge's, appended to the log; a failed judge call aborts with its error. */
  lemma RoundDeltaExtends(strategy: Option<DeltaStrategy>, judge: JudgeCalls, o: Oracle, log: seq<Exchange>,
                          prior: Option<RoleMap>, current: RoleMap)
    ensures var d := RoundDelta(strategy, judge, o, log, prior, current);
      && |log| <= |d.log| <= |log| + 1 && d.log[..|log|] == log
      && (d.Aborted? ==> |d.log| == |log| + 1 && d.log[|log|].outcome == Failed(d.error))
  {
  }

  /**
   * The delta rule's verdict `delta` for `current` against `prior`, with its
   * calls at positions `p..` of `log`: "changed" without a strategy or
   * without a non-empty prior; a custom strategy's own verdict; otherwise
   * one judge call at `p`, answered, whose reply decides.
   */
  predicate DeltaOutcome(strategy: Option<DeltaStrategy>, judge: JudgeCalls, o: Oracle, log: seq<Exchange>, p: nat,
                         prior: Option<RoleMap>, current: RoleMap, delta: bool) {
    if strategy.None? || prior.None? || prior == Some([]) then |log| == p && delta
    else match strategy.value
      case Custom(detect) => |log| == p && delta == detect(prior, current)
      case LLMJudge =>
        && |log| == p + 1
        && log[p].call == judge(prior.value, current)
        && log[p].outcome == o.answer(p, log[p].call)
        && log[p].outcome.Answered?
        && delta == JudgeSaysChanged(log[p].outcome.reply.content)
  }

  /** A completed delta rule has the outcome `DeltaOutcome` describes, on top of the log it started from. */
  lemma RoundDeltaOutcome(strategy: Option<DeltaStrategy>, judge: JudgeCalls, o: Oracle, log: seq<Exchange>,
                          prior: Option<RoleMap>, current: RoleMap)
    ensures var d := RoundDelta(strategy, judge, o, log, prior, current);
      d.Done? ==> d.log[..|log|] == log && DeltaOutcome(strategy, judge, o, d.log, |log|, prior, current, d.value)
  {
  }
}
