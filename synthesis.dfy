/**
 * The final step: the rounds' records written out as one deliberation
 * summary, and the single call that turns it into the answer to the user.
 */
module Synthesis {
  import opened Wrappers
  import opened Strings
  import opened Config
  import opened RoleMaps
  import opened Schemas
  import opened Transport
  import opened EngineSettings

  const NoDeliberation: string := "(No deliberation occurred)"

  const CritiqueHeading: string := "\n[RED TEAM CRITIQUE]:"

  /** The first line of a round's section. */
  function LoopHeader(loopNumber: int): string {
    "=== LOOP " + IntToString(loopNumber) + " ==="
  }

  /** The heading line of a role's response, after a blank line. */
  function RoleHeading(role: CouncilRole): string {
    "\n[" + RoleLabel(role) + "]:"
  }

  /** A response's lines: its role heading and its text, or nothing for the critic's own entry. */
  function EntryLines(e: Entry): seq<string> {
    if e.role != RedTeam then [RoleHeading(e.role), e.text] else []
  }

  /** The lines of every response in order. */
  function ResponseLines(responses: RoleMap): seq<string> {
    if responses == [] then []
    else ResponseLines(responses[..|responses| - 1]) + EntryLines(responses[|responses| - 1])
  }

  /** A round's lines: the header, the responses, then the critique heading and the critique. */
  function SectionLines(record: LoopRecord): seq<string> {
    [LoopHeader(record.loopNumber)] + (ResponseLines(record.councilResponses) + [CritiqueHeading, record.redTeamCritique])
  }

  /** A round's section: its lines joined by newlines. */
  function Section(record: LoopRecord): string {
    Join("\n", SectionLines(record))
  }

  /** One section per record, in record order. */
  function Sections(records: seq<LoopRecord>): (sections: seq<string>)
    ensures |sections| == |records|
  {
    seq(|records|, i requires 0 <= i < |records| => Section(records[i]))
  }

  /** `_build_deliberation_summary` */
  function DeliberationSummary(records: seq<LoopRecord>): string {
    if records == [] then NoDeliberation else Join("\n\n", Sections(records))
  }

  /** `_build_deliberation_summary` as the source writes it: a loop over the records, each written by `BuildSection`. */
  method BuildDeliberationSummary(records: seq<LoopRecord>) returns (text: string)
    ensures text == DeliberationSummary(records)
  {
    if records == [] {
      return NoDeliberation;
    }
    var sections: seq<string> := [];
    for i := 0 to |records|
      invariant sections == Sections(records[..i])
    {
      var section := BuildSection(records[i]);
      sections := sections + [section];
      assert records[..i + 1] == records[..i] + [records[i]];
    }
    assert records[..|records|] == records;
    text := Join("\n\n", sections);
  }

  /** The body of the loop over the records: the header, the responses' lines, then the critique. */
  method BuildSection(record: LoopRecord) returns (section: string)
    ensures section == Section(record)
  {
    var lines := BuildResponseLines(record.councilResponses);
    section := Join("\n", [LoopHeader(record.loopNumber)] + (lines + [CritiqueHeading, record.redTeamCritique]));
  }

  /** The inner loop over a round's responses, skipping the critic's own entry. */
  method BuildResponseLines(responses: RoleMap) returns (lines: seq<string>)
    ensures lines == ResponseLines(responses)
  {
    lines := [];
    for j := 0 to |responses|
      invariant lines == ResponseLines(responses[..j])
    {
      assert responses[..j + 1][..j] == responses[..j];
      if responses[j].role != RedTeam {
        lines := lines + [RoleHeading(responses[j].role), responses[j].text];
      }
    }
    assert responses[..|responses|] == responses;
  }

  // A reference description of a section, written without lines or joins.

  /** A response as a new line, its role heading, and the response on the next line; nothing for the critic. */
  function EntryText(e: Entry): string {
    if e.role != RedTeam then "\n" + RoleHeading(e.role) + "\n" + e.text else ""
  }

  /** Every response in order, as `EntryText` writes it. */
  function ResponsesText(responses: RoleMap): string {
    if responses == [] then ""
    else ResponsesText(responses[..|responses| - 1]) + EntryText(responses[|responses| - 1])
  }

  /** Each part preceded by the separator. */
  function Prefixed(sep: string, parts: seq<string>): string {
    if parts == [] then "" else sep + parts[0] + Prefixed(sep, parts[1..])
  }

  /** Joining a head and more parts is the head followed by each part after a separator. */
  lemma {:induction false} JoinCons(sep: string, head: string, parts: seq<string>)
    ensures Join(sep, [head] + parts) == head + Prefixed(sep, parts)
    decreases |parts|
  {
    if parts != [] {
      assert ([head] + parts)[1..] == parts;
      JoinCons(sep, parts[0], parts[1..]);
      assert [parts[0]] + parts[1..] == parts;
    }
  }

  lemma {:induction false} PrefixedAppend(sep: string, a: seq<string>, b: seq<string>)
    ensures Prefixed(sep, a + b) == Prefixed(sep, a) + Prefixed(sep, b)
    decreases |a|
  {
    if a != [] {
      assert (a + b)[1..] == a[1..] + b;
      PrefixedAppend(sep, a[1..], b);
    } else {
      assert a + b == b;
    }
  }

  lemma PrefixedPair(sep: string, a: string, b: string)
    ensures Prefixed(sep, [a, b]) == sep + a + sep + b
  {
    assert [a, b][1..] == [b];
    assert [b][1..] == [];
    assert Prefixed(sep, [b]) == sep + b;
  }

  lemma {:induction false} ResponseLinesPrefixed(responses: RoleMap)
    ensures Prefixed("\n", ResponseLines(responses)) == ResponsesText(responses)
    decreases |responses|
  {
    if responses != [] {
      var init := responses[..|responses| - 1];
      var last := responses[|responses| - 1];
      ResponseLinesPrefixed(init);
      PrefixedAppend("\n", ResponseLines(init), EntryLines(last));
      if last.role != RedTeam {
        PrefixedPair("\n", RoleHeading(last.role), last.text);
      }
    }
  }

  /**
   * A round's section is its loop header, then every response except the
   * critic's under its role heading, and last the critique under its own
   * heading.
   */
  lemma SectionShape(record: LoopRecord)
    ensures Section(record)
         == LoopHeader(record.loopNumber) + ResponsesText(record.councilResponses)
            + CritiqueText(record.redTeamCritique)
  {
    var lines := ResponseLines(record.councilResponses);
    var tail := [CritiqueHeading, record.redTeamCritique];
    JoinCons("\n", LoopHeader(record.loopNumber), lines + tail);
    PrefixedAppend("\n", lines, tail);
    ResponseLinesPrefixed(record.councilResponses);
    PrefixedPair("\n", CritiqueHeading, record.redTeamCritique);
    var h, rt, ct := LoopHeader(record.loopNumber), ResponsesText(record.councilResponses), CritiqueText(record.redTeamCritique);
    assert h + (rt + ct) == h + rt + ct;
  }

  /** The critique under its heading, after a blank line. */
  function CritiqueText(critique: string): string {
    "\n" + CritiqueHeading + "\n" + critique
  }

  /**
   * Without records the summary says that no deliberation occurred; one
   * record gives its section alone, and every further record adds a blank
   * line and its section.
   */
  lemma SummaryShape(records: seq<LoopRecord>, record: LoopRecord)
    ensures DeliberationSummary([]) == NoDeliberation
    ensures DeliberationSummary([record]) == Section(record)
    ensures records != [] ==> DeliberationSummary(records + [record]) == DeliberationSummary(records) + "\n\n" + Section(record)
  {
    if records != [] {
      assert Sections(records + [record]) == Sections(records) + [Section(record)];
      JoinAppend("\n\n", Sections(records), [Section(record)]);
    }
  }

  const SynthesisHead: string := "You are synthesizing the output of a deliberative council.\n\nORIGINAL USER QUERY:\n"
  const SynthesisQueryHeading: string := "\n\nRECONSTRUCTED QUERY (used by council):\n"
  const SynthesisSummaryHeading: string := "\n\nCOUNCIL DELIBERATION:\n"
  const SynthesisInstructionHeading: string := "\n\nSYNTHESIS INSTRUCTION:\n"
  const SynthesisTail: string :=
    "\n\nProduce the final response. Do not mention the council, the deliberation process, or that multiple perspectives were consulted. Speak directly to the user as a unified voice."

  /** The synthesis prompt: the user's query, the plan's query, the summary and the plan's instruction. */
  function SynthesisPrompt(triage: TriageOutput, userQuery: string, summary: string): string {
    SynthesisHead + userQuery + PlanQuery(triage) + summary + PlanInstruction(triage)
  }

  /** The reconstructed query under its heading, and the heading of the summary. */
  function PlanQuery(triage: TriageOutput): string {
    SynthesisQueryHeading + triage.reconstructedQuery + SynthesisSummaryHeading
  }

  /** The synthesis instruction under its heading, and the closing directions. */
  function PlanInstruction(triage: TriageOutput): string {
    SynthesisInstructionHeading + triage.synthesisInstruction + SynthesisTail
  }

  /** The synthesis call: one user message, addressed to the default model. */
  function SynthesisCall(triage: TriageOutput, userQuery: string, records: seq<LoopRecord>, config: EngineConfig): Call {
    Call([UserMessage(SynthesisPrompt(triage, userQuery, DeliberationSummary(records)))], config.defaultModel)
  }

  /** The call synthesis makes for a plan, the user's query, the records and the configuration. */
  type SynthesisCalls = (TriageOutput, string, seq<LoopRecord>, EngineConfig) -> Call

  /**
   * `synthesize`: exactly one call, `synth(...)` (which is `SynthesisCall`
   * when the executor runs it); the answer is the reply's text, and a failed
   * call fails synthesis with its error.
   */
  function Synthesize(synth: SynthesisCalls, o: Oracle, log: seq<Exchange>, triage: TriageOutput,
                      userQuery: string, records: seq<LoopRecord>, config: EngineConfig): (r: Run<string>)
    ensures |r.log| == |log| + 1 && r.log[..|log|] == log
    ensures r.log[|log|] == Send(o, log, synth(triage, userQuery, records, config))
    ensures r.Done? <==> r.log[|log|].outcome.Answered?
    ensures r.Done? ==> r.value == r.log[|log|].outcome.reply.content
    ensures r.Aborted? ==> r.log[|log|].outcome == Failed(r.error)
  {
    var ex := Send(o, log, synth(triage, userQuery, records, config));
    assert (log + [ex])[..|log|] == log;
    match ex.outcome
    case Answered(reply) => Done(reply.content, log + [ex])
    case Failed(e) => Aborted(e, log + [ex])
  }

  /**
   * The synthesis call is one user message to the default model, quoting the
   * user's query and the deliberation summary.
   */
  lemma SynthesisCallQuotes(triage: TriageOutput, userQuery: string, records: seq<LoopRecord>, config: EngineConfig)
    ensures var c := SynthesisCall(triage, userQuery, records, config);
      var summary := DeliberationSummary(records);
      && c.model == config.defaultModel
      && |c.messages| == 1 && c.messages[0].role == "user"
      && OccursAt(c.messages[0].content, userQuery, |SynthesisHead|)
      && OccursAt(c.messages[0].content, summary, |SynthesisHead| + |userQuery| + |PlanQuery(triage)|)
  {
    var summary := DeliberationSummary(records);
    QuotesBoth(SynthesisHead, userQuery, PlanQuery(triage), summary, PlanInstruction(triage));
  }
}
