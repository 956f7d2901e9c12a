/**
 * `execute_council`: the short-circuit, the round loop with its early exit,
 * the transcript kept under observability, and the final synthesis.
 */
module Executor {
  import opened Wrappers
  import opened Config
  import opened RoleMaps
  import opened Schemas
  import opened Transport
  import opened EngineSettings
  import opened Delta
  import opened Rounds
  import opened Synthesis
  import SequentialGrammar
  import ParallelGrammar
  import DebateGrammar

  /** A round executor that takes the prior critique, and one that does not. */
  type CritiqueRound = (RoundInput, Option<string>, Oracle, seq<Exchange>) -> Run<LoopRecord>
  type PlainRound = (RoundInput, Oracle, seq<Exchange>) -> Run<LoopRecord>

  /** `grammar_executors`: the round executor of each grammar. */
  datatype GrammarExecutors = GrammarExecutors(parallel: CritiqueRound, sequential: PlainRound, debate: PlainRound)

  /**
   * What the executor is run with besides its arguments: the grammar table,
   * the critic's system prompt for each flavour, and the call synthesis makes.
   */
  datatype Engine = Engine(grammars: GrammarExecutors, redTeamPrompt: RedTeamFlavor -> string, synth: SynthesisCalls)

  /** The three grammars with the texts they send. */
  const StandardGrammars: GrammarExecutors :=
    GrammarExecutors(
      (inp: RoundInput, priorCritique: Option<string>, o: Oracle, log: seq<Exchange>) =>
        ParallelGrammar.ParallelRound(inp, priorCritique, ParallelGrammar.Standard, o, log),
      (inp: RoundInput, o: Oracle, log: seq<Exchange>) => SequentialGrammar.SequentialRound(inp, SequentialGrammar.Standard, o, log),
      (inp: RoundInput, o: Oracle, log: seq<Exchange>) => DebateGrammar.DebateRound(inp, DebateGrammar.Standard, o, log))

  /** The engine as the program assembles it, for a given table of critic prompts. */
  function StandardEngine(redTeamPrompt: RedTeamFlavor -> string): Engine {
    Engine(StandardGrammars, redTeamPrompt, SynthesisCall)
  }

  /** A round that issued at least one call after `log`, kept `log` and numbered its record as asked. */
  predicate Grows(inp: RoundInput, log: seq<Exchange>, r: Run<LoopRecord>) {
    |log| < |r.log| && r.log[..|log|] == log && (r.Done? ==> r.value.loopNumber == inp.loopNumber)
  }

  /** Every round executor of the table grows the log and numbers its record. */
  ghost predicate WellBehaved(g: GrammarExecutors) {
    && (forall inp, pc, o, log :: Grows(inp, log, g.parallel(inp, pc, o, log)))
    && (forall inp, o, log :: Grows(inp, log, g.sequential(inp, o, log)))
    && (forall inp, o, log :: Grows(inp, log, g.debate(inp, o, log)))
  }

  /** The three grammars of the program behave so. */
  lemma StandardWellBehaved()
    ensures WellBehaved(StandardGrammars)
  {
    forall inp, pc, o, log
      ensures Grows(inp, log, StandardGrammars.parallel(inp, pc, o, log))
    {
      ParallelGrammar.ParallelRoundExtends(inp, pc, ParallelGrammar.Standard, o, log);
      ParallelGrammar.ParallelRoundRecord(inp, pc, ParallelGrammar.Standard, o, log);
    }
    forall inp, o, log
      ensures Grows(inp, log, StandardGrammars.sequential(inp, o, log))
    {
      SequentialGrammar.SequentialRoundExtends(inp, SequentialGrammar.Standard, o, log);
      SequentialGrammar.SequentialRoundRecord(inp, SequentialGrammar.Standard, o, log);
    }
    forall inp, o, log
      ensures Grows(inp, log, StandardGrammars.debate(inp, o, log))
    {
      DebateGrammar.DebateRoundExtends(inp, DebateGrammar.Standard, o, log);
      DebateGrammar.DebateRoundRecord(inp, DebateGrammar.Standard, o, log);
    }
  }

  // The short-circuit.

  /** The plan asks for a direct answer: allowed, and the query is simple. */
  predicate ShortCircuits(triage: TriageOutput) {
    triage.shortCircuitAllowed && triage.complexity == Simple
  }

  /** The direct answer's call: the synthesis instruction as system prompt, the reconstructed query as user message. */
  function ShortCircuitCall(triage: TriageOutput, config: EngineConfig): Call {
    Call([SystemMessage(triage.synthesisInstruction), UserMessage(triage.reconstructedQuery)], config.defaultModel)
  }

  // The council and the inputs of each round.

  /** The council without its critic seats, in council order. */
  function DeliberatingSeats(council: seq<CouncilSeat>): seq<CouncilSeat> {
    if council == [] then []
    else
      var last := council[|council| - 1];
      DeliberatingSeats(council[..|council| - 1]) + (if last.role != RedTeam then [last] else [])
  }

  /** A seat deliberates exactly when it is in the council and is not the critic. */
  lemma {:induction false} DeliberatingSeatsMembers(council: seq<CouncilSeat>)
    ensures forall s :: s in DeliberatingSeats(council) <==> s in council && s.role != RedTeam
    decreases |council|
  {
    if council != [] {
      var init := council[..|council| - 1];
      DeliberatingSeatsMembers(init);
      assert council == init + [council[|council| - 1]];
    }
  }

  /** Filtering keeps the council's order: the seats of two councils placed end to end are the two filtered in turn. */
  lemma {:induction false} DeliberatingSeatsAppend(a: seq<CouncilSeat>, b: seq<CouncilSeat>)
    ensures DeliberatingSeats(a + b) == DeliberatingSeats(a) + DeliberatingSeats(b)
    decreases |b|
  {
    if b == [] {
      assert a + b == a;
    } else {
      var init := b[..|b| - 1];
      DeliberatingSeatsAppend(a, init);
      assert (a + b)[..|a + b| - 1] == a + init;
    }
  }

  /** The configured delta strategy, or the model judge when none is configured. */
  function StrategyFor(config: EngineConfig): DeltaStrategy {
    if config.deltaStrategy.Some? then config.deltaStrategy.value else LLMJudge
  }

  /** The responses of the last completed round, if any. */
  function PriorResponses(ran: seq<LoopRecord>): Option<RoleMap> {
    if ran == [] then None else Some(ran[|ran| - 1].councilResponses)
  }

  /** The critique of the last completed round, if any. */
  function PriorCritique(ran: seq<LoopRecord>): Option<string> {
    if ran == [] then None else Some(ran[|ran| - 1].redTeamCritique)
  }

  /** The input of round `loopNum` after the rounds `ran`. */
  function RoundInputFor(engine: Engine, triage: TriageOutput, config: EngineConfig, loopNum: int, ran: seq<LoopRecord>): RoundInput {
    RoundInput(triage.reconstructedQuery, loopNum, DeliberatingSeats(triage.council),
               engine.redTeamPrompt(triage.redTeamFlavor), config, RoutesFor(config),
               PriorResponses(ran), Some(StrategyFor(config)), JudgeCall)
  }

  /** Round `loopNum` run by the plan's grammar; only the parallel grammar is given the prior critique. */
  function RunRound(engine: Engine, triage: TriageOutput, config: EngineConfig, o: Oracle,
                    loopNum: int, ran: seq<LoopRecord>, log: seq<Exchange>): Run<LoopRecord> {
    Dispatch(engine.grammars, triage.loopGrammar, RoundInputFor(engine, triage, config, loopNum, ran), PriorCritique(ran), o, log)
  }

  /** The grammar's executor called with its arguments: the prior critique goes to the parallel grammar only. */
  function Dispatch(g: GrammarExecutors, grammar: LoopGrammar, inp: RoundInput, priorCritique: Option<string>,
                    o: Oracle, log: seq<Exchange>): Run<LoopRecord> {
    match grammar
    case Parallel => g.parallel(inp, priorCritique, o, log)
    case Sequential => g.sequential(inp, o, log)
    case Debate => g.debate(inp, o, log)
  }

  /** The call of `execute_loop` in the round loop, one argument list for the parallel grammar and one for the others. */
  method ExecuteLoop(g: GrammarExecutors, grammar: LoopGrammar, inp: RoundInput, priorCritique: Option<string>,
                     o: Oracle, log: seq<Exchange>) returns (round: Run<LoopRecord>)
    ensures round == Dispatch(g, grammar, inp, priorCritique, o, log)
  {
    if grammar == Parallel {
      round := g.parallel(inp, priorCritique, o, log);
    } else if grammar == Sequential {
      round := g.sequential(inp, o, log);
    } else {
      round := g.debate(inp, o, log);
    }
  }

  /** Only the parallel grammar sees the prior critique: for the others the round does not depend on it. */
  lemma OnlyParallelSeesCritique(g: GrammarExecutors, grammar: LoopGrammar, inp: RoundInput,
                                 pc1: Option<string>, pc2: Option<string>, o: Oracle, log: seq<Exchange>)
    requires grammar != Parallel
    ensures Dispatch(g, grammar, inp, pc1, o, log) == Dispatch(g, grammar, inp, pc2, o, log)
  {
  }

  /** The convergence check: early exit allowed, round 2 or later, and no change detected. */
  predicate ExitsAfter(triage: TriageOutput, loopNum: int, record: LoopRecord) {
    triage.allowEarlyExit && loopNum >= 2 && !record.deltaDetected
  }

  /** The rounds run, in order, and whether the loop stopped early. */
  datatype Deliberation = Deliberation(rounds: seq<LoopRecord>, earlyExit: bool)

  /** The round loop from round `loopNum` on, after the rounds `ran`. */
  function RoundLoop(engine: Engine, triage: TriageOutput, config: EngineConfig, o: Oracle,
                  loopNum: int, ran: seq<LoopRecord>, log: seq<Exchange>): Run<Deliberation>
    decreases triage.loopCount + 1 - loopNum
  {
    if loopNum > triage.loopCount then Done(Deliberation(ran, false), log)
    else
      match RunRound(engine, triage, config, o, loopNum, ran, log)
      case Aborted(e, l) => Aborted(e, l)
      case Done(record, l) =>
        if ExitsAfter(triage, loopNum, record) then Done(Deliberation(ran + [record], true), l)
        else RoundLoop(engine, triage, config, o, loopNum + 1, ran + [record], l)
  }

  /** The records synthesis reads: the transcript, or else one record rebuilt from the last round. */
  function SynthesisRecords(config: EngineConfig, ran: seq<LoopRecord>): seq<LoopRecord> {
    var trace := if config.observability then ran else [];
    if trace != [] then trace
    else if ran != [] && ran[|ran| - 1].councilResponses != [] then
      [LoopRecord(|ran|, ran[|ran| - 1].councilResponses, [], ran[|ran| - 1].redTeamCritique, "", true)]
    else []
  }

  /** `execute_council` */
  function Council(engine: Engine, triage: TriageOutput, userQuery: string, config: EngineConfig,
                   o: Oracle, log: seq<Exchange>): Run<ExecutorResult> {
    if ShortCircuits(triage) then
      var ex := Send(o, log, ShortCircuitCall(triage, config));
      match ex.outcome
      case Failed(e) => Aborted(e, log + [ex])
      case Answered(reply) => Done(ExecutorResult(reply.content, 0, true, None, None), log + [ex])
    else
      match RoundLoop(engine, triage, config, o, 1, [], log)
      case Aborted(e, l) => Aborted(e, l)
      case Done(d, l) =>
        match Synthesize(engine.synth, o, l, triage, userQuery, SynthesisRecords(config, d.rounds), config)
        case Aborted(e, l2) => Aborted(e, l2)
        case Done(answer, l2) =>
          Done(ExecutorResult(answer, |d.rounds|, d.earlyExit,
                              if config.observability then Some(d.rounds) else None,
                              if config.observability then Some(triage) else None), l2)
  }

  /** The variables `execute_council` carries from round to round. */
  datatype LoopState = LoopState(loopRecords: seq<LoopRecord>, priorResponses: Option<RoleMap>,
                                 priorCritique: Option<string>, loopsExecuted: int, earlyExit: bool)

  /** Those variables once the rounds `d` are done. */
  function StateAfter(config: EngineConfig, d: Deliberation): LoopState {
    LoopState(if config.observability then d.rounds else [], PriorResponses(d.rounds), PriorCritique(d.rounds),
              |d.rounds|, d.earlyExit)
  }

  /** The round loop of `execute_council` as the source writes it: a loop over the rounds that may break early. */
  method RunRounds(engine: Engine, triage: TriageOutput, config: EngineConfig, o: Oracle, log0: seq<Exchange>)
    returns (r: Run<LoopState>)
    ensures match RoundLoop(engine, triage, config, o, 1, [], log0)
            case Aborted(e, l) => r == Aborted(e, l)
            case Done(d, l) => r == Done(StateAfter(config, d), l)
  {
    var deliberatingSeats := DeliberatingSeats(triage.council);
    var deltaStrategy := config.deltaStrategy;
    if deltaStrategy.None? {
      deltaStrategy := Some(LLMJudge);
    }

    var loopRecords: seq<LoopRecord> := [];
    var priorResponses: Option<RoleMap> := None;
    var priorCritique: Option<string> := None;
    var loopsExecuted := 0;
    var earlyExit := false;
    var log := log0;
    ghost var ran: seq<LoopRecord> := [];

    var loopNum := 1;
    while loopNum <= triage.loopCount
      invariant 1 <= loopNum && loopsExecuted == |ran| == loopNum - 1
      invariant loopRecords == (if config.observability then ran else [])
      invariant priorResponses == PriorResponses(ran) && priorCritique == PriorCritique(ran)
      invariant !earlyExit
      invariant RoundLoop(engine, triage, config, o, 1, [], log0) == RoundLoop(engine, triage, config, o, loopNum, ran, log)
      decreases triage.loopCount + 1 - loopNum
    {
      var inp := RoundInput(triage.reconstructedQuery, loopNum, deliberatingSeats,
                            engine.redTeamPrompt(triage.redTeamFlavor), config, RoutesFor(config),
                            priorResponses, deltaStrategy, JudgeCall);
      assert inp == RoundInputFor(engine, triage, config, loopNum, ran);
      var round := ExecuteLoop(engine.grammars, triage.loopGrammar, inp, priorCritique, o, log);
      if round.Aborted? {
        return Aborted(round.error, round.log);
      }
      var record := round.value;
      RoundLoopStep(engine, triage, config, o, loopNum, ran, log);
      log := round.log;
      loopsExecuted := loopNum;
      if config.observability {
        loopRecords := loopRecords + [record];
      }
      priorResponses := Some(record.councilResponses);
      priorCritique := Some(record.redTeamCritique);
      ran := ran + [record];
      if triage.allowEarlyExit && loopNum >= 2 && !record.deltaDetected {
        earlyExit := true;
        break;
      }
      loopNum := loopNum + 1;
    }
    assert RoundLoop(engine, triage, config, o, 1, [], log0) == Done(Deliberation(ran, earlyExit), log);
    r := Done(LoopState(loopRecords, priorResponses, priorCritique, loopsExecuted, earlyExit), log);
  }

  /** `execute_council`: the short-circuit, or the rounds followed by synthesis. */
  method ExecuteCouncil(engine: Engine, triage: TriageOutput, userQuery: string, config: EngineConfig,
                        o: Oracle, log0: seq<Exchange>) returns (r: Run<ExecutorResult>)
    ensures r == Council(engine, triage, userQuery, config, o, log0)
  {
    if triage.shortCircuitAllowed && triage.complexity == Simple {
      var messages := [SystemMessage(triage.synthesisInstruction), UserMessage(triage.reconstructedQuery)];
      var ex := Send(o, log0, Call(messages, config.defaultModel));
      if ex.outcome.Failed? {
        return Aborted(ex.outcome.error, log0 + [ex]);
      }
      return Done(ExecutorResult(ex.outcome.reply.content, 0, true, None, None), log0 + [ex]);
    }

    var rounds := RunRounds(engine, triage, config, o, log0);
    if rounds.Aborted? {
      return Aborted(rounds.error, rounds.log);
    }
    ghost var d := RoundLoop(engine, triage, config, o, 1, [], log0).value;
    CouncilAfterRounds(engine, triage, userQuery, config, o, log0, d, rounds.log);
    var loopRecords, priorResponses, priorCritique := rounds.value.loopRecords, rounds.value.priorResponses, rounds.value.priorCritique;
    var loopsExecuted, earlyExit := rounds.value.loopsExecuted, rounds.value.earlyExit;

    var synthesisRecords := loopRecords;
    if synthesisRecords == [] && priorResponses.Some? && priorResponses.value != [] {
      var critique := if priorCritique.Some? then priorCritique.value else "";
      synthesisRecords := [LoopRecord(loopsExecuted, priorResponses.value, [], critique, "", true)];
    }
    assert synthesisRecords == SynthesisRecords(config, d.rounds);

    var answer := Synthesize(engine.synth, o, rounds.log, triage, userQuery, synthesisRecords, config);
    if answer.Aborted? {
      return Aborted(answer.error, answer.log);
    }
    r := Done(ExecutorResult(answer.value, loopsExecuted, earlyExit,
                             if config.observability then Some(loopRecords) else None,
                             if config.observability then Some(triage) else None), answer.log);
  }

  /** One step of the round loop: round `loopNum` completed, then the loop stops or goes on. */
  lemma RoundLoopStep(engine: Engine, triage: TriageOutput, config: EngineConfig, o: Oracle,
                      loopNum: int, ran: seq<LoopRecord>, log: seq<Exchange>)
    requires loopNum <= triage.loopCount
    requires RunRound(engine, triage, config, o, loopNum, ran, log).Done?
    ensures var round := RunRound(engine, triage, config, o, loopNum, ran, log);
      RoundLoop(engine, triage, config, o, loopNum, ran, log)
      == if ExitsAfter(triage, loopNum, round.value) then Done(Deliberation(ran + [round.value], true), round.log)
         else RoundLoop(engine, triage, config, o, loopNum + 1, ran + [round.value], round.log)
  {
  }

  /** Once the rounds are done, what remains of `Council` is synthesis and the result. */
  lemma CouncilAfterRounds(engine: Engine, triage: TriageOutput, userQuery: string, config: EngineConfig,
                           o: Oracle, log0: seq<Exchange>, d: Deliberation, l: seq<Exchange>)
    requires !ShortCircuits(triage) && RoundLoop(engine, triage, config, o, 1, [], log0) == Done(d, l)
    ensures Council(engine, triage, userQuery, config, o, log0)
         == match Synthesize(engine.synth, o, l, triage, userQuery, SynthesisRecords(config, d.rounds), config)
            case Aborted(e, l2) => Aborted(e, l2)
            case Done(answer, l2) =>
              Done(ExecutorResult(answer, |d.rounds|, d.earlyExit,
                                  if config.observability then Some(d.rounds) else None,
                                  if config.observability then Some(triage) else None), l2)
  {
  }

  // What the round loop guarantees.

  function Max0(n: int): nat {
    if n < 0 then 0 else n
  }

  /**
   * The round loop from round `loopNum` keeps the rounds already run and adds
   * rounds in order. Without an early exit it runs to `loop_count`; an early
   * exit happens only after round 2 or later, when allowed, on a round that
   * detected no change, and it is the first round that could exit.
   */
  lemma {:induction false} RoundsOutline(engine: Engine, triage: TriageOutput, config: EngineConfig, o: Oracle,
                                         loopNum: int, ran: seq<LoopRecord>, log: seq<Exchange>)
    requires 1 <= loopNum && |ran| == loopNum - 1
    ensures var r := RoundLoop(engine, triage, config, o, loopNum, ran, log);
      r.Done? ==> Outline(triage, ran, r.value)
    decreases triage.loopCount + 1 - loopNum
  {
    if loopNum <= triage.loopCount {
      var rr := RunRound(engine, triage, config, o, loopNum, ran, log);
      if rr.Done? && !ExitsAfter(triage, loopNum, rr.value) {
        var ran' := ran + [rr.value];
        RoundsOutline(engine, triage, config, o, loopNum + 1, ran', rr.log);
        var r := RoundLoop(engine, triage, config, o, loopNum + 1, ran', rr.log);
        assert RoundLoop(engine, triage, config, o, loopNum, ran, log) == r;
        if r.Done? {
          OutlineExtend(triage, ran, rr.value, r.value);
        }
      }
    }
  }

  /**
   * What the round loop makes of the rounds already run, `ran`: it keeps
   * them and adds rounds after them. Without an early exit there are
   * `loop_count` rounds in all (or just `ran`, if that is more); an early exit
   * comes after round 2 or later, on a round that may exit, and no round
   * added before it could exit.
   */
  predicate Outline(triage: TriageOutput, ran: seq<LoopRecord>, d: Deliberation) {
    var rounds := d.rounds;
    && |ran| <= |rounds| && rounds[..|ran|] == ran
    && (!d.earlyExit ==> |rounds| == if triage.loopCount < |ran| then |ran| else triage.loopCount)
    && (d.earlyExit ==>
          && |ran| < |rounds| && 2 <= |rounds| <= triage.loopCount
          && ExitsAfter(triage, |rounds|, rounds[|rounds| - 1]))
    && (forall k :: |ran| <= k < |rounds| - 1 ==> !ExitsAfter(triage, k + 1, rounds[k]))
    && (!d.earlyExit ==> forall k :: |ran| <= k < |rounds| ==> !ExitsAfter(triage, k + 1, rounds[k]))
  }

  /** A round that did not exit can be counted among the rounds already run. */
  lemma OutlineExtend(triage: TriageOutput, ran: seq<LoopRecord>, record: LoopRecord, d: Deliberation)
    requires |ran| < triage.loopCount && !ExitsAfter(triage, |ran| + 1, record) && Outline(triage, ran + [record], d)
    ensures Outline(triage, ran, d)
  {
    var rounds := d.rounds;
    assert rounds[..|ran|] == rounds[..|ran| + 1][..|ran|];
    assert rounds[|ran|] == record;
  }

  /**
   * With round executors that grow the log and number their records, the
   * loop keeps the log it started from, issues at least one call per round,
   * and the `k`-th new record is round `k + 1`.
   */
  lemma {:induction false} RoundsLog(engine: Engine, triage: TriageOutput, config: EngineConfig, o: Oracle,
                                     loopNum: int, ran: seq<LoopRecord>, log: seq<Exchange>)
    requires WellBehaved(engine.grammars)
    requires 1 <= loopNum && |ran| == loopNum - 1
    ensures var r := RoundLoop(engine, triage, config, o, loopNum, ran, log);
      && |log| <= |r.log| && r.log[..|log|] == log
      && (r.Aborted? ==> |log| < |r.log|)
      && (r.Done? ==>
            && |ran| <= |r.value.rounds|
            && |log| + |r.value.rounds| - |ran| <= |r.log|
            && forall k :: |ran| <= k < |r.value.rounds| ==> r.value.rounds[k].loopNumber == k + 1)
    decreases triage.loopCount + 1 - loopNum
  {
    if loopNum <= triage.loopCount {
      var inp := RoundInputFor(engine, triage, config, loopNum, ran);
      var rr := RunRound(engine, triage, config, o, loopNum, ran, log);
      assert Grows(inp, log, rr) by {
        match triage.loopGrammar
        case Parallel => assert Grows(inp, log, engine.grammars.parallel(inp, PriorCritique(ran), o, log));
        case Sequential => assert Grows(inp, log, engine.grammars.sequential(inp, o, log));
        case Debate => assert Grows(inp, log, engine.grammars.debate(inp, o, log));
      }
      if rr.Done? && !ExitsAfter(triage, loopNum, rr.value) {
        var ran' := ran + [rr.value];
        RoundsLog(engine, triage, config, o, loopNum + 1, ran', rr.log);
        RoundsOutline(engine, triage, config, o, loopNum + 1, ran', rr.log);
        var r := RoundLoop(engine, triage, config, o, loopNum + 1, ran', rr.log);
        assert r.log[..|log|] == r.log[..|rr.log|][..|log|];
        if r.Done? {
          assert r.value.rounds[|ran|] == ran'[|ran|];
        }
      }
    }
  }

  // What the executor guarantees.

  /**
   * A plan that short-circuits costs exactly one call, the direct answer's;
   * the answer is that reply's text, with no rounds, an early exit and no
   * transcript.
   */
  lemma CouncilShortCircuit(engine: Engine, triage: TriageOutput, userQuery: string, config: EngineConfig,
                            o: Oracle, log: seq<Exchange>)
    requires ShortCircuits(triage)
    ensures var r := Council(engine, triage, userQuery, config, o, log);
      && r.log == log + [Send(o, log, ShortCircuitCall(triage, config))]
      && (r.Done? <==> o.answer(|log|, ShortCircuitCall(triage, config)).Answered?)
      && (r.Done? ==> r.value == ExecutorResult(o.answer(|log|, ShortCircuitCall(triage, config)).reply.content, 0, true, None, None))
  {
  }

  /**
   * Otherwise the rounds run, then synthesis makes exactly one call, on the
   * records `SynthesisRecords` picks; its reply is the final response, and the
   * transcript and the plan are returned exactly under observability.
   */
  lemma CouncilDeliberates(engine: Engine, triage: TriageOutput, userQuery: string, config: EngineConfig,
                           o: Oracle, log: seq<Exchange>)
    requires !ShortCircuits(triage)
    ensures var r := Council(engine, triage, userQuery, config, o, log);
      var rr := RoundLoop(engine, triage, config, o, 1, [], log);
      r.Done? ==>
        && rr.Done?
        && |r.log| == |rr.log| + 1 && r.log[..|rr.log|] == rr.log
        && r.log[|rr.log|] == Send(o, rr.log, engine.synth(triage, userQuery, SynthesisRecords(config, rr.value.rounds), config))
        && r.value.finalResponse == r.log[|rr.log|].outcome.reply.content
        && r.value.loopsExecuted == |rr.value.rounds| && r.value.earlyExit == rr.value.earlyExit
        && (r.value.reasoningTrace.Some? <==> config.observability)
        && (config.observability ==> r.value.reasoningTrace == Some(rr.value.rounds) && r.value.triageOutput == Some(triage))
        && (!config.observability ==> r.value.triageOutput.None?)
  {
  }

  /** The executor reports an early exit with no rounds exactly when it short-circuited. */
  lemma ShortCircuitIff(engine: Engine, triage: TriageOutput, userQuery: string, config: EngineConfig,
                        o: Oracle, log: seq<Exchange>)
    ensures var r := Council(engine, triage, userQuery, config, o, log);
      r.Done? ==> (ShortCircuits(triage) <==> r.value.earlyExit && r.value.loopsExecuted == 0)
  {
    if !ShortCircuits(triage) {
      RoundsOutline(engine, triage, config, o, 1, [], log);
      CouncilDeliberates(engine, triage, userQuery, config, o, log);
    }
  }

  /**
   * Without the short-circuit: with early exit disallowed every planned round
   * runs; an early exit happens only from round 2 on, on a round that
   * detected no change, and no earlier round from round 2 on could have
   * exited; without one, `loop_count` rounds ran (none if it is not
   * positive).
   */
  lemma LoopsExecuted(engine: Engine, triage: TriageOutput, userQuery: string, config: EngineConfig,
                      o: Oracle, log: seq<Exchange>)
    requires !ShortCircuits(triage)
    ensures var r := Council(engine, triage, userQuery, config, o, log);
      var rr := RoundLoop(engine, triage, config, o, 1, [], log);
      r.Done? ==>
        && (!r.value.earlyExit ==> r.value.loopsExecuted == Max0(triage.loopCount))
        && (!triage.allowEarlyExit ==> !r.value.earlyExit && r.value.loopsExecuted == Max0(triage.loopCount))
        && (r.value.earlyExit ==>
              && 2 <= r.value.loopsExecuted <= triage.loopCount
              && !rr.value.rounds[r.value.loopsExecuted - 1].deltaDetected)
        && (triage.allowEarlyExit ==> forall k :: 1 <= k < r.value.loopsExecuted - 1 ==> rr.value.rounds[k].deltaDetected)
  {
    RoundsOutline(engine, triage, config, o, 1, [], log);
    CouncilDeliberates(engine, triage, userQuery, config, o, log);
    var r := Council(engine, triage, userQuery, config, o, log);
    var rr := RoundLoop(engine, triage, config, o, 1, [], log);
    if r.Done? {
      var rounds := rr.value.rounds;
      if !triage.allowEarlyExit {
        assert !rr.value.earlyExit;
      }
      if triage.allowEarlyExit {
        forall k | 1 <= k < r.value.loopsExecuted - 1
          ensures rounds[k].deltaDetected
        {
          assert !ExitsAfter(triage, k + 1, rounds[k]);
        }
      }
    }
  }

  /**
   * With the program's grammars, the transcript under observability holds one
   * record per executed round, numbered from 1 in order; the rounds' calls
   * come first in the log and synthesis's call last.
   */
  lemma TraceNumbered(redTeamPrompt: RedTeamFlavor -> string, triage: TriageOutput, userQuery: string,
                      config: EngineConfig, o: Oracle, log: seq<Exchange>)
    requires !ShortCircuits(triage)
    ensures var engine := StandardEngine(redTeamPrompt);
      var r := Council(engine, triage, userQuery, config, o, log);
      && |log| < |r.log| && r.log[..|log|] == log
      && (r.Done? && config.observability ==>
            && |r.value.reasoningTrace.value| == r.value.loopsExecuted
            && |log| + r.value.loopsExecuted < |r.log|
            && forall k :: 0 <= k < r.value.loopsExecuted ==> r.value.reasoningTrace.value[k].loopNumber == k + 1)
  {
    StandardWellBehaved();
    TraceNumberedFor(StandardEngine(redTeamPrompt), triage, userQuery, config, o, log);
  }

  /** `TraceNumbered`, for any engine whose grammars behave. */
  lemma TraceNumberedFor(engine: Engine, triage: TriageOutput, userQuery: string,
                         config: EngineConfig, o: Oracle, log: seq<Exchange>)
    requires !ShortCircuits(triage) && WellBehaved(engine.grammars)
    ensures var r := Council(engine, triage, userQuery, config, o, log);
      && |log| < |r.log| && r.log[..|log|] == log
      && (r.Done? && config.observability ==>
            && |r.value.reasoningTrace.value| == r.value.loopsExecuted
            && |log| + r.value.loopsExecuted < |r.log|
            && forall k :: 0 <= k < r.value.loopsExecuted ==> r.value.reasoningTrace.value[k].loopNumber == k + 1)
  {
    RoundsLog(engine, triage, config, o, 1, [], log);
    CouncilDeliberates(engine, triage, userQuery, config, o, log);
    var rr := RoundLoop(engine, triage, config, o, 1, [], log);
    if rr.Done? {
      var s := Synthesize(engine.synth, o, rr.log, triage, userQuery, SynthesisRecords(config, rr.value.rounds), config);
      assert s.log[..|log|] == s.log[..|rr.log|][..|log|];
    }
  }

  /**
   * Synthesis sees the transcript when it is kept; otherwise at most one
   * record, rebuilt from the last round: its responses and critique, the
   * number of rounds run, no models, and a detected change. Synthesis sees no
   * record only when no round ran or the last round had no responses.
   */
  lemma SynthesisRecordsFacts(config: EngineConfig, ran: seq<LoopRecord>)
    ensures var recs := SynthesisRecords(config, ran);
      && (config.observability ==> recs == ran)
      && (recs == [] <==> ran == [] || (!config.observability && ran[|ran| - 1].councilResponses == []))
      && (!config.observability && recs != [] ==>
            && |recs| == 1 && recs[0].loopNumber == |ran|
            && recs[0].councilResponses == ran[|ran| - 1].councilResponses
            && recs[0].redTeamCritique == ran[|ran| - 1].redTeamCritique
            && recs[0].modelsUsed == [] && recs[0].redTeamModel == "" && recs[0].deltaDetected)
  {
  }
}
