/**
 * The parallel grammar: every seat answers the same context, then the critic
 * reads all the answers and writes one critique. From the second round on the
 * seats also see the previous round's positions and critique.
 */
module ParallelGrammar {
  import opened Wrappers
  import opened Strings
  import opened Config
  import opened RoleMaps
  import opened Schemas
  import opened Transport
  import opened EngineSettings
  import opened Delta
  import opened Rounds

  /** How Python formats an optional string: the text itself, or "None". */
  function OptionalText(s: Option<string>): string {
    if s.Some? then s.value else "None"
  }

  /** `prior_responses or {}` */
  function PriorOrEmpty(prior: Option<RoleMap>): RoleMap {
    if prior.Some? then prior.value else []
  }

  const RevisePrompt: string :=
    "Consider the critique above and revise your position as needed. Address valid objections while maintaining defensible positions."

  /**
   * A seat's messages: its system prompt and the query; after the first round
   * also the previous positions (as the assistant's turn) and the previous
   * critique with the instruction to revise.
   */
  function SeatMessages(inp: RoundInput, priorCritique: Option<string>, seat: CouncilSeat): seq<Message> {
    if inp.loopNumber == 1 then [SystemMessage(seat.systemPrompt), UserMessage(inp.query)]
    else
      [SystemMessage(seat.systemPrompt), UserMessage(inp.query),
       AssistantMessage(PositionsSummary(PriorOrEmpty(inp.priorResponses))),
       UserMessage("RED TEAM CRITIQUE:\n" + OptionalText(priorCritique) + "\n\n" + RevisePrompt)]
  }

  /** The critic's messages: its flavour's prompt, then the query and the positions of this round. */
  function CriticMessages(inp: RoundInput, responses: RoleMap): seq<Message> {
    [SystemMessage(inp.redTeamPrompt),
     UserMessage("QUERY: " + inp.query + "\n\nCOUNCIL POSITIONS:\n" + PositionsSummary(responses)
                 + "\n\nProvide your critique of these positions.")]
  }

  /**
   * The message builders a round uses. The round's control flow is stated
   * over any builders; `Standard` holds the texts the grammar sends.
   */
  datatype Texts = Texts(
    seat: (RoundInput, Option<string>, CouncilSeat) -> seq<Message>,
    critic: (RoundInput, RoleMap) -> seq<Message>)

  const Standard: Texts := Texts(SeatMessages, CriticMessages)

  /**
   * Seat `k`'s call, made as call number `p`: every seat is routed with an
   * empty list of selections, each call receiving its own copy of the
   * still-empty list of the round.
   */
  function SeatCall(inp: RoundInput, priorCritique: Option<string>, tx: Texts, o: Oracle, seat: CouncilSeat, k: nat, p: nat): Call {
    Call(tx.seat(inp, priorCritique, seat), inp.routes.seat(seat, inp.loopNumber - 1, k, [], o.entropy(p)))
  }

  /** The seats' calls, one per seat. */
  function SeatCalls(inp: RoundInput, priorCritique: Option<string>, tx: Texts, o: Oracle): CallMaker {
    (seat: CouncilSeat, k: nat, p: nat) => SeatCall(inp, priorCritique, tx, o, seat, k, p)
  }

  /** The seats' phase: all seats asked, the first failure failing the round. */
  function SeatPhase(inp: RoundInput, priorCritique: Option<string>, tx: Texts, o: Oracle, log: seq<Exchange>): (r: Run<seq<Reply>>)
    ensures r.Done? ==> |r.value| == |inp.seats|
  {
    FanOutLength(o, log, inp.seats, SeatCalls(inp, priorCritique, tx, o));
    FanOut(o, log, inp.seats, SeatCalls(inp, priorCritique, tx, o))
  }

  /** The call the critic receives once the seats have answered with `replies`. */
  function CriticCall(inp: RoundInput, tx: Texts, o: Oracle, replies: seq<Reply>, p: nat): Call
    requires |replies| == |inp.seats|
  {
    Call(tx.critic(inp, FromPairs(ContentPairs(inp.seats, replies))),
         inp.routes.redTeam(inp.loopNumber - 1, Values(FromPairs(ModelPairs(inp.seats, replies))), o.entropy(p)))
  }

  /** After the seats: the critique, then the delta rule, then the record. */
  function FinishParallel(inp: RoundInput, tx: Texts, o: Oracle, replies: seq<Reply>, l: seq<Exchange>): Run<LoopRecord>
    requires |replies| == |inp.seats|
  {
    var responses := FromPairs(ContentPairs(inp.seats, replies));
    var models := FromPairs(ModelPairs(inp.seats, replies));
    var ex := Send(o, l, CriticCall(inp, tx, o, replies, |l|));
    match ex.outcome
    case Failed(e) => Aborted(e, l + [ex])
    case Answered(critique) =>
      match RoundDelta(inp.deltaStrategy, inp.judge, o, l + [ex], inp.priorResponses, responses)
      case Aborted(e, l2) => Aborted(e, l2)
      case Done(delta, l2) =>
        Done(LoopRecord(inp.loopNumber, responses, models, critique.content, critique.modelUsed, delta), l2)
  }

  /** `execute_parallel_loop` as a function of the inputs and the oracle. */
  function ParallelRound(inp: RoundInput, priorCritique: Option<string>, tx: Texts, o: Oracle, log: seq<Exchange>): Run<LoopRecord> {
    match SeatPhase(inp, priorCritique, tx, o, log)
    case Aborted(e, l) => Aborted(e, l)
    case Done(replies, l) => FinishParallel(inp, tx, o, replies, l)
  }

  /**
   * After the seats: the critic's call comes next and is answered, the
   * record keeps the seats' replies by role and the critic's reply, and the
   * delta rule's calls, if any, follow.
   */
  lemma FinishShape(inp: RoundInput, tx: Texts, o: Oracle, replies: seq<Reply>, l: seq<Exchange>)
    requires |replies| == |inp.seats|
    ensures var r := FinishParallel(inp, tx, o, replies, l);
      && |l| < |r.log| && r.log[..|l|] == l
      && (r.Aborted? ==> r.log[|r.log| - 1].outcome == Failed(r.error))
      && (r.Done? ==>
           && |r.log| <= |l| + 2
           && r.value.loopNumber == inp.loopNumber
           && r.value.councilResponses == FromPairs(ContentPairs(inp.seats, replies))
           && r.value.modelsUsed == FromPairs(ModelPairs(inp.seats, replies))
           && AnsweredAs(o, r.log, |l|, CriticCall(inp, tx, o, replies, |l|))
           && r.value.redTeamCritique == ContentAt(r.log, |l|)
           && r.value.redTeamModel == ModelAt(r.log, |l|)
           && DeltaOutcome(inp.deltaStrategy, inp.judge, o, r.log, |l| + 1, inp.priorResponses, r.value.councilResponses, r.value.deltaDetected))
  {
    var responses := FromPairs(ContentPairs(inp.seats, replies));
    var ex := Send(o, l, CriticCall(inp, tx, o, replies, |l|));
    RoundDeltaExtends(inp.deltaStrategy, inp.judge, o, l + [ex], inp.priorResponses, responses);
    RoundDeltaOutcome(inp.deltaStrategy, inp.judge, o, l + [ex], inp.priorResponses, responses);
    var d := RoundDelta(inp.deltaStrategy, inp.judge, o, l + [ex], inp.priorResponses, responses);
    assert d.log[..|l|] == d.log[..|l| + 1][..|l|];
    assert d.log[|l|] == ex;
  }

  /**
   * A parallel round extends the log it started from by at least the
   * critic's call; a failed round ends on the failed call and reports its
   * error.
   */
  lemma ParallelRoundExtends(inp: RoundInput, priorCritique: Option<string>, tx: Texts, o: Oracle, log0: seq<Exchange>)
    ensures var r := ParallelRound(inp, priorCritique, tx, o, log0);
      && |log0| < |r.log| && r.log[..|log0|] == log0
      && (r.Aborted? ==> r.log[|r.log| - 1].outcome == Failed(r.error))
  {
    var make := SeatCalls(inp, priorCritique, tx, o);
    FanOutAnswers(o, log0, inp.seats, make);
    var fan := SeatPhase(inp, priorCritique, tx, o, log0);
    if fan.Done? {
      FinishShape(inp, tx, o, fan.value, fan.log);
      var r := FinishParallel(inp, tx, o, fan.value, fan.log);
      assert ParallelRound(inp, priorCritique, tx, o, log0) == r;
      assert r.log[..|log0|] == r.log[..|fan.log|][..|log0|];
    }
  }

  /** Seat `k` of a completed seats' phase was call `|log| + k`, answered. */
  lemma SeatPhaseCalls(inp: RoundInput, priorCritique: Option<string>, tx: Texts, o: Oracle, log: seq<Exchange>)
    ensures var r := SeatPhase(inp, priorCritique, tx, o, log);
      r.Done? ==>
        && |r.log| == |log| + |inp.seats| && r.log[..|log|] == log
        && r.value == RepliesAt(r.log, |log|, |inp.seats|)
        && forall k :: 0 <= k < |inp.seats| ==> AnsweredAs(o, r.log, |log| + k, SeatCall(inp, priorCritique, tx, o, inp.seats[k], k, |log| + k))
  {
    var make := SeatCalls(inp, priorCritique, tx, o);
    FanOutAnswers(o, log, inp.seats, make);
    var r := FanOut(o, log, inp.seats, make);
    if r.Done? {
      forall k | 0 <= k < |inp.seats|
        ensures AnsweredAs(o, r.log, |log| + k, SeatCall(inp, priorCritique, tx, o, inp.seats[k], k, |log| + k))
      {
        assert make(inp.seats[k], k, |log| + k) == SeatCall(inp, priorCritique, tx, o, inp.seats[k], k, |log| + k);
      }
    }
  }

  /**
   * The seats' calls of a completed parallel round starting at call `b`:
   * seat `k` was call `b + k`, sent the seat's messages and routed with no
   * selections.
   */
  lemma ParallelSeatCalls(inp: RoundInput, priorCritique: Option<string>, tx: Texts, o: Oracle, log0: seq<Exchange>)
    ensures var r := ParallelRound(inp, priorCritique, tx, o, log0);
      var b, n := |log0|, |inp.seats|;
      r.Done? ==>
        && b + n < |r.log| <= b + n + 2
        && forall k :: 0 <= k < n ==> AnsweredAs(o, r.log, b + k, SeatCall(inp, priorCritique, tx, o, inp.seats[k], k, b + k))
  {
    SeatPhaseCalls(inp, priorCritique, tx, o, log0);
    var fan := SeatPhase(inp, priorCritique, tx, o, log0);
    if fan.Done? {
      var l := fan.log;
      FinishShape(inp, tx, o, fan.value, l);
      var r := FinishParallel(inp, tx, o, fan.value, l);
      assert ParallelRound(inp, priorCritique, tx, o, log0) == r;
      if r.Done? {
        var b := |log0|;
        forall k | 0 <= k < |inp.seats|
          ensures AnsweredAs(o, r.log, b + k, SeatCall(inp, priorCritique, tx, o, inp.seats[k], k, b + k))
        {
          AnsweredAsStable(o, l, r.log, b + k, SeatCall(inp, priorCritique, tx, o, inp.seats[k], k, b + k));
        }
      }
    }
  }

  /**
   * The critic's call of a completed parallel round starting at call `b`
   * came right after the seats', sent this round's positions and routed with
   * the models that served the seats.
   */
  lemma ParallelCriticCall(inp: RoundInput, priorCritique: Option<string>, tx: Texts, o: Oracle, log0: seq<Exchange>)
    ensures var r := ParallelRound(inp, priorCritique, tx, o, log0);
      var b, n := |log0|, |inp.seats|;
      r.Done? ==>
        AnsweredAs(o, r.log, b + n, Call(tx.critic(inp, r.value.councilResponses),
                                        inp.routes.redTeam(inp.loopNumber - 1, Values(r.value.modelsUsed), o.entropy(b + n))))
  {
    FanOutLength(o, log0, inp.seats, SeatCalls(inp, priorCritique, tx, o));
    var fan := SeatPhase(inp, priorCritique, tx, o, log0);
    if fan.Done? {
      FinishShape(inp, tx, o, fan.value, fan.log);
      assert ParallelRound(inp, priorCritique, tx, o, log0) == FinishParallel(inp, tx, o, fan.value, fan.log);
    }
  }

  /**
   * The record of a completed parallel round starting at call `b`: each role
   * holds its seat's reply and serving model (a later seat of the same role
   * overwriting an earlier one); the critique stored is the critic's reply,
   * and the delta flag is the delta rule applied right after it.
   */
  lemma ParallelRoundRecord(inp: RoundInput, priorCritique: Option<string>, tx: Texts, o: Oracle, log0: seq<Exchange>)
    ensures var r := ParallelRound(inp, priorCritique, tx, o, log0);
      var b, n := |log0|, |inp.seats|;
      r.Done? ==>
        && b + n < |r.log|
        && r.value.loopNumber == inp.loopNumber
        && r.value.councilResponses == FromPairs(ContentPairs(inp.seats, RepliesAt(r.log, b, n)))
        && r.value.modelsUsed == FromPairs(ModelPairs(inp.seats, RepliesAt(r.log, b, n)))
        && r.value.redTeamCritique == ContentAt(r.log, b + n)
        && r.value.redTeamModel == ModelAt(r.log, b + n)
        && DeltaOutcome(inp.deltaStrategy, inp.judge, o, r.log, b + n + 1, inp.priorResponses, r.value.councilResponses, r.value.deltaDetected)
  {
    SeatPhaseCalls(inp, priorCritique, tx, o, log0);
    var fan := SeatPhase(inp, priorCritique, tx, o, log0);
    if fan.Done? {
      FinishShape(inp, tx, o, fan.value, fan.log);
      var r := FinishParallel(inp, tx, o, fan.value, fan.log);
      assert ParallelRound(inp, priorCritique, tx, o, log0) == r;
      if r.Done? {
        RepliesAtStable(fan.log, r.log, |log0|, |inp.seats|);
      }
    }
  }

  /** With distinct roles the models map lists each seat's serving model, in seat order. */
  lemma DistinctModels(seats: seq<CouncilSeat>, replies: seq<Reply>)
    requires |replies| == |seats|
    requires forall i, j :: 0 <= i < j < |seats| ==> seats[i].role != seats[j].role
    ensures |Values(FromPairs(ModelPairs(seats, replies)))| == |seats|
    ensures forall k :: 0 <= k < |seats| ==> Values(FromPairs(ModelPairs(seats, replies)))[k] == replies[k].modelUsed
  {
    var pairs := ModelPairs(seats, replies);
    FromPairsDistinct(pairs);
    ValuesAt(pairs);
  }

  /**
   * With distinct roles nothing is overwritten: the critic is routed with
   * exactly the models that served the seats, in seat order.
   */
  lemma CriticSeesSeatModels(inp: RoundInput, priorCritique: Option<string>, tx: Texts, o: Oracle, log0: seq<Exchange>)
    requires forall i, j :: 0 <= i < j < |inp.seats| ==> inp.seats[i].role != inp.seats[j].role
    ensures var r := ParallelRound(inp, priorCritique, tx, o, log0);
      var b, n := |log0|, |inp.seats|;
      r.Done? ==>
        && b + n < |r.log|
        && |Values(r.value.modelsUsed)| == n
        && forall k :: 0 <= k < n ==> Values(r.value.modelsUsed)[k] == ModelAt(r.log, b + k)
  {
    ParallelRoundRecord(inp, priorCritique, tx, o, log0);
    var r := ParallelRound(inp, priorCritique, tx, o, log0);
    if r.Done? {
      DistinctModels(inp.seats, RepliesAt(r.log, |log0|, |inp.seats|));
    }
  }

  // The standard texts.

  /**
   * A seat's standard messages: in the first round its system prompt and the
   * query only; in every later round also the previous positions (none if
   * there were none) as the assistant's turn, and then the previous critique.
   */
  lemma StandardSeatMessages(inp: RoundInput, priorCritique: Option<string>, seat: CouncilSeat)
    ensures var m := Standard.seat(inp, priorCritique, seat);
      && (inp.loopNumber == 1 ==> m == [SystemMessage(seat.systemPrompt), UserMessage(inp.query)])
      && (inp.loopNumber != 1 ==>
           && |m| == 4 && m[0] == SystemMessage(seat.systemPrompt) && m[1] == UserMessage(inp.query)
           && m[2] == AssistantMessage(PositionsSummary(if inp.priorResponses.Some? then inp.priorResponses.value else []))
           && m[3].role == "user"
           && OccursAt(m[3].content, OptionalText(priorCritique), |"RED TEAM CRITIQUE:\n"|))
  {
    OccursBetween("RED TEAM CRITIQUE:\n", OptionalText(priorCritique), "\n\n" + RevisePrompt);
  }

  /** The critic's standard messages quote the summary of this round's positions. */
  lemma StandardCriticQuotes(inp: RoundInput, responses: RoleMap)
    ensures var m := Standard.critic(inp, responses);
      && |m| == 2 && m[0] == SystemMessage(inp.redTeamPrompt) && m[1].role == "user"
      && OccursAt(m[1].content, PositionsSummary(responses), |"QUERY: " + inp.query + "\n\nCOUNCIL POSITIONS:\n"|)
  {
    OccursBetween("QUERY: " + inp.query + "\n\nCOUNCIL POSITIONS:\n", PositionsSummary(responses),
                  "\n\nProvide your critique of these positions.");
  }
}
