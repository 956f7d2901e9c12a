/**
 * The debate grammar: every seat states a position, the critic attacks the
 * weakest of them once, then every seat defends its own position against the
 * attack. The defenses are what the round keeps. Models come from the seat's
 * hint or the configured default; the router is never asked.
 */
module DebateGrammar {
  import opened Wrappers
  import opened Strings
  import opened Config
  import opened RoleMaps
  import opened Schemas
  import opened Transport
  import opened EngineSettings
  import opened Delta
  import opened Rounds
  import RoutingHelper

  const PositionPrompt: string := "State your position on this matter clearly and defend it."

  const AttackPrompt: string :=
    "Identify the weakest position(s) and attack them. Be specific about which position you are attacking and why."

  const DefensePrompt: string :=
    "Defend your position against this attack. You may revise your position if the critique is valid, or reinforce it if you can refute the objections."

  /** A seat's messages when stating its position: its system prompt, then the query. */
  function PositionMessages(inp: RoundInput, seat: CouncilSeat): seq<Message> {
    [SystemMessage(seat.systemPrompt), UserMessage("QUERY: " + inp.query + "\n\n" + PositionPrompt)]
  }

  /** The critic's messages: its flavour's prompt, then the query and the summary of the initial positions. */
  function AttackMessages(inp: RoundInput, initial: RoleMap): seq<Message> {
    [SystemMessage(inp.redTeamPrompt),
     UserMessage("QUERY: " + inp.query + "\n\nCOUNCIL POSITIONS:\n" + PositionsSummary(initial) + "\n\n" + AttackPrompt)]
  }

  /** A seat's messages when defending: its system prompt, then its own prior position and the attack. */
  function DefenseMessages(inp: RoundInput, seat: CouncilSeat, prior: string, attack: string): seq<Message> {
    [SystemMessage(seat.systemPrompt),
     UserMessage("YOUR PRIOR POSITION:\n" + prior + "\n\nRED TEAM ATTACK:\n" + attack + "\n\n" + DefensePrompt)]
  }

  /**
   * The message builders a round uses. The round's control flow is stated
   * over any builders; `Standard` holds the texts the grammar sends.
   */
  datatype Texts = Texts(
    position: (RoundInput, CouncilSeat) -> seq<Message>,
    attack: (RoundInput, RoleMap) -> seq<Message>,
    defense: (RoundInput, CouncilSeat, string, string) -> seq<Message>)

  const Standard: Texts := Texts(PositionMessages, AttackMessages, DefenseMessages)

  /** `seat.model_hint or config.default_model` */
  function HintOrDefault(seat: CouncilSeat, config: EngineConfig): (model: string)
    ensures RoutingHelper.Truthy(seat.modelHint) ==> model == seat.modelHint.value
    ensures !RoutingHelper.Truthy(seat.modelHint) ==> model == config.defaultModel
  {
    if seat.modelHint.Some? && seat.modelHint.value != "" then seat.modelHint.value else config.defaultModel
  }

  /** A seat's position call. */
  function PositionCall(inp: RoundInput, tx: Texts, seat: CouncilSeat): Call {
    Call(tx.position(inp, seat), HintOrDefault(seat, inp.config))
  }

  /** The critic's attack on the initial positions, always addressed to the default model. */
  function AttackCall(inp: RoundInput, tx: Texts, initial: RoleMap): Call {
    Call(tx.attack(inp, initial), inp.config.defaultModel)
  }

  /** A seat's defense call: it sees its own initial position (empty if it has none) and the attack. */
  function DefenseCall(inp: RoundInput, tx: Texts, initial: RoleMap, attack: string, seat: CouncilSeat): Call {
    Call(tx.defense(inp, seat, GetOr(initial, seat.role, ""), attack), HintOrDefault(seat, inp.config))
  }

  /** The positions phase: one call per seat, the first failure failing the round. */
  function PositionPhase(inp: RoundInput, tx: Texts, o: Oracle, log: seq<Exchange>): (r: Run<seq<Reply>>)
    ensures r.Done? ==> |r.value| == |inp.seats| && |r.log| == |log| + |inp.seats|
  {
    var make: CallMaker := (seat: CouncilSeat, k: nat, p: nat) => PositionCall(inp, tx, seat);
    FanOutLength(o, log, inp.seats, make);
    FanOut(o, log, inp.seats, make)
  }

  /** The defenses phase: one call per seat, the first failure failing the round. */
  function DefensePhase(inp: RoundInput, tx: Texts, o: Oracle, initial: RoleMap, attack: string, log: seq<Exchange>): (r: Run<seq<Reply>>)
    ensures r.Done? ==> |r.value| == |inp.seats| && |r.log| == |log| + |inp.seats|
  {
    var make: CallMaker := (seat: CouncilSeat, k: nat, p: nat) => DefenseCall(inp, tx, initial, attack, seat);
    FanOutLength(o, log, inp.seats, make);
    FanOut(o, log, inp.seats, make)
  }

  /** The end of the round: the delta rule on the defenses, then the record, which has no models. */
  function FinishDebate(inp: RoundInput, o: Oracle, final: RoleMap, attack: string, l: seq<Exchange>): Run<LoopRecord> {
    match RoundDelta(inp.deltaStrategy, inp.judge, o, l, inp.priorResponses, final)
    case Aborted(e, l2) => Aborted(e, l2)
    case Done(delta, l2) => Done(LoopRecord(inp.loopNumber, final, [], attack, "", delta), l2)
  }

  /** After the positions: the attack, then the defenses, then the end of the round. */
  function AfterPositions(inp: RoundInput, tx: Texts, o: Oracle, initial: RoleMap, l: seq<Exchange>): Run<LoopRecord> {
    var ex := Send(o, l, AttackCall(inp, tx, initial));
    match ex.outcome
    case Failed(e) => Aborted(e, l + [ex])
    case Answered(attack) =>
      match DefensePhase(inp, tx, o, initial, attack.content, l + [ex])
      case Aborted(e, l2) => Aborted(e, l2)
      case Done(defenses, l2) => FinishDebate(inp, o, FromPairs(ContentPairs(inp.seats, defenses)), attack.content, l2)
  }

  /** `execute_debate_loop` as a function of the inputs and the oracle. */
  function DebateRound(inp: RoundInput, tx: Texts, o: Oracle, log: seq<Exchange>): Run<LoopRecord> {
    match PositionPhase(inp, tx, o, log)
    case Aborted(e, l) => Aborted(e, l)
    case Done(positions, l) => AfterPositions(inp, tx, o, FromPairs(ContentPairs(inp.seats, positions)), l)
  }

  /** Seat `k` of a completed positions phase was call `|log| + k`, answered. */
  lemma PositionPhaseCalls(inp: RoundInput, tx: Texts, o: Oracle, log: seq<Exchange>)
    ensures var r := PositionPhase(inp, tx, o, log);
      && log <= r.log
      && (r.Aborted? ==> |log| < |r.log| && r.log[|r.log| - 1].outcome == Failed(r.error))
      && (r.Done? ==>
           && |r.log| == |log| + |inp.seats|
           && r.value == RepliesAt(r.log, |log|, |inp.seats|)
           && PositionsAnswered(inp, tx, o, r.log, |log|))
  {
    var make: CallMaker := (seat: CouncilSeat, k: nat, p: nat) => PositionCall(inp, tx, seat);
    FanOutAnswers(o, log, inp.seats, make);
    var r := FanOut(o, log, inp.seats, make);
    if r.Done? {
      forall k | 0 <= k < |inp.seats|
        ensures AnsweredAs(o, r.log, |log| + k, PositionCall(inp, tx, inp.seats[k]))
      {
        assert make(inp.seats[k], k, |log| + k) == PositionCall(inp, tx, inp.seats[k]);
      }
    }
  }

  /** Seat `k` of a completed defenses phase was call `|log| + k`, answered. */
  lemma DefensePhaseCalls(inp: RoundInput, tx: Texts, o: Oracle, initial: RoleMap, attack: string, log: seq<Exchange>)
    ensures var r := DefensePhase(inp, tx, o, initial, attack, log);
      && log <= r.log
      && (r.Aborted? ==> |log| < |r.log| && r.log[|r.log| - 1].outcome == Failed(r.error))
      && (r.Done? ==>
           && |r.log| == |log| + |inp.seats|
           && r.value == RepliesAt(r.log, |log|, |inp.seats|)
           && forall k :: 0 <= k < |inp.seats| ==> AnsweredAs(o, r.log, |log| + k, DefenseCall(inp, tx, initial, attack, inp.seats[k])))
  {
    var make: CallMaker := (seat: CouncilSeat, k: nat, p: nat) => DefenseCall(inp, tx, initial, attack, seat);
    FanOutAnswers(o, log, inp.seats, make);
    var r := FanOut(o, log, inp.seats, make);
    if r.Done? {
      forall k | 0 <= k < |inp.seats|
        ensures AnsweredAs(o, r.log, |log| + k, DefenseCall(inp, tx, initial, attack, inp.seats[k]))
      {
        assert make(inp.seats[k], k, |log| + k) == DefenseCall(inp, tx, initial, attack, inp.seats[k]);
      }
    }
  }

  /** The end of the round keeps the defenses and the attack, with no models, and adds only the delta rule's calls. */
  lemma FinishDebateShape(inp: RoundInput, o: Oracle, final: RoleMap, attack: string, l: seq<Exchange>)
    ensures var r := FinishDebate(inp, o, final, attack, l);
      && |l| <= |r.log| <= |l| + 1 && r.log[..|l|] == l
      && (r.Aborted? ==> |l| < |r.log| && r.log[|r.log| - 1].outcome == Failed(r.error))
      && (r.Done? ==>
           && r.value == LoopRecord(inp.loopNumber, final, [], attack, "", r.value.deltaDetected)
           && DeltaOutcome(inp.deltaStrategy, inp.judge, o, r.log, |l|, inp.priorResponses, final, r.value.deltaDetected))
  {
    RoundDeltaExtends(inp.deltaStrategy, inp.judge, o, l, inp.priorResponses, final);
    RoundDeltaOutcome(inp.deltaStrategy, inp.judge, o, l, inp.priorResponses, final);
  }

  /** After the positions, the attack is the next call, then the defenses, then the end of the round. */
  lemma AfterPositionsExtends(inp: RoundInput, tx: Texts, o: Oracle, initial: RoleMap, l: seq<Exchange>)
    ensures var r := AfterPositions(inp, tx, o, initial, l);
      && |l| < |r.log| && r.log[..|l|] == l
      && (r.Aborted? ==> r.log[|r.log| - 1].outcome == Failed(r.error))
      && (r.Done? ==> |l| + |inp.seats| < |r.log| <= |l| + |inp.seats| + 2)
  {
    var ex := Send(o, l, AttackCall(inp, tx, initial));
    var l1 := l + [ex];
    if ex.outcome.Answered? {
      var attack := ex.outcome.reply.content;
      DefensePhaseCalls(inp, tx, o, initial, attack, l1);
      var dp := DefensePhase(inp, tx, o, initial, attack, l1);
      if dp.Done? {
        var final := FromPairs(ContentPairs(inp.seats, dp.value));
        FinishDebateShape(inp, o, final, attack, dp.log);
        var r := FinishDebate(inp, o, final, attack, dp.log);
        assert AfterPositions(inp, tx, o, initial, l) == r;
        assert dp.log[..|l1|] == l1;
        assert r.log[..|l|] == r.log[..|dp.log|][..|l1|][..|l|];
      }
    }
  }

  /**
   * After the positions, starting at call `a`: the attack is call `a` and
   * the defense of seat `k` call `a + 1 + k`, shown the attack's reply.
   */
  lemma AfterPositionsCalls(inp: RoundInput, tx: Texts, o: Oracle, initial: RoleMap, l: seq<Exchange>)
    ensures var r := AfterPositions(inp, tx, o, initial, l);
      var a, n := |l|, |inp.seats|;
      r.Done? ==>
        && a + n < |r.log|
        && AnsweredAs(o, r.log, a, AttackCall(inp, tx, initial))
        && DefensesAnswered(inp, tx, o, r.log, a, initial)
  {
    var ex := Send(o, l, AttackCall(inp, tx, initial));
    var l1 := l + [ex];
    if ex.outcome.Answered? {
      var attack := ex.outcome.reply.content;
      DefensePhaseCalls(inp, tx, o, initial, attack, l1);
      var dp := DefensePhase(inp, tx, o, initial, attack, l1);
      if dp.Done? {
        var final := FromPairs(ContentPairs(inp.seats, dp.value));
        FinishDebateShape(inp, o, final, attack, dp.log);
        var r := FinishDebate(inp, o, final, attack, dp.log);
        assert AfterPositions(inp, tx, o, initial, l) == r;
        if r.Done? {
          assert dp.log[..|l1|] == l1;
          assert r.log[..|l1|] == l1 by {
            assert r.log[..|l1|] == r.log[..|dp.log|][..|l1|];
          }
          AnsweredAsStable(o, l1, r.log, |l|, AttackCall(inp, tx, initial));
          assert ContentAt(r.log, |l|) == attack;
          forall k | 0 <= k < |inp.seats|
            ensures AnsweredAs(o, r.log, |l| + 1 + k, DefenseCall(inp, tx, initial, attack, inp.seats[k]))
          {
            AnsweredAsStable(o, dp.log, r.log, |l| + 1 + k, DefenseCall(inp, tx, initial, attack, inp.seats[k]));
          }
        }
      }
    }
  }

  /**
   * After the positions, starting at call `a`: the record keeps the defenses
   * by role and the attack, with no models, and the delta rule's calls come
   * right after the defenses.
   */
  lemma AfterPositionsRecord(inp: RoundInput, tx: Texts, o: Oracle, initial: RoleMap, l: seq<Exchange>)
    ensures var r := AfterPositions(inp, tx, o, initial, l);
      var a, n := |l|, |inp.seats|;
      r.Done? ==>
        && a + n < |r.log|
        && r.value == LoopRecord(inp.loopNumber, FromPairs(ContentPairs(inp.seats, RepliesAt(r.log, a + 1, n))), [],
                                 ContentAt(r.log, a), "", r.value.deltaDetected)
        && DeltaOutcome(inp.deltaStrategy, inp.judge, o, r.log, a + n + 1, inp.priorResponses, r.value.councilResponses, r.value.deltaDetected)
  {
    var ex := Send(o, l, AttackCall(inp, tx, initial));
    var l1 := l + [ex];
    if ex.outcome.Answered? {
      var attack := ex.outcome.reply.content;
      DefensePhaseCalls(inp, tx, o, initial, attack, l1);
      var dp := DefensePhase(inp, tx, o, initial, attack, l1);
      if dp.Done? {
        var final := FromPairs(ContentPairs(inp.seats, dp.value));
        FinishDebateShape(inp, o, final, attack, dp.log);
        var r := FinishDebate(inp, o, final, attack, dp.log);
        assert AfterPositions(inp, tx, o, initial, l) == r;
        if r.Done? {
          RepliesAtStable(dp.log, r.log, |l| + 1, |inp.seats|);
          assert r.log[|l|] == dp.log[..|l1|][|l|];
        }
      }
    }
  }

  /**
   * A debate round extends the log it started from by at least the attack;
   * a failed round ends on the failed call and reports its error.
   */
  lemma DebateRoundExtends(inp: RoundInput, tx: Texts, o: Oracle, log0: seq<Exchange>)
    ensures var r := DebateRound(inp, tx, o, log0);
      && |log0| < |r.log| && r.log[..|log0|] == log0
      && (r.Aborted? ==> r.log[|r.log| - 1].outcome == Failed(r.error))
  {
    PositionPhaseCalls(inp, tx, o, log0);
    var pp := PositionPhase(inp, tx, o, log0);
    if pp.Done? {
      var initial := FromPairs(ContentPairs(inp.seats, pp.value));
      AfterPositionsExtends(inp, tx, o, initial, pp.log);
      var r := AfterPositions(inp, tx, o, initial, pp.log);
      assert DebateRound(inp, tx, o, log0) == r;
      assert r.log[..|log0|] == r.log[..|pp.log|][..|log0|];
    }
  }

  /**
   * The calls of a completed debate round starting at call `b`: the `n`
   * positions, the attack on the initial positions as call `b + n`, then the
   * `n` defenses, each seat seeing its own initial position and the attack;
   * at most the judge's call follows.
   */
  lemma DebateRoundCalls(inp: RoundInput, tx: Texts, o: Oracle, log0: seq<Exchange>)
    ensures var r := DebateRound(inp, tx, o, log0);
      var b, n := |log0|, |inp.seats|;
      r.Done? ==>
        && b + 2 * n + 1 <= |r.log| <= b + 2 * n + 2
        && PositionsAnswered(inp, tx, o, r.log, b)
        && var initial := FromPairs(ContentPairs(inp.seats, RepliesAt(r.log, b, n)));
        && AnsweredAs(o, r.log, b + n, AttackCall(inp, tx, initial))
        && DefensesAnswered(inp, tx, o, r.log, b + n, initial)
  {
    PositionPhaseCalls(inp, tx, o, log0);
    var pp := PositionPhase(inp, tx, o, log0);
    if pp.Done? {
      var initial := FromPairs(ContentPairs(inp.seats, pp.value));
      AfterPositionsExtends(inp, tx, o, initial, pp.log);
      AfterPositionsCalls(inp, tx, o, initial, pp.log);
      var r := AfterPositions(inp, tx, o, initial, pp.log);
      assert DebateRound(inp, tx, o, log0) == r;
      if r.Done? {
        RepliesAtStable(pp.log, r.log, |log0|, |inp.seats|);
        PositionsStable(inp, tx, o, pp.log, r.log, |log0|);
      }
    }
  }

  /** Seat `k`'s position was call `b + k`, answered. */
  predicate PositionsAnswered(inp: RoundInput, tx: Texts, o: Oracle, log: seq<Exchange>, b: nat) {
    forall k :: 0 <= k < |inp.seats| ==> AnsweredAs(o, log, b + k, PositionCall(inp, tx, inp.seats[k]))
  }

  /** After the attack as call `a`, seat `k`'s defense of `initial` against the attack's reply was call `a + 1 + k`, answered. */
  predicate DefensesAnswered(inp: RoundInput, tx: Texts, o: Oracle, log: seq<Exchange>, a: nat, initial: RoleMap) {
    a < |log| && forall k :: 0 <= k < |inp.seats| ==> AnsweredAs(o, log, a + 1 + k, DefenseCall(inp, tx, initial, ContentAt(log, a), inp.seats[k]))
  }

  /** The position calls stay where they are as the round goes on. */
  lemma PositionsStable(inp: RoundInput, tx: Texts, o: Oracle, short: seq<Exchange>, long: seq<Exchange>, b: nat)
    requires |short| <= |long| && long[..|short|] == short
    requires PositionsAnswered(inp, tx, o, short, b)
    ensures PositionsAnswered(inp, tx, o, long, b)
  {
    forall k | 0 <= k < |inp.seats|
      ensures AnsweredAs(o, long, b + k, PositionCall(inp, tx, inp.seats[k]))
    {
      AnsweredAsStable(o, short, long, b + k, PositionCall(inp, tx, inp.seats[k]));
    }
  }

  /**
   * The record of a completed debate round starting at call `b`: the
   * responses are the defenses by role, not the initial positions; the
   * critique is the attack; there are no models; the delta rule compares the
   * defenses, with its calls right after them.
   */
  lemma DebateRoundRecord(inp: RoundInput, tx: Texts, o: Oracle, log0: seq<Exchange>)
    ensures var r := DebateRound(inp, tx, o, log0);
      var b, n := |log0|, |inp.seats|;
      r.Done? ==>
        && b + 2 * n + 1 <= |r.log|
        && r.value.loopNumber == inp.loopNumber
        && r.value.councilResponses == FromPairs(ContentPairs(inp.seats, RepliesAt(r.log, b + n + 1, n)))
        && r.value.modelsUsed == [] && r.value.redTeamModel == ""
        && r.value.redTeamCritique == ContentAt(r.log, b + n)
        && DeltaOutcome(inp.deltaStrategy, inp.judge, o, r.log, b + 2 * n + 1, inp.priorResponses, r.value.councilResponses, r.value.deltaDetected)
  {
    var pp := PositionPhase(inp, tx, o, log0);
    if pp.Done? {
      var initial := FromPairs(ContentPairs(inp.seats, pp.value));
      AfterPositionsRecord(inp, tx, o, initial, pp.log);
      var r := AfterPositions(inp, tx, o, initial, pp.log);
      assert DebateRound(inp, tx, o, log0) == r;
      var a, n := |pp.log|, |inp.seats|;
      assert a == |log0| + n;
      if r.Done? {
        assert r.value.councilResponses == FromPairs(ContentPairs(inp.seats, RepliesAt(r.log, a + 1, n)));
        assert DeltaOutcome(inp.deltaStrategy, inp.judge, o, r.log, a + n + 1, inp.priorResponses, r.value.councilResponses, r.value.deltaDetected);
      }
    }
  }

  /**
   * No later seat shares seat `k`'s role: then its defense is shown exactly
   * its own initial position.
   */
  lemma DefenseSeesOwnPosition(seats: seq<CouncilSeat>, positions: seq<Reply>, k: nat)
    requires |positions| == |seats| && k < |seats|
    requires forall j :: k < j < |seats| ==> seats[j].role != seats[k].role
    ensures GetOr(FromPairs(ContentPairs(seats, positions)), seats[k].role, "") == positions[k].content
  {
    var pairs := ContentPairs(seats, positions);
    FromPairsGet(pairs, seats[k].role);
    LastForAt(pairs, k);
  }

  /** A seat none of whose role holds a position defends the empty position. */
  lemma DefenseWithoutPosition(seats: seq<CouncilSeat>, positions: seq<Reply>, role: CouncilRole)
    requires |positions| == |seats|
    requires forall j :: 0 <= j < |seats| ==> seats[j].role != role
    ensures GetOr(FromPairs(ContentPairs(seats, positions)), role, "") == ""
  {
    var pairs := ContentPairs(seats, positions);
    FromPairsKeys(pairs, role);
    GetIffKey(FromPairs(pairs), role);
    assert role !in RolesOf(pairs);
  }

  // The standard texts.

  /** A seat's standard position messages: its system prompt, then the query. */
  lemma StandardPositionQuotes(inp: RoundInput, seat: CouncilSeat)
    ensures var m := Standard.position(inp, seat);
      && |m| == 2 && m[0] == SystemMessage(seat.systemPrompt) && m[1].role == "user"
      && OccursAt(m[1].content, inp.query, |"QUERY: "|)
  {
    OccursBetween("QUERY: ", inp.query, "\n\n" + PositionPrompt);
  }

  /** The critic's standard attack messages quote the summary of the initial positions. */
  lemma StandardAttackQuotes(inp: RoundInput, initial: RoleMap)
    ensures var m := Standard.attack(inp, initial);
      && |m| == 2 && m[0] == SystemMessage(inp.redTeamPrompt) && m[1].role == "user"
      && OccursAt(m[1].content, PositionsSummary(initial), |"QUERY: " + inp.query + "\n\nCOUNCIL POSITIONS:\n"|)
  {
    OccursBetween("QUERY: " + inp.query + "\n\nCOUNCIL POSITIONS:\n", PositionsSummary(initial), "\n\n" + AttackPrompt);
  }

  /** A seat's standard defense messages quote its prior position and then the attack. */
  lemma StandardDefenseQuotes(inp: RoundInput, seat: CouncilSeat, prior: string, attack: string)
    ensures var m := Standard.defense(inp, seat, prior, attack);
      var head := "YOUR PRIOR POSITION:\n";
      && |m| == 2 && m[0] == SystemMessage(seat.systemPrompt) && m[1].role == "user"
      && OccursAt(m[1].content, prior, |head|)
      && OccursAt(m[1].content, attack, |head| + |prior| + |"\n\nRED TEAM ATTACK:\n"|)
  {
    QuotesBoth("YOUR PRIOR POSITION:\n", prior, "\n\nRED TEAM ATTACK:\n", attack, "\n\n" + DefensePrompt);
  }
}
