/**
 * What every round grammar receives, and the fan-out the parallel phases use:
 * the seats' calls issued one after another in seat order, the first failure
 * failing the whole phase (as `asyncio.gather` re-raises it).
 */
module Rounds {
  import opened Wrappers
  import opened Strings
  import opened Config
  import opened RoleMaps
  import opened Schemas
  import opened Transport
  import opened EngineSettings
  import RoutingHelper

  /**
   * The two routing decisions a round takes: a model for a seat (seat, loop,
   * seat index, selections so far, random draw) and a model for the critic
   * (loop, selections so far, random draw).
   */
  datatype Routes = Routes(
    seat: (CouncilSeat, int, int, seq<string>, nat) -> string,
    redTeam: (int, seq<string>, nat) -> string)

  /** The routing helper applied to the engine configuration: what every grammar routes with. */
  function RoutesFor(config: EngineConfig): (routes: Routes)
    ensures forall seat, loop, k, existing, draw ::
      routes.seat(seat, loop, k, existing, draw) == RoutingHelper.SelectModelForSeat(seat, config, loop, k, existing, draw)
    ensures forall loop, existing, draw ::
      routes.redTeam(loop, existing, draw) == RoutingHelper.SelectModelForRedTeam(config, loop, existing, draw)
  {
    Routes((seat: CouncilSeat, loop: int, k: int, existing: seq<string>, draw: nat) => RoutingHelper.SelectModelForSeat(seat, config, loop, k, existing, draw),
           (loop: int, existing: seq<string>, draw: nat) => RoutingHelper.SelectModelForRedTeam(config, loop, existing, draw))
  }

  /**
   * The inputs of one round. `redTeamPrompt` is the critic's system prompt for
   * the plan's flavour; the prompt texts themselves are not part of this model.
   * `routes` is `RoutesFor(config)` and `judge` the built-in judge's call
   * (`Delta.JudgeCall`) when the executor runs the round.
   */
  datatype RoundInput = RoundInput(
    query: string,
    loopNumber: int,
    seats: seq<CouncilSeat>,
    redTeamPrompt: string,
    config: EngineConfig,
    routes: Routes,
    priorResponses: Option<RoleMap>,
    deltaStrategy: Option<DeltaStrategy>,
    judge: (RoleMap, RoleMap) -> Call)

  /** The call for seat `k`, issued as call number `position` of the execution. */
  type CallMaker = (CouncilSeat, nat, nat) -> Call

  /** One call per seat, in seat order; the replies in the same order. */
  function FanOut(o: Oracle, log: seq<Exchange>, seats: seq<CouncilSeat>, make: CallMaker): Run<seq<Reply>>
    decreases |seats|
  {
    if seats == [] then Done([], log)
    else
      match FanOut(o, log, seats[..|seats| - 1], make)
      case Aborted(e, l) => Aborted(e, l)
      case Done(replies, l) =>
        var ex := Send(o, l, make(seats[|seats| - 1], |seats| - 1, |l|));
        match ex.outcome
        case Failed(e) => Aborted(e, l + [ex])
        case Answered(reply) => Done(replies + [reply], l + [ex])
  }

  /** Exchange `p` of `log` is the call `make` builds for seat `k` at that position, and it was answered. */
  predicate FanOutCallAt(o: Oracle, log: seq<Exchange>, p: nat, seat: CouncilSeat, k: nat, make: CallMaker) {
    p < |log| && log[p] == Send(o, log[..p], make(seat, k, p)) && log[p].outcome.Answered?
  }

  /** A fact about an exchange survives appending more exchanges. */
  lemma FanOutCallAtStable(o: Oracle, log: seq<Exchange>, more: seq<Exchange>, p: nat, seat: CouncilSeat, k: nat, make: CallMaker)
    requires p < |log|
    ensures FanOutCallAt(o, log + more, p, seat, k, make) == FanOutCallAt(o, log, p, seat, k, make)
  {
    assert (log + more)[..p] == log[..p];
  }

  /**
   * A completed fan-out made exactly one call per seat, seat `k` as call
   * `|log| + k`, and returned each call's reply; a failed one ends on the
   * failed call, whose error it reports.
   */
  lemma {:induction false} FanOutShape(o: Oracle, log: seq<Exchange>, seats: seq<CouncilSeat>, make: CallMaker)
    ensures var r := FanOut(o, log, seats, make);
      && log <= r.log
      && (r.Done? ==>
           && |r.log| == |log| + |seats| && |r.value| == |seats|
           && (forall k :: 0 <= k < |seats| ==>
                FanOutCallAt(o, r.log, |log| + k, seats[k], k, make) && r.value[k] == r.log[|log| + k].outcome.reply))
      && (r.Aborted? ==> |log| < |r.log| <= |log| + |seats| && r.log[|r.log| - 1].outcome == Failed(r.error))
    decreases |seats|
  {
    if seats != [] {
      var init := seats[..|seats| - 1];
      FanOutShape(o, log, init, make);
      var prev := FanOut(o, log, init, make);
      if prev.Done? {
        var l := prev.log;
        var ex := Send(o, l, make(seats[|seats| - 1], |seats| - 1, |l|));
        if ex.outcome.Answered? {
          var r := FanOut(o, log, seats, make);
          assert r.log == l + [ex];
          forall k | 0 <= k < |seats|
            ensures FanOutCallAt(o, r.log, |log| + k, seats[k], k, make) && r.value[k] == r.log[|log| + k].outcome.reply
          {
            if k < |seats| - 1 {
              assert init[k] == seats[k];
              FanOutCallAtStable(o, l, [ex], |log| + k, seats[k], k, make);
            } else {
              assert r.log[..|l|] == l;
            }
          }
        }
      }
    }
  }

  /** The replies of calls `b..b+n-1` as the log records them (empty text and model for a failed call). */
  function RepliesAt(log: seq<Exchange>, b: nat, n: nat): (replies: seq<Reply>)
    requires b + n <= |log|
    ensures |replies| == n
  {
    seq(n, k requires 0 <= k < n => Reply(ContentAt(log, b + k), ModelAt(log, b + k)))
  }

  /** The replies of calls already made do not change when more calls follow. */
  lemma RepliesAtStable(log: seq<Exchange>, longer: seq<Exchange>, b: nat, n: nat)
    requires b + n <= |log| <= |longer| && longer[..|log|] == log
    ensures RepliesAt(longer, b, n) == RepliesAt(log, b, n)
  {
    forall k | 0 <= k < n
      ensures RepliesAt(longer, b, n)[k] == RepliesAt(log, b, n)[k]
    {
      assert longer[b + k] == log[b + k];
      assert RepliesAt(longer, b, n)[k] == Reply(ContentAt(longer, b + k), ModelAt(longer, b + k));
      assert RepliesAt(log, b, n)[k] == Reply(ContentAt(log, b + k), ModelAt(log, b + k));
    }
  }

  /**
   * A completed fan-out's replies are the recorded replies of its calls, and
   * seat `k`'s call was answered as the oracle answers call `|log| + k`.
   */
  lemma FanOutAnswers(o: Oracle, log: seq<Exchange>, seats: seq<CouncilSeat>, make: CallMaker)
    ensures var r := FanOut(o, log, seats, make);
      && log <= r.log
      && (r.Done? ==>
           && |r.log| == |log| + |seats|
           && r.value == RepliesAt(r.log, |log|, |seats|)
           && (forall k :: 0 <= k < |seats| ==> AnsweredAs(o, r.log, |log| + k, make(seats[k], k, |log| + k))))
      && (r.Aborted? ==> |log| < |r.log| <= |log| + |seats| && r.log[|r.log| - 1].outcome == Failed(r.error))
  {
    FanOutShape(o, log, seats, make);
    var r := FanOut(o, log, seats, make);
    if r.Done? {
      forall k | 0 <= k < |seats|
        ensures r.value[k] == RepliesAt(r.log, |log|, |seats|)[k]
        ensures AnsweredAs(o, r.log, |log| + k, make(seats[k], k, |log| + k))
      {
        assert FanOutCallAt(o, r.log, |log| + k, seats[k], k, make);
        assert |r.log[..|log| + k]| == |log| + k;
        assert r.log[|log| + k].outcome.Answered?;
        assert RepliesAt(r.log, |log|, |seats|)[k] == Reply(ContentAt(r.log, |log| + k), ModelAt(r.log, |log| + k));
      }
    }
  }

  /** A completed fan-out has one reply and one call per seat. */
  lemma FanOutLength(o: Oracle, log: seq<Exchange>, seats: seq<CouncilSeat>, make: CallMaker)
    ensures var r := FanOut(o, log, seats, make);
      r.Done? ==> |r.value| == |seats| && |r.log| == |log| + |seats|
  {
    FanOutShape(o, log, seats, make);
  }

  /** `dict(...)` over the seats' replies: each seat's role with its reply text. */
  function ContentPairs(seats: seq<CouncilSeat>, replies: seq<Reply>): (pairs: seq<Entry>)
    requires |replies| == |seats|
    ensures |pairs| == |seats|
  {
    seq(|seats|, k requires 0 <= k < |seats| => Entry(seats[k].role, replies[k].content))
  }

  /** Each seat's role with the model that served it. */
  function ModelPairs(seats: seq<CouncilSeat>, replies: seq<Reply>): (pairs: seq<Entry>)
    requires |replies| == |seats|
    ensures |pairs| == |seats|
  {
    seq(|seats|, k requires 0 <= k < |seats| => Entry(seats[k].role, replies[k].modelUsed))
  }

  /** One position as the critic reads it: the bracketed role label, a colon, the response, a newline. */
  function SummaryBlock(e: Entry): string {
    "[" + RoleLabel(e.role) + "]:\n" + e.text + "\n"
  }

  /** The blocks of every position except the critic's own, in map order. */
  function SummaryBlocks(positions: RoleMap): seq<string> {
    if positions == [] then []
    else
      var last := positions[|positions| - 1];
      SummaryBlocks(positions[..|positions| - 1]) + (if last.role != RedTeam then [SummaryBlock(last)] else [])
  }

  /** `_format_positions_summary`: the blocks joined by newlines. */
  function PositionsSummary(positions: RoleMap): string {
    Join("\n", SummaryBlocks(positions))
  }

  /** `_format_positions_summary` as the source writes it: one pass over the map, skipping the critic. */
  method FormatPositionsSummary(positions: RoleMap) returns (text: string)
    ensures text == PositionsSummary(positions)
  {
    var lines: seq<string> := [];
    for k := 0 to |positions|
      invariant lines == SummaryBlocks(positions[..k])
    {
      assert positions[..k + 1][..k] == positions[..k];
      if positions[k].role != RedTeam {
        lines := lines + [SummaryBlock(positions[k])];
      }
    }
    assert positions[..|positions|] == positions;
    text := Join("\n", lines);
  }

  /** Every block of the summary is the block of some position that is not the critic's. */
  lemma {:induction false} SummaryBlocksFrom(positions: RoleMap)
    ensures forall k :: 0 <= k < |SummaryBlocks(positions)| ==>
      exists j :: 0 <= j < |positions| && positions[j].role != RedTeam && SummaryBlocks(positions)[k] == SummaryBlock(positions[j])
  {
    if positions != [] {
      var init := positions[..|positions| - 1];
      SummaryBlocksFrom(init);
      forall k | 0 <= k < |SummaryBlocks(positions)|
        ensures exists j :: 0 <= j < |positions| && positions[j].role != RedTeam && SummaryBlocks(positions)[k] == SummaryBlock(positions[j])
      {
        if k < |SummaryBlocks(init)| {
          var j :| 0 <= j < |init| && init[j].role != RedTeam && SummaryBlocks(init)[k] == SummaryBlock(init[j]);
          assert positions[j] == init[j];
          assert SummaryBlocks(positions)[k] == SummaryBlocks(init)[k];
        } else {
          var j := |positions| - 1;
          assert positions[j].role != RedTeam && SummaryBlocks(positions)[k] == SummaryBlock(positions[j]);
        }
      }
    } else {
      assert SummaryBlocks(positions) == [];
    }
  }

  /** Every position that is not the critic's has its block in the summary. */
  lemma {:induction false} SummaryBlocksCover(positions: RoleMap)
    ensures forall j :: 0 <= j < |positions| && positions[j].role != RedTeam ==> SummaryBlock(positions[j]) in SummaryBlocks(positions)
  {
    if positions != [] {
      var init := positions[..|positions| - 1];
      SummaryBlocksCover(init);
      forall j | 0 <= j < |positions| && positions[j].role != RedTeam
        ensures SummaryBlock(positions[j]) in SummaryBlocks(positions)
      {
        if j < |init| {
          assert positions[j] == init[j];
        }
      }
    }
  }

  /** Without a critic's entry the summary has one block per position, in map order. */
  lemma {:induction false} SummaryBlocksWithoutCritic(positions: RoleMap)
    requires forall j :: 0 <= j < |positions| ==> positions[j].role != RedTeam
    ensures |SummaryBlocks(positions)| == |positions|
    ensures forall k :: 0 <= k < |positions| ==> SummaryBlocks(positions)[k] == SummaryBlock(positions[k])
  {
    if positions != [] {
      SummaryBlocksWithoutCritic(positions[..|positions| - 1]);
    }
  }
}
