/**
 * The sequential grammar: the seats write in turn, each revising the latest
 * draft in the light of every critique so far; the critic attacks after every
 * seat but the last, then once more on the final draft.
 */
module SequentialGrammar {
  import opened Wrappers
  import opened Strings
  import opened Config
  import opened RoleMaps
  import opened Schemas
  import opened Transport
  import opened EngineSettings
  import opened Delta
  import opened Rounds

  /** The variables the round's loop updates. */
  datatype SeqState = SeqState(
    responses: RoleMap,
    modelsUsed: RoleMap,
    draft: string,
    critiques: seq<string>,
    selections: seq<string>)

  const Start: SeqState := SeqState([], [], "", [], [])

  /** `CRITIQUE k:` followed by the k-th critique, for k from 1, in order. */
  function NumberedCritiques(critiques: seq<string>): (blocks: seq<string>)
    ensures |blocks| == |critiques|
  {
    if critiques == [] then []
    else NumberedCritiques(critiques[..|critiques| - 1])
         + ["CRITIQUE " + NatToString(|critiques|) + ":\n" + critiques[|critiques| - 1]]
  }

  /** The critiques so far, numbered from 1 and separated by blank lines. */
  function CritiqueSummary(critiques: seq<string>): string {
    Join("\n\n", NumberedCritiques(critiques))
  }

  /** Seat `i`'s messages: the first seat sees the query, later ones the latest draft and all critiques. */
  function SeatMessages(inp: RoundInput, i: nat, seat: CouncilSeat, draft: string, critiques: seq<string>): seq<Message> {
    [SystemMessage(seat.systemPrompt),
     UserMessage(if i == 0 then InitialPrompt(inp.query) else RevisionPrompt(inp.query, draft, CritiqueSummary(critiques)))]
  }

  const QueryLabel: string := "QUERY: "
  const DraftHeading: string := "\n\nACCUMULATED DRAFT:\n"
  const CritiquesHeading: string := "\n\nCRITIQUES SO FAR:\n"
  const InitialRequest: string := "\n\nProvide your initial draft or position."

  /** The first seat's prompt: the query and the request for a first draft. */
  function InitialPrompt(query: string): string {
    QueryLabel + query + InitialRequest
  }

  /** A later seat's prompt: the query, then the revision request. */
  function RevisionPrompt(query: string, draft: string, summary: string): string {
    QueryLabel + query + RevisionRequest(draft, summary)
  }

  /** The latest draft, the critique summary and the request to revise. */
  function RevisionRequest(draft: string, summary: string): string {
    DraftHeading + draft + CritiquesHeading + summary + "\n\nRevise and improve the draft, addressing the critiques."
  }

  /** The critic's messages about the draft a seat just wrote. */
  function CritiqueMessages(inp: RoundInput, role: CouncilRole, draft: string): seq<Message> {
    [SystemMessage(inp.redTeamPrompt),
     UserMessage("QUERY: " + inp.query + "\n\nCURRENT DRAFT from [" + RoleLabel(role) + "]:\n" + draft
                 + "\n\nCritique this draft.")]
  }

  /** The critic's messages about the final draft. */
  function FinalCritiqueMessages(inp: RoundInput, draft: string): seq<Message> {
    [SystemMessage(inp.redTeamPrompt),
     UserMessage("QUERY: " + inp.query + "\n\nFINAL OUTPUT:\n" + draft
                 + "\n\nProvide your final critique of the complete output.")]
  }

  /**
   * The message builders a round uses. The round's control flow is stated
   * over any builders; `Standard` holds the texts the grammar sends.
   */
  datatype Texts = Texts(
    seat: (RoundInput, nat, CouncilSeat, string, seq<string>) -> seq<Message>,
    critique: (RoundInput, CouncilRole, string) -> seq<Message>,
    final: (RoundInput, string) -> seq<Message>)

  const Standard: Texts := Texts(SeatMessages, CritiqueMessages, FinalCritiqueMessages)

  /** Seat `i`'s turn: its call, then (unless it is the last seat) the critique of its draft. */
  function SeatTurn(inp: RoundInput, tx: Texts, o: Oracle, i: nat, st: SeqState, log: seq<Exchange>): Run<SeqState>
    requires i < |inp.seats|
  {
    var seat := inp.seats[i];
    var model := inp.routes.seat(seat, inp.loopNumber - 1, i, st.selections, Draw(o, log));
    var ex := Send(o, log, Call(tx.seat(inp, i, seat, st.draft, st.critiques), model));
    match ex.outcome
    case Failed(e) => Aborted(e, log + [ex])
    case Answered(reply) =>
      var st1 := SeqState(Put(st.responses, seat.role, reply.content), Put(st.modelsUsed, seat.role, reply.modelUsed),
                          reply.content, st.critiques, st.selections + [reply.modelUsed]);
      var log1 := log + [ex];
      if i == |inp.seats| - 1 then Done(st1, log1)
      else
        var criticModel := inp.routes.redTeam(inp.loopNumber - 1, st1.selections, Draw(o, log1));
        var ex2 := Send(o, log1, Call(tx.critique(inp, seat.role, reply.content), criticModel));
        match ex2.outcome
        case Failed(e) => Aborted(e, log1 + [ex2])
        case Answered(critique) =>
          Done(st1.(critiques := st.critiques + [critique.content], selections := st1.selections + [critique.modelUsed]),
               log1 + [ex2])
  }

  /** Seats `i` onwards, from state `st`. */
  function SeqFrom(inp: RoundInput, tx: Texts, o: Oracle, i: nat, st: SeqState, log: seq<Exchange>): Run<SeqState>
    requires i <= |inp.seats|
    decreases |inp.seats| - i
  {
    if i == |inp.seats| then Done(st, log)
    else
      match SeatTurn(inp, tx, o, i, st, log)
      case Aborted(e, l) => Aborted(e, l)
      case Done(next, l) => SeqFrom(inp, tx, o, i + 1, next, l)
  }

  /** The end of `execute_sequential_loop`, after the seats: the final critique, then the delta rule. */
  function FinishRound(inp: RoundInput, tx: Texts, o: Oracle, st: SeqState, l: seq<Exchange>): Run<LoopRecord> {
    var finalModel := inp.routes.redTeam(inp.loopNumber - 1, st.selections, Draw(o, l));
    var fex := Send(o, l, Call(tx.final(inp, st.draft), finalModel));
    match fex.outcome
    case Failed(e) => Aborted(e, l + [fex])
    case Answered(fin) =>
      match RoundDelta(inp.deltaStrategy, inp.judge, o, l + [fex], inp.priorResponses, st.responses)
      case Aborted(e, l2) => Aborted(e, l2)
      case Done(delta, l2) =>
        Done(LoopRecord(inp.loopNumber, st.responses, st.modelsUsed, fin.content, fin.modelUsed, delta), l2)
  }

  /** `execute_sequential_loop` as a function of the inputs and the oracle. */
  function SequentialRound(inp: RoundInput, tx: Texts, o: Oracle, log: seq<Exchange>): Run<LoopRecord> {
    match SeqFrom(inp, tx, o, 0, Start, log)
    case Aborted(e, l) => Aborted(e, l)
    case Done(st, l) => FinishRound(inp, tx, o, st, l)
  }

  /** One pass of the seat loop of `execute_sequential_loop`: seat `i` writes, then the critic answers its draft. */
  method TakeTurn(inp: RoundInput, tx: Texts, o: Oracle, i: nat, st: SeqState, log0: seq<Exchange>) returns (r: Run<SeqState>)
    requires i < |inp.seats|
    ensures r == SeatTurn(inp, tx, o, i, st, log0)
  {
    var responses, modelsUsed, critiques, selections := st.responses, st.modelsUsed, st.critiques, st.selections;
    var seat := inp.seats[i];
    var model := inp.routes.seat(seat, inp.loopNumber - 1, i, selections, Draw(o, log0));
    var ex := Send(o, log0, Call(tx.seat(inp, i, seat, st.draft, critiques), model));
    var log := log0 + [ex];
    if ex.outcome.Failed? {
      return Aborted(ex.outcome.error, log);
    }
    var reply := ex.outcome.reply;
    responses := Put(responses, seat.role, reply.content);
    modelsUsed := Put(modelsUsed, seat.role, reply.modelUsed);
    selections := selections + [reply.modelUsed];
    if i != |inp.seats| - 1 {
      var criticModel := inp.routes.redTeam(inp.loopNumber - 1, selections, Draw(o, log));
      var ex2 := Send(o, log, Call(tx.critique(inp, seat.role, reply.content), criticModel));
      log := log + [ex2];
      if ex2.outcome.Failed? {
        return Aborted(ex2.outcome.error, log);
      }
      critiques := critiques + [ex2.outcome.reply.content];
      selections := selections + [ex2.outcome.reply.modelUsed];
    }
    r := Done(SeqState(responses, modelsUsed, reply.content, critiques, selections), log);
  }

  /** The seat loop of `execute_sequential_loop`. */
  method RunSeats(inp: RoundInput, tx: Texts, o: Oracle, log0: seq<Exchange>) returns (r: Run<SeqState>)
    ensures r == SeqFrom(inp, tx, o, 0, Start, log0)
  {
    var st := Start;
    var log := log0;
    for i := 0 to |inp.seats|
      invariant SeqFrom(inp, tx, o, 0, Start, log0) == SeqFrom(inp, tx, o, i, st, log)
    {
      var turn := TakeTurn(inp, tx, o, i, st, log);
      if turn.Aborted? {
        return Aborted(turn.error, turn.log);
      }
      st, log := turn.value, turn.log;
    }
    r := Done(st, log);
  }

  /** `execute_sequential_loop`: the seats in turn, the final critique, then the delta rule. */
  method ExecuteSequentialLoop(inp: RoundInput, tx: Texts, o: Oracle, log0: seq<Exchange>) returns (r: Run<LoopRecord>)
    ensures r == SequentialRound(inp, tx, o, log0)
  {
    var seats := RunSeats(inp, tx, o, log0);
    if seats.Aborted? {
      return Aborted(seats.error, seats.log);
    }
    r := FinishSequentialLoop(inp, tx, o, seats.value, seats.log);
  }

  /** The end of `execute_sequential_loop`: the final critique on the last draft, then the delta rule. */
  method FinishSequentialLoop(inp: RoundInput, tx: Texts, o: Oracle, st: SeqState, log0: seq<Exchange>) returns (r: Run<LoopRecord>)
    ensures r == FinishRound(inp, tx, o, st, log0)
  {
    var finalModel := inp.routes.redTeam(inp.loopNumber - 1, st.selections, Draw(o, log0));
    var fex := Send(o, log0, Call(tx.final(inp, st.draft), finalModel));
    var log := log0 + [fex];
    if fex.outcome.Failed? {
      return Aborted(fex.outcome.error, log);
    }
    var delta := RoundDelta(inp.deltaStrategy, inp.judge, o, log, inp.priorResponses, st.responses);
    if delta.Aborted? {
      return Aborted(delta.error, delta.log);
    }
    var fin := fex.outcome.reply;
    r := Done(LoopRecord(inp.loopNumber, st.responses, st.modelsUsed, fin.content, fin.modelUsed, delta.value), delta.log);
  }

  // The round's log in closed form. With the round starting at position `b`
  // of the log, seat `j` is call `b + 2j`, the critique of its draft call
  // `b + 2j + 1` (for every seat but the last), and the final critique comes
  // after all of them; each call is determined by the replies before it.

  /** Calls made once seats `0..i-1` are done: one per seat, and a critique after each seat but the last. */
  function CallsBefore(i: nat, n: nat): nat {
    if i < n then 2 * i else if n == 0 then 0 else 2 * n - 1
  }

  /** The serving models of calls `b..p-1`, in order: the round's selections before call `p`. */
  function SelectionsAt(log: seq<Exchange>, b: nat, p: nat): seq<string>
    requires b <= p <= |log|
    decreases p
  {
    if p == b then []
    else SelectionsAt(log, b, p - 1) + (if log[p - 1].outcome.Answered? then [log[p - 1].outcome.reply.modelUsed] else [])
  }

  /** The draft seat `j` revises: the reply of the seat before it, none for the first. */
  function DraftBefore(log: seq<Exchange>, b: nat, j: nat): string
    requires j == 0 || b + 2 * (j - 1) < |log|
  {
    if j == 0 then "" else ContentAt(log, b + 2 * (j - 1))
  }

  /** The replies of the first `m` critiques, in order. */
  function CritiquesBefore(log: seq<Exchange>, b: nat, m: nat): (critiques: seq<string>)
    requires b + 2 * m <= |log|
    ensures |critiques| == m
  {
    if m == 0 then [] else CritiquesBefore(log, b, m - 1) + [ContentAt(log, b + 2 * (m - 1) + 1)]
  }

  /** The call seat `j` makes, call number `b + 2j`. */
  function ExpectedSeatCall(inp: RoundInput, tx: Texts, o: Oracle, log: seq<Exchange>, b: nat, j: nat): Call
    requires j < |inp.seats| && b + 2 * j <= |log|
  {
    Call(tx.seat(inp, j, inp.seats[j], DraftBefore(log, b, j), CritiquesBefore(log, b, j)),
         inp.routes.seat(inp.seats[j], inp.loopNumber - 1, j, SelectionsAt(log, b, b + 2 * j), o.entropy(b + 2 * j)))
  }

  /** The critique call after seat `j`'s draft, call number `b + 2j + 1`. */
  function ExpectedCritiqueCall(inp: RoundInput, tx: Texts, o: Oracle, log: seq<Exchange>, b: nat, j: nat): Call
    requires j < |inp.seats| && b + 2 * j + 1 <= |log|
  {
    Call(tx.critique(inp, inp.seats[j].role, ContentAt(log, b + 2 * j)),
         inp.routes.redTeam(inp.loopNumber - 1, SelectionsAt(log, b, b + 2 * j + 1), o.entropy(b + 2 * j + 1)))
  }

  /** The final critique call, on the last seat's draft. */
  function ExpectedFinalCall(inp: RoundInput, tx: Texts, o: Oracle, log: seq<Exchange>, b: nat): Call
    requires b + CallsBefore(|inp.seats|, |inp.seats|) <= |log|
  {
    var f := b + CallsBefore(|inp.seats|, |inp.seats|);
    Call(tx.final(inp, DraftBefore(log, b, |inp.seats|)),
         inp.routes.redTeam(inp.loopNumber - 1, SelectionsAt(log, b, f), o.entropy(f)))
  }

  predicate SeatCallOk(inp: RoundInput, tx: Texts, o: Oracle, log: seq<Exchange>, b: nat, j: nat) {
    j < |inp.seats| && b + 2 * j < |log| && AnsweredAs(o, log, b + 2 * j, ExpectedSeatCall(inp, tx, o, log, b, j))
  }

  predicate CritiqueCallOk(inp: RoundInput, tx: Texts, o: Oracle, log: seq<Exchange>, b: nat, j: nat) {
    j < |inp.seats| && b + 2 * j + 1 < |log| && AnsweredAs(o, log, b + 2 * j + 1, ExpectedCritiqueCall(inp, tx, o, log, b, j))
  }

  predicate FinalCallOk(inp: RoundInput, tx: Texts, o: Oracle, log: seq<Exchange>, b: nat) {
    var f := b + CallsBefore(|inp.seats|, |inp.seats|);
    f < |log| && AnsweredAs(o, log, f, ExpectedFinalCall(inp, tx, o, log, b))
  }

  /** The first `i` seats' roles with their replies. */
  function ResponsePairs(seats: seq<CouncilSeat>, log: seq<Exchange>, b: nat, i: nat): (pairs: seq<Entry>)
    requires i <= |seats| && (i == 0 || b + 2 * (i - 1) < |log|)
    ensures |pairs| == i
  {
    if i == 0 then [] else ResponsePairs(seats, log, b, i - 1) + [Entry(seats[i - 1].role, ContentAt(log, b + 2 * (i - 1)))]
  }

  /** The first `i` seats' roles with the models that served them. */
  function ServedPairs(seats: seq<CouncilSeat>, log: seq<Exchange>, b: nat, i: nat): (pairs: seq<Entry>)
    requires i <= |seats| && (i == 0 || b + 2 * (i - 1) < |log|)
    ensures |pairs| == i
  {
    if i == 0 then [] else ServedPairs(seats, log, b, i - 1) + [Entry(seats[i - 1].role, ModelAt(log, b + 2 * (i - 1)))]
  }

  /** After seats `0..i-1`, the log holds exactly the expected calls, all answered. */
  predicate LogShape(inp: RoundInput, tx: Texts, o: Oracle, b: nat, i: nat, log: seq<Exchange>) {
    var n := |inp.seats|;
    i <= n && |log| == b + CallsBefore(i, n)
    && (forall j :: 0 <= j < i ==> SeatCallOk(inp, tx, o, log, b, j))
    && (forall j :: 0 <= j < i && j + 1 < n ==> CritiqueCallOk(inp, tx, o, log, b, j))
  }

  /** The draft, critiques and selections after seats `0..i-1`, read off the log. */
  predicate TextsMatch(inp: RoundInput, b: nat, i: nat, st: SeqState, log: seq<Exchange>)
    requires i <= |inp.seats| && |log| == b + CallsBefore(i, |inp.seats|)
  {
    && st.selections == SelectionsAt(log, b, |log|)
    && st.draft == DraftBefore(log, b, i)
    && st.critiques == CritiquesBefore(log, b, CallsBefore(i, |inp.seats|) - i)
  }

  /** The two role maps after seats `0..i-1`, read off the log. */
  predicate MapsMatch(inp: RoundInput, b: nat, i: nat, st: SeqState, log: seq<Exchange>)
    requires i <= |inp.seats| && |log| == b + CallsBefore(i, |inp.seats|)
  {
    && st.responses == FromPairs(ResponsePairs(inp.seats, log, b, i))
    && st.modelsUsed == FromPairs(ServedPairs(inp.seats, log, b, i))
  }

  /** The loop state after seats `0..i-1` is the closed form of the log so far. */
  predicate Consistent(inp: RoundInput, tx: Texts, o: Oracle, b: nat, i: nat, st: SeqState, log: seq<Exchange>) {
    LogShape(inp, tx, o, b, i, log) && TextsMatch(inp, b, i, st, log) && MapsMatch(inp, b, i, st, log)
  }

  /** Appending exchanges leaves the selections before any earlier call unchanged. */
  lemma {:induction false} SelectionsAtStable(log: seq<Exchange>, more: seq<Exchange>, b: nat, p: nat)
    requires b <= p <= |log|
    ensures SelectionsAt(log + more, b, p) == SelectionsAt(log, b, p)
    decreases p
  {
    if p > b {
      SelectionsAtStable(log, more, b, p - 1);
    }
  }

  /** Appending exchanges leaves the critiques before any earlier call unchanged. */
  lemma {:induction false} CritiquesBeforeStable(log: seq<Exchange>, more: seq<Exchange>, b: nat, m: nat)
    requires b + 2 * m <= |log|
    ensures CritiquesBefore(log + more, b, m) == CritiquesBefore(log, b, m)
  {
    if m > 0 {
      CritiquesBeforeStable(log, more, b, m - 1);
    }
  }

  /** Appending exchanges leaves the earlier seats' pairs unchanged. */
  lemma {:induction false} PairsStable(seats: seq<CouncilSeat>, log: seq<Exchange>, more: seq<Exchange>, b: nat, i: nat)
    requires i <= |seats| && (i == 0 || b + 2 * (i - 1) < |log|)
    ensures ResponsePairs(seats, log + more, b, i) == ResponsePairs(seats, log, b, i)
    ensures ServedPairs(seats, log + more, b, i) == ServedPairs(seats, log, b, i)
  {
    if i > 0 {
      PairsStable(seats, log, more, b, i - 1);
    }
  }

  /** Appending exchanges leaves the expected call of an earlier seat unchanged. */
  lemma SeatCallStable(inp: RoundInput, tx: Texts, o: Oracle, log: seq<Exchange>, more: seq<Exchange>, b: nat, j: nat)
    requires j < |inp.seats| && b + 2 * j <= |log|
    ensures ExpectedSeatCall(inp, tx, o, log + more, b, j) == ExpectedSeatCall(inp, tx, o, log, b, j)
  {
    SelectionsAtStable(log, more, b, b + 2 * j);
    CritiquesBeforeStable(log, more, b, j);
    assert DraftBefore(log + more, b, j) == DraftBefore(log, b, j);
  }

  /** Appending exchanges leaves the expected call of an earlier critique unchanged. */
  lemma CritiqueCallStable(inp: RoundInput, tx: Texts, o: Oracle, log: seq<Exchange>, more: seq<Exchange>, b: nat, j: nat)
    requires j < |inp.seats| && b + 2 * j + 1 <= |log|
    ensures ExpectedCritiqueCall(inp, tx, o, log + more, b, j) == ExpectedCritiqueCall(inp, tx, o, log, b, j)
  {
    SelectionsAtStable(log, more, b, b + 2 * j + 1);
  }

  /** Facts about seats' and critiques' calls survive appending exchanges. */
  lemma CallFactsStable(inp: RoundInput, tx: Texts, o: Oracle, b: nat, log: seq<Exchange>, more: seq<Exchange>)
    ensures forall j :: SeatCallOk(inp, tx, o, log, b, j) ==> SeatCallOk(inp, tx, o, log + more, b, j)
    ensures forall j :: CritiqueCallOk(inp, tx, o, log, b, j) ==> CritiqueCallOk(inp, tx, o, log + more, b, j)
  {
    forall j | SeatCallOk(inp, tx, o, log, b, j)
      ensures SeatCallOk(inp, tx, o, log + more, b, j)
    {
      SeatCallStable(inp, tx, o, log, more, b, j);
    }
    forall j | CritiqueCallOk(inp, tx, o, log, b, j)
      ensures CritiqueCallOk(inp, tx, o, log + more, b, j)
    {
      CritiqueCallStable(inp, tx, o, log, more, b, j);
    }
  }

  /** In a consistent state, seat `i` makes exactly its expected call. */
  lemma SeatCallFromState(inp: RoundInput, tx: Texts, o: Oracle, b: nat, i: nat, st: SeqState, log: seq<Exchange>)
    requires Consistent(inp, tx, o, b, i, st, log) && i < |inp.seats|
    ensures Call(tx.seat(inp, i, inp.seats[i], st.draft, st.critiques),
                 inp.routes.seat(inp.seats[i], inp.loopNumber - 1, i, st.selections, Draw(o, log)))
         == ExpectedSeatCall(inp, tx, o, log, b, i)
  {
    assert st.draft == DraftBefore(log, b, i);
    assert st.critiques == CritiquesBefore(log, b, i);
    assert st.selections == SelectionsAt(log, b, b + 2 * i);
  }

  /** Seat `i`'s answered call, appended to a consistent log, is where the closed form expects it. */
  lemma NewSeatCall(inp: RoundInput, tx: Texts, o: Oracle, b: nat, i: nat, log: seq<Exchange>, ex: Exchange, more: seq<Exchange>)
    requires i < |inp.seats| && |log| == b + 2 * i
    requires ex == Send(o, log, ExpectedSeatCall(inp, tx, o, log, b, i)) && ex.outcome.Answered?
    ensures SeatCallOk(inp, tx, o, log + [ex] + more, b, i)
  {
    var log2 := log + [ex] + more;
    assert log2 == log + ([ex] + more);
    SeatCallStable(inp, tx, o, log, [ex] + more, b, i);
    assert log2[b + 2 * i] == ex;
  }

  /** The critique of seat `i`'s draft is called on that draft, with the seat's model among the selections. */
  lemma CritiqueCallFromState(inp: RoundInput, tx: Texts, o: Oracle, b: nat, i: nat, log: seq<Exchange>, ex: Exchange)
    requires i < |inp.seats| && |log| == b + 2 * i && ex.outcome.Answered?
    ensures ExpectedCritiqueCall(inp, tx, o, log + [ex], b, i)
         == Call(tx.critique(inp, inp.seats[i].role, ex.outcome.reply.content),
                 inp.routes.redTeam(inp.loopNumber - 1, SelectionsAt(log, b, |log|) + [ex.outcome.reply.modelUsed],
                                    o.entropy(|log| + 1)))
  {
    SelectionsAtStable(log, [ex], b, |log|);
  }

  /** The role maps after seat `i` answers: its role mapped to its reply and to its model. */
  lemma MapsAfterSeat(inp: RoundInput, b: nat, i: nat, st: SeqState, log: seq<Exchange>, ex: Exchange, more: seq<Exchange>)
    requires i < |inp.seats| && |log| == b + 2 * i && MapsMatch(inp, b, i, st, log) && ex.outcome.Answered?
    ensures FromPairs(ResponsePairs(inp.seats, log + [ex] + more, b, i + 1))
         == Put(st.responses, inp.seats[i].role, ex.outcome.reply.content)
    ensures FromPairs(ServedPairs(inp.seats, log + [ex] + more, b, i + 1))
         == Put(st.modelsUsed, inp.seats[i].role, ex.outcome.reply.modelUsed)
  {
    var role := inp.seats[i].role;
    var log2 := log + [ex] + more;
    assert log2 == log + ([ex] + more);
    PairsStable(inp.seats, log, [ex] + more, b, i);
    assert log2[b + 2 * i] == ex;
    FromPairsSnoc(ResponsePairs(inp.seats, log, b, i), Entry(role, ex.outcome.reply.content));
    FromPairsSnoc(ServedPairs(inp.seats, log, b, i), Entry(role, ex.outcome.reply.modelUsed));
  }

  /** The critique of seat `i`'s draft, answered and appended, is where the closed form expects it. */
  lemma NewCritiqueCall(inp: RoundInput, tx: Texts, o: Oracle, b: nat, i: nat, log: seq<Exchange>, ex2: Exchange)
    requires i < |inp.seats| && |log| == b + 2 * i + 1
    requires ex2 == Send(o, log, ExpectedCritiqueCall(inp, tx, o, log, b, i)) && ex2.outcome.Answered?
    ensures CritiqueCallOk(inp, tx, o, log + [ex2], b, i)
  {
    CritiqueCallStable(inp, tx, o, log, [ex2], b, i);
    assert (log + [ex2])[b + 2 * i + 1] == ex2;
  }

  /** The log after a seat and its critique, both answered, has the shape the closed form expects. */
  lemma ShapeAfterMiddle(inp: RoundInput, tx: Texts, o: Oracle, b: nat, i: nat, log: seq<Exchange>, ex: Exchange, ex2: Exchange)
    requires LogShape(inp, tx, o, b, i, log) && i + 1 < |inp.seats|
    requires ex == Send(o, log, ExpectedSeatCall(inp, tx, o, log, b, i)) && ex.outcome.Answered?
    requires ex2 == Send(o, log + [ex], ExpectedCritiqueCall(inp, tx, o, log + [ex], b, i)) && ex2.outcome.Answered?
    ensures LogShape(inp, tx, o, b, i + 1, log + [ex] + [ex2])
  {
    var log2 := log + [ex] + [ex2];
    CallFactsStable(inp, tx, o, b, log, [ex] + [ex2]);
    assert log2 == log + ([ex] + [ex2]);
    NewSeatCall(inp, tx, o, b, i, log, ex, [ex2]);
    NewCritiqueCall(inp, tx, o, b, i, log + [ex], ex2);
  }

  /** The log after the last seat, answered, has the shape the closed form expects. */
  lemma ShapeAfterLast(inp: RoundInput, tx: Texts, o: Oracle, b: nat, i: nat, log: seq<Exchange>, ex: Exchange)
    requires LogShape(inp, tx, o, b, i, log) && i + 1 == |inp.seats|
    requires ex == Send(o, log, ExpectedSeatCall(inp, tx, o, log, b, i)) && ex.outcome.Answered?
    ensures LogShape(inp, tx, o, b, i + 1, log + [ex])
  {
    CallFactsStable(inp, tx, o, b, log, [ex]);
    NewSeatCall(inp, tx, o, b, i, log, ex, []);
    assert log + [ex] + [] == log + [ex];
  }

  /** The draft, critiques and selections after the last seat, answered. */
  lemma TextsAfterLast(inp: RoundInput, b: nat, i: nat, st: SeqState, log: seq<Exchange>, ex: Exchange)
    requires i + 1 == |inp.seats| && |log| == b + 2 * i && TextsMatch(inp, b, i, st, log)
    requires ex.outcome.Answered?
    ensures TextsMatch(inp, b, i + 1,
                       st.(draft := ex.outcome.reply.content, selections := st.selections + [ex.outcome.reply.modelUsed]),
                       log + [ex])
  {
    SelectionsAtStable(log, [ex], b, |log|);
    CritiquesBeforeStable(log, [ex], b, i);
  }

  /** The draft, critiques and selections after a seat and its critique, both answered. */
  lemma TextsAfterMiddle(inp: RoundInput, b: nat, i: nat, st: SeqState, log: seq<Exchange>, ex: Exchange, ex2: Exchange)
    requires i + 1 < |inp.seats| && |log| == b + 2 * i && TextsMatch(inp, b, i, st, log)
    requires ex.outcome.Answered? && ex2.outcome.Answered?
    ensures TextsMatch(inp, b, i + 1,
                       st.(draft := ex.outcome.reply.content,
                           critiques := st.critiques + [ex2.outcome.reply.content],
                           selections := st.selections + [ex.outcome.reply.modelUsed, ex2.outcome.reply.modelUsed]),
                       log + [ex] + [ex2])
  {
    var log1 := log + [ex];
    var log2 := log1 + [ex2];
    SelectionsAtStable(log, [ex], b, |log|);
    SelectionsAtStable(log1, [ex2], b, |log1|);
    assert SelectionsAt(log2, b, |log2|) == st.selections + [ex.outcome.reply.modelUsed, ex2.outcome.reply.modelUsed];
    assert log2 == log + ([ex] + [ex2]);
    CritiquesBeforeStable(log, [ex] + [ex2], b, i);
    assert CritiquesBefore(log2, b, i + 1) == st.critiques + [ex2.outcome.reply.content];
  }

  /** A seat and its critique, both answered, keep a consistent state consistent. */
  lemma MiddleTurn(inp: RoundInput, tx: Texts, o: Oracle, b: nat, i: nat, st: SeqState, log: seq<Exchange>, ex: Exchange, ex2: Exchange)
    requires Consistent(inp, tx, o, b, i, st, log) && i + 1 < |inp.seats|
    requires ex == Send(o, log, ExpectedSeatCall(inp, tx, o, log, b, i)) && ex.outcome.Answered?
    requires ex2 == Send(o, log + [ex], ExpectedCritiqueCall(inp, tx, o, log + [ex], b, i)) && ex2.outcome.Answered?
    ensures Consistent(inp, tx, o, b, i + 1,
                       SeqState(Put(st.responses, inp.seats[i].role, ex.outcome.reply.content),
                                Put(st.modelsUsed, inp.seats[i].role, ex.outcome.reply.modelUsed),
                                ex.outcome.reply.content,
                                st.critiques + [ex2.outcome.reply.content],
                                st.selections + [ex.outcome.reply.modelUsed, ex2.outcome.reply.modelUsed]),
                       log + [ex] + [ex2])
  {
    ShapeAfterMiddle(inp, tx, o, b, i, log, ex, ex2);
    TextsAfterMiddle(inp, b, i, st, log, ex, ex2);
    MapsAfterSeat(inp, b, i, st, log, ex, [ex2]);
  }

  /** The last seat, answered, completes a consistent state. */
  lemma LastTurn(inp: RoundInput, tx: Texts, o: Oracle, b: nat, i: nat, st: SeqState, log: seq<Exchange>, ex: Exchange)
    requires Consistent(inp, tx, o, b, i, st, log) && i + 1 == |inp.seats|
    requires ex == Send(o, log, ExpectedSeatCall(inp, tx, o, log, b, i)) && ex.outcome.Answered?
    ensures Consistent(inp, tx, o, b, i + 1,
                       SeqState(Put(st.responses, inp.seats[i].role, ex.outcome.reply.content),
                                Put(st.modelsUsed, inp.seats[i].role, ex.outcome.reply.modelUsed),
                                ex.outcome.reply.content,
                                st.critiques,
                                st.selections + [ex.outcome.reply.modelUsed]),
                       log + [ex])
  {
    ShapeAfterLast(inp, tx, o, b, i, log, ex);
    TextsAfterLast(inp, b, i, st, log, ex);
    assert log + [ex] + [] == log + [ex];
    MapsAfterSeat(inp, b, i, st, log, ex, []);
  }

  /** A seat's turn only appends to the log; a failed turn ends on the failed call. */
  lemma TurnExtends(inp: RoundInput, tx: Texts, o: Oracle, i: nat, st: SeqState, log: seq<Exchange>)
    requires i < |inp.seats|
    ensures var t := SeatTurn(inp, tx, o, i, st, log);
      && |log| < |t.log| && log <= t.log
      && (t.Aborted? ==> t.log[|t.log| - 1].outcome == Failed(t.error))
  {
  }

  /** The seats only append to the log; a failed run ends on the failed call. */
  lemma {:induction false} SeqFromExtends(inp: RoundInput, tx: Texts, o: Oracle, i: nat, st: SeqState, log: seq<Exchange>)
    requires i <= |inp.seats|
    ensures var r := SeqFrom(inp, tx, o, i, st, log);
      && log <= r.log
      && (r.Aborted? ==> |log| < |r.log| && r.log[|r.log| - 1].outcome == Failed(r.error))
    decreases |inp.seats| - i
  {
    if i < |inp.seats| {
      TurnExtends(inp, tx, o, i, st, log);
      var t := SeatTurn(inp, tx, o, i, st, log);
      if t.Done? {
        SeqFromExtends(inp, tx, o, i + 1, t.value, t.log);
      }
    }
  }

  /** One seat's turn from a consistent state, if it completes, leaves a consistent state one seat further. */
  lemma TurnConsistent(inp: RoundInput, tx: Texts, o: Oracle, b: nat, i: nat, st: SeqState, log: seq<Exchange>)
    requires Consistent(inp, tx, o, b, i, st, log) && i < |inp.seats|
    ensures var t := SeatTurn(inp, tx, o, i, st, log);
      t.Done? ==> Consistent(inp, tx, o, b, i + 1, t.value, t.log)
  {
    SeatCallFromState(inp, tx, o, b, i, st, log);
    var t := SeatTurn(inp, tx, o, i, st, log);
    var role := inp.seats[i].role;
    var ex := Send(o, log, ExpectedSeatCall(inp, tx, o, log, b, i));
    if ex.outcome.Answered? {
      var reply := ex.outcome.reply;
      var st1 := SeqState(Put(st.responses, role, reply.content), Put(st.modelsUsed, role, reply.modelUsed),
                          reply.content, st.critiques, st.selections + [reply.modelUsed]);
      if i + 1 < |inp.seats| {
        CritiqueCallFromState(inp, tx, o, b, i, log, ex);
        var ex2 := Send(o, log + [ex], ExpectedCritiqueCall(inp, tx, o, log + [ex], b, i));
        if ex2.outcome.Answered? {
          var critique := ex2.outcome.reply;
          assert t == Done(st1.(critiques := st.critiques + [critique.content],
                                selections := st1.selections + [critique.modelUsed]),
                           log + [ex] + [ex2]);
          MiddleTurn(inp, tx, o, b, i, st, log, ex, ex2);
          assert st1.selections + [critique.modelUsed] == st.selections + [reply.modelUsed, critique.modelUsed];
        }
      } else {
        assert t == Done(st1, log + [ex]);
        LastTurn(inp, tx, o, b, i, st, log, ex);
      }
    }
  }

  /** The seats from a consistent state, if they all complete, leave the closed form of the whole seat phase. */
  lemma {:induction false} SeqFromConsistent(inp: RoundInput, tx: Texts, o: Oracle, b: nat, i: nat, st: SeqState, log: seq<Exchange>)
    requires Consistent(inp, tx, o, b, i, st, log)
    ensures var r := SeqFrom(inp, tx, o, i, st, log);
      r.Done? ==> Consistent(inp, tx, o, b, |inp.seats|, r.value, r.log)
    decreases |inp.seats| - i
  {
    if i < |inp.seats| {
      TurnConsistent(inp, tx, o, b, i, st, log);
      var t := SeatTurn(inp, tx, o, i, st, log);
      if t.Done? {
        SeqFromConsistent(inp, tx, o, b, i + 1, t.value, t.log);
        assert SeqFrom(inp, tx, o, i, st, log) == SeqFrom(inp, tx, o, i + 1, t.value, t.log);
      }
    }
  }

  /** Appending exchanges leaves the expected final critique call unchanged. */
  lemma FinalCallStable(inp: RoundInput, tx: Texts, o: Oracle, log: seq<Exchange>, more: seq<Exchange>, b: nat)
    requires b + CallsBefore(|inp.seats|, |inp.seats|) <= |log|
    ensures ExpectedFinalCall(inp, tx, o, log + more, b) == ExpectedFinalCall(inp, tx, o, log, b)
  {
    SelectionsAtStable(log, more, b, b + CallsBefore(|inp.seats|, |inp.seats|));
    assert DraftBefore(log + more, b, |inp.seats|) == DraftBefore(log, b, |inp.seats|);
  }

  /** The round starts from the closed form of an empty seat phase. */
  lemma StartConsistent(inp: RoundInput, tx: Texts, o: Oracle, log: seq<Exchange>)
    ensures Consistent(inp, tx, o, |log|, 0, Start, log)
  {
  }

  /** The end of the round only appends: the final critique, and at most the judge's call. */
  lemma FinishExtends(inp: RoundInput, tx: Texts, o: Oracle, st: SeqState, l: seq<Exchange>)
    ensures var r := FinishRound(inp, tx, o, st, l);
      && |l| < |r.log| <= |l| + 2 && r.log[..|l|] == l
      && (r.Aborted? ==> r.log[|r.log| - 1].outcome == Failed(r.error))
  {
    var fex := Send(o, l, Call(tx.final(inp, st.draft), inp.routes.redTeam(inp.loopNumber - 1, st.selections, Draw(o, l))));
    RoundDeltaExtends(inp.deltaStrategy, inp.judge, o, l + [fex], inp.priorResponses, st.responses);
  }

  /** After a consistent seat phase, the seats' and critiques' calls stay where they are. */
  lemma FinishSeatCalls(inp: RoundInput, tx: Texts, o: Oracle, b: nat, st: SeqState, l: seq<Exchange>)
    requires LogShape(inp, tx, o, b, |inp.seats|, l)
    ensures var r := FinishRound(inp, tx, o, st, l);
      var n := |inp.seats|;
      && (forall j :: 0 <= j < n ==> SeatCallOk(inp, tx, o, r.log, b, j))
      && (forall j :: 0 <= j < n - 1 ==> CritiqueCallOk(inp, tx, o, r.log, b, j))
  {
    FinishExtends(inp, tx, o, st, l);
    var r := FinishRound(inp, tx, o, st, l);
    var more := r.log[|l|..];
    assert r.log == l + more;
    CallFactsStable(inp, tx, o, b, l, more);
  }

  /** The end of the round sends the final critique first; a completed round records its reply and the seats' maps. */
  lemma FinishShape(inp: RoundInput, tx: Texts, o: Oracle, st: SeqState, l: seq<Exchange>)
    ensures var r := FinishRound(inp, tx, o, st, l);
      && |l| < |r.log| && r.log[..|l|] == l
      && r.log[|l|] == Send(o, l, Call(tx.final(inp, st.draft), inp.routes.redTeam(inp.loopNumber - 1, st.selections, Draw(o, l))))
      && (r.Done? ==>
            && r.log[|l|].outcome.Answered?
            && r.value.loopNumber == inp.loopNumber
            && r.value.councilResponses == st.responses
            && r.value.modelsUsed == st.modelsUsed
            && r.value.redTeamCritique == ContentAt(r.log, |l|)
            && r.value.redTeamModel == ModelAt(r.log, |l|))
  {
    var fex := Send(o, l, Call(tx.final(inp, st.draft), inp.routes.redTeam(inp.loopNumber - 1, st.selections, Draw(o, l))));
    var l1 := l + [fex];
    RoundDeltaExtends(inp.deltaStrategy, inp.judge, o, l1, inp.priorResponses, st.responses);
    var d := RoundDelta(inp.deltaStrategy, inp.judge, o, l1, inp.priorResponses, st.responses);
    assert d.log[..|l|] == d.log[..|l1|][..|l|];
  }

  /** After a consistent seat phase, the final critique is the expected call, on the last draft. */
  lemma FinishFinalCall(inp: RoundInput, tx: Texts, o: Oracle, b: nat, st: SeqState, l: seq<Exchange>)
    requires |l| == b + CallsBefore(|inp.seats|, |inp.seats|) && TextsMatch(inp, b, |inp.seats|, st, l)
    ensures var r := FinishRound(inp, tx, o, st, l);
      r.Done? ==> FinalCallOk(inp, tx, o, r.log, b)
  {
    FinishShape(inp, tx, o, st, l);
    var r := FinishRound(inp, tx, o, st, l);
    var more := r.log[|l|..];
    assert r.log == l + more;
    FinalCallStable(inp, tx, o, l, more, b);
  }

  /**
   * The record of a sequential round whose calls start at `b`, read off the
   * log: each role holds its seat's reply and serving model (a later seat of
   * the same role overwriting an earlier one); the critique stored is the
   * final critique's reply, and the delta flag is the delta rule applied
   * right after it.
   */
  predicate RecordFromLog(inp: RoundInput, o: Oracle, log: seq<Exchange>, b: nat, rec: LoopRecord) {
    var n := |inp.seats|;
    var f := b + CallsBefore(n, n);
    && f < |log|
    && rec.loopNumber == inp.loopNumber
    && rec.councilResponses == FromPairs(ResponsePairs(inp.seats, log, b, n))
    && rec.modelsUsed == FromPairs(ServedPairs(inp.seats, log, b, n))
    && rec.redTeamCritique == ContentAt(log, f)
    && rec.redTeamModel == ModelAt(log, f)
    && DeltaOutcome(inp.deltaStrategy, inp.judge, o, log, f + 1, inp.priorResponses, rec.councilResponses, rec.deltaDetected)
  }

  /** The record after a consistent seat phase. */
  lemma FinishRecord(inp: RoundInput, tx: Texts, o: Oracle, b: nat, st: SeqState, l: seq<Exchange>)
    requires |l| == b + CallsBefore(|inp.seats|, |inp.seats|) && MapsMatch(inp, b, |inp.seats|, st, l)
    ensures var r := FinishRound(inp, tx, o, st, l);
      r.Done? ==> RecordFromLog(inp, o, r.log, b, r.value)
  {
    FinishDelta(inp, tx, o, st, l);
    FinishShape(inp, tx, o, st, l);
    var r := FinishRound(inp, tx, o, st, l);
    var more := r.log[|l|..];
    assert r.log == l + more;
    PairsStable(inp.seats, l, more, b, |inp.seats|);
  }

  /** The delta flag: the delta rule applied right after the final critique. */
  lemma FinishDelta(inp: RoundInput, tx: Texts, o: Oracle, st: SeqState, l: seq<Exchange>)
    ensures var r := FinishRound(inp, tx, o, st, l);
      r.Done? ==>
        && r.value.councilResponses == st.responses
        && DeltaOutcome(inp.deltaStrategy, inp.judge, o, r.log, |l| + 1, inp.priorResponses, st.responses, r.value.deltaDetected)
  {
    var fex := Send(o, l, Call(tx.final(inp, st.draft), inp.routes.redTeam(inp.loopNumber - 1, st.selections, Draw(o, l))));
    RoundDeltaOutcome(inp.deltaStrategy, inp.judge, o, l + [fex], inp.priorResponses, st.responses);
  }

  /**
   * A sequential round only appends to the log, and a failed round ends on
   * the failed call, whose error it reports.
   */
  lemma SequentialRoundExtends(inp: RoundInput, tx: Texts, o: Oracle, log0: seq<Exchange>)
    ensures var r := SequentialRound(inp, tx, o, log0);
      && |log0| < |r.log| && r.log[..|log0|] == log0
      && (r.Aborted? ==> r.log[|r.log| - 1].outcome == Failed(r.error))
  {
    SeqFromExtends(inp, tx, o, 0, Start, log0);
    var s := SeqFrom(inp, tx, o, 0, Start, log0);
    if s.Done? {
      FinishExtends(inp, tx, o, s.value, s.log);
      var r := FinishRound(inp, tx, o, s.value, s.log);
      assert r.log[..|log0|] == r.log[..|s.log|][..|log0|];
    }
  }

  /**
   * The calls of a completed sequential round starting at call `b`: one per
   * seat, one critique per seat but the last, the final critique and at most
   * the judge's call. Seat `j` was call `b + 2j`, sent the previous seat's draft and every critique so
   * far and routed with the models served so far in the round; the critique
   * of its draft was call `b + 2j + 1` (for every seat but the last); the
   * final critique, on the last draft, came next.
   */
  lemma SequentialRoundCalls(inp: RoundInput, tx: Texts, o: Oracle, log0: seq<Exchange>)
    ensures var r := SequentialRound(inp, tx, o, log0);
      var b, n := |log0|, |inp.seats|;
      var f := b + CallsBefore(n, n);
      r.Done? ==>
        && f < |r.log| <= f + 2
        && (forall j :: 0 <= j < n ==> SeatCallOk(inp, tx, o, r.log, b, j))
        && (forall j :: 0 <= j < n - 1 ==> CritiqueCallOk(inp, tx, o, r.log, b, j))
        && FinalCallOk(inp, tx, o, r.log, b)
  {
    StartConsistent(inp, tx, o, log0);
    SeqFromConsistent(inp, tx, o, |log0|, 0, Start, log0);
    var s := SeqFrom(inp, tx, o, 0, Start, log0);
    if s.Done? {
      FinishExtends(inp, tx, o, s.value, s.log);
      FinishSeatCalls(inp, tx, o, |log0|, s.value, s.log);
      FinishFinalCall(inp, tx, o, |log0|, s.value, s.log);
    }
  }

  /**
   * The record of a completed sequential round starting at call `b`: each
   * role holds its seat's reply and serving model (a later seat of the same
   * role overwriting an earlier one); the critique stored is the final
   * critique's reply, and the delta flag is the delta rule applied right
   * after it.
   */
  lemma SequentialRoundRecord(inp: RoundInput, tx: Texts, o: Oracle, log0: seq<Exchange>)
    ensures var r := SequentialRound(inp, tx, o, log0);
      r.Done? ==> RecordFromLog(inp, o, r.log, |log0|, r.value)
  {
    SeatPhaseMaps(inp, tx, o, log0);
    var s := SeqFrom(inp, tx, o, 0, Start, log0);
    if s.Done? {
      FinishRecord(inp, tx, o, |log0|, s.value, s.log);
    }
  }

  /** After all the seats, the call count and the two role maps are the closed form of the log. */
  lemma SeatPhaseMaps(inp: RoundInput, tx: Texts, o: Oracle, log0: seq<Exchange>)
    ensures var s := SeqFrom(inp, tx, o, 0, Start, log0);
      s.Done? ==>
        && |s.log| == |log0| + CallsBefore(|inp.seats|, |inp.seats|)
        && MapsMatch(inp, |log0|, |inp.seats|, s.value, s.log)
  {
    StartConsistent(inp, tx, o, log0);
    SeqFromConsistent(inp, tx, o, |log0|, 0, Start, log0);
  }

  // The standard texts.

  /** The k-th block of the critique summary is critique k, numbered from 1. */
  lemma {:induction false} NumberedCritiquesAt(critiques: seq<string>, k: nat)
    requires k < |critiques|
    ensures NumberedCritiques(critiques)[k] == "CRITIQUE " + NatToString(k + 1) + ":\n" + critiques[k]
    decreases |critiques|
  {
    if k < |critiques| - 1 {
      NumberedCritiquesAt(critiques[..|critiques| - 1], k);
    }
  }

  /**
   * A seat's standard messages: its own system prompt, then the query; every
   * seat but the first also gets the latest draft and the critique summary.
   */
  lemma StandardSeatQuotes(inp: RoundInput, i: nat, seat: CouncilSeat, draft: string, critiques: seq<string>)
    ensures var m := Standard.seat(inp, i, seat, draft, critiques);
      var head := QueryLabel + inp.query + DraftHeading;
      && |m| == 2 && m[0] == SystemMessage(seat.systemPrompt) && m[1].role == "user"
      && OccursAt(m[1].content, inp.query, |QueryLabel|)
      && (i > 0 ==>
           && OccursAt(m[1].content, draft, |head|)
           && OccursAt(m[1].content, CritiqueSummary(critiques), |head| + |draft| + |CritiquesHeading|))
  {
    var prompt := if i == 0 then InitialPrompt(inp.query) else RevisionPrompt(inp.query, draft, CritiqueSummary(critiques));
    assert Standard.seat(inp, i, seat, draft, critiques) == [SystemMessage(seat.systemPrompt), UserMessage(prompt)];
    if i == 0 {
      OccursBetween(QueryLabel, inp.query, InitialRequest);
    } else {
      RevisionPromptQuotes(inp.query, draft, CritiqueSummary(critiques));
    }
  }

  /** A revision prompt quotes the query, the draft and the summary where it places them. */
  lemma RevisionPromptQuotes(query: string, draft: string, summary: string)
    ensures var head := QueryLabel + query + DraftHeading;
      && OccursAt(RevisionPrompt(query, draft, summary), query, |QueryLabel|)
      && OccursAt(RevisionPrompt(query, draft, summary), draft, |head|)
      && OccursAt(RevisionPrompt(query, draft, summary), summary, |head| + |draft| + |CritiquesHeading|)
  {
    var front := QueryLabel + query;
    var request := RevisionRequest(draft, summary);
    OccursBetween(QueryLabel, query, request);
    QuotesBoth(DraftHeading, draft, CritiquesHeading, summary, "\n\nRevise and improve the draft, addressing the critiques.");
    OccursShift(front, request, draft, |DraftHeading|);
    OccursShift(front, request, summary, |DraftHeading| + |draft| + |CritiquesHeading|);
  }

  /** The critic's standard messages about a seat's draft name the seat's role and quote the draft. */
  lemma StandardCritiqueQuotes(inp: RoundInput, role: CouncilRole, draft: string)
    ensures var m := Standard.critique(inp, role, draft);
      var head := "QUERY: " + inp.query + "\n\nCURRENT DRAFT from [";
      && |m| == 2 && m[0] == SystemMessage(inp.redTeamPrompt) && m[1].role == "user"
      && OccursAt(m[1].content, RoleLabel(role), |head|)
      && OccursAt(m[1].content, draft, |head| + |RoleLabel(role)| + |"]:\n"|)
  {
    QuotesBoth("QUERY: " + inp.query + "\n\nCURRENT DRAFT from [", RoleLabel(role), "]:\n", draft, "\n\nCritique this draft.");
  }

  /** The critic's standard final messages quote the final draft. */
  lemma StandardFinalQuotes(inp: RoundInput, draft: string)
    ensures var m := Standard.final(inp, draft);
      && |m| == 2 && m[0] == SystemMessage(inp.redTeamPrompt) && m[1].role == "user"
      && OccursAt(m[1].content, draft, |"QUERY: " + inp.query + "\n\nFINAL OUTPUT:\n"|)
  {
    OccursBetween("QUERY: " + inp.query + "\n\nFINAL OUTPUT:\n", draft, "\n\nProvide your final critique of the complete output.");
  }
}
