/**
 * The model-call boundary, seen from the core: `call(messages, model)` either
 * answers with the reply text and the model that actually served it, or fails
 * with a transport error once its own retries are spent. What it answers is an
 * oracle: the n-th call of an execution is answered by `answer(n, call)`, and
 * the random draw of the routing decision taken just before it is `entropy(n)`.
 */
module Transport {

  /** One chat message `{"role": ..., "content": ...}`. */
  datatype Message = Message(role: string, content: string)

  /** A request: the messages and the model identifier asked for. */
  datatype Call = Call(messages: seq<Message>, model: string)

  /** A reply: its text and the model that produced it. */
  datatype Reply = Reply(content: string, modelUsed: string)

  /** What a call comes back with. */
  datatype Outcome = Answered(reply: Reply) | Failed(error: string)

  /** One issued call and its outcome, as the execution log records it. */
  datatype Exchange = Exchange(call: Call, outcome: Outcome)

  /** The world outside the core: the transport's answers and the random draws. */
  datatype Oracle = Oracle(answer: (nat, Call) -> Outcome, entropy: nat -> nat)

  /**
   * A computation that talks to the transport: it finished with a value, or a
   * call failed and the failure surfaced. Either way `log` holds every call
   * issued so far, in order.
   */
  datatype Run<+T> = Done(value: T, log: seq<Exchange>) | Aborted(error: string, log: seq<Exchange>)

  /** Issuing `c` as the next call after `log`. */
  function Send(o: Oracle, log: seq<Exchange>, c: Call): Exchange {
    Exchange(c, o.answer(|log|, c))
  }

  /** The random draw for the routing decision taken just before the next call after `log`. */
  function Draw(o: Oracle, log: seq<Exchange>): nat {
    o.entropy(|log|)
  }

  function SystemMessage(content: string): Message {
    Message("system", content)
  }

  function UserMessage(content: string): Message {
    Message("user", content)
  }

  function AssistantMessage(content: string): Message {
    Message("assistant", content)
  }

  /** Every exchange in `ex` was answered. */
  predicate AllAnswered(ex: seq<Exchange>) {
    forall k :: 0 <= k < |ex| ==> ex[k].outcome.Answered?
  }

  /** The `model_used` of each answered exchange, in call order. */
  function ModelsUsedOf(ex: seq<Exchange>): seq<string> {
    if ex == [] then []
    else ModelsUsedOf(ex[..|ex| - 1]) + (if ex[|ex| - 1].outcome.Answered? then [ex[|ex| - 1].outcome.reply.modelUsed] else [])
  }

  /** The reply text of the `k`-th exchange (empty if it failed). */
  function ContentAt(ex: seq<Exchange>, k: nat): string
    requires k < |ex|
  {
    if ex[k].outcome.Answered? then ex[k].outcome.reply.content else ""
  }

  /** The serving model of the `k`-th exchange (empty if it failed). */
  function ModelAt(ex: seq<Exchange>, k: nat): string
    requires k < |ex|
  {
    if ex[k].outcome.Answered? then ex[k].outcome.reply.modelUsed else ""
  }

  /** Over answered exchanges, the models used are the serving models position by position. */
  lemma {:induction false} ModelsUsedOfAnswered(ex: seq<Exchange>)
    requires AllAnswered(ex)
    ensures |ModelsUsedOf(ex)| == |ex|
    ensures forall k :: 0 <= k < |ex| ==> ModelsUsedOf(ex)[k] == ModelAt(ex, k)
  {
    if ex != [] {
      ModelsUsedOfAnswered(ex[..|ex| - 1]);
    }
  }

  /** Appending one answered exchange appends its serving model. */
  lemma ModelsUsedOfSnoc(ex: seq<Exchange>, e: Exchange)
    ensures ModelsUsedOf(ex + [e]) == ModelsUsedOf(ex) + (if e.outcome.Answered? then [e.outcome.reply.modelUsed] else [])
  {
    assert (ex + [e])[..|ex|] == ex;
  }

  /** Exchange `p` is call `c`, answered as the oracle answers call number `p`. */
  predicate AnsweredAs(o: Oracle, log: seq<Exchange>, p: nat, c: Call) {
    p < |log| && log[p].call == c && log[p].outcome == o.answer(p, c) && log[p].outcome.Answered?
  }

  /** What the log says of an exchange already made stays true when more exchanges follow. */
  lemma AnsweredAsStable(o: Oracle, log: seq<Exchange>, longer: seq<Exchange>, p: nat, c: Call)
    requires |log| <= |longer| && longer[..|log|] == log && AnsweredAs(o, log, p, c)
    ensures AnsweredAs(o, longer, p, c)
  {
    assert longer[p] == longer[..|log|][p];
  }
}
