# Crucible deliberation executor — a Dafny model

Crucible answers a query with a "council" of language-model seats. A triage
call turns the user's query into a plan: a council of 3–5 seats (exactly one
of them the RED_TEAM critic), a loop grammar (PARALLEL, SEQUENTIAL or DEBATE),
a loop count of 2–5 and a few switches. The executor then either
short-circuits to one direct call, or runs the rounds of the chosen grammar.
Between rounds it asks a delta strategy whether the positions changed, and it
can stop early from round 2 on. Finally it makes one synthesis call over a
summary of the rounds. Every model call goes through a routing layer that
picks the model identifier: a seat's own hint, a custom router, or the
configured default.

This project models that core and proves what it promises:

- `Transport` treats the model-call boundary as an oracle. The n-th call of
  an execution is answered (reply text plus the model that served it) or
  failed by `answer(n, call)`, and the random draw of the routing decision
  before it is `entropy(n)`. Every operation threads the log of exchanges and
  returns `Done(value, log)` or `Aborted(error, log)`, so "how many calls, in
  which order, with which messages and model" is a property of the log.
- Routing covers vendor extraction and counting, `safe_fallback`, the six
  routers (pool, diversity, role-mapped, role-specialized, tiered,
  cost-aware), the router protocol (`Routers`) and the seat and red-team
  selection helpers.
- The three round grammars are functions from the round's input and the
  oracle to a `LoopRecord`. The sequential grammar, which updates its
  variables step by step, is also a method with a loop proved equal to that
  function. The position-summary formatter is a method proved equal to its
  function too.
- The executor has its round loop as a function (`RoundLoop`), and `RunRounds`
  and `ExecuteCouncil` are methods, with a `while` loop and `break`, proved
  equal to it. It also covers the short-circuit, the deliberating seats, the
  early-exit rule, transcript retention and the records handed to synthesis.
- The synthesis summary builder is nested loops proved equal to its function.
  The synthesis call is one oracle call.
- Triage covers plan validation, code-fence stripping and `run_triage`'s
  mapping of failures to `TriageError` and `TriageValidationError`.
- The plan and record data model, and the engine configuration (with
  `routing_mode` and `custom_router`).

A Python `dict` keyed by role is modelled as an insertion-ordered association
list (`RoleMaps.RoleMap`). Assigning an existing key keeps its position, and
`FromPairs` is `dict(pairs)`. `random.choice(c)` is `c[draw % |c|]`, and every
element is reachable. The message texts each grammar sends are gathered in a
`Texts` table; `Standard` holds the real texts, and lemmas show where the
query, drafts, critiques and summaries are quoted in them.

Where the code contradicts itself, or leaves a choice open, the model does
this:

- `LoopRecord` in `crucible/schemas.py` has no `models_used` or
  `red_team_model` fields, yet the grammars and the executor pass them. The
  model includes both fields. The debate grammar leaves them empty and blank.
- `client.call` is declared to return a string, yet the grammars read
  `.content` and `.model_used`. The model's transport returns both. The debate
  grammar uses the reply text.
- `routing_mode` and `custom_router` are used but missing from
  `EngineConfig`. They are added, with the validation the tests expect.
- The debate grammar never consults a router. Every seat and the attack use
  the hint or the default model.
- The role-mapped router returns the raw default, without `safe_fallback`,
  when a role maps to an empty list. An unmapped role gets
  `safe_fallback(default)`.
- The delta flag is true whenever there is no strategy or the prior responses
  are absent or empty, not only when they are absent.
- The judge's verdict is a substring test for "YES" in the upper-cased reply,
  so "No - only their eyes changed" counts as a change
  (`Delta.JudgeVerdictExamples`).
- With the trace off, synthesis gets a rebuilt record only when the last
  round's responses are non-empty. Otherwise it gets no records.
- The short-circuit result carries no copy of the plan, even with
  observability on.
- The 3–5 seat and 2–5 loop bounds are already enforced by the plan's schema.
  A plan that breaks them is reported as an invalid structure before
  `_validate_triage_output`'s own messages can be reached.

## Model

| member | source | states |
|---|---|---|
| Schemas.ValidateFields | crucible/schemas.py:37-39 | a decoded plan passes its field constraints exactly when the council has 3–5 seats and the loop count is 2–5, and a plan that passes is unchanged |
| Schemas.PlanDefaults | crucible/schemas.py:20-66 | short-circuit defaults to off, early exit to on, a seat's model hint to absent, and a result's reasoning trace and plan to absent |
| EngineSettings.NewEngineConfig | tests/test_routing.py:428-469 | building a configuration fails exactly when CUSTOM routing has no router, with the message "custom_router required when routing_mode is CUSTOM"; otherwise every field is kept |
| EngineSettings.ConfigDefaults | crucible/config.py:73-76 | the triage and default models default to "openrouter/auto", observability to off, no delta strategy, AUTO routing, no router |
| Strings.StripShape | crucible/triage/agent.py:74 | `strip` is empty exactly when its input is all whitespace, and otherwise starts and ends with a non-space |
| Strings.SplitJoin | crucible/triage/agent.py:78-84 | joining `split(s, c)` with `c` gives back `s` |
| Strings.ContainsIff | crucible/executor/delta.py:69 | substring `in` holds exactly when the pattern occurs at some index |
| RoutingBase.ExtractVendor | crucible/routing/base.py:17-19 | with a "/", the vendor is the slash-free prefix that the first "/" ends; without one, "unknown" |
| RoutingBase.CountVendorIsCardinality | crucible/routing/base.py:22-24 | the count equals the number of positions of the list whose model has that vendor |
| RoutingBase.CountVendorSnoc | crucible/routing/base.py:22-24 | appending a model adds one to its own vendor's count and leaves every other vendor's count unchanged |
| RoutingBase.IsModelAvailable | crucible/routing/base.py:27-33 | every model is available |
| RoutingBase.SafeFallback | crucible/routing/base.py:36-40 | a present non-blank identifier is returned unchanged; an absent or blank one becomes "openrouter/auto"; the result is never blank |
| RoutingBase.SafeFallbackIdempotent | crucible/routing/base.py:36-40 | applying `safe_fallback` twice is the same as applying it once |
| RoutingBase.RandomChoice | crucible/routing/pool.py:34 | the choice is an element of the non-empty candidate list |
| RoutingBase.RandomChoiceReaches | crucible/routing/pool.py:34 | every candidate is chosen by some draw |
| PoolRouting.NewPoolRouter | crucible/routing/pool.py:16-24 | construction fails exactly on an empty pool, with "model_pool cannot be empty"; otherwise it keeps the pool |
| PoolRouting.SelectModel | crucible/routing/pool.py:26-34 | the result is `safe_fallback` of some pool entry, so it is a pool entry or "openrouter/auto", and never blank |
| PoolRouting.PoolEntryReachable | crucible/routing/pool.py:34 | every pool entry, after `safe_fallback`, is selected by some draw |
| PoolRouting.SingletonPool | crucible/routing/pool.py:26-34 | a one-entry non-blank pool always yields that entry |
| PoolRouting.PoolIgnoresContext | crucible/routing/pool.py:26-34 | the result does not depend on role, loop, seat index or earlier selections |
| DiversityRouting.NewDiversityRouter | crucible/routing/diversity.py:20-34 | construction fails exactly on an empty pool; otherwise it keeps the pool and the cap |
| DiversityRouting.Candidates | crucible/routing/diversity.py:50-56 | a model is a candidate exactly when it is in the pool and its vendor's count among the selections is below the cap |
| DiversityRouting.CandidatesSingleton | crucible/routing/diversity.py:52-56 | one model is kept exactly when its vendor's count among the selections is below the cap |
| DiversityRouting.CandidatesAppend | crucible/routing/diversity.py:50-56 | the filter distributes over concatenation, so the candidates are the kept pool entries in pool order, duplicates included |
| DiversityRouting.SelectModel | crucible/routing/diversity.py:36-62 | no candidates gives "openrouter/auto"; otherwise the result is `safe_fallback` of a candidate; the result is never blank, and any non-fallback result is a pool entry whose vendor is under the cap |
| DiversityRouting.SelectionStaysWithinCap | crucible/routing/diversity.py:50-62 | appending a non-fallback choice keeps its vendor's count at most the cap |
| DiversityRouting.NonPositiveCapFallsBack | crucible/routing/diversity.py:55-60 | with a cap of 0 or less every call returns "openrouter/auto" |
| DiversityRouting.VendorCapHolds | crucible/routing/diversity.py:36-62 | over any run of selections, each fed the earlier ones, no vendor appears more often than the cap among the non-fallback results |
| RoleMappedRouting.SelectModel | crucible/routing/role_mapped.py:45-50 | a mapped non-empty list gives `safe_fallback` of its first entry; an unmapped role gives `safe_fallback(default)`; an empty list gives the raw default |
| RoleMappedRouting.RoleMappedResultIsConfigured | crucible/routing/role_mapped.py:45-50 | the result is the default, "openrouter/auto" or the role's first entry, and it is blank only when the role maps to an empty list and the default is blank |
| RoleMappedRouting.RoleMappedIgnoresContext | crucible/routing/role_mapped.py:33-50 | the result depends only on the role |
| RoleSpecializedRouting.SelectModel | crucible/routing/role_specialized.py:60-76 | an unmapped role, an empty pool or no candidates under the vendor cap give "openrouter/auto"; otherwise the result is `safe_fallback` of a candidate, within the role's pool and under the cap |
| RoleSpecializedRouting.SpecializedSelectionStaysWithinCap | crucible/routing/role_specialized.py:65-76 | appending a non-fallback choice keeps its vendor's count at most the cap |
| TieredRouting.SelectModel | crucible/routing/tiered.py:35-38 | RED_TEAM and SYNTHESIZER get `safe_fallback(premium)`, the other roles `safe_fallback(budget)`; never blank |
| TieredRouting.TieredIgnoresContext | crucible/routing/tiered.py:27-38 | the result depends only on the role |
| CostAwareRouting.SelectModel | crucible/routing/cost_aware.py:82-98 | RED_TEAM gets "meta-llama/llama-3.3-70b-instruct", SYNTHESIZER "openai/gpt-4o", every other role "openai/gpt-4o-mini"; the result is always the first entry of a tier other than T3 |
| CostAwareRouting.CostAwareIgnoresContext | crucible/routing/cost_aware.py:59-98 | the result depends only on the role: neither the quality threshold nor loop, seat or selections change it |
| Routers.SelectModel | crucible/executor/routing_helper.py:42-49 | a custom router's answer is whatever it returns or raises; the pool, diversity, role-specialized, tiered and cost-aware routers return a non-blank string; a router over an empty pool raises |
| RoutingHelper.Accept | crucible/executor/routing_helper.py:50-63 | a non-blank string from the router is kept; a non-string, a blank string or an exception becomes the default model |
| RoutingHelper.SelectModelForSeat | crucible/executor/routing_helper.py:12-66 | a truthy hint wins; otherwise, with CUSTOM mode and a router, the router's usable answer or the default; otherwise the default |
| RoutingHelper.SelectModelForRedTeam | crucible/executor/routing_helper.py:69-108 | with CUSTOM mode and a router, the router asked for RED_TEAM at seat index len(selections), its usable answer or the default; otherwise the default |
| RoutingHelper.SeatModelSources | crucible/executor/routing_helper.py:37-66 | a seat's model is the default, its hint, or a non-blank router answer; a router failure never escapes |
| RoutingHelper.BlankHintPassesThrough | crucible/executor/routing_helper.py:37-39 | any non-empty whitespace-only hint is truthy and is returned verbatim as the model |
| RoutingHelper.RedTeamIsUnhintedSeat | crucible/executor/routing_helper.py:84-91 | the red-team selection equals the seat selection of an unhinted RED_TEAM seat at index len(selections) |
| RoutingHelper.BuiltInRouterIsObeyed | crucible/executor/routing_helper.py:42-51 | with no hint, the choice of a built-in router with a non-empty pool (other than role-mapped) is used as it is |
| RoleMaps.PutSpec | crucible/executor/grammars/sequential.py:90-91 | assigning a role sets its value and leaves the others; an existing role keeps its place, a new one is appended |
| RoleMaps.FromPairsGet | crucible/executor/grammars/parallel.py:99-100 | building the map from pairs gives each role the value of its last pair |
| RoleMaps.FromPairsKeys | crucible/executor/grammars/parallel.py:99-100 | the map's roles are exactly the roles of the pairs |
| RoleMaps.FromPairsDistinct | crucible/executor/grammars/debate.py:73 | with distinct roles the map is the pair list itself, in order |
| RoleMaps.GetIffKey | crucible/executor/grammars/debate.py:93 | a lookup finds a value exactly when the role is a key |
| Rounds.FanOutAnswers | crucible/executor/grammars/parallel.py:94-98 | a fan-out makes one call per seat in seat order, and its replies are those calls' replies; the first failure aborts the round with that failure as the last call |
| Rounds.FormatPositionsSummary | crucible/executor/grammars/parallel.py:13-19 | the loop builds exactly the positions summary |
| Rounds.SummaryBlocksFrom | crucible/executor/grammars/parallel.py:13-19 | every block of the summary is "[ROLE]:\nresponse\n" of a non-RED_TEAM entry |
| Rounds.SummaryBlocksCover | crucible/executor/grammars/parallel.py:13-19 | every non-RED_TEAM entry has its block in the summary |
| Rounds.SummaryBlocksWithoutCritic | crucible/executor/grammars/parallel.py:13-19 | without RED_TEAM entries there is one block per entry, in map order |
| Delta.PositionLinesAt | crucible/executor/delta.py:9-16 | entry k contributes lines 3k..3k+2: "[ROLE]", the response and "" |
| Delta.FormatPositions | crucible/executor/delta.py:9-16 | the loop builds exactly those lines joined by newlines |
| Delta.JudgeCallQuotesBoth | crucible/executor/delta.py:48-68 | the judge call goes to "openrouter/auto" with the judge instruction as system message, and quotes the formatted prior and then the formatted current positions |
| Delta.JudgeVerdictIff | crucible/executor/delta.py:69 | the verdict is true exactly when "YES" occurs in the upper-cased reply |
| Delta.JudgeVerdictExamples | crucible/executor/delta.py:69 | "yes" counts as changed, "NO" does not, and "No - only their eyes changed" does |
| Delta.Detect | crucible/executor/delta.py:44-69 | a custom strategy's verdict is used with no call; the judge answers true with no call when there is no prior, and otherwise makes exactly one call whose reply decides the verdict, or aborts with that call's failure |
| Delta.RoundDelta | crucible/executor/grammars/sequential.py:137-141 | the flag is true with no call unless a strategy and non-empty prior responses exist, and then it is that strategy's verdict |
| Delta.UnchangedNeedsEvidence | crucible/executor/grammars/sequential.py:137-141 | a false flag needs a strategy and non-empty prior responses; with the judge, it needs one answered judge call whose reply has no "YES" |
| ParallelGrammar.ParallelSeatCalls | crucible/executor/grammars/parallel.py:59-98 | a completed round's first calls are the seats' calls in order, each routed with an empty list of selections |
| ParallelGrammar.ParallelCriticCall | crucible/executor/grammars/parallel.py:102-126 | the critique call comes right after the seats, carries the critic messages over the round's responses, and is routed with the seats' served models as selections |
| ParallelGrammar.ParallelRoundRecord | crucible/executor/grammars/parallel.py:98-142 | the record holds the loop number, the seats' replies and served models keyed by role, the critique call's reply and model, and the delta rule applied right after it |
| ParallelGrammar.ParallelRoundExtends | crucible/executor/grammars/parallel.py:22-142 | a round only appends calls to the log, at least one, and an aborted round ends with its failing call |
| ParallelGrammar.CriticSeesSeatModels | crucible/executor/grammars/parallel.py:99-103 | with distinct roles the critic's selections are exactly the seats' served models, in seat order |
| ParallelGrammar.StandardSeatMessages | crucible/executor/grammars/parallel.py:62-79 | round 1 sends the system prompt and the query; later rounds add the prior positions summary and a message quoting the prior critique |
| ParallelGrammar.StandardCriticQuotes | crucible/executor/grammars/parallel.py:106-119 | the critic gets the red-team prompt and a message quoting the positions summary |
| DebateGrammar.HintOrDefault | crucible/executor/grammars/debate.py:67 | a seat uses its truthy hint, otherwise the default model; the router is never asked |
| DebateGrammar.DebateRoundCalls | crucible/executor/grammars/debate.py:55-112 | a completed round makes n position calls, one attack on the initial positions with the default model, then n defense calls, each seeing its own initial position and the attack; at most one delta call follows |
| DebateGrammar.DebateRoundRecord | crucible/executor/grammars/debate.py:111-127 | the record stores the defenses, not the initial positions, the attack as critique, empty models and blank critic model, and the delta rule on the defenses |
| DebateGrammar.DebateRoundExtends | crucible/executor/grammars/debate.py:22-127 | a round only appends calls, at least one, and an aborted round ends with its failing call |
| DebateGrammar.DefenseSeesOwnPosition | crucible/executor/grammars/debate.py:92-93 | a seat whose role no later seat repeats sees its own initial position |
| DebateGrammar.DefenseWithoutPosition | crucible/executor/grammars/debate.py:93 | a role with no initial position sees "" |
| DebateGrammar.StandardPositionQuotes | crucible/executor/grammars/debate.py:56-66 | a position request carries the seat's prompt and quotes the query |
| DebateGrammar.StandardAttackQuotes | crucible/executor/grammars/debate.py:76-88 | the attack request carries the red-team prompt and quotes the positions summary |
| DebateGrammar.StandardDefenseQuotes | crucible/executor/grammars/debate.py:92-106 | a defense request quotes the prior position and then the attack |
| SequentialGrammar.TakeTurn | crucible/executor/grammars/sequential.py:58-115 | one seat's turn, as the loop body runs it, equals the turn function |
| SequentialGrammar.RunSeats | crucible/executor/grammars/sequential.py:54-115 | the seat loop equals the seat phase |
| SequentialGrammar.FinishSequentialLoop | crucible/executor/grammars/sequential.py:117-150 | the final critique, delta check and record equal their function |
| SequentialGrammar.ExecuteSequentialLoop | crucible/executor/grammars/sequential.py:45-150 | the whole method equals the round function |
| SequentialGrammar.SequentialRoundCalls | crucible/executor/grammars/sequential.py:54-134 | call 2j is seat j, routed at seat index j and loop number minus 1 with all earlier served models as selections, and it sees the previous seat's draft and every earlier critique; call 2j+1 critiques seat j's draft for every seat but the last; then one final critique of the last draft |
| SequentialGrammar.SequentialRoundRecord | crucible/executor/grammars/sequential.py:90-150 | the record holds each role's reply and model from its last seat, the final critique's reply and model, and the delta rule applied right after it |
| SequentialGrammar.SequentialRoundExtends | crucible/executor/grammars/sequential.py:54-150 | a round only appends calls, at least one, and an aborted round ends with its failing call |
| SequentialGrammar.NumberedCritiquesAt | crucible/executor/grammars/sequential.py:69-71 | the k-th block is "CRITIQUE k+1:\n" followed by the k-th critique |
| SequentialGrammar.StandardSeatQuotes | crucible/executor/grammars/sequential.py:59-80 | every seat's message quotes the query; later seats' messages also quote the draft and then the numbered critiques |
| SequentialGrammar.StandardCritiqueQuotes | crucible/executor/grammars/sequential.py:97-107 | an intermediate critique names the seat's role and quotes its draft |
| SequentialGrammar.StandardFinalQuotes | crucible/executor/grammars/sequential.py:118-128 | the final critique quotes the last draft |
| Executor.StandardWellBehaved | crucible/executor/executor.py:66-105 | each of the three grammars appends at least one call and numbers its record with the round number |
| Executor.DeliberatingSeatsMembers | crucible/executor/executor.py:56-58 | a seat deliberates exactly when it is in the council and is not RED_TEAM |
| Executor.DeliberatingSeatsAppend | crucible/executor/executor.py:56-58 | the filter keeps council order |
| Executor.ExecuteLoop | crucible/executor/executor.py:66-105 | the call made is the grammar table's executor for the plan's grammar, with the prior critique passed to PARALLEL only |
| Executor.OnlyParallelSeesCritique | crucible/executor/executor.py:66-105 | for SEQUENTIAL and DEBATE the round is the same whatever the prior critique |
| Executor.RunRounds | crucible/executor/executor.py:73-124 | the loop with `break` ends in the state the round-loop function describes: rounds run, prior responses and critique of the last round, loops executed, early exit |
| Executor.ExecuteCouncil | crucible/executor/executor.py:18-157 | the method equals `execute_council` as a function |
| Executor.CouncilShortCircuit | crucible/executor/executor.py:38-53 | the short-circuit makes exactly one call (synthesis instruction, then reconstructed query, to the default model) and returns its reply with 0 loops, early exit and no trace |
| Executor.ShortCircuitIff | crucible/executor/executor.py:38-53 | a completed execution reports 0 loops with early exit exactly when the plan short-circuits |
| Executor.RoundsOutline | crucible/executor/executor.py:80-124 | the rounds already run are kept and new rounds follow them; without an early exit the loop runs exactly loop_count rounds; an early exit happens after a round from 2 to loop_count whose delta flag is false, and no earlier round met the exit condition |
| Executor.RoundsLog | crucible/executor/executor.py:80-115 | the rounds only append calls, and the k-th round run is numbered k+1 |
| Executor.LoopsExecuted | crucible/executor/executor.py:80-124 | without early exit, or with it disallowed, loops executed equals loop_count; an early exit means 2 ≤ loops ≤ loop_count and the last round's flag false, every round from 2 on before it having flagged a change |
| Executor.CouncilDeliberates | crucible/executor/executor.py:126-157 | after the rounds, exactly one synthesis call follows; the result holds its reply, the loops executed and early exit, and the trace and plan exactly when observability is on |
| Executor.TraceNumbered | crucible/executor/executor.py:107-157 | with the standard grammars and observability on, the trace has one record per executed loop, numbered 1, 2, …, and each loop made at least one call |
| Executor.SynthesisRecordsFacts | crucible/executor/executor.py:126-141 | with observability on, synthesis gets the transcript; with it off, one record numbered by the loops executed, holding the last responses and critique, empty models, blank critic model and delta true, or none when those responses are empty |
| Synthesis.BuildDeliberationSummary | crucible/executor/synthesis.py:8-36 | the nested loops build exactly the deliberation summary |
| Synthesis.BuildSection | crucible/executor/synthesis.py:21-34 | one record's loop builds exactly its section |
| Synthesis.BuildResponseLines | crucible/executor/synthesis.py:24-28 | the inner loop builds exactly the response lines, skipping RED_TEAM |
| Synthesis.SectionShape | crucible/executor/synthesis.py:21-34 | a section is "=== LOOP n ===", then "\n\n[ROLE]:\nresponse" per non-RED_TEAM role in map order, then "\n\n[RED TEAM CRITIQUE]:\n" and the critique |
| Synthesis.SummaryShape | crucible/executor/synthesis.py:17-36 | no records give "(No deliberation occurred)"; one record gives its section; each further record adds "\n\n" and its section, in input order |
| Synthesis.Synthesize | crucible/executor/synthesis.py:39-82 | synthesis makes exactly one call, and returns its reply text or aborts with its failure |
| Synthesis.SynthesisCallQuotes | crucible/executor/synthesis.py:62-81 | the call is one user message to the default model that quotes the original query and the deliberation summary |
| Triage.RedTeamCountSplit | crucible/triage/agent.py:40-42 | the critic count plus the number of deliberating seats is the council size |
| Triage.ViolationIff | crucible/triage/agent.py:26-59 | a plan passes exactly when all four checks hold; the first failing check, in source order, gives its message |
| Triage.ValidPlanCouncil | crucible/triage/agent.py:32-59 | a valid plan has 2–4 deliberating seats, one fewer than the council, and short-circuits exactly when it allows it |
| Triage.StripFencesShape | crucible/triage/agent.py:74-84 | an unfenced reply is only trimmed; a fenced one loses its first line, and loses its last line exactly when that line trims to the fence; what is kept, put back between them, rebuilds the trimmed text |
| Triage.RunTriageOutcome | crucible/triage/agent.py:92-136 | triage makes one call and returns a plan exactly when the call is answered and the unfenced reply decodes to a plan meeting its field constraints and all four checks; a failed call or non-JSON reply is a triage error, any other failure a validation error |

## Left out

- The HTTP client (`crucible/openrouter/client.py`), its retries and back-off delays: the oracle answers or fails each call once its retries are over.
- Concurrency of `asyncio.gather`: each fan-out is one call per seat in seat order, stopping at the first failure in that order. The model does not capture interleavings or sibling calls issued after a failure.
- The distribution of `random.choice`: a choice is `candidates[draw % n]`, with the draw taken from the oracle. The statistical test of the routers is not modelled.
- `json.loads` and Pydantic's type coercion: `Triage.RunTriage` takes them as a `decode` parameter that yields not-JSON, bad shape, or a plan. The plan's field bounds are checked by `Schemas.ValidateFields`.
- Static prompt texts: `get_red_team_prompt` and the triage system prompt are parameters. The grammars' and synthesis's own texts are in the `Standard` tables.
- `Strings.Upper`: it upper-cases ASCII letters only, not the whole of Unicode.
- The custom delta strategy is a pure function of prior and current responses. It makes no model calls of its own.
- Logging in the routing helper, and `resolve_api_key`, which reads the environment.
- `crucible/engine.py` and `crucible/cli.py`, which only wrap and wire the core.
- `crucible/routing/defaults.py` and the `__init__` re-exports, which are constant data.
- PoolRouting.SelectModel: requires a non-empty pool, which construction guarantees. `Routers.SelectModel` maps an empty pool to a raised error.
