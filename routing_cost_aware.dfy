/** CostAwareRouter: role to difficulty, difficulty to tier, tier to its first model. */
module CostAwareRouting {
  import opened Wrappers
  import opened Strings
  import opened Config
  import opened RoutingBase

  datatype Difficulty = Easy | Medium | Hard

  /** The tier pools, cheapest first. */
  const TierPools: map<string, seq<string>> := map[
    "T0" := ["meta-llama/llama-3.3-70b-instruct", "mistralai/mistral-nemo", "qwen/qwen-2.5-14b-instruct"],
    "T1" := ["openai/gpt-4o-mini", "google/gemini-2.5-flash", "anthropic/claude-sonnet-4"],
    "T2" := ["openai/gpt-4o", "mistralai/mistral-large", "google/gemini-2.5-pro"],
    "T3" := ["anthropic/claude-opus-4"]
  ]

  /** The tier each difficulty starts at. */
  const DifficultyTier: map<Difficulty, string> := map[Easy := "T0", Medium := "T1", Hard := "T2"]

  /** The quality threshold is stored and never consulted. */
  datatype CostAwareRouter = CostAwareRouter(qualityThreshold: real := 0.85)

  /** The difficulty estimated from the role alone. */
  function DifficultyOf(role: CouncilRole): Difficulty {
    if role == RedTeam then Easy else if role == Synthesizer then Hard else Medium
  }

  /** `select_model`: the fallback of the first model of the starting tier's pool. */
  function SelectModel(router: CostAwareRouter, role: CouncilRole, loop: int, seatIndex: int,
                       existingSelections: seq<string>): (model: string)
    ensures role == RedTeam ==> model == "meta-llama/llama-3.3-70b-instruct"
    ensures role == Synthesizer ==> model == "openai/gpt-4o"
    ensures role != RedTeam && role != Synthesizer ==> model == "openai/gpt-4o-mini"
    ensures exists tier :: tier in TierPools && tier != "T3" && TierPools[tier] != [] && model == TierPools[tier][0]
  {
    var tier := DifficultyTier[DifficultyOf(role)];
    var pool := if tier in TierPools then TierPools[tier] else [];
    if pool != [] then
      assert SafeFallback(Some(pool[0])) == pool[0] by {
        assert !IsSpace(pool[0][0]);
      }
      SafeFallback(Some(pool[0]))
    else AutoModel
  }

  /** The threshold, the loop, the seat and earlier selections never matter. */
  lemma CostAwareIgnoresContext(r1: CostAwareRouter, r2: CostAwareRouter, role: CouncilRole,
                                loop1: int, seat1: int, existing1: seq<string>,
                                loop2: int, seat2: int, existing2: seq<string>)
    ensures SelectModel(r1, role, loop1, seat1, existing1) == SelectModel(r2, role, loop2, seat2, existing2)
  {
  }
}
