/** The engine configuration the executor reads. */
module EngineSettings {
  import opened Wrappers
  import opened Config
  import opened RoleMaps
  import opened RoutingBase
  import opened Routers

  /**
   * How a round decides whether positions changed: the built-in judge that asks
   * a model, or a user strategy, seen as a function of the prior and current
   * responses.
   */
  datatype DeltaStrategy = LLMJudge | Custom(detect: (Option<RoleMap>, RoleMap) -> bool)

  /** The API key, read from the environment when absent, is not part of this model. */
  datatype EngineConfig = EngineConfig(
    triageModel: string := AutoModel,
    defaultModel: string := AutoModel,
    observability: bool := false,
    deltaStrategy: Option<DeltaStrategy> := None,
    routingMode: RoutingMode := RoutingMode.Auto,
    customRouter: Option<Router> := None)

  /** Building a configuration: custom routing mode without a router is refused. */
  function NewEngineConfig(triageModel: string, defaultModel: string, observability: bool,
                           deltaStrategy: Option<DeltaStrategy>, routingMode: RoutingMode,
                           customRouter: Option<Router>): (r: Result<EngineConfig, string>)
    ensures r.Err? <==> routingMode == RoutingMode.Custom && customRouter.None?
    ensures r.Err? ==> r.error == "custom_router required when routing_mode is CUSTOM"
    ensures r.Ok? ==> r.value == EngineConfig(triageModel, defaultModel, observability, deltaStrategy, routingMode, customRouter)
  {
    if routingMode == RoutingMode.Custom && customRouter.None? then
      Err("custom_router required when routing_mode is CUSTOM")
    else
      Ok(EngineConfig(triageModel, defaultModel, observability, deltaStrategy, routingMode, customRouter))
  }

  /** The defaults: the auto model everywhere, no transcript, no delta strategy, automatic routing. */
  lemma ConfigDefaults()
    ensures var c := EngineConfig();
      c.triageModel == AutoModel && c.defaultModel == AutoModel && !c.observability
      && c.deltaStrategy.None? && c.routingMode == RoutingMode.Auto && c.customRouter.None?
  {
  }
}
