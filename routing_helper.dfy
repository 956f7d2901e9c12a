/**
 * Choosing the model for one call of a round: the seat's own hint first, then
 * the custom router in custom mode, then the configured default; whatever goes
 * wrong with the router ends at the default.
 */
module RoutingHelper {
  import opened Wrappers
  import opened Strings
  import opened Config
  import opened Schemas
  import opened Routers
  import opened EngineSettings

  /** Python truthiness of an optional string: present and non-empty. */
  predicate Truthy(hint: Option<string>) {
    hint.Some? && hint.value != ""
  }

  /** The router is consulted: custom mode with a router configured. */
  predicate RoutesThroughRouter(config: EngineConfig) {
    config.routingMode == RoutingMode.Custom && config.customRouter.Some?
  }

  /** A router answer the engine accepts: a string that is not blank. */
  predicate Usable(answer: RouterAnswer) {
    answer.Returned? && answer.value.Str? && !IsBlank(answer.value.s)
  }

  /** The router's answer mapped to a model: the string when usable, the default otherwise. */
  function Accept(answer: RouterAnswer, defaultModel: string): (model: string)
    ensures Usable(answer) ==> model == answer.value.s
    ensures !Usable(answer) ==> model == defaultModel
  {
    if answer.Returned? && answer.value.Str? && !IsBlank(answer.value.s) then answer.value.s else defaultModel
  }

  /** `select_model_for_seat`; `draw` is the randomness a random router consumes. */
  function SelectModelForSeat(seat: CouncilSeat, config: EngineConfig, loop: int, seatIndex: int,
                              existingSelections: seq<string>, draw: nat): (model: string)
    ensures Truthy(seat.modelHint) ==> model == seat.modelHint.value
    ensures !Truthy(seat.modelHint) && !RoutesThroughRouter(config) ==> model == config.defaultModel
    ensures !Truthy(seat.modelHint) && RoutesThroughRouter(config) ==>
      var answer := Routers.SelectModel(config.customRouter.value, seat.role, loop, seatIndex, existingSelections, draw);
      (Usable(answer) ==> model == answer.value.s) && (!Usable(answer) ==> model == config.defaultModel)
  {
    if Truthy(seat.modelHint) then seat.modelHint.value
    else if RoutesThroughRouter(config) then
      Accept(Routers.SelectModel(config.customRouter.value, seat.role, loop, seatIndex, existingSelections, draw),
             config.defaultModel)
    else config.defaultModel
  }

  /** `select_model_for_red_team`: the router is asked for the critic, seated after everyone chosen so far. */
  function SelectModelForRedTeam(config: EngineConfig, loop: int, existingSelections: seq<string>, draw: nat): (model: string)
    ensures !RoutesThroughRouter(config) ==> model == config.defaultModel
    ensures RoutesThroughRouter(config) ==>
      var answer := Routers.SelectModel(config.customRouter.value, RedTeam, loop, |existingSelections|, existingSelections, draw);
      (Usable(answer) ==> model == answer.value.s) && (!Usable(answer) ==> model == config.defaultModel)
  {
    if RoutesThroughRouter(config) then
      Accept(Routers.SelectModel(config.customRouter.value, RedTeam, loop, |existingSelections|, existingSelections, draw),
             config.defaultModel)
    else config.defaultModel
  }

  /** The result is the hint, a non-blank router string, or the default: a router failure never escapes. */
  lemma SeatModelSources(seat: CouncilSeat, config: EngineConfig, loop: int, seatIndex: int,
                         existingSelections: seq<string>, draw: nat)
    ensures var model := SelectModelForSeat(seat, config, loop, seatIndex, existingSelections, draw);
      model == config.defaultModel
      || (Truthy(seat.modelHint) && model == seat.modelHint.value)
      || (RoutesThroughRouter(config) && !IsBlank(model))
  {
  }

  /** A non-empty whitespace-only hint is truthy and is handed on verbatim as the model, blank as it is. */
  lemma BlankHintPassesThrough(seat: CouncilSeat, config: EngineConfig, loop: int, seatIndex: int,
                               existingSelections: seq<string>, draw: nat)
    requires seat.modelHint.Some? && seat.modelHint.value != "" && IsBlank(seat.modelHint.value)
    ensures SelectModelForSeat(seat, config, loop, seatIndex, existingSelections, draw) == seat.modelHint.value
  {
  }

  /** The red-team choice is the seat choice for a hint-less critic seat placed after the existing selections. */
  lemma RedTeamIsUnhintedSeat(config: EngineConfig, prompt: string, loop: int, existingSelections: seq<string>, draw: nat)
    ensures SelectModelForRedTeam(config, loop, existingSelections, draw)
         == SelectModelForSeat(CouncilSeat(RedTeam, prompt, None), config, loop, |existingSelections|, existingSelections, draw)
  {
  }

  /** With a built-in router other than the role-mapped one, custom mode always yields the router's own choice. */
  lemma BuiltInRouterIsObeyed(seat: CouncilSeat, config: EngineConfig, loop: int, seatIndex: int,
                              existingSelections: seq<string>, draw: nat)
    requires !Truthy(seat.modelHint) && RoutesThroughRouter(config)
    requires var r := config.customRouter.value;
      !r.External? && !r.RoleMapped? && !(r.Pool? && r.pool.modelPool == [])
    ensures var answer := Routers.SelectModel(config.customRouter.value, seat.role, loop, seatIndex, existingSelections, draw);
      SelectModelForSeat(seat, config, loop, seatIndex, existingSelections, draw) == answer.value.s
  {
  }
}
