/** TieredRouter: premium model for the critic and the integrator, budget model for everyone else. */
module TieredRouting {
  import opened Wrappers
  import opened Strings
  import opened Config
  import opened RoutingBase

  datatype TieredRouter = TieredRouter(premiumModel: string, budgetModel: string)

  /** The two roles that get the premium model. */
  predicate IsCritical(role: CouncilRole) {
    role in {RedTeam, Synthesizer}
  }

  /** `select_model`: the fallback of the premium or the budget identifier, by role alone. */
  function SelectModel(router: TieredRouter, role: CouncilRole, loop: int, seatIndex: int,
                       existingSelections: seq<string>): (model: string)
    ensures role == RedTeam || role == Synthesizer ==> model == SafeFallback(Some(router.premiumModel))
    ensures role == DomainExpert || role == Pragmatist || role == Creative ==> model == SafeFallback(Some(router.budgetModel))
    ensures !IsBlank(model)
  {
    if IsCritical(role) then SafeFallback(Some(router.premiumModel)) else SafeFallback(Some(router.budgetModel))
  }

  /** Loop, seat and earlier selections never matter. */
  lemma TieredIgnoresContext(router: TieredRouter, role: CouncilRole, loop1: int, seat1: int, existing1: seq<string>,
                             loop2: int, seat2: int, existing2: seq<string>)
    ensures SelectModel(router, role, loop1, seat1, existing1) == SelectModel(router, role, loop2, seat2, existing2)
  {
  }
}
