/** RoleMappedRouter: the first model of the role's configured list. */
module RoleMappedRouting {
  import opened Wrappers
  import opened Strings
  import opened Config
  import opened RoutingBase

  datatype RoleMappedRouter = RoleMappedRouter(roleModels: map<CouncilRole, seq<string>>, defaultModel: string := AutoModel)

  /**
   * `select_model`: an unmapped role looks up `[default]`; an empty list yields
   * the raw default, anything else the fallback of the list's first model.
   */
  function SelectModel(router: RoleMappedRouter, role: CouncilRole, loop: int, seatIndex: int,
                       existingSelections: seq<string>): (model: string)
    ensures role in router.roleModels && router.roleModels[role] != [] ==>
      model == SafeFallback(Some(router.roleModels[role][0]))
    ensures role !in router.roleModels ==> model == SafeFallback(Some(router.defaultModel))
    ensures role in router.roleModels && router.roleModels[role] == [] ==> model == router.defaultModel
  {
    var models := if role in router.roleModels then router.roleModels[role] else [router.defaultModel];
    if models == [] then router.defaultModel else SafeFallback(Some(models[0]))
  }

  /** The result is always a configured identifier or the auto model, and only the raw default can be blank. */
  lemma RoleMappedResultIsConfigured(router: RoleMappedRouter, role: CouncilRole, loop: int, seatIndex: int,
                                     existingSelections: seq<string>)
    ensures var model := SelectModel(router, role, loop, seatIndex, existingSelections);
      && (model == router.defaultModel || model == AutoModel
          || (role in router.roleModels && model == router.roleModels[role][0]))
      && (IsBlank(model) ==> model == router.defaultModel && role in router.roleModels && router.roleModels[role] == [])
  {
  }

  /** Loop, seat and earlier selections never matter. */
  lemma RoleMappedIgnoresContext(router: RoleMappedRouter, role: CouncilRole, loop1: int, seat1: int, existing1: seq<string>,
                                 loop2: int, seat2: int, existing2: seq<string>)
    ensures SelectModel(router, role, loop1, seat1, existing1) == SelectModel(router, role, loop2, seat2, existing2)
  {
  }
}
