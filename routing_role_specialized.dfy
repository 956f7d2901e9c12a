/** RoleSpecializedRouter: role pool, then the vendor-cap filter, then a random candidate. */
module RoleSpecializedRouting {
  import opened Wrappers
  import opened Strings
  import opened Config
  import opened RoutingBase
  import DiversityRouting

  /** The constructor validates neither the pools nor the cap. */
  datatype RoleSpecializedRouter = RoleSpecializedRouter(rolePools: map<CouncilRole, seq<string>>, maxPerVendor: int := 2)

  /** The role's pool, empty when the role is unmapped. */
  function PoolFor(router: RoleSpecializedRouter, role: CouncilRole): seq<string> {
    if role in router.rolePools then router.rolePools[role] else []
  }

  /**
   * `select_model`: the auto model for an unmapped role, an empty pool or an
   * exhausted filter; otherwise the fallback of a random candidate of the pool.
   */
  function SelectModel(router: RoleSpecializedRouter, role: CouncilRole, loop: int, seatIndex: int,
                       existingSelections: seq<string>, draw: nat): (model: string)
    ensures PoolFor(router, role) == [] ==> model == AutoModel
    ensures var candidates := DiversityRouting.Candidates(PoolFor(router, role), existingSelections, router.maxPerVendor);
      && (candidates == [] ==> model == AutoModel)
      && (candidates != [] ==> exists i :: 0 <= i < |candidates| && model == SafeFallback(Some(candidates[i])))
    ensures !IsBlank(model)
    ensures model == AutoModel
         || (role in router.rolePools && model in router.rolePools[role]
             && CountVendorInSelections(ExtractVendor(model), existingSelections) < router.maxPerVendor)
  {
    AutoModelNotBlank();
    var pool := PoolFor(router, role);
    if pool == [] then AutoModel
    else
      var candidates := DiversityRouting.Candidates(pool, existingSelections, router.maxPerVendor);
      if candidates == [] then AutoModel
      else
        assert candidates[draw % |candidates|] in candidates;
        SafeFallback(Some(RandomChoice(candidates, draw)))
  }

  /** A model the router hands out keeps its vendor within the cap once it is added to the selections. */
  lemma SpecializedSelectionStaysWithinCap(router: RoleSpecializedRouter, role: CouncilRole, loop: int, seatIndex: int,
                                           existingSelections: seq<string>, draw: nat)
    ensures var model := SelectModel(router, role, loop, seatIndex, existingSelections, draw);
      model != AutoModel ==>
        CountVendorInSelections(ExtractVendor(model), existingSelections + [model]) <= router.maxPerVendor
  {
    var model := SelectModel(router, role, loop, seatIndex, existingSelections, draw);
    CountVendorSnoc(ExtractVendor(model), existingSelections, model);
  }
}
