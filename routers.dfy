/**
 * A router as the engine sees it: any object with `select_model`. The six
 * shipped policies, plus an arbitrary user object whose answer may be a
 * string, something else, or an exception.
 */
module Routers {
  import opened Strings
  import opened Config
  import opened RoutingBase
  import PoolRouting
  import DiversityRouting
  import RoleMappedRouting
  import RoleSpecializedRouting
  import TieredRouting
  import CostAwareRouting

  /** What `select_model` handed back: a string, or some other Python value. */
  datatype RouterValue = Str(s: string) | NotStr

  /** A call to `select_model` returned a value or raised. */
  datatype RouterAnswer = Returned(value: RouterValue) | Raised(message: string)

  datatype Router =
    | Pool(pool: PoolRouting.PoolRouter)
    | Diversity(diversity: DiversityRouting.DiversityRouter)
    | RoleMapped(roleMapped: RoleMappedRouting.RoleMappedRouter)
    | RoleSpecialized(roleSpecialized: RoleSpecializedRouting.RoleSpecializedRouter)
    | Tiered(tiered: TieredRouting.TieredRouter)
    | CostAware(costAware: CostAwareRouting.CostAwareRouter)
      /** A user-supplied router; `draw` is the randomness it may consume. */
    | External(select: (CouncilRole, int, int, seq<string>, nat) -> RouterAnswer)

  /**
   * `router.select_model(role, loop, seat_index, existing_selections)`. A pool
   * router whose pool was emptied after construction raises, as `random.choice`
   * does on an empty list.
   */
  function SelectModel(router: Router, role: CouncilRole, loop: int, seatIndex: int,
                       existingSelections: seq<string>, draw: nat): (answer: RouterAnswer)
    ensures router.External? ==> answer == router.select(role, loop, seatIndex, existingSelections, draw)
    ensures router.Pool? && router.pool.modelPool == [] ==> answer.Raised?
    ensures !router.External? && !router.RoleMapped? && !(router.Pool? && router.pool.modelPool == []) ==>
      answer.Returned? && answer.value.Str? && !IsBlank(answer.value.s)
    ensures router.RoleMapped? ==> answer.Returned? && answer.value.Str?
  {
    match router
    case Pool(r) =>
      if r.modelPool == [] then Raised("Cannot choose from an empty sequence")
      else Returned(Str(PoolRouting.SelectModel(r, role, loop, seatIndex, existingSelections, draw)))
    case Diversity(r) => Returned(Str(DiversityRouting.SelectModel(r, role, loop, seatIndex, existingSelections, draw)))
    case RoleMapped(r) => Returned(Str(RoleMappedRouting.SelectModel(r, role, loop, seatIndex, existingSelections)))
    case RoleSpecialized(r) => Returned(Str(RoleSpecializedRouting.SelectModel(r, role, loop, seatIndex, existingSelections, draw)))
    case Tiered(r) => Returned(Str(TieredRouting.SelectModel(r, role, loop, seatIndex, existingSelections)))
    case CostAware(r) => Returned(Str(CostAwareRouting.SelectModel(r, role, loop, seatIndex, existingSelections)))
    case External(select) => select(role, loop, seatIndex, existingSelections, draw)
  }
}
