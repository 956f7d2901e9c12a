/** PoolRouter: a random model from a fixed pool, blind to role and diversity. */
module PoolRouting {
  import opened Wrappers
  import opened Strings
  import opened Config
  import opened RoutingBase

  datatype PoolRouter = PoolRouter(modelPool: seq<string>)

  /** The constructor: an empty pool is refused. */
  function NewPoolRouter(modelPool: seq<string>): (r: Result<PoolRouter, string>)
    ensures r.Err? <==> modelPool == []
    ensures r.Err? ==> r.error == "model_pool cannot be empty"
    ensures r.Ok? ==> r.value.modelPool == modelPool
  {
    if modelPool == [] then Err("model_pool cannot be empty") else Ok(PoolRouter(modelPool))
  }

  /** `select_model`: the fallback of one pool entry, whatever the role, loop, seat or earlier selections. */
  function SelectModel(router: PoolRouter, role: CouncilRole, loop: int, seatIndex: int,
                       existingSelections: seq<string>, draw: nat): (model: string)
    requires router.modelPool != []
    ensures !IsBlank(model)
    ensures model in router.modelPool || model == AutoModel
    ensures exists i :: 0 <= i < |router.modelPool| && model == SafeFallback(Some(router.modelPool[i]))
  {
    var choice := RandomChoice(router.modelPool, draw);
    var i := draw % |router.modelPool|;
    assert model_is: SafeFallback(Some(choice)) == SafeFallback(Some(router.modelPool[i]));
    SafeFallback(Some(choice))
  }

  /** Every pool entry can be the one selected. */
  lemma PoolEntryReachable(router: PoolRouter, i: nat, role: CouncilRole, loop: int, seatIndex: int,
                           existingSelections: seq<string>)
    requires i < |router.modelPool|
    ensures SelectModel(router, role, loop, seatIndex, existingSelections, i) == SafeFallback(Some(router.modelPool[i]))
  {
    RandomChoiceReaches(router.modelPool, i);
  }

  /** With a single non-blank model in the pool, every call returns it. */
  lemma SingletonPool(router: PoolRouter, role: CouncilRole, loop: int, seatIndex: int,
                      existingSelections: seq<string>, draw: nat)
    requires |router.modelPool| == 1 && !IsBlank(router.modelPool[0])
    ensures SelectModel(router, role, loop, seatIndex, existingSelections, draw) == router.modelPool[0]
  {
  }

  /** The choice depends on the draw only. */
  lemma PoolIgnoresContext(router: PoolRouter, role1: CouncilRole, loop1: int, seat1: int, existing1: seq<string>,
                           role2: CouncilRole, loop2: int, seat2: int, existing2: seq<string>, draw: nat)
    requires router.modelPool != []
    ensures SelectModel(router, role1, loop1, seat1, existing1, draw)
         == SelectModel(router, role2, loop2, seat2, existing2, draw)
  {
  }
}
