/** DiversityRouter: a random pool model whose vendor is still under a per-round cap. */
module DiversityRouting {
  import opened Wrappers
  import opened Strings
  import opened Config
  import opened RoutingBase

  datatype DiversityRouter = DiversityRouter(modelPool: seq<string>, maxPerVendor: int := 2)

  /** The constructor: an empty pool is refused; the cap is stored unchecked. */
  function NewDiversityRouter(modelPool: seq<string>, maxPerVendor: int := 2): (r: Result<DiversityRouter, string>)
    ensures r.Err? <==> modelPool == []
    ensures r.Err? ==> r.error == "model_pool cannot be empty"
    ensures r.Ok? ==> r.value == DiversityRouter(modelPool, maxPerVendor)
  {
    if modelPool == [] then Err("model_pool cannot be empty") else Ok(DiversityRouter(modelPool, maxPerVendor))
  }

  /** The candidate filter: the models, in order, whose vendor appears fewer than `maxPerVendor` times so far. */
  function Candidates(models: seq<string>, existingSelections: seq<string>, maxPerVendor: int): (candidates: seq<string>)
    ensures |candidates| <= |models|
    ensures forall m :: m in candidates <==>
      m in models && CountVendorInSelections(ExtractVendor(m), existingSelections) < maxPerVendor
  {
    if models == [] then []
    else
      var rest := Candidates(models[1..], existingSelections, maxPerVendor);
      assert forall m :: m in models <==> m == models[0] || m in models[1..];
      if CountVendorInSelections(ExtractVendor(models[0]), existingSelections) < maxPerVendor
      then [models[0]] + rest
      else rest
  }

  /** A single model is a candidate, on its own, exactly when its vendor is under the cap. */
  lemma CandidatesSingleton(m: string, existingSelections: seq<string>, maxPerVendor: int)
    ensures Candidates([m], existingSelections, maxPerVendor)
         == if CountVendorInSelections(ExtractVendor(m), existingSelections) < maxPerVendor then [m] else []
  {
  }

  /** The filter distributes over concatenation: candidates keep the pool's order and multiplicity. */
  lemma {:induction false} CandidatesAppend(a: seq<string>, b: seq<string>, existingSelections: seq<string>, maxPerVendor: int)
    ensures Candidates(a + b, existingSelections, maxPerVendor)
         == Candidates(a, existingSelections, maxPerVendor) + Candidates(b, existingSelections, maxPerVendor)
  {
    if a == [] {
      assert a + b == b;
    } else {
      assert (a + b)[1..] == a[1..] + b;
      CandidatesAppend(a[1..], b, existingSelections, maxPerVendor);
    }
  }

  /**
   * `select_model`: the fallback of a random candidate, or the auto model when
   * every vendor of the pool has reached the cap.
   */
  function SelectModel(router: DiversityRouter, role: CouncilRole, loop: int, seatIndex: int,
                       existingSelections: seq<string>, draw: nat): (model: string)
    ensures var candidates := Candidates(router.modelPool, existingSelections, router.maxPerVendor);
      && (candidates == [] ==> model == AutoModel)
      && (candidates != [] ==> exists i :: 0 <= i < |candidates| && model == SafeFallback(Some(candidates[i])))
    ensures !IsBlank(model)
    ensures model == AutoModel
         || (model in router.modelPool
             && CountVendorInSelections(ExtractVendor(model), existingSelections) < router.maxPerVendor)
  {
    AutoModelNotBlank();
    var candidates := Candidates(router.modelPool, existingSelections, router.maxPerVendor);
    if candidates == [] then AutoModel
    else
      assert candidates[draw % |candidates|] in candidates;
      SafeFallback(Some(RandomChoice(candidates, draw)))
  }

  /** A model the router hands out keeps its vendor within the cap once it is added to the selections. */
  lemma SelectionStaysWithinCap(router: DiversityRouter, role: CouncilRole, loop: int, seatIndex: int,
                                existingSelections: seq<string>, draw: nat)
    ensures var model := SelectModel(router, role, loop, seatIndex, existingSelections, draw);
      model != AutoModel ==>
        CountVendorInSelections(ExtractVendor(model), existingSelections + [model]) <= router.maxPerVendor
  {
    var model := SelectModel(router, role, loop, seatIndex, existingSelections, draw);
    CountVendorSnoc(ExtractVendor(model), existingSelections, model);
  }

  /** With a cap of zero or less no vendor qualifies, and every call falls back. */
  lemma NonPositiveCapFallsBack(router: DiversityRouter, role: CouncilRole, loop: int, seatIndex: int,
                                existingSelections: seq<string>, draw: nat)
    requires router.maxPerVendor <= 0
    ensures SelectModel(router, role, loop, seatIndex, existingSelections, draw) == AutoModel
  {
  }

  /** The selections that are not the fallback identifier. */
  function NonFallback(selections: seq<string>): seq<string> {
    if selections == [] then []
    else
      NonFallback(selections[..|selections| - 1])
      + (if selections[|selections| - 1] != AutoModel then [selections[|selections| - 1]] else [])
  }

  /** Dropping the fallbacks cannot raise any vendor's count. */
  lemma {:induction false} NonFallbackCount(vendor: string, selections: seq<string>)
    ensures CountVendorInSelections(vendor, NonFallback(selections)) <= CountVendorInSelections(vendor, selections)
  {
    if selections != [] {
      var init := selections[..|selections| - 1];
      var last := selections[|selections| - 1];
      NonFallbackCount(vendor, init);
      var kept := NonFallback(init);
      assert CountVendorInSelections(vendor, selections)
          == CountVendorInSelections(vendor, init) + (if ExtractVendor(last) == vendor then 1 else 0);
      if last != AutoModel {
        assert NonFallback(selections) == kept + [last];
        CountVendorSnoc(vendor, kept, last);
      } else {
        assert NonFallback(selections) == kept;
      }
    }
  }

  /** Successive selections within one round, each seeing every earlier one (as the sequential grammar routes). */
  function SelectionRun(router: DiversityRouter, role: CouncilRole, loop: int, draws: seq<nat>): (selections: seq<string>)
    ensures |selections| == |draws|
  {
    if draws == [] then []
    else
      var earlier := SelectionRun(router, role, loop, draws[..|draws| - 1]);
      earlier + [SelectModel(router, role, loop, |earlier|, earlier, draws[|draws| - 1])]
  }

  /** However the draws fall, no vendor is handed out (other than as the fallback) more often than the cap allows. */
  lemma {:induction false} VendorCapHolds(router: DiversityRouter, role: CouncilRole, loop: int, draws: seq<nat>, vendor: string)
    ensures CountVendorInSelections(vendor, NonFallback(SelectionRun(router, role, loop, draws)))
         <= if router.maxPerVendor < 0 then 0 else router.maxPerVendor
  {
    if draws != [] {
      var init := draws[..|draws| - 1];
      var earlier := SelectionRun(router, role, loop, init);
      var model := SelectModel(router, role, loop, |earlier|, earlier, draws[|draws| - 1]);
      var all := earlier + [model];
      assert SelectionRun(router, role, loop, draws) == all;
      VendorCapHolds(router, role, loop, init, vendor);
      assert all[..|all| - 1] == earlier;
      var kept := NonFallback(earlier);
      if model != AutoModel {
        assert NonFallback(all) == kept + [model];
        CountVendorSnoc(vendor, kept, model);
        if ExtractVendor(model) == vendor {
          NonFallbackCount(vendor, earlier);
          assert CountVendorInSelections(vendor, earlier) < router.maxPerVendor;
        }
      } else {
        assert NonFallback(all) == kept;
      }
    }
  }
}
