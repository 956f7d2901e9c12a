/** Shared routing utilities: vendor extraction and counting, the blank-id fallback, random choice. */
module RoutingBase {
  import opened Wrappers
  import opened Strings

  /** The identifier every fallback resolves to. */
  const AutoModel: string := "openrouter/auto"

  lemma AutoModelNotBlank()
    ensures !IsBlank(AutoModel)
  {
    assert !IsSpace(AutoModel[0]);
  }

  /** `extract_vendor`: the text before the first "/", or "unknown" when there is none. */
  function ExtractVendor(modelId: string): (vendor: string)
    ensures '/' in modelId ==>
      && |vendor| < |modelId| && modelId[..|vendor|] == vendor
      && modelId[|vendor|] == '/' && '/' !in vendor
    ensures '/' !in modelId ==> vendor == "unknown"
  {
    if '/' in modelId then Split(modelId, '/')[0] else "unknown"
  }

  /** `count_vendor_in_selections`: how many selections belong to `vendor`. */
  function CountVendorInSelections(vendor: string, selections: seq<string>): (n: nat)
    ensures n <= |selections|
  {
    if selections == [] then 0
    else
      CountVendorInSelections(vendor, selections[..|selections| - 1])
      + (if ExtractVendor(selections[|selections| - 1]) == vendor then 1 else 0)
  }

  /** `model` belongs to `vendor`. */
  predicate OfVendor(model: string, vendor: string) {
    ExtractVendor(model) == vendor
  }

  /** Which selections belong to `vendor`, position by position. */
  function VendorFlags(vendor: string, selections: seq<string>): (flags: seq<bool>)
    ensures |flags| == |selections|
    ensures forall i :: 0 <= i < |selections| ==> flags[i] == OfVendor(selections[i], vendor)
  {
    seq(|selections|, i requires 0 <= i < |selections| => OfVendor(selections[i], vendor))
  }

  /** The positions below `n` whose flag is set. */
  function SetPositions(flags: seq<bool>, n: nat): set<nat>
    requires n <= |flags|
  {
    set i: nat | i < n && flags[i]
  }

  /** Extending the range by one position adds that position exactly when its flag is set. */
  lemma SetPositionsStep(flags: seq<bool>, n: nat)
    requires 0 < n <= |flags|
    ensures |SetPositions(flags, n)| == |SetPositions(flags, n - 1)| + (if flags[n - 1] then 1 else 0)
  {
    var before := SetPositions(flags, n - 1);
    assert n - 1 !in before;
    if flags[n - 1] {
      assert SetPositions(flags, n) == before + {n - 1};
    } else {
      assert SetPositions(flags, n) == before;
    }
  }

  /** The positions below `n` only depend on the first `n` flags. */
  lemma SetPositionsPrefix(flags: seq<bool>, other: seq<bool>, n: nat)
    requires n <= |flags| && n <= |other| && flags[..n] == other[..n]
    ensures SetPositions(flags, n) == SetPositions(other, n)
  {
    assert forall i :: 0 <= i < n ==> flags[i] == flags[..n][i] && other[i] == other[..n][i];
  }

  /** The count is the number of positions whose model belongs to `vendor`. */
  lemma {:induction false} CountVendorIsCardinality(vendor: string, selections: seq<string>)
    ensures CountVendorInSelections(vendor, selections)
         == |SetPositions(VendorFlags(vendor, selections), |selections|)|
  {
    if selections != [] {
      var n := |selections|;
      var init := selections[..n - 1];
      CountVendorIsCardinality(vendor, init);
      var flags := VendorFlags(vendor, selections);
      assert VendorFlags(vendor, init)[..n - 1] == flags[..n - 1];
      SetPositionsPrefix(VendorFlags(vendor, init), flags, n - 1);
      SetPositionsStep(flags, n);
    }
  }

  /** Selecting one more model raises its own vendor's count by one and no other. */
  lemma CountVendorSnoc(vendor: string, selections: seq<string>, model: string)
    ensures CountVendorInSelections(vendor, selections + [model])
         == CountVendorInSelections(vendor, selections) + (if ExtractVendor(model) == vendor then 1 else 0)
  {
    assert (selections + [model])[..|selections|] == selections;
  }

  /** `is_model_available`: every model counts as available. */
  function IsModelAvailable(modelId: string): (available: bool)
    ensures available
  {
    true
  }

  /** `safe_fallback`: a non-blank identifier passes through; None or a blank one becomes the auto model. */
  function SafeFallback(modelId: Option<string>): (safe: string)
    ensures !IsBlank(safe)
    ensures modelId.Some? && !IsBlank(modelId.value) ==> safe == modelId.value
    ensures modelId.None? || IsBlank(modelId.value) ==> safe == AutoModel
  {
    AutoModelNotBlank();
    if modelId.Some? && modelId.value != "" && Strip(modelId.value) != "" then
      StripEmptyIffBlank(modelId.value);
      modelId.value
    else
      if modelId.Some? then StripEmptyIffBlank(modelId.value); AutoModel else AutoModel
  }

  /** Applying the fallback twice changes nothing. */
  lemma SafeFallbackIdempotent(modelId: Option<string>)
    ensures SafeFallback(Some(SafeFallback(modelId))) == SafeFallback(modelId)
  {
  }

  /** `random.choice(candidates)`: the draw picks one of the candidates. */
  function RandomChoice(candidates: seq<string>, draw: nat): (choice: string)
    requires candidates != []
    ensures choice in candidates
  {
    candidates[draw % |candidates|]
  }

  /** Every candidate is picked by some draw. */
  lemma RandomChoiceReaches(candidates: seq<string>, i: nat)
    requires i < |candidates|
    ensures RandomChoice(candidates, i) == candidates[i]
  {
  }
}
