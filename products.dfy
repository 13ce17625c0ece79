/**
 * Product-id selection at start-up (`getProductIDs`): a requested list is
 * checked against the nine products the scraper knows about.
 */
module Products {
  import opened Wrappers

  /** The products the scraper knows, in the order it lists them. */
  const DefaultProductIds: seq<string> :=
    ["BTC-USD", "BTC-EUR", "BTC-GBP", "ETH-USD", "ETH-EUR", "ETH-BTC", "LTC-USD", "LTC-EUR", "LTC-BTC"]

  /** The word that asks for every known product. */
  const AllProducts: string := "all"

  /** The error reported for a requested id that is not a known product. */
  function InvalidProductId(p: string): string
  {
    "invalid product id: " + p
  }

  /** The scan of the request from entry `k` on, as `getProductIDs` does it. */
  function SelectFrom(ids: seq<string>, k: nat): Result<seq<string>, string>
    requires k <= |ids|
    decreases |ids| - k
  {
    if k == |ids| then Ok(ids)
    else if ids[k] == AllProducts then Ok(DefaultProductIds)
    else if ids[k] !in DefaultProductIds then Err(InvalidProductId(ids[k]))
    else SelectFrom(ids, k + 1)
  }

  /** What `getProductIDs` returns for a request. */
  function Select(ids: seq<string>): Result<seq<string>, string>
  {
    if |ids| == 0 then Ok(DefaultProductIds) else SelectFrom(ids, 0)
  }

  /**
   * The position of the first entry at or after `k` that is not a known
   * product, or `|ids|` when there is none.
   */
  function FirstUnknown(ids: seq<string>, k: nat): (j: nat)
    requires k <= |ids|
    ensures k <= j <= |ids|
    ensures forall i :: k <= i < j ==> ids[i] in DefaultProductIds
    ensures j < |ids| ==> ids[j] !in DefaultProductIds
    decreases |ids| - k
  {
    if k == |ids| || ids[k] !in DefaultProductIds then k else FirstUnknown(ids, k + 1)
  }

  lemma AllIsNotAProduct()
    ensures AllProducts !in DefaultProductIds
  {
  }

  /**
   * The scan is decided by the first entry that is not a known product:
   * none means the request is returned as it is; `"all"` means every known
   * product; anything else is reported as an invalid id.
   */
  lemma {:induction false} SelectFromFirstUnknown(ids: seq<string>, k: nat)
    requires k <= |ids|
    ensures var j := FirstUnknown(ids, k);
            SelectFrom(ids, k) ==
              if j == |ids| then Ok(ids)
              else if ids[j] == AllProducts then Ok(DefaultProductIds)
              else Err(InvalidProductId(ids[j]))
    decreases |ids| - k
  {
    AllIsNotAProduct();
    if k < |ids| && ids[k] in DefaultProductIds {
      SelectFromFirstUnknown(ids, k + 1);
    }
  }

  /**
   * `getProductIDs` in full: an empty request means every known product;
   * otherwise the entries are read left to right, and the first one that is
   * not a known product decides, `"all"` expanding to every known product
   * and any other word being rejected by name; a request made only of known
   * products comes back unchanged, order and repetitions kept.
   */
  lemma SelectCases(ids: seq<string>)
    ensures |ids| == 0 ==> Select(ids) == Ok(DefaultProductIds)
    ensures |ids| > 0 ==>
              var j := FirstUnknown(ids, 0);
              (j == |ids| ==> Select(ids) == Ok(ids)) &&
              (j < |ids| && ids[j] == AllProducts ==> Select(ids) == Ok(DefaultProductIds)) &&
              (j < |ids| && ids[j] != AllProducts ==> Select(ids) == Err(InvalidProductId(ids[j])))
  {
    if |ids| > 0 {
      SelectFromFirstUnknown(ids, 0);
    }
  }

  /** Whatever `getProductIDs` accepts is made only of known products. */
  lemma SelectOnlyKnown(ids: seq<string>)
    requires Select(ids).Ok?
    ensures forall p :: p in Select(ids).value ==> p in DefaultProductIds
  {
    SelectCases(ids);
  }

  /** A non-empty request comes back unchanged exactly when each of its entries is a known product. */
  lemma SelectUnchangedIff(ids: seq<string>)
    requires |ids| > 0
    ensures Select(ids) == Ok(ids) <==> forall i :: 0 <= i < |ids| ==> ids[i] in DefaultProductIds
  {
    SelectCases(ids);
    AllIsNotAProduct();
  }

  /**
   * A request is rejected exactly when an entry that is neither a known
   * product nor `"all"` comes before any `"all"`; the error names the first such entry.
   */
  lemma SelectRejects(ids: seq<string>)
    ensures Select(ids).Err? <==>
              exists j :: 0 <= j < |ids| && ids[j] !in DefaultProductIds && ids[j] != AllProducts &&
                          forall i :: 0 <= i < j ==> ids[i] in DefaultProductIds
    ensures Select(ids).Err? ==>
              exists j :: 0 <= j < |ids| && ids[j] !in DefaultProductIds && ids[j] != AllProducts &&
                          Select(ids).error == InvalidProductId(ids[j]) &&
                          forall i :: 0 <= i < j ==> ids[i] in DefaultProductIds
  {
    SelectCases(ids);
    AllIsNotAProduct();
  }

  /** `getProductIDs`: a lookup table of the known products, then a left-to-right scan of the request. */
  method GetProductIds(ids: seq<string>) returns (r: Result<seq<string>, string>)
    ensures r == Select(ids)
  {
    var all := DefaultProductIds;
    if |ids| == 0 {
      return Ok(all);
    }
    var known: map<string, bool> := map[];
    for j := 0 to |all|
      invariant forall p :: p in known <==> p in all[..j]
    {
      known := known[all[j] := true];
    }
    assert all[..|all|] == all;
    for i := 0 to |ids|
      invariant SelectFrom(ids, i) == Select(ids)
    {
      if ids[i] == AllProducts {
        return Ok(all);
      }
      if ids[i] !in known {
        return Err(InvalidProductId(ids[i]));
      }
    }
    return Ok(ids);
  }
}
