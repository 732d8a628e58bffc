/** The running-minimum search every nearest-neighbour lookup of the
    system performs: start from infinity, scan in table order, and replace
    the best candidate only on a strictly smaller distance. */
module Nearest {
  import opened Wrappers

  /** `k` is the first position holding a minimum of `ds`: nothing in `ds`
      is smaller, and everything before `k` is strictly larger. */
  ghost predicate IsFirstMin(ds: seq<real>, k: nat) {
    && k < |ds|
    && (forall j :: 0 <= j < |ds| ==> ds[k] <= ds[j])
    && (forall j :: 0 <= j < k ==> ds[k] < ds[j])
  }

  /** The loop state after looking at `ds[..i]`; `None` is the initial
      infinite minimum. */
  function Scan(ds: seq<real>, i: nat, best: Option<nat>): (r: Option<nat>)
    requires i <= |ds|
    requires best.None? <==> i == 0
    requires best.Some? ==> IsFirstMin(ds[..i], best.value)
    ensures r.None? <==> |ds| == 0
    ensures r.Some? ==> IsFirstMin(ds, r.value)
    decreases |ds| - i
  {
    if i == |ds| then
      assert ds[..i] == ds;
      best
    else if best.None? || ds[i] < ds[best.value] then
      Scan(ds, i + 1, Some(i))
    else
      Scan(ds, i + 1, best)
  }

  /** Position of the nearest entry, or `None` for an empty table. */
  function FirstMin(ds: seq<real>): (r: Option<nat>)
    ensures r.None? <==> |ds| == 0
    ensures r.Some? ==> IsFirstMin(ds, r.value)
  {
    Scan(ds, 0, None)
  }

  /** Ties are resolved deterministically: there is only one first minimum. */
  lemma FirstMinUnique(ds: seq<real>, k1: nat, k2: nat)
    requires IsFirstMin(ds, k1) && IsFirstMin(ds, k2)
    ensures k1 == k2
  {
    assert ds[k1] == ds[k2];
  }

  /** Any candidate that is at least as near as all entries and strictly
      nearer than all earlier ones is what the scan returns. */
  lemma FirstMinCharacterised(ds: seq<real>, k: nat)
    requires IsFirstMin(ds, k)
    ensures FirstMin(ds) == Some(k)
  {
    FirstMinUnique(ds, FirstMin(ds).value, k);
  }
}
