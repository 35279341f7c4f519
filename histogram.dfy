/**
 * The loop of `update_histogram` that finds the mode bin of one axis. The
 * bin counts `n` and the bin edges `bins` come from the histogram routine;
 * bin i spans [edges[i], edges[i+1]] and its bar is as wide as that interval.
 */
module Histogram {
  import opened Wrappers

  function Abs(x: real): (r: real)
    ensures r >= 0.0 && (r == x || r == -x)
  {
    if x < 0.0 then -x else x
  }

  /** `max(n)`: the largest bin count. */
  function MaxCount(counts: seq<int>): (m: int)
    requires |counts| > 0
    ensures m in counts
    ensures forall i :: 0 <= i < |counts| ==> counts[i] <= m
  {
    if |counts| == 1 then counts[0]
    else
      var rest := MaxCount(counts[1..]);
      assert forall i :: 1 <= i < |counts| ==> counts[i] == counts[1..][i - 1];
      if counts[0] >= rest then counts[0] else rest
  }

  /**
   * `bincenters = 0.5*(bins[1:]+bins[:-1])`: one centre per bin, lying inside
   * its bin when the edges increase.
   */
  function BinCentres(edges: seq<real>): (c: seq<real>)
    ensures |c| == if |edges| == 0 then 0 else |edges| - 1
    ensures forall i :: 0 <= i < |c| ==> edges[i] <= edges[i + 1] ==> edges[i] <= c[i] <= edges[i + 1]
  {
    if |edges| <= 1 then []
    else seq(|edges| - 1, i requires 0 <= i < |edges| - 1 => 0.5 * (edges[i + 1] + edges[i]))
  }

  /** The reported mode bin: its index, its interval and the accuracy it gives. */
  datatype ModeBin = ModeBin(index: nat, low: real, high: real, accuracy: real)

  /** `k` is a bin of maximum count and no later bin has that count. */
  predicate IsLastMode(counts: seq<int>, k: int)
    requires |counts| > 0
  {
    0 <= k < |counts| && counts[k] == MaxCount(counts) &&
    forall j :: k < j < |counts| ==> counts[j] != MaxCount(counts)
  }

  /** Only one bin can be the last of maximum count. */
  lemma LastModeUnique(counts: seq<int>, k1: int, k2: int)
    requires |counts| > 0
    requires IsLastMode(counts, k1) && IsLastMode(counts, k2)
    ensures k1 == k2
  {
  }

  /**
   * The loop over `zip(n, bins, patchs)`: every bin whose count equals
   * `max(n)` is highlighted, and each one overwrites the reported interval
   * `[bin, bin + width]` and `accuracy = abs(bin + width/2 - ref)`, so the
   * last bin of maximum count is the one reported.
   */
  method SelectModeBin(counts: seq<int>, edges: seq<real>, reference: real)
    returns (highlighted: set<nat>, mode: Option<ModeBin>)
    requires |edges| == |counts| + 1
    ensures |counts| == 0 ==> highlighted == {} && mode == None
    ensures |counts| > 0 ==>
      highlighted == (set i | 0 <= i < |counts| && counts[i] == MaxCount(counts))
    ensures |counts| > 0 ==> mode.Some? && IsLastMode(counts, mode.value.index)
    ensures mode.Some? ==> mode.value.index in highlighted &&
                           forall i :: i in highlighted ==> i <= mode.value.index
    ensures mode.Some? ==>
      var k := mode.value.index;
      k < |counts| &&
      mode.value.low == edges[k] && mode.value.high == edges[k + 1] &&
      mode.value.accuracy == Abs((edges[k] + edges[k + 1]) / 2.0 - reference)
  {
    highlighted := {};
    mode := None;
    var i := 0;
    while i < |counts|
      invariant 0 <= i <= |counts|
      invariant highlighted == set j | 0 <= j < i && counts[j] == MaxCount(counts)
      invariant mode.None? <==> forall j :: 0 <= j < i ==> counts[j] != MaxCount(counts)
      invariant mode.Some? ==>
        var k := mode.value.index;
        k < i && counts[k] == MaxCount(counts) &&
        (forall j :: k < j < i ==> counts[j] != MaxCount(counts)) &&
        mode.value.low == edges[k] && mode.value.high == edges[k + 1] &&
        mode.value.accuracy == Abs((edges[k] + edges[k + 1]) / 2.0 - reference)
    {
      if counts[i] == MaxCount(counts) {
        var bin := edges[i];
        var width := edges[i + 1] - edges[i];
        highlighted := highlighted + {i};
        mode := Some(ModeBin(i, bin, bin + width, Abs(bin + width / 2.0 - reference)));
      }
      i := i + 1;
    }
    if |counts| > 0 {
      var m := MaxCount(counts);
      assert exists j :: 0 <= j < |counts| && counts[j] == m;
    }
  }

  /**
   * The centre in SelectModeBin's accuracy, `bin + width/2`, is the bin's
   * entry of `bincenters`, and it lies in the bin when the edges increase.
   */
  lemma ModeCentreIsBinCentre(edges: seq<real>, k: nat)
    requires k + 1 < |edges|
    ensures (edges[k] + edges[k + 1]) / 2.0 == BinCentres(edges)[k]
    ensures edges[k] + (edges[k + 1] - edges[k]) / 2.0 == BinCentres(edges)[k]
    ensures edges[k] <= edges[k + 1] ==> edges[k] <= BinCentres(edges)[k] <= edges[k + 1]
  {
  }

  /** When the reference lies in bin k, the accuracy bin k gives is at most half its width. */
  lemma AccuracyWithinHalfWidth(edges: seq<real>, k: nat, reference: real)
    requires k + 1 < |edges|
    requires edges[k] <= reference <= edges[k + 1]
    ensures Abs(BinCentres(edges)[k] - reference) <= (edges[k + 1] - edges[k]) / 2.0
  {
  }
}
