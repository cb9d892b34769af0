/** The mapping from a day's commit count to one of five colours
    (`get_box_color`). Colours are identified by their index in the palette. */
module Intensity {

  /** Box colours, from the weakest to the strongest. */
  const BoxColors: seq<string> := ["#eeeeee", "#d6e685", "#8cc665", "#44a340", "#1e6823"]

  /** The palette index of the box colour for `count` commits. */
  function BoxColor(count: int): (bucket: nat)
    ensures bucket < |BoxColors|
  {
    if count < 1 then 0
    else if count == 1 then 1
    else if 2 <= count <= 3 then 2
    else if 4 <= count <= 5 then 3
    else 4
  }

  /** The smallest count of each bucket above bucket 0, in bucket order. */
  const Thresholds: seq<int> := [1, 2, 4, 6]

  /** Number of thresholds in `thresholds` that `count` reaches. */
  function Reached(thresholds: seq<int>, count: int): (k: nat)
    ensures k <= |thresholds|
  {
    if thresholds == [] then 0
    else (if thresholds[0] <= count then 1 else 0) + Reached(thresholds[1..], count)
  }

  /** Reference definition: the bucket of a count is the number of bucket
      thresholds it reaches. */
  lemma BoxColorIsThresholdsReached(count: int)
    ensures BoxColor(count) == Reached(Thresholds, count)
  {
    var t6, t46, t246 := [6], [4, 6], [2, 4, 6];
    assert t6[1..] == [] && t46[1..] == t6 && t246[1..] == t46 && Thresholds[1..] == t246;
    assert Reached(t6, count) == if 6 <= count then 1 else 0;
    assert Reached(t46, count) == (if 4 <= count then 1 else 0) + Reached(t6, count);
    assert Reached(t246, count) == (if 2 <= count then 1 else 0) + Reached(t46, count);
  }

  lemma {:induction false} ReachedMonotone(thresholds: seq<int>, c1: int, c2: int)
    requires c1 <= c2
    ensures Reached(thresholds, c1) <= Reached(thresholds, c2)
  {
    if thresholds != [] {
      ReachedMonotone(thresholds[1..], c1, c2);
    }
  }

  /** More commits never give a weaker colour. */
  lemma BoxColorMonotone(c1: int, c2: int)
    requires c1 <= c2
    ensures BoxColor(c1) <= BoxColor(c2)
  {
    BoxColorIsThresholdsReached(c1);
    BoxColorIsThresholdsReached(c2);
    ReachedMonotone(Thresholds, c1, c2);
  }

  /** Each bucket is exactly the range of counts between consecutive
      thresholds; counts below one, negative ones included, get bucket 0. */
  lemma BoxColorRanges(count: int, bucket: nat)
    requires bucket < |BoxColors|
    ensures BoxColor(count) == bucket <==>
      (bucket == 0 || Thresholds[bucket - 1] <= count) &&
      (bucket == |Thresholds| || count < Thresholds[bucket])
  {
  }

  /** Sample values of the classifier. */
  lemma BoxColorSamples()
    ensures BoxColor(0) == 0 && BoxColor(1) == 1
    ensures BoxColor(2) == 2 && BoxColor(3) == 2
    ensures BoxColor(4) == 3 && BoxColor(5) == 3
    ensures BoxColor(6) == 4 && BoxColor(1000000) == 4
    ensures BoxColor(-5) == 0
  {
  }
}
