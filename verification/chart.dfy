/** The data side of `generate_summary_chart`: which slice sizes the pie
    chart gets and which slice is pulled out. Drawing, saving the image
    and building its URL are not modelled. */
module Chart {
  import opened Wrappers

  /** The inputs matplotlib would receive: three slice sizes (protein,
      carbs, fat) and the index of the one exploded slice. */
  datatype Chart = Chart(sizes: seq<int>, explode: nat)

  function ClampSize(x: int): int {
    if x < 0 then 0 else x
  }

  /** `max(s)` of a non-empty list. */
  function MaxOf(s: seq<int>): (m: int)
    requires |s| > 0
    ensures m in s
    ensures forall k :: 0 <= k < |s| ==> s[k] <= m
  {
    if |s| == 1 then s[0]
    else
      var rest := MaxOf(s[1..]);
      assert forall k :: 1 <= k < |s| ==> s[k] == s[1..][k - 1];
      if s[0] >= rest then s[0] else rest
  }

  /** `s.index(x)`: the first position holding `x`. */
  function IndexOf(s: seq<int>, x: int): (i: nat)
    requires x in s
    ensures i < |s| && s[i] == x
    ensures forall k :: 0 <= k < i ==> s[k] != x
  {
    if s[0] == x then 0
    else
      assert x in s[1..];
      1 + IndexOf(s[1..], x)
  }

  /** Chart inputs for the day's macro totals: each size is the total
      clamped at zero; there is no chart when every clamped size is zero;
      otherwise the exploded slice is the first one holding the largest
      size, and that size is positive. */
  function ChartFor(protein: int, carbs: int, fat: int): (c: Option<Chart>)
    ensures c.None? <==> protein <= 0 && carbs <= 0 && fat <= 0
    ensures c.Some? ==>
      && c.value.sizes == [ClampSize(protein), ClampSize(carbs), ClampSize(fat)]
      && c.value.explode < 3
      && (forall k :: 0 <= k < 3 ==> 0 <= c.value.sizes[k] <= c.value.sizes[c.value.explode])
      && (forall k :: 0 <= k < c.value.explode ==> c.value.sizes[k] < c.value.sizes[c.value.explode])
      && c.value.sizes[c.value.explode] > 0
  {
    var sizes := [ClampSize(protein), ClampSize(carbs), ClampSize(fat)];
    if sizes[0] == 0 && sizes[1] == 0 && sizes[2] == 0 then None
    else
      var m := MaxOf(sizes);
      var i := IndexOf(sizes, m);
      Some(Chart(sizes, i))
  }
}
