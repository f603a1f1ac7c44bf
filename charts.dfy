/** One asset's chart: the bounded window of plotted prices (`labels` and dataset 0) and the
    buy and sell scatter overlays (datasets 1 and 2), with the operations of
    `updateChartData`, `addBuyMarker`, `addSellMarker` and `removeBuyMarker` on them. */
module Charts {
  import opened Models
  import opened Sequences

  /** A scatter point: tick `x`, price `y`. */
  datatype Point = Point(x: int, y: Cents)

  /** The data of one chart: x-axis labels, the price line, and the two marker overlays. */
  datatype ChartData = ChartData(labels: seq<int>, prices: seq<Cents>, buys: seq<Point>, sells: seq<Point>)

  /** `maxChartPoints`: the largest number of plotted prices kept. */
  const MaxChartPoints: nat := 60

  /** The distance within which a stored buy marker is forgotten on a sell. */
  const ForgetDistance: int := 5

  /** A freshly created chart, all datasets empty. */
  function EmptyChart(): (c: ChartData)
    ensures c.labels == [] && c.prices == [] && c.buys == [] && c.sells == []
  {
    ChartData([], [], [], [])
  }

  function Abs(n: int): nat {
    if n < 0 then -n else n
  }

  /** Markers at ticks at or after `t` (the survivors of the pruning after an eviction). */
  function From(t: int): Point -> bool {
    (p: Point) => p.x >= t
  }

  /** `updateChartData` on an existing chart: append the point; once the window is longer than
      `MaxChartPoints`, drop exactly the oldest point and every marker left of the new first label. */
  function Plot(c: ChartData, price: Cents, index: int): (r: ChartData)
    ensures |c.labels| == |c.prices| ==> |r.labels| == |r.prices|
    ensures |c.labels| <= MaxChartPoints ==> 0 < |r.labels| <= MaxChartPoints
    ensures r.labels == if |c.labels| < MaxChartPoints then c.labels + [index] else (c.labels + [index])[1..]
    ensures r.prices == if |c.labels| < MaxChartPoints then c.prices + [price] else (c.prices + [price])[1..]
  {
    var labels := c.labels + [index];
    var prices := c.prices + [price];
    if |labels| > MaxChartPoints then
      var kept := labels[1..];
      ChartData(kept, prices[1..], Filter(c.buys, From(kept[0])), Filter(c.sells, From(kept[0])))
    else
      ChartData(labels, prices, c.buys, c.sells)
  }

  /** After an eviction no marker lies left of the window, and the markers at or after the new
      first label are all kept, in their original order; without one the markers are untouched. */
  lemma PlotPrunesMarkers(c: ChartData, price: Cents, index: int)
    ensures var r := Plot(c, price, index);
      if |c.labels| + 1 > MaxChartPoints then
        && (forall i :: 0 <= i < |r.buys| ==> r.buys[i].x >= r.labels[0])
        && (forall i :: 0 <= i < |r.sells| ==> r.sells[i].x >= r.labels[0])
        && IsSubsequence(r.buys, c.buys) && IsSubsequence(r.sells, c.sells)
        && (forall p :: multiset(r.buys)[p] == if p.x >= r.labels[0] then multiset(c.buys)[p] else 0)
        && (forall p :: multiset(r.sells)[p] == if p.x >= r.labels[0] then multiset(c.sells)[p] else 0)
      else r.buys == c.buys && r.sells == c.sells
  {
    var r := Plot(c, price, index);
    if |c.labels| + 1 > MaxChartPoints {
      FilterCharacterised(c.buys, From(r.labels[0]));
      FilterCharacterised(c.sells, From(r.labels[0]));
    }
  }

  /** The shape every chart keeps: the label and price datasets have the same length, at most
      `MaxChartPoints`; no label is after tick `bound` (the replay position); and once the chart
      has a point, every marker lies inside the window (at or after the first label). */
  ghost predicate ChartOk(c: ChartData, bound: int) {
    && |c.labels| == |c.prices| <= MaxChartPoints
    && (forall i :: 0 <= i < |c.labels| ==> c.labels[i] <= bound)
    && (|c.labels| > 0 ==> forall i :: 0 <= i < |c.buys| ==> c.labels[0] <= c.buys[i].x)
    && (|c.labels| > 0 ==> forall i :: 0 <= i < |c.sells| ==> c.labels[0] <= c.sells[i].x)
  }

  /** Plotting a tick that is not after `bound` keeps the chart's shape, provided the chart
      already has a point or carries no markers yet. */
  lemma PlotKeepsChartOk(c: ChartData, price: Cents, index: int, bound: int)
    requires ChartOk(c, bound) && index <= bound
    requires |c.labels| > 0 || (c.buys == [] && c.sells == [])
    ensures ChartOk(Plot(c, price, index), bound)
  {
    var r := Plot(c, price, index);
    var grown := c.labels + [index];
    assert forall i :: 0 <= i < |grown| ==> grown[i] <= bound;
    if |c.labels| < MaxChartPoints {
      assert r.labels == grown && r.buys == c.buys && r.sells == c.sells;
      assert |c.labels| > 0 ==> r.labels[0] == c.labels[0];
    } else {
      assert r.labels == grown[1..];
    }
  }

  /** `addBuyMarker` on an existing chart. */
  function AddBuy(c: ChartData, price: Cents, index: int): (r: ChartData)
    ensures r.buys == c.buys + [Point(index, price)]
    ensures r.labels == c.labels && r.prices == c.prices && r.sells == c.sells
  {
    c.(buys := c.buys + [Point(index, price)])
  }

  /** `addSellMarker` on an existing chart. */
  function AddSell(c: ChartData, price: Cents, index: int): (r: ChartData)
    ensures r.sells == c.sells + [Point(index, price)]
    ensures r.labels == c.labels && r.prices == c.prices && r.buys == c.buys
  {
    c.(sells := c.sells + [Point(index, price)])
  }

  /** A marker placed at the replay position keeps the chart's shape. */
  lemma AddMarkersKeepChartOk(c: ChartData, price: Cents, index: int, bound: int)
    requires ChartOk(c, bound) && bound <= index
    ensures ChartOk(AddBuy(c, price, index), bound) && ChartOk(AddSell(c, price, index), bound)
  {
  }

  /** `buys.splice(k, 1)`: the buy marker at `k` leaves the chart, the others keep their order. */
  function DropBuy(c: ChartData, k: int): (r: ChartData)
    requires 0 <= k < |c.buys|
    ensures |r.buys| == |c.buys| - 1
    ensures forall i :: 0 <= i < |r.buys| ==> r.buys[i] == if i < k then c.buys[i] else c.buys[i + 1]
    ensures r.labels == c.labels && r.prices == c.prices && r.sells == c.sells
  {
    c.(buys := c.buys[..k] + c.buys[k + 1..])
  }

  /** Splicing one buy marker out keeps the chart's shape. */
  lemma SpliceKeepsChartOk(c: ChartData, k: int, bound: int)
    requires ChartOk(c, bound) && 0 <= k < |c.buys|
    ensures ChartOk(DropBuy(c, k), bound)
  {
    var r := DropBuy(c, k);
    forall i | 0 <= i < |r.buys| ensures r.buys[i] in c.buys {
      if i < k { assert r.buys[i] == c.buys[i]; } else { assert r.buys[i] == c.buys[i + 1]; }
    }
  }

  // ---------------------------------------------------------------------------------------
  // Matching a sell against the buy markers

  /** `Math.abs(y - price) / price < 0.01` on cent amounts: for a positive price it is
      `100·|y − price| < price`; a negative price makes the quotient non-positive, so it always
      holds; a zero price gives Infinity or NaN, so it never holds. */
  predicate WithinTolerance(y: Cents, price: Cents) {
    if price > 0 then 100 * Abs(y - price) < price
    else price < 0
  }

  /** The integer test is the source's relative-error test read exactly. */
  lemma WithinToleranceIsRelativeError(y: Cents, price: Cents)
    requires price != 0
    ensures WithinTolerance(y, price) <==> (Abs(y - price) as real) / (price as real) < 0.01
  {
    var d := Abs(y - price) as real;
    var p := price as real;
    if price > 0 {
      QuotientBelow(d, p, 0.01);
      assert (100 * Abs(y - price)) as real == 100.0 * d;
    } else {
      QuotientOfNegative(d, p);
    }
  }

  /** For a positive divisor, comparing a quotient is comparing the product. */
  lemma QuotientBelow(d: real, p: real, c: real)
    requires p > 0.0
    ensures d / p < c <==> d < c * p
  {
    var q := d / p;
    assert q * p == d;
    ProductSign(c - q, p);
    assert (c - q) * p == c * p - d;
  }

  /** A non-negative number over a negative one is not positive. */
  lemma QuotientOfNegative(d: real, p: real)
    requires d >= 0.0 && p < 0.0
    ensures d / p <= 0.0
  {
    var q := d / p;
    assert q * p == d;
    ProductSign(q, -p);
    assert q * (-p) == -d;
  }

  /** With a positive factor `p`, `a * p` has the sign of `a`. */
  lemma ProductSign(a: real, p: real)
    requires p > 0.0
    ensures a > 0.0 <==> a * p > 0.0
    ensures a < 0.0 <==> a * p < 0.0
  {
  }

  /** `k` is the buy marker `removeBuyMarker` picks: within tolerance, no tolerant marker is
      nearer to `index`, and every tolerant marker before it is strictly farther (the strict
      `diff < minDiff` makes the earliest of equally near markers win). */
  ghost predicate IsClosestMatch(buys: seq<Point>, price: Cents, index: int, k: int) {
    && 0 <= k < |buys|
    && WithinTolerance(buys[k].y, price)
    && (forall j :: 0 <= j < |buys| && WithinTolerance(buys[j].y, price) ==>
          Abs(buys[k].x - index) <= Abs(buys[j].x - index))
    && (forall j :: 0 <= j < k && WithinTolerance(buys[j].y, price) ==>
          Abs(buys[k].x - index) < Abs(buys[j].x - index))
  }

  /** No buy marker is within tolerance of `price`. */
  ghost predicate NoMatch(buys: seq<Point>, price: Cents) {
    forall j :: 0 <= j < |buys| ==> !WithinTolerance(buys[j].y, price)
  }

  /** At most one marker is the closest match. */
  lemma ClosestMatchIsUnique(buys: seq<Point>, price: Cents, index: int, k1: int, k2: int)
    requires IsClosestMatch(buys, price, index, k1) && IsClosestMatch(buys, price, index, k2)
    ensures k1 == k2
  {
  }

  /** The marker the `forEach` scan of `removeBuyMarker` settles on, read left to right: a later
      tolerant marker replaces the current pick only when strictly nearer to `index`; -1 while
      no marker is within tolerance. */
  function ClosestBuy(buys: seq<Point>, price: Cents, index: int): (k: int)
    ensures -1 <= k < |buys|
    decreases |buys|
  {
    if buys == [] then -1
    else
      var j := |buys| - 1;
      var k := ClosestBuy(buys[..j], price, index);
      if WithinTolerance(buys[j].y, price) && (k == -1 || Abs(buys[j].x - index) < Abs(buys[k].x - index)) then j
      else k
  }

  /** The scan finds nothing exactly when no marker is within tolerance, and otherwise finds the
      closest match. */
  lemma {:induction false} ClosestBuySpec(buys: seq<Point>, price: Cents, index: int)
    ensures ClosestBuy(buys, price, index) == -1 <==> NoMatch(buys, price)
    ensures ClosestBuy(buys, price, index) != -1 ==> IsClosestMatch(buys, price, index, ClosestBuy(buys, price, index))
    decreases |buys|
  {
    if buys != [] {
      var j := |buys| - 1;
      var prefix := buys[..j];
      ClosestBuySpec(prefix, price, index);
      assert forall i :: 0 <= i < j ==> prefix[i] == buys[i];
    }
  }

  /** The `forEach` scan of `removeBuyMarker`: the index of the closest tolerant buy marker,
      or -1 when there is none. */
  method FindClosestBuy(buys: seq<Point>, price: Cents, index: int) returns (closest: int)
    ensures closest == ClosestBuy(buys, price, index)
    ensures closest == -1 <==> NoMatch(buys, price)
    ensures closest != -1 ==> IsClosestMatch(buys, price, index, closest)
  {
    closest := -1;
    var minDiff := 0;  // stands for Infinity while closest == -1
    var i := 0;
    while i < |buys|
      invariant 0 <= i <= |buys|
      invariant closest == ClosestBuy(buys[..i], price, index)
      invariant closest != -1 ==> minDiff == Abs(buys[closest].x - index)
    {
      var diff := Abs(buys[i].x - index);
      assert buys[..i + 1][..i] == buys[..i];
      if (closest == -1 || diff < minDiff) && WithinTolerance(buys[i].y, price) {
        minDiff := diff;
        closest := i;
      }
      i := i + 1;
    }
    assert buys[..i] == buys;
    ClosestBuySpec(buys, price, index);
  }

  /** A stored marker is forgotten on a sell at `price`, tick `index`, when it is nearer than
      five ticks and within tolerance. */
  function Unmatched(price: Cents, index: int): Point -> bool {
    (m: Point) => !(Abs(m.x - index) < ForgetDistance && WithinTolerance(m.y, price))
  }

  /** What the `buyMarkers` filter of `removeBuyMarker` keeps: exactly the markers that are not
      both near `index` and within tolerance, in their original order. It can drop none, one or
      several markers, independently of the single chart point removed. */
  lemma ForgetMatchedCharacterised(markers: seq<Point>, price: Cents, index: int)
    ensures var r := Filter(markers, Unmatched(price, index));
      && IsSubsequence(r, markers)
      && (forall i :: 0 <= i < |r| ==> !(Abs(r[i].x - index) < ForgetDistance && WithinTolerance(r[i].y, price)))
      && (forall m :: multiset(r)[m] ==
            if Abs(m.x - index) < ForgetDistance && WithinTolerance(m.y, price) then 0 else multiset(markers)[m])
  {
    FilterCharacterised(markers, Unmatched(price, index));
  }

  /** Two stored buys near the sell are both forgotten, while the chart holding the same two
      points loses only the nearer one. */
  lemma ForgetMatchedCanDropSeveral()
    ensures Filter([Point(8, 100), Point(9, 100)], Unmatched(100, 10)) == []
    ensures var c := ChartData([8, 9], [100, 100], [Point(8, 100), Point(9, 100)], []);
      && ClosestBuy(c.buys, 100, 10) == 1
      && DropBuy(c, ClosestBuy(c.buys, 100, 10)).buys == [Point(8, 100)]
  {
    var ms := [Point(8, 100), Point(9, 100)];
    assert !Unmatched(100, 10)(ms[0]) && !Unmatched(100, 10)(ms[1]);
    assert ms[1..][1..] == [];
    assert ms[..1] == [Point(8, 100)] && ms[..1][..0] == [];
    assert ClosestBuy(ms[..1], 100, 10) == 0;
  }
}
