/**
 The report-density field: reports aggregated per pixel and band, a bucket index over the points, and a
 kernel sum per grid vertex that looks at nine buckets. Projection is left out: a report arrives with
 its pixel, if it has one. The kernel is any function of the squared distance.
 */
module Densities {
  import opened Basics

  datatype Report = Report(dxCluster: bool, pixel: Option<(int, int)>, band: string, snr: real)

  /** The reports of one band at one pixel: how many, and their snr sum. */
  datatype Point = Point(x: int, y: int, band: string, n: nat, snrSum: real)

  predicate Counted(r: Report) { !r.dxCluster && r.pixel.Some? }

  function BandOf(r: Report): string { if r.band == "" then "all" else r.band }

  function Mark(r: Report): Point
    requires Counted(r)
  {
    Point(r.pixel.value.0, r.pixel.value.1, BandOf(r), 1, r.snr)
  }

  // ── kernel sums ──

  /** What is asked of the field: a band, a vertex, a radius, and the kernel. */
  datatype Probe = Probe(band: string, vx: int, vy: int, radius: nat, weight: int -> real)

  function Dist2(p: Point, q: Probe): int { (p.x - q.vx) * (p.x - q.vx) + (p.y - q.vy) * (p.y - q.vy) }

  function Share(p: Point, q: Probe): real {
    if p.band == q.band && Dist2(p, q) <= q.radius * q.radius then q.weight(Dist2(p, q)) * p.n as real else 0.0
  }

  function Sum(pts: seq<Point>, q: Probe): real {
    if pts == [] then 0.0 else Sum(pts[..|pts| - 1], q) + Share(pts[|pts| - 1], q)
  }

  /** The estimate as it is meant: every counted report of the band within the radius, by the kernel. */
  function Estimate(reports: seq<Report>, q: Probe): real {
    if reports == [] then 0.0
    else
      var r := reports[|reports| - 1];
      Estimate(reports[..|reports| - 1], q) + (if Counted(r) then Share(Mark(r), q) else 0.0)
  }

  lemma {:induction false} SumConcat(a: seq<Point>, b: seq<Point>, q: Probe)
    ensures Sum(a + b, q) == Sum(a, q) + Sum(b, q)
  {
    if b == [] {
      assert a + b == a;
    } else {
      assert (a + b)[..|a + b| - 1] == a + b[..|b| - 1];
      SumConcat(a, b[..|b| - 1], q);
    }
  }

  // ── aggregation ──

  predicate SameSpot(p: Point, m: Point) { p.x == m.x && p.y == m.y && p.band == m.band }

  function Merge(p: Point, m: Point): Point { p.(n := p.n + m.n, snrSum := p.snrSum + m.snrSum) }

  /** Points in first-seen order; a further report of a known pixel and band joins its point. */
  function AddMark(pts: seq<Point>, m: Point): seq<Point> {
    if pts == [] then [m]
    else if SameSpot(pts[0], m) then [Merge(pts[0], m)] + pts[1..]
    else [pts[0]] + AddMark(pts[1..], m)
  }

  function Points(reports: seq<Report>): seq<Point> {
    if reports == [] then []
    else
      var r := reports[|reports| - 1];
      var rest := Points(reports[..|reports| - 1]);
      if Counted(r) then AddMark(rest, Mark(r)) else rest
  }

  lemma {:induction false} ShareMerges(p: Point, m: Point, q: Probe)
    requires SameSpot(p, m)
    ensures Share(Merge(p, m), q) == Share(p, q) + Share(m, q)
  {
    var w := q.weight(Dist2(p, q));
    assert Dist2(p, q) == Dist2(m, q) == Dist2(Merge(p, m), q);
    assert w * (p.n + m.n) as real == w * p.n as real + w * m.n as real;
  }

  lemma {:induction false} SumHead(pts: seq<Point>, q: Probe)
    requires pts != []
    ensures Sum(pts, q) == Share(pts[0], q) + Sum(pts[1..], q)
  {
    SumConcat([pts[0]], pts[1..], q);
    assert pts == [pts[0]] + pts[1..];
    assert [pts[0]][..0] == [];
    assert Sum([pts[0]], q) == Share(pts[0], q);
  }

  lemma {:induction false} AddMarkAdds(pts: seq<Point>, m: Point, q: Probe)
    ensures Sum(AddMark(pts, m), q) == Sum(pts, q) + Share(m, q)
  {
    var r := AddMark(pts, m);
    if pts == [] {
      assert r[..0] == [];
    } else {
      SumHead(pts, q);
      SumHead(r, q);
      if SameSpot(pts[0], m) {
        ShareMerges(pts[0], m, q);
        assert r[1..] == pts[1..];
      } else {
        AddMarkAdds(pts[1..], m, q);
        assert r[1..] == AddMark(pts[1..], m);
      }
    }
  }

  /** Aggregating loses nothing: the weighted points sum to the estimate over the single reports. */
  lemma {:induction false} AggregationFaithful(reports: seq<Report>, q: Probe)
    ensures Sum(Points(reports), q) == Estimate(reports, q)
  {
    if reports != [] {
      var n := |reports| - 1;
      AggregationFaithful(reports[..n], q);
      if Counted(reports[n]) {
        AddMarkAdds(Points(reports[..n]), Mark(reports[n]), q);
      }
    }
  }

  /** The reports of one band at one pixel, counted one by one. */
  function CountOf(reports: seq<Report>, x: int, y: int, band: string): int {
    if reports == [] then 0
    else
      var r := reports[|reports| - 1];
      CountOf(reports[..|reports| - 1], x, y, band)
      + if !r.dxCluster && r.pixel == Some((x, y)) && BandOf(r) == band then 1 else 0
  }

  function SnrOf(reports: seq<Report>, x: int, y: int, band: string): real {
    if reports == [] then 0.0
    else
      var r := reports[|reports| - 1];
      SnrOf(reports[..|reports| - 1], x, y, band)
      + if !r.dxCluster && r.pixel == Some((x, y)) && BandOf(r) == band then r.snr else 0.0
  }

  /** The points are about distinct pixels and bands. */
  ghost predicate OneEach(pts: seq<Point>) {
    forall i, j :: 0 <= i < j < |pts| ==> !SameSpot(pts[i], pts[j])
  }

  /** A mark joins the first point of its pixel and band, or comes last. */
  lemma {:induction false} AddMarkWhere(pts: seq<Point>, m: Point) returns (at: nat)
    ensures at <= |pts| && forall i :: 0 <= i < at ==> !SameSpot(pts[i], m)
    ensures at < |pts| ==> SameSpot(pts[at], m) && AddMark(pts, m) == pts[at := Merge(pts[at], m)]
    ensures at == |pts| ==> AddMark(pts, m) == pts + [m]
  {
    hide Merge;
    if pts == [] || SameSpot(pts[0], m) {
      at := 0;
    } else {
      var k := AddMarkWhere(pts[1..], m);
      at := k + 1;
      assert forall i :: 1 <= i < at ==> pts[i] == pts[1..][i - 1];
    }
  }

  ghost predicate Exact(p: Point, reports: seq<Report>) {
    && p.n == CountOf(reports, p.x, p.y, p.band) && p.n > 0
    && p.snrSum == SnrOf(reports, p.x, p.y, p.band)
  }

  lemma {:induction false} ExactMore(p: Point, reports: seq<Report>, r: Report)
    requires Exact(p, reports)
    ensures if Counted(r) && SameSpot(p, Mark(r)) then Exact(Merge(p, Mark(r)), reports + [r])
            else Exact(p, reports + [r])
  {
    assert (reports + [r])[..|reports|] == reports;
  }

  lemma {:induction false} ExactNew(reports: seq<Report>, r: Report)
    requires Counted(r)
    requires var m := Mark(r);
      CountOf(reports, m.x, m.y, m.band) == 0 && SnrOf(reports, m.x, m.y, m.band) == 0.0
    ensures Exact(Mark(r), reports + [r])
  {
    assert (reports + [r])[..|reports|] == reports;
  }

  /** A pixel and band without a point has no report. */
  ghost predicate NoneElsewhere(pts: seq<Point>, reports: seq<Report>) {
    forall x, y, band :: (forall i :: 0 <= i < |pts| ==> !(pts[i].x == x && pts[i].y == y && pts[i].band == band))
                         ==> CountOf(reports, x, y, band) == 0 && SnrOf(reports, x, y, band) == 0.0
  }

  lemma {:induction false} ElsewhereMore(pts: seq<Point>, more: seq<Point>, reports: seq<Report>, r: Report)
    requires NoneElsewhere(pts, reports) && |pts| <= |more|
    requires forall i :: 0 <= i < |pts| ==> SameSpot(more[i], pts[i])
    requires Counted(r) ==> exists i :: 0 <= i < |more| && SameSpot(more[i], Mark(r))
    ensures NoneElsewhere(more, reports + [r])
  {
    assert (reports + [r])[..|reports|] == reports;
    forall x, y, band | forall i :: 0 <= i < |more| ==> !(more[i].x == x && more[i].y == y && more[i].band == band)
      ensures CountOf(reports + [r], x, y, band) == 0 && SnrOf(reports + [r], x, y, band) == 0.0
    {
      forall i | 0 <= i < |pts| ensures !(pts[i].x == x && pts[i].y == y && pts[i].band == band) {
        assert SameSpot(more[i], pts[i]);
      }
    }
  }

  lemma {:induction false} AbsentSpot(pts: seq<Point>, reports: seq<Report>, m: Point)
    requires NoneElsewhere(pts, reports) && forall i :: 0 <= i < |pts| ==> !SameSpot(pts[i], m)
    ensures CountOf(reports, m.x, m.y, m.band) == 0 && SnrOf(reports, m.x, m.y, m.band) == 0.0
  {
  }

  lemma {:induction false} NothingElsewhere()
    ensures NoneElsewhere([], [])
  {
  }

  /**
   The points are the reports grouped: one point per pixel and band that has a report, with the number of
   its reports and the sum of their snr.
   */
  lemma {:induction false} PointsAreReports(reports: seq<Report>)
    ensures OneEach(Points(reports)) && NoneElsewhere(Points(reports), reports)
    ensures forall i :: 0 <= i < |Points(reports)| ==> Exact(Points(reports)[i], reports)
  {
    hide Exact;
    hide NoneElsewhere;
    hide Counted;
    if reports == [] {
      NothingElsewhere();
    } else {
      var n := |reports| - 1;
      var r, pts, more := reports[n], Points(reports[..n]), Points(reports);
      PointsAreReports(reports[..n]);
      assert reports == reports[..n] + [r];
      forall i | 0 <= i < |pts|
        ensures if Counted(r) && SameSpot(pts[i], Mark(r)) then Exact(Merge(pts[i], Mark(r)), reports)
                else Exact(pts[i], reports)
      {
        ExactMore(pts[i], reports[..n], r);
      }
      if Counted(r) {
        var m := Mark(r);
        var at := AddMarkWhere(pts, m);
        if at == |pts| {
          AbsentSpot(pts, reports[..n], m);
          ExactNew(reports[..n], r);
        }
        assert SameSpot(more[at], m);
        forall i | 0 <= i < |pts| ensures SameSpot(more[i], pts[i]) {
        }
      }
      ElsewhereMore(pts, more, reports[..n], r);
    }
  }

  method AddReport(pts: seq<Point>, m: Point) returns (r: seq<Point>)
    ensures r == AddMark(pts, m)
  {
    var i := 0;
    while i < |pts| && !SameSpot(pts[i], m)
      invariant 0 <= i <= |pts|
      invariant AddMark(pts, m) == pts[..i] + AddMark(pts[i..], m)
    {
      assert pts[i..][1..] == pts[i + 1..] && pts[..i + 1] == pts[..i] + [pts[i]];
      i := i + 1;
    }
    if i < |pts| {
      assert pts[i..][1..] == pts[i + 1..];
      r := pts[i := Merge(pts[i], m)];
      assert r == pts[..i] + ([Merge(pts[i], m)] + pts[i + 1..]);
    } else {
      r := pts + [m];
    }
  }

  /** The pixels' bounding box. */
  datatype Box = Box(minX: int, minY: int, maxX: int, maxY: int)

  predicate InBox(p: Point, b: Box) { b.minX <= p.x <= b.maxX && b.minY <= p.y <= b.maxY }

  lemma {:induction false} AddMarkInBox(pts: seq<Point>, m: Point, a: Box, b: Box)
    requires forall i :: 0 <= i < |pts| ==> InBox(pts[i], a)
    requires b.minX <= a.minX && b.minY <= a.minY && a.maxX <= b.maxX && a.maxY <= b.maxY && InBox(m, b)
    ensures forall i :: 0 <= i < |AddMark(pts, m)| ==> InBox(AddMark(pts, m)[i], b)
  {
    if pts != [] && !SameSpot(pts[0], m) {
      AddMarkInBox(pts[1..], m, a, b);
    }
  }

  /** Some point lies on each side of the box. */
  ghost predicate Tight(pts: seq<Point>, b: Box) {
    && (exists i :: 0 <= i < |pts| && pts[i].x == b.minX) && (exists i :: 0 <= i < |pts| && pts[i].y == b.minY)
    && (exists i :: 0 <= i < |pts| && pts[i].x == b.maxX) && (exists i :: 0 <= i < |pts| && pts[i].y == b.maxY)
  }

  /** Adding a mark keeps every pixel and adds its own. */
  lemma {:induction false} AddMarkPixels(pts: seq<Point>, m: Point) returns (at: nat)
    ensures var r := AddMark(pts, m);
      && |pts| <= |r| && at < |r| && r[at].x == m.x && r[at].y == m.y
      && forall i :: 0 <= i < |pts| ==> r[i].x == pts[i].x && r[i].y == pts[i].y
  {
    if pts == [] || SameSpot(pts[0], m) {
      at := 0;
    } else {
      var k := AddMarkPixels(pts[1..], m);
      at := k + 1;
      assert AddMark(pts, m)[at] == AddMark(pts[1..], m)[k];
    }
  }

  lemma {:induction false} FirstTight(m: Point)
    ensures Tight(AddMark([], m), Box(m.x, m.y, m.x, m.y))
  {
    assert AddMark([], m)[0] == m;
  }

  /** A side is where it was, or at the new mark. */
  lemma {:induction false} TightGrows(pts: seq<Point>, m: Point, b: Box)
    requires Tight(pts, b)
    ensures Tight(AddMark(pts, m), Box(Min(b.minX, m.x), Min(b.minY, m.y), Max(b.maxX, m.x), Max(b.maxY, m.y)))
  {
    var at := AddMarkPixels(pts, m);
    var r := AddMark(pts, m);
    var w :| 0 <= w < |pts| && pts[w].x == b.minX;
    var n :| 0 <= n < |pts| && pts[n].y == b.minY;
    var e :| 0 <= e < |pts| && pts[e].x == b.maxX;
    var s :| 0 <= s < |pts| && pts[s].y == b.maxY;
    assert r[w].x == b.minX && r[n].y == b.minY && r[e].x == b.maxX && r[s].y == b.maxY;
    assert r[at].x == m.x && r[at].y == m.y;
  }

  method Aggregate(reports: seq<Report>) returns (pts: seq<Point>, box: Box)
    ensures pts == Points(reports)
    ensures forall i :: 0 <= i < |pts| ==> InBox(pts[i], box)
    ensures pts != [] ==> Tight(pts, box)
  {
    hide Tight;
    pts, box := [], Box(0, 0, 0, 0);
    for i := 0 to |reports|
      invariant pts == Points(reports[..i])
      invariant forall k :: 0 <= k < |pts| ==> InBox(pts[k], box)
      invariant pts != [] ==> Tight(pts, box)
    {
      assert reports[..i + 1][..i] == reports[..i];
      if Counted(reports[i]) {
        var m := Mark(reports[i]);
        var grown := if pts == [] then Box(m.x, m.y, m.x, m.y)
                     else Box(Min(box.minX, m.x), Min(box.minY, m.y), Max(box.maxX, m.x), Max(box.maxY, m.y));
        AddMarkInBox(pts, m, if pts == [] then grown else box, grown);
        FirstTight(m);
        if pts != [] {
          TightGrows(pts, m, box);
        }
        pts := AddReport(pts, m);
        box := grown;
      }
    }
    assert reports[..|reports|] == reports;
  }

  // ── the bucket index ──

  type Cell = (int, int)

  function BucketOf(x: int, y: int, box: Box, size: int): Cell
    requires size > 0
  {
    ((x - box.minX) / size, (y - box.minY) / size)
  }

  function InBucket(pts: seq<Point>, box: Box, size: int, c: Cell): seq<Point>
    requires size > 0
  {
    if pts == [] then []
    else
      var p := pts[|pts| - 1];
      var rest := InBucket(pts[..|pts| - 1], box, size, c);
      if BucketOf(p.x, p.y, box, size) == c then rest + [p] else rest
  }

  function Lookup(buckets: map<Cell, seq<Point>>, c: Cell): seq<Point> {
    if c in buckets then buckets[c] else []
  }

  method BuildBuckets(pts: seq<Point>, box: Box, size: int) returns (buckets: map<Cell, seq<Point>>)
    requires size > 0
    ensures forall c :: Lookup(buckets, c) == InBucket(pts, box, size, c)
  {
    buckets := map[];
    for i := 0 to |pts|
      invariant forall c :: Lookup(buckets, c) == InBucket(pts[..i], box, size, c)
    {
      assert pts[..i + 1][..i] == pts[..i];
      var c := BucketOf(pts[i].x, pts[i].y, box, size);
      ghost var before := buckets;
      buckets := buckets[c := (if c in buckets then buckets[c] else []) + [pts[i]]];
      forall d ensures Lookup(buckets, d) == InBucket(pts[..i + 1], box, size, d) {
        assert Lookup(before, d) == InBucket(pts[..i], box, size, d);
      }
    }
    assert pts[..|pts|] == pts;
  }

  /** The `k`-th of the nine cells around `c`, row by row. */
  function Neighbour(c: Cell, k: int): Cell { (c.0 + k % 3 - 1, c.1 + k / 3 - 1) }

  /** The kernel sum over the first `k` of the nine buckets. */
  function NearSum(pts: seq<Point>, box: Box, size: int, c: Cell, k: nat, q: Probe): real
    requires size > 0
  {
    if k == 0 then 0.0
    else NearSum(pts, box, size, c, k - 1, q) + Sum(InBucket(pts, box, size, Neighbour(c, k - 1)), q)
  }

  /** A point is counted in the sum over `k` buckets if its bucket is one of them. */
  predicate AmongFirst(b: Cell, c: Cell, k: int) {
    -1 <= b.0 - c.0 <= 1 && -1 <= b.1 - c.1 <= 1 && 3 * (b.1 - c.1 + 1) + (b.0 - c.0 + 1) < k
  }

  lemma {:induction false} NeighbourIndex(b: Cell, c: Cell, k: nat)
    requires k < 9
    ensures b == Neighbour(c, k) <==>
      -1 <= b.0 - c.0 <= 1 && -1 <= b.1 - c.1 <= 1 && 3 * (b.1 - c.1 + 1) + (b.0 - c.0 + 1) == k
  {
  }

  lemma {:induction false} NearSumSnoc(pts: seq<Point>, p: Point, box: Box, size: int, c: Cell, k: nat, q: Probe)
    requires size > 0 && k <= 9
    ensures NearSum(pts + [p], box, size, c, k, q)
         == NearSum(pts, box, size, c, k, q)
            + (if AmongFirst(BucketOf(p.x, p.y, box, size), c, k) then Share(p, q) else 0.0)
  {
    if k > 0 {
      var b, d := BucketOf(p.x, p.y, box, size), Neighbour(c, k - 1);
      NearSumSnoc(pts, p, box, size, c, k - 1, q);
      NeighbourIndex(b, c, k - 1);
      assert (pts + [p])[..|pts|] == pts;
      var old_ := InBucket(pts, box, size, d);
      assert (old_ + [p])[..|old_|] == old_;
    }
  }

  lemma {:induction false} NearSumEmpty(box: Box, size: int, c: Cell, k: nat, q: Probe)
    requires size > 0
    ensures NearSum([], box, size, c, k, q) == 0.0
  {
    if k > 0 {
      NearSumEmpty(box, size, c, k - 1, q);
    }
  }

  lemma {:induction false} SquareGrows(a: int, r: nat)
    ensures a > r || -a > r ==> a * a > r * r
  {
    if a > r {
      assert a * a > r * r;
    } else if -a > r {
      assert (-a) * (-a) > r * r;
    }
  }

  lemma {:induction false} SquaresBound(a: int, b: int, r: nat)
    requires a * a + b * b <= r * r
    ensures a <= r && -a <= r && b <= r && -b <= r
  {
    assert a * a >= 0 && b * b >= 0;
    SquareGrows(a, r);
    SquareGrows(b, r);
  }

  lemma {:induction false} Scaled(d: int, a: int, b: int)
    requires d > 0
    ensures a <= b ==> d * a <= d * b
  {
  }

  lemma {:induction false} QuotientStep(a: int, b: int, size: int)
    requires size > 0 && -size <= a - b <= size
    ensures -1 <= a / size - b / size <= 1
  {
    assert a == size * (a / size) + a % size && b == size * (b / size) + b % size;
    var d := a / size - b / size;
    assert a - b == size * d + (a % size - b % size);
    Scaled(size, 2, d);
    Scaled(size, d, -2);
  }

  /** What lies within the radius lies in one of the nine buckets. */
  lemma {:induction false} NearIsNeighbour(p: Point, box: Box, size: int, q: Probe)
    requires size > 0 && q.radius <= size && Dist2(p, q) <= q.radius * q.radius
    ensures AmongFirst(BucketOf(p.x, p.y, box, size), BucketOf(q.vx, q.vy, box, size), 9)
  {
    SquaresBound(p.x - q.vx, p.y - q.vy, q.radius);
    QuotientStep(p.x - box.minX, q.vx - box.minX, size);
    QuotientStep(p.y - box.minY, q.vy - box.minY, size);
  }

  /** The nine buckets hold everything the kernel needs: their sum is the sum over all points. */
  lemma {:induction false} NineBucketsSuffice(pts: seq<Point>, box: Box, size: int, q: Probe)
    requires size > 0 && q.radius <= size
    ensures NearSum(pts, box, size, BucketOf(q.vx, q.vy, box, size), 9, q) == Sum(pts, q)
  {
    var c := BucketOf(q.vx, q.vy, box, size);
    if pts == [] {
      NearSumEmpty(box, size, c, 9, q);
    } else {
      var n := |pts| - 1;
      var p := pts[n];
      assert pts == pts[..n] + [p];
      NineBucketsSuffice(pts[..n], box, size, q);
      NearSumSnoc(pts[..n], p, box, size, c, 9, q);
      if Dist2(p, q) <= q.radius * q.radius {
        NearIsNeighbour(p, box, size, q);
      }
    }
  }

  method AddBucket(nb: seq<Point>, q: Probe) returns (w: real)
    ensures w == Sum(nb, q)
  {
    hide Dist2;
    w := 0.0;
    for i := 0 to |nb|
      invariant w == Sum(nb[..i], q)
    {
      assert nb[..i + 1][..i] == nb[..i];
      var p := nb[i];
      if p.band != q.band {
        continue;
      }
      var d2 := Dist2(p, q);
      if d2 > q.radius * q.radius {
        continue;
      }
      w := w + q.weight(d2) * p.n as real;
    }
    assert nb[..|nb|] == nb;
  }

  /** The kernel sum at one vertex, from the nine buckets around it. */
  method KernelSum(ghost pts: seq<Point>, buckets: map<Cell, seq<Point>>, box: Box, size: int, q: Probe)
    returns (wsum: real)
    requires size > 0 && q.radius <= size
    requires forall c :: Lookup(buckets, c) == InBucket(pts, box, size, c)
    ensures wsum == Sum(pts, q)
  {
    hide BucketOf;
    hide InBucket;
    hide Lookup;
    hide Sum;
    var c := BucketOf(q.vx, q.vy, box, size);
    wsum := 0.0;
    for dby := -1 to 2
      invariant wsum == NearSum(pts, box, size, c, 3 * (dby + 1), q)
    {
      for dbx := -1 to 2
        invariant wsum == NearSum(pts, box, size, c, 3 * (dby + 1) + (dbx + 1), q)
      {
        ghost var k := 3 * (dby + 1) + (dbx + 1);
        assert Neighbour(c, k) == (c.0 + dbx, c.1 + dby);
        var added := AddBucket(Lookup(buckets, (c.0 + dbx, c.1 + dby)), q);
        wsum := wsum + added;
      }
    }
    NineBucketsSuffice(pts, box, size, q);
  }

  // ── the sample grid ──

  function CeilDiv(a: int, d: int): int
    requires d > 0
  {
    (a + d - 1) / d
  }

  /** Math.round of a quotient: the nearest integer, halves up. */
  function RoundDiv(a: int, d: int): int
    requires d > 0
  {
    (2 * a + d) / (2 * d)
  }

  datatype Grid = Grid(cols: int, rows: int, step: int, x0: int, y0: int)

  function GridFor(box: Box, step: int, radius: nat): Grid
    requires step > 0
  {
    var x0, y0 := box.minX - radius, box.minY - radius;
    Grid(Max(2, CeilDiv(box.maxX + radius - x0, step) + 1), Max(2, CeilDiv(box.maxY + radius - y0, step) + 1),
         step, x0, y0)
  }

  lemma {:induction false} CeilDivReaches(a: int, d: int)
    requires d > 0
    ensures a <= d * CeilDiv(a, d)
  {
    assert a + d - 1 == d * CeilDiv(a, d) + (a + d - 1) % d;
  }

  lemma {:induction false} RoundDivInside(a: int, d: int, n: int)
    requires d > 0 && 0 <= a && 2 * a + d <= 2 * (d * n)
    ensures 0 <= RoundDiv(a, d) <= n
  {
    var r := RoundDiv(a, d);
    assert 2 * a + d == (2 * d) * r + (2 * a + d) % (2 * d);
    Scaled(2 * d, n + 1, r);
    assert (2 * d) * (n + 1) == 2 * (d * n) + 2 * d;
    Scaled(2 * d, r, -1);
  }

  /** One axis of the dot pass: the nearest vertex to a point of the box is a vertex of the grid. */
  lemma {:induction false} NearestVertex(x: int, min: int, max: int, step: int, radius: nat)
    requires step > 0 && min <= x <= max && step <= 2 * radius
    ensures 0 <= RoundDiv(x - (min - radius), step) < Max(2, CeilDiv(max + radius - (min - radius), step) + 1)
  {
    CeilDivReaches(max + radius - (min - radius), step);
    RoundDivInside(x - (min - radius), step, CeilDiv(max + radius - (min - radius), step));
  }

  lemma {:induction false} FlatIndex(i: int, j: int, cols: int, rows: int)
    requires 0 <= i < cols && 0 <= j < rows
    ensures 0 <= j * cols + i < cols * rows
  {
    assert j * cols <= (rows - 1) * cols;
    assert 0 <= j * cols;
    assert (rows - 1) * cols + cols == cols * rows;
  }

  /** The dot pass reads the density at the vertex nearest to a point, always inside the array. */
  lemma {:induction false} DotPassInside(p: Point, box: Box, step: int, radius: nat)
    requires step > 0 && radius == 3 * step && InBox(p, box)
    ensures var g := GridFor(box, step, radius);
      var gi, gj := RoundDiv(p.x - g.x0, step), RoundDiv(p.y - g.y0, step);
      0 <= gi < g.cols && 0 <= gj < g.rows && 0 <= gj * g.cols + gi < g.cols * g.rows
  {
    var g := GridFor(box, step, radius);
    NearestVertex(p.x, box.minX, box.maxX, step, radius);
    NearestVertex(p.y, box.minY, box.maxY, step, radius);
    FlatIndex(RoundDiv(p.x - g.x0, step), RoundDiv(p.y - g.y0, step), g.cols, g.rows);
  }

  function ProbeAt(band: string, g: Grid, i: int, j: int, radius: nat, weight: int -> real): Probe {
    Probe(band, g.x0 + i * g.step, g.y0 + j * g.step, radius, weight)
  }

  /** Every vertex in the first `rows_` rows, and the first `n` of the next, holds its kernel sum. */
  ghost predicate Filled(
    density: seq<real>, pts: seq<Point>, band: string, g: Grid, radius: nat, weight: int -> real, j: int, n: int)
    requires g.cols > 0
  {
    forall v :: 0 <= v < |density| && v < j * g.cols + n ==>
      density[v] == Sum(pts, ProbeAt(band, g, v % g.cols, v / g.cols, radius, weight))
  }

  lemma {:induction false} DivModOf(i: int, j: int, cols: int)
    requires 0 <= i < cols
    ensures (j * cols + i) % cols == i && (j * cols + i) / cols == j
  {
    var v := j * cols + i;
    assert v == cols * (v / cols) + v % cols;
    var d := v / cols - j;
    assert cols * d == i - v % cols;
    Scaled(cols, 1, d);
    Scaled(cols, d, -1);
  }

  method BandDensity(
    ghost pts: seq<Point>, buckets: map<Cell, seq<Point>>, box: Box, size: int, band: string, g: Grid, radius: nat,
    weight: int -> real) returns (density: array<real>)
    requires size > 0 && radius <= size && g.cols > 0 && g.rows > 0
    requires forall c :: Lookup(buckets, c) == InBucket(pts, box, size, c)
    ensures fresh(density) && density.Length == g.cols * g.rows
    ensures Filled(density[..], pts, band, g, radius, weight, g.rows, 0)
  {
    FlatIndex(0, 0, g.cols, g.rows);
    density := new real[g.cols * g.rows];
    for j := 0 to g.rows
      invariant Filled(density[..], pts, band, g, radius, weight, j, 0)
    {
      for i := 0 to g.cols
        invariant Filled(density[..], pts, band, g, radius, weight, j, i)
      {
        var wsum := KernelSum(pts, buckets, box, size, ProbeAt(band, g, i, j, radius, weight));
        FlatIndex(i, j, g.cols, g.rows);
        DivModOf(i, j, g.cols);
        density[j * g.cols + i] := wsum;
      }
      assert j * g.cols + g.cols == (j + 1) * g.cols;
    }
  }

  datatype Field = Field(grid: Grid, box: Box, densityByBand: map<string, seq<real>>, pts: seq<Point>)

  function BandsOf(pts: seq<Point>): set<string> { set p | p in pts :: p.band }

  /** The field of the reports: their points, the grid around the points' box, a full array per band. */
  ghost predicate FieldOf(f: Field, reports: seq<Report>, step: int, radius: nat, weight: int -> real)
    requires step > 0
  {
    && f.pts == Points(reports) && f.grid == GridFor(f.box, step, radius)
    && (forall p :: p in f.pts ==> InBox(p, f.box)) && Tight(f.pts, f.box)
    && f.densityByBand.Keys == BandsOf(f.pts)
    && (forall band :: band in f.densityByBand ==>
          |f.densityByBand[band]| == f.grid.cols * f.grid.rows
          && Filled(f.densityByBand[band], f.pts, band, f.grid, radius, weight, f.grid.rows, 0))
  }

  method BuildAzimuthDensityField(reports: seq<Report>, step: int, radius: nat, weight: int -> real)
    returns (field: Option<Field>)
    requires step > 0
    ensures field.None? <==> Points(reports) == []
    ensures field.Some? ==> FieldOf(field.value, reports, step, radius, weight)
  {
    hide Tight;
    var pts, box := Aggregate(reports);
    if pts == [] {
      return None;
    }
    var size := Max(1, radius);
    var buckets := BuildBuckets(pts, box, size);
    var g := GridFor(box, step, radius);
    var active := BandsOf(pts);
    var todo, densityByBand: map<string, seq<real>> := active, map[];
    while todo != {}
      invariant todo <= active && densityByBand.Keys == active - todo
      invariant forall band :: band in densityByBand ==>
        |densityByBand[band]| == g.cols * g.rows
        && Filled(densityByBand[band], pts, band, g, radius, weight, g.rows, 0)
      decreases todo
    {
      var band :| band in todo;
      var density := BandDensity(pts, buckets, box, size, band, g, radius, weight);
      densityByBand := densityByBand[band := density[..]];
      todo := todo - {band};
    }
    field := Some(Field(g, box, densityByBand, pts));
  }

  // ── what the stored values mean ──

  /** A report's weight at the pixel (x, y): by the kernel if it is one of the band within the radius. */
  function WeightAt(r: Report, band: string, x: int, y: int, radius: nat, weight: int -> real): real {
    if r.dxCluster || r.pixel.None? || (if r.band == "" then "all" else r.band) != band then 0.0
    else
      var dx, dy := r.pixel.value.0 - x, r.pixel.value.1 - y;
      if dx * dx + dy * dy > radius * radius then 0.0 else weight(dx * dx + dy * dy)
  }

  /** The estimate at the pixel (x, y): the weights of all reports. */
  function EstimateAt(reports: seq<Report>, band: string, x: int, y: int, radius: nat, weight: int -> real): real {
    if reports == [] then 0.0
    else
      WeightAt(reports[0], band, x, y, radius, weight) + EstimateAt(reports[1..], band, x, y, radius, weight)
  }

  lemma {:induction false} EstimateAtMore(
    reports: seq<Report>, r: Report, band: string, x: int, y: int, radius: nat, weight: int -> real)
    ensures EstimateAt(reports + [r], band, x, y, radius, weight)
      == EstimateAt(reports, band, x, y, radius, weight) + WeightAt(r, band, x, y, radius, weight)
  {
    hide WeightAt;
    if reports == [] {
      assert (reports + [r])[1..] == [];
    } else {
      assert (reports + [r])[1..] == reports[1..] + [r];
      EstimateAtMore(reports[1..], r, band, x, y, radius, weight);
    }
  }

  lemma {:induction false} ShareIsWeight(r: Report, band: string, x: int, y: int, radius: nat, weight: int -> real)
    ensures (if Counted(r) then Share(Mark(r), Probe(band, x, y, radius, weight)) else 0.0)
      == WeightAt(r, band, x, y, radius, weight)
  {
    if Counted(r) {
      var m, q := Mark(r), Probe(band, x, y, radius, weight);
      assert q.weight(Dist2(m, q)) * m.n as real == q.weight(Dist2(m, q));
    }
  }

  lemma {:induction false} EstimateIsSum(
    reports: seq<Report>, band: string, x: int, y: int, radius: nat, weight: int -> real)
    ensures Estimate(reports, Probe(band, x, y, radius, weight)) == EstimateAt(reports, band, x, y, radius, weight)
  {
    hide WeightAt;
    hide Share;
    hide Counted;
    if reports != [] {
      var n := |reports| - 1;
      EstimateIsSum(reports[..n], band, x, y, radius, weight);
      assert reports == reports[..n] + [reports[n]];
      EstimateAtMore(reports[..n], reports[n], band, x, y, radius, weight);
      ShareIsWeight(reports[n], band, x, y, radius, weight);
    }
  }

  /**
   The fast field is the estimate it stands for: the value stored for a band in column i of row j is the
   sum over all single reports of the band within the radius of the pixel i steps right of and j steps
   below the grid's corner, which lies a radius left of and above the reports.
   */
  lemma {:induction false} FieldIsEstimate(
    f: Field, reports: seq<Report>, step: int, band: string, radius: nat, weight: int -> real, i: int, j: int)
    requires step > 0 && FieldOf(f, reports, step, radius, weight)
    requires band in f.densityByBand && 0 <= i < f.grid.cols && 0 <= j < f.grid.rows
    ensures 0 <= j * f.grid.cols + i < |f.densityByBand[band]|
    ensures f.densityByBand[band][j * f.grid.cols + i]
      == EstimateAt(reports, band, f.box.minX - radius + i * step, f.box.minY - radius + j * step, radius, weight)
  {
    hide Sum;
    hide Tight;
    var g := f.grid;
    FlatIndex(i, j, g.cols, g.rows);
    DivModOf(i, j, g.cols);
    assert g.cols * g.rows == g.rows * g.cols + 0;
    AggregationFaithful(reports, ProbeAt(band, g, i, j, radius, weight));
    EstimateIsSum(reports, band, g.x0 + i * step, g.y0 + j * step, radius, weight);
  }

  lemma {:induction false} RoundDivNearest(a: int, d: int)
    requires d > 0
    ensures -d <= 2 * (a - RoundDiv(a, d) * d) < d
  {
    var r := RoundDiv(a, d);
    assert 2 * a + d == (2 * d) * r + (2 * a + d) % (2 * d);
    assert (2 * d) * r == 2 * (r * d);
  }

  /**
   The dot pass reads, for a point of the field, the estimate at the vertex nearest to it, at most half a
   step away each way, and the smaller one of two equally near is not taken.
   */
  lemma {:induction false} DotReadsNearest(
    f: Field, reports: seq<Report>, step: int, radius: nat, weight: int -> real, p: Point)
    requires step > 0 && radius == 3 * step && FieldOf(f, reports, step, radius, weight) && p in f.pts
    ensures var gi, gj := RoundDiv(p.x - f.grid.x0, f.grid.step), RoundDiv(p.y - f.grid.y0, f.grid.step);
      var vx, vy := f.box.minX - radius + gi * step, f.box.minY - radius + gj * step;
      && p.band in f.densityByBand && 0 <= gj * f.grid.cols + gi < |f.densityByBand[p.band]|
      && f.densityByBand[p.band][gj * f.grid.cols + gi] == EstimateAt(reports, p.band, vx, vy, radius, weight)
      && -step <= 2 * (p.x - vx) < step && -step <= 2 * (p.y - vy) < step
  {
    hide Filled;
    hide EstimateAt;
    hide RoundDiv;
    hide Tight;
    var g := f.grid;
    DotPassInside(p, f.box, step, radius);
    RoundDivNearest(p.x - g.x0, step);
    RoundDivNearest(p.y - g.y0, step);
    FieldIsEstimate(f, reports, step, p.band, radius, weight, RoundDiv(p.x - g.x0, step), RoundDiv(p.y - g.y0, step));
  }

  // ── the grid is large enough ──

  lemma {:induction false} CeilDivMinimal(a: int, d: int)
    requires d > 0
    ensures a <= d * CeilDiv(a, d) < a + d
  {
    assert a + d - 1 == d * CeilDiv(a, d) + (a + d - 1) % d;
  }

  /** One axis of the grid spans a radius on both sides of the points, and less than a step more beyond two lines. */
  lemma {:induction false} AxisSpans(min: int, max: int, step: int, radius: nat)
    requires step > 0
    ensures var n := Max(2, CeilDiv(max + radius - (min - radius), step) + 1);
      && max + radius <= min - radius + (n - 1) * step
      && (n > 2 ==> min - radius + (n - 1) * step < max + radius + step)
  {
    var a := max + radius - (min - radius);
    CeilDivMinimal(a, step);
    var c := CeilDiv(a, step);
    assert step * c == c * step;
    Scaled(step, c, 1);
  }

  lemma {:induction false} FarSquares(a: int, b: int, r: nat)
    requires a > r || -a > r || b > r || -b > r
    ensures a * a + b * b > r * r
  {
    SquareGrows(a, r);
    SquareGrows(b, r);
    assert a * a >= 0 && b * b >= 0;
  }

  lemma {:induction false} FarWeighsNothing(p: Point, q: Probe)
    requires q.vx < p.x - q.radius || p.x + q.radius < q.vx || q.vy < p.y - q.radius || p.y + q.radius < q.vy
    ensures Share(p, q) == 0.0
  {
    FarSquares(p.x - q.vx, p.y - q.vy, q.radius);
  }

  lemma {:induction false} FarSum(pts: seq<Point>, q: Probe)
    requires forall i :: 0 <= i < |pts| ==>
      || q.vx < pts[i].x - q.radius || pts[i].x + q.radius < q.vx
      || q.vy < pts[i].y - q.radius || pts[i].y + q.radius < q.vy
    ensures Sum(pts, q) == 0.0
  {
    hide Share;
    if pts != [] {
      FarSum(pts[..|pts| - 1], q);
      FarWeighsNothing(pts[|pts| - 1], q);
    }
  }

  /** Outside the grid the estimate is nothing: the field loses no part of it. */
  lemma {:induction false} GridHoldsAll(
    f: Field, reports: seq<Report>, step: int, radius: nat, weight: int -> real, band: string, x: int, y: int)
    requires step > 0 && FieldOf(f, reports, step, radius, weight)
    requires var g := f.grid; !(g.x0 <= x <= g.x0 + (g.cols - 1) * step && g.y0 <= y <= g.y0 + (g.rows - 1) * step)
    ensures EstimateAt(reports, band, x, y, radius, weight) == 0.0
  {
    hide Sum;
    hide Tight;
    hide EstimateAt;
    var q := Probe(band, x, y, radius, weight);
    AxisSpans(f.box.minX, f.box.maxX, step, radius);
    AxisSpans(f.box.minY, f.box.maxY, step, radius);
    forall i | 0 <= i < |f.pts|
      ensures x < f.pts[i].x - radius || f.pts[i].x + radius < x || y < f.pts[i].y - radius || f.pts[i].y + radius < y
    {
      assert f.pts[i] in f.pts && InBox(f.pts[i], f.box);
    }
    FarSum(f.pts, q);
    AggregationFaithful(reports, q);
    EstimateIsSum(reports, band, x, y, radius, weight);
  }
}
