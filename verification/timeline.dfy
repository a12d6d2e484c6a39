/** The timeline's arithmetic over chunks, its moment slice, and its bundle cache. */
module Timeline {
  import opened Basics
  import opened Spots
  import opened SessionRings
  import opened RingLaws
  import opened StreamFilters

  const MOMENT_WINDOW_SECONDS := 900
  const SCRUB_SNAP_SECONDS := 300
  const CHUNK_SECONDS := 3600
  const BUNDLE_CACHE_MAX := 4

  // ── chunks ──

  /** The nearest 5-minute boundary, halves up, as Math.round does. */
  function SnapToScrub(t: real): (v: int)
    ensures v % SCRUB_SNAP_SECONDS == 0
    ensures v as real - 150.0 <= t < v as real + 150.0
  {
    (t / 300.0 + 0.5).Floor * SCRUB_SNAP_SECONDS
  }

  function HourOf(t: int): int { t / CHUNK_SECONDS * CHUNK_SECONDS }

  datatype Chunk = Chunk(t0: int, t1: int)

  function ChunkBoundsFor(t: real, rangeT0: int, rangeT1: int): Chunk {
    var chunkT0 := Max(HourOf(SnapToScrub(t)), rangeT0);
    var chunkT1 := Min(chunkT0 + CHUNK_SECONDS, rangeT1);
    Chunk(chunkT0, if chunkT1 <= chunkT0 then chunkT0 + 1 else chunkT1)
  }

  /**
   Every chunk has positive width, an hour at most, starts in the hour of the snapped time or with the
   range, ends with the range at the latest unless it is a single second, and contains the snapped time
   when that lies in the range.
   */
  lemma {:induction false} ChunkHoldsSnapped(t: real, rangeT0: int, rangeT1: int)
    ensures var c, s := ChunkBoundsFor(t, rangeT0, rangeT1), SnapToScrub(t);
      && c.t0 < c.t1 <= c.t0 + 3600 && (c.t1 <= rangeT1 || c.t1 == c.t0 + 1)
      && (c.t0 == rangeT0 || (rangeT0 < c.t0 <= s < c.t0 + 3600 && c.t0 % 3600 == 0))
      && (rangeT0 <= s <= rangeT1 ==> c.t0 <= s <= c.t1)
  {
  }

  lemma {:induction false} SnapInHour(t: real)
    ensures var h := HourOf(t.Floor);
      HourOf(SnapToScrub(t)) == if t - h as real < 3450.0 then h else h + CHUNK_SECONDS
  {
    var s, h := SnapToScrub(t), HourOf(t.Floor);
    var k := t.Floor / CHUNK_SECONDS;
    var q := s / SCRUB_SNAP_SECONDS;
    assert h == 12 * SCRUB_SNAP_SECONDS * k && s == SCRUB_SNAP_SECONDS * q;
    if t - h as real < 3450.0 {
      assert 12 * k <= q < 12 * k + 12;
    } else {
      assert q == 12 * k + 12;
    }
  }

  /**
   The playhead itself is in the chunk made for it unless it sits in the last two and a half minutes
   of an hour: from there it snaps forward into the next one.
   */
  lemma {:induction false} ChunkHoldsPlayhead(t: real, rangeT0: int, rangeT1: int)
    requires rangeT0 as real <= t <= rangeT1 as real
    ensures var c := ChunkBoundsFor(t, rangeT0, rangeT1);
      c.t0 as real <= t <= c.t1 as real <==> t - HourOf(t.Floor) as real < 3450.0
  {
    var s, h := SnapToScrub(t), HourOf(t.Floor);
    assert h <= t.Floor < h + CHUNK_SECONDS;
    SnapInHour(t);
  }

  lemma {:induction false} PlayheadMissed()
    ensures ChunkBoundsFor(3500.0, 0, 7200) == Chunk(3600, 7200)
  {
    SnapInHour(3500.0);
  }

  function NextChunk(c: Chunk, rangeT0: int, rangeT1: int): Chunk {
    ChunkBoundsFor(c.t1 as real, rangeT0, rangeT1)
  }

  /** `c` is the chunk of some time in the range. */
  ghost predicate IsChunk(c: Chunk, rangeT0: int, rangeT1: int) {
    exists t: real :: rangeT0 as real <= t <= rangeT1 as real && c == ChunkBoundsFor(t, rangeT0, rangeT1)
  }

  lemma {:induction false} SnapWhole(t: int)
    ensures HourOf(SnapToScrub(t as real)) == if t % CHUNK_SECONDS < 3450 then HourOf(t) else HourOf(t) + CHUNK_SECONDS
  {
    SnapInHour(t as real);
  }

  lemma {:induction false} HourIsWhole(t: int)
    ensures HourOf(t) % CHUNK_SECONDS == 0
  {
  }

  lemma {:induction false} OneHourOn(t: int)
    ensures (t + CHUNK_SECONDS) % CHUNK_SECONDS == t % CHUNK_SECONDS
  {
  }

  /** A chunk that ends inside the range is an hour long and ends on the hour or one hour past the range start. */
  lemma {:induction false} ChunkShape(c: Chunk, rangeT0: int, rangeT1: int)
    requires IsChunk(c, rangeT0, rangeT1) && c.t1 < rangeT1
    ensures c.t1 == c.t0 + CHUNK_SECONDS && rangeT0 <= c.t0
    ensures c.t0 % CHUNK_SECONDS == 0 || c.t0 == rangeT0
    ensures c.t1 % CHUNK_SECONDS == c.t0 % CHUNK_SECONDS
  {
    var t: real :| rangeT0 as real <= t <= rangeT1 as real && c == ChunkBoundsFor(t, rangeT0, rangeT1);
    hide SnapToScrub;
    OneHourOn(c.t0);
    HourIsWhole(SnapToScrub(t));
  }

  lemma {:induction false} HourMonotone(a: int, b: int)
    requires a <= b
    ensures HourOf(a) <= HourOf(b) && HourOf(a) + a % CHUNK_SECONDS == a
    ensures HourOf(a) < HourOf(b) ==> HourOf(a) + CHUNK_SECONDS <= HourOf(b)
  {
  }

  /**
   A chunk that starts at the range start starts in the first 57.5 minutes of an hour: from a range start
   later than that every time of the range snaps into the next hour or a later one.
   */
  lemma {:induction false} StartsBeforeSnap(c: Chunk, rangeT0: int, rangeT1: int)
    requires IsChunk(c, rangeT0, rangeT1)
    ensures c.t0 == rangeT0 ==> rangeT0 % CHUNK_SECONDS < 3450
  {
    var t: real :| rangeT0 as real <= t <= rangeT1 as real && c == ChunkBoundsFor(t, rangeT0, rangeT1);
    SnapInHour(t);
    HourMonotone(rangeT0, t.Floor);
  }

  /** Asking for the chunk at a chunk's end: it starts and ends later, and starts on or before that end. */
  lemma {:induction false} WalkStep(c: Chunk, rangeT0: int, rangeT1: int)
    requires IsChunk(c, rangeT0, rangeT1) && c.t1 < rangeT1
    ensures var d := NextChunk(c, rangeT0, rangeT1);
      IsChunk(d, rangeT0, rangeT1) && c.t0 < d.t0 <= c.t1 < d.t1
  {
    ChunkShape(c, rangeT0, rangeT1);
    StartsBeforeSnap(c, rangeT0, rangeT1);
    SnapWhole(c.t1);
    assert rangeT0 as real <= c.t1 as real <= rangeT1 as real;
  }

  /** The chunk walk: from `c` on, each time the chunk at the previous end. */
  ghost function Walk(c: Chunk, rangeT0: int, rangeT1: int): seq<Chunk>
    requires IsChunk(c, rangeT0, rangeT1)
    decreases rangeT1 - c.t1
  {
    if c.t1 >= rangeT1 then [c]
    else
      WalkStep(c, rangeT0, rangeT1);
      [c] + Walk(NextChunk(c, rangeT0, rangeT1), rangeT0, rangeT1)
  }

  /** The walk is finite, its ends strictly increase, it reaches the end of the range, and it leaves no hole. */
  lemma {:induction false} WalkReachesEnd(c: Chunk, rangeT0: int, rangeT1: int)
    requires IsChunk(c, rangeT0, rangeT1)
    ensures var w := Walk(c, rangeT0, rangeT1);
      && w[0] == c && w[|w| - 1].t1 >= rangeT1
      && (forall i :: 0 < i < |w| ==> c.t0 < w[i].t0 <= w[i - 1].t1 < w[i].t1)
    decreases rangeT1 - c.t1
  {
    if c.t1 < rangeT1 {
      WalkStep(c, rangeT0, rangeT1);
      var d := NextChunk(c, rangeT0, rangeT1);
      var rest := Walk(d, rangeT0, rangeT1);
      var w := Walk(c, rangeT0, rangeT1);
      WalkReachesEnd(d, rangeT0, rangeT1);
      assert w == [c] + rest;
      hide Walk;
      hide NextChunk;
      hide IsChunk;
      forall i | 0 < i < |w| ensures c.t0 < w[i].t0 <= w[i - 1].t1 < w[i].t1 {
        assert w[i] == rest[i - 1];
      }
    }
  }

  /** Some chunk holds the time. */
  ghost predicate Holding(w: seq<Chunk>, t: real) {
    exists i :: 0 <= i < |w| && w[i].t0 as real <= t <= w[i].t1 as real
  }

  ghost predicate HoldingAll(w: seq<Chunk>, t0: int, t1: int) {
    forall t: real :: t0 as real <= t <= t1 as real ==> Holding(w, t)
  }

  ghost predicate Seamless(w: seq<Chunk>) {
    forall i :: 0 < i < |w| ==> w[i].t0 <= w[i - 1].t1
  }

  lemma {:induction false} SeamlessHolds(w: seq<Chunk>, t: real)
    requires w != [] && Seamless(w) && w[0].t0 as real <= t <= w[|w| - 1].t1 as real
    ensures Holding(w, t)
  {
    var n := |w| - 1;
    if w[n].t0 as real <= t {
      assert w[n].t0 as real <= t <= w[n].t1 as real;
    } else {
      SeamlessHolds(w[..n], t);
      var i :| 0 <= i < n && w[..n][i].t0 as real <= t <= w[..n][i].t1 as real;
      assert w[i] == w[..n][i];
    }
  }

  /** From any chunk on the walk holds every time up to the end of the range. */
  lemma {:induction false} WalkHolds(c: Chunk, rangeT0: int, rangeT1: int, t: real)
    requires IsChunk(c, rangeT0, rangeT1) && c.t0 as real <= t <= rangeT1 as real
    ensures Holding(Walk(c, rangeT0, rangeT1), t)
  {
    WalkReachesEnd(c, rangeT0, rangeT1);
    SeamlessHolds(Walk(c, rangeT0, rangeT1), t);
  }

  lemma {:induction false} StartsWalk(c: Chunk, rangeT0: int, rangeT1: int, t: real)
    requires IsChunk(c, rangeT0, rangeT1) && Holding(Walk(c, rangeT0, rangeT1), t)
    ensures c.t0 as real <= t
  {
    WalkReachesEnd(c, rangeT0, rangeT1);
  }

  /**
   The walk from the chunk made for the start of the range holds the whole range exactly when the range
   starts in the first 57.5 minutes of an hour; else it starts late, by at most 150 seconds.
   */
  lemma {:induction false} WalkFromStart(rangeT0: int, rangeT1: int)
    requires rangeT0 <= rangeT1
    ensures var c := ChunkBoundsFor(rangeT0 as real, rangeT0, rangeT1);
      && IsChunk(c, rangeT0, rangeT1) && rangeT0 <= c.t0 <= rangeT0 + 150
      && (HoldingAll(Walk(c, rangeT0, rangeT1), rangeT0, rangeT1) <==> rangeT0 % CHUNK_SECONDS < 3450)
  {
    var c := ChunkBoundsFor(rangeT0 as real, rangeT0, rangeT1);
    assert rangeT0 as real <= rangeT0 as real <= rangeT1 as real;
    SnapWhole(rangeT0);
    HourMonotone(rangeT0, rangeT0);
    if rangeT0 % CHUNK_SECONDS < 3450 {
      forall t: real | rangeT0 as real <= t <= rangeT1 as real ensures Holding(Walk(c, rangeT0, rangeT1), t) {
        WalkHolds(c, rangeT0, rangeT1, t);
      }
    } else if HoldingAll(Walk(c, rangeT0, rangeT1), rangeT0, rangeT1) {
      assert Holding(Walk(c, rangeT0, rangeT1), rangeT0 as real);
      StartsWalk(c, rangeT0, rangeT1, rangeT0 as real);
      assert false;
    }
  }

  /** A range that starts in the last 2.5 minutes of an hour: the walk leaves out its first 100 seconds. */
  lemma {:induction false} StartMissed()
    ensures var c := ChunkBoundsFor(3500.0, 3500, 7200);
      c == Chunk(3600, 7200) && IsChunk(c, 3500, 7200) && !Holding(Walk(c, 3500, 7200), 3599.0)
  {
    SnapInHour(3500.0);
    var c := Chunk(3600, 7200);
    assert c == ChunkBoundsFor(3500.0, 3500, 7200) && 3500.0 <= 3500.0 <= 7200.0;
    assert IsChunk(c, 3500, 7200);
    if Holding(Walk(c, 3500, 7200), 3599.0) {
      StartsWalk(c, 3500, 7200, 3599.0);
    }
  }

  // ── moments ──

  function MomentOf(spots: seq<Raw>, T: real): seq<Raw> {
    if spots == [] then []
    else
      var rest := MomentOf(spots[..|spots| - 1], T);
      var s := spots[|spots| - 1];
      if T - MOMENT_WINDOW_SECONDS as real <= s.t as real <= T then rest + [s] else rest
  }

  lemma {:induction false} MomentBefore(spots: seq<Raw>, T: real, i: int)
    requires 0 <= i <= |spots| && forall k :: 0 <= k < i ==> (spots[k].t as real) < T - MOMENT_WINDOW_SECONDS as real
    ensures MomentOf(spots[..i], T) == []
  {
    if i > 0 {
      assert spots[..i][..i - 1] == spots[..i - 1];
      MomentBefore(spots, T, i - 1);
    }
  }

  lemma {:induction false} MomentAfter(spots: seq<Raw>, T: real, i: int)
    requires RawsSorted(spots) && 0 <= i <= |spots| && (i < |spots| ==> T < spots[i].t as real)
    ensures MomentOf(spots, T) == MomentOf(spots[..i], T)
  {
    if i == |spots| {
      assert spots[..i] == spots;
    } else {
      var n := |spots| - 1;
      assert spots[..n][..i] == spots[..i];
      MomentAfter(spots[..n], T, i);
    }
  }

  lemma {:induction false} MomentMiddle(spots: seq<Raw>, T: real, a: int, b: int)
    requires 0 <= a <= b <= |spots| && MomentOf(spots[..a], T) == []
    requires forall k :: a <= k < b ==> T - MOMENT_WINDOW_SECONDS as real <= spots[k].t as real <= T
    ensures MomentOf(spots[..b], T) == spots[a..b]
  {
    if a < b {
      assert spots[..b][..b - 1] == spots[..b - 1];
      MomentMiddle(spots, T, a, b - 1);
    }
  }

  /** The trailing 15 minutes of a bundle at the playhead, by binary search. */
  method SliceMoment(spots: seq<Raw>, T: real) returns (out: seq<Raw>)
    requires RawsSorted(spots)
    ensures out == MomentOf(spots, T)
  {
    var lo := T - MOMENT_WINDOW_SECONDS as real;
    var a, b := 0, |spots|;
    while a < b
      invariant 0 <= a <= b <= |spots|
      invariant forall k :: 0 <= k < a ==> (spots[k].t as real) < lo
      invariant forall k :: b <= k < |spots| ==> lo <= spots[k].t as real
    {
      var mid := (a + b) / 2;
      if (spots[mid].t as real) < lo {
        a := mid + 1;
      } else {
        b := mid;
      }
    }
    var start, end := a, a;
    MomentBefore(spots, T, start);
    while end < |spots| && spots[end].t as real <= T
      invariant start <= end <= |spots|
      invariant forall k :: start <= k < end ==> lo <= spots[k].t as real <= T
    {
      end := end + 1;
    }
    MomentMiddle(spots, T, start, end);
    MomentAfter(spots, T, end);
    out := spots[start..end];
  }

  lemma {:induction false} MomentHas(spots: seq<Raw>, T: real, raw: Raw)
    ensures raw in MomentOf(spots, T)
            <==> raw in spots && T - MOMENT_WINDOW_SECONDS as real <= raw.t as real <= T
  {
    if spots != [] {
      MomentHas(spots[..|spots| - 1], T, raw);
      assert spots == spots[..|spots| - 1] + [spots[|spots| - 1]];
    }
  }

  lemma {:induction false} KeepHas(raws: seq<Raw>, f: Filter, raw: Raw)
    ensures raw in Keep(raws, f) <==> raw in raws && FilterAllowed(raw, f)
  {
    if raws != [] {
      KeepHas(raws[..|raws| - 1], f, raw);
      assert raws == raws[..|raws| - 1] + [raws[|raws| - 1]];
    }
  }

  lemma {:induction false} KeepOrdered(raws: seq<Raw>, f: Filter)
    requires RawsSorted(raws) && RawsDistinct(raws)
    ensures RawsSorted(Keep(raws, f)) && RawsDistinct(Keep(raws, f))
  {
    if raws != [] {
      var n := |raws| - 1;
      KeepOrdered(raws[..n], f);
      var kept := Keep(raws[..n], f);
      forall i | 0 <= i < |kept| ensures kept[i].t <= raws[n].t && SpotIdentity(kept[i]) != SpotIdentity(raws[n]) {
        KeepHas(raws[..n], f, kept[i]);
        assert kept[i] in kept;
      }
    }
  }

  /**
   A moment of a ring-served bundle: exactly the retained spots that pass the filter and lie both in
   the chunk and in the trailing window. A window that reaches back past the chunk's start is cut there.
   */
  lemma {:induction false} RingMoment(
    live: seq<Entry>, byT: seq<Entry>, index: map<Key, Entry>, chunk: Chunk, f: Filter, T: real, raw: Raw)
    requires Consistent(live, byT, index)
    ensures var spots := Keep(InWindow(byT, chunk.t0, chunk.t1), f);
      && RawsSorted(spots) && RawsDistinct(spots)
      && (raw in MomentOf(spots, T) <==>
            && (exists i :: 0 <= i < |live| && live[i].raw == raw && chunk.t0 <= live[i].t <= chunk.t1)
            && FilterAllowed(raw, f) && T - MOMENT_WINDOW_SECONDS as real <= raw.t as real <= T)
  {
    var window := InWindow(byT, chunk.t0, chunk.t1);
    SliceMeaning(live, byT, index, chunk.t0, chunk.t1);
    KeepOrdered(window, f);
    KeepHas(window, f, raw);
    MomentHas(Keep(window, f), T, raw);
  }

  // ── the bundle cache ──

  /** The cache key joins the location, the filter and the exact window. */
  datatype BundleKey = BundleKey(qth: string, surroundings: bool, filter: Filter, t0: int, t1: int)

  datatype Bundle = Bundle(key: BundleKey, t0: int, t1: int, spots: seq<Raw>)

  function Removed(order: seq<BundleKey>, key: BundleKey): (r: seq<BundleKey>)
    ensures forall k :: k in r ==> k in order
    ensures forall k :: k in order && k != key ==> k in r
    ensures key !in order ==> r == order
  {
    if order == [] then []
    else if order[0] == key then order[1..]
    else [order[0]] + Removed(order[1..], key)
  }

  /** Least recently used first; `key` moves to the end. */
  function Touched(order: seq<BundleKey>, key: BundleKey): (r: seq<BundleKey>)
    ensures |r| > 0 && r[|r| - 1] == key
    ensures forall k :: k in r <==> k in order || k == key
  {
    Removed(order, key) + [key]
  }

  lemma {:induction false} RemovedInOrder(a: seq<BundleKey>, key: BundleKey, b: seq<BundleKey>)
    requires key !in a
    ensures Removed(a + ([key] + b), key) == a + b
  {
    var s := a + ([key] + b);
    if a == [] {
      assert s == [key] + b && a + b == b;
    } else {
      assert s[1..] == a[1..] + ([key] + b);
      RemovedInOrder(a[1..], key, b);
      assert a + b == [a[0]] + (a[1..] + b);
    }
  }

  /** Removing a key leaves the others in order; touching one moves it to the end, or adds it there. */
  lemma {:induction false} OthersKeepOrder(a: seq<BundleKey>, key: BundleKey, b: seq<BundleKey>)
    requires key !in a
    ensures Removed(a + [key] + b, key) == a + b && Touched(a + [key] + b, key) == a + b + [key]
    ensures Touched(a, key) == a + [key]
  {
    RemovedInOrder(a, key, b);
    assert a + [key] + b == a + ([key] + b);
  }

  ghost predicate Distinct(s: seq<BundleKey>) { forall i, j :: 0 <= i < j < |s| ==> s[i] != s[j] }

  lemma {:induction false} RemovedDistinct(order: seq<BundleKey>, key: BundleKey)
    requires Distinct(order)
    ensures Distinct(Removed(order, key)) && key !in Removed(order, key)
    ensures |Removed(order, key)| == if key in order then |order| - 1 else |order|
  {
    if order != [] && order[0] != key {
      RemovedDistinct(order[1..], key);
      assert order[0] !in order[1..];
    }
  }

  /** The order lists the cached keys, once each; a bundle is cached under its own key. */
  ghost predicate Cached(bundles: map<BundleKey, Bundle>, order: seq<BundleKey>) {
    && Distinct(order)
    && (forall k :: k in bundles <==> k in order)
    && (forall k :: k in bundles ==> bundles[k].key == k)
  }

  lemma {:induction false} DropOldest(bundles: map<BundleKey, Bundle>, order: seq<BundleKey>)
    requires Cached(bundles, order) && order != []
    ensures Cached(bundles - {order[0]}, order[1..])
  {
    assert order == [order[0]] + order[1..];
  }

  lemma {:induction false} TouchCached(bundles: map<BundleKey, Bundle>, order: seq<BundleKey>, bundle: Bundle)
    requires Cached(bundles, order)
    ensures Cached(bundles[bundle.key := bundle], Touched(order, bundle.key))
  {
    RemovedDistinct(order, bundle.key);
  }

  /** `bundle` is cached, and whatever else is cached was cached before. */
  ghost predicate Holds(before: map<BundleKey, Bundle>, bundles: map<BundleKey, Bundle>, bundle: Bundle) {
    bundle.key in bundles && bundles[bundle.key] == bundle
    && forall k :: k in bundles && k != bundle.key ==> k in before && bundles[k] == before[k]
  }

  lemma {:induction false} EvictStep(
    before: map<BundleKey, Bundle>, bundles: map<BundleKey, Bundle>, order: seq<BundleKey>, bundle: Bundle)
    requires Cached(bundles, order) && Holds(before, bundles, bundle)
    requires |order| > 1 && order[|order| - 1] == bundle.key
    ensures order[0] in bundles && bundles[order[0]] != bundle
    ensures Cached(bundles - {order[0]}, order[1..]) && Holds(before, bundles - {order[0]}, bundle)
  {
    DropOldest(bundles, order);
    assert bundles[order[0]].key == order[0];
  }

  class BundleCache {
    var bundles: map<BundleKey, Bundle>
    var order: seq<BundleKey>

    ghost predicate Valid()
      reads this
    {
      Cached(bundles, order) && |order| <= BUNDLE_CACHE_MAX
    }

    constructor ()
      ensures Valid() && order == []
    {
      bundles, order := map[], [];
    }

    method Get(key: BundleKey) returns (b: Option<Bundle>)
      requires Valid()
      modifies this
      ensures Valid() && bundles == old(bundles)
      ensures key in bundles ==> b == Some(bundles[key]) && order == Touched(old(order), key)
      ensures key !in bundles ==> b == None && order == old(order)
    {
      if key !in bundles {
        return None;
      }
      RemovedDistinct(order, key);
      order := Removed(order, key);
      order := order + [key];
      b := Some(bundles[key]);
    }

    method EvictOverflow(ghost before: map<BundleKey, Bundle>, bundle: Bundle)
      requires Cached(bundles, order) && Holds(before, bundles, bundle)
      requires 0 < |order| <= BUNDLE_CACHE_MAX + 1 && order[|order| - 1] == bundle.key
      modifies this
      ensures Valid() && order == LastN(old(order), BUNDLE_CACHE_MAX) && Holds(before, bundles, bundle)
    {
      ghost var put, touched := bundles, order;
      if |touched| > 1 {
        EvictStep(before, put, touched, bundle);
      }
      while |order| > BUNDLE_CACHE_MAX
        invariant (order == touched && bundles == put)
                  || (|touched| > BUNDLE_CACHE_MAX && order == touched[1..] && bundles == put - {touched[0]})
      {
        var oldest := order[0];
        order := order[1..];
        if bundles[oldest] != bundle {
          bundles := bundles - {oldest};
        }
      }
    }

    /** The new bundle is kept, and with it the most recently used others, up to the bound. */
    method Put(key: BundleKey, bundle: Bundle)
      requires Valid() && bundle.key == key
      modifies this
      ensures Valid() && order == LastN(Touched(old(order), key), 4)
      ensures Holds(old(bundles), bundles, bundle)
    {
      TouchCached(bundles, order, bundle);
      if key !in bundles {
        assert Removed(order, key) == order;
      } else {
        order := Removed(order, key);
      }
      bundles := bundles[key := bundle];
      order := order + [key];
      RemovedDistinct(old(order), key);
      EvictOverflow(old(bundles), bundle);
    }
  }

  // ── serving a chunk from the ring ──

  /**
   A stand-in for a fetch: a bundle cut from the ring, or None when the controls ask for more than the
   stream delivered or the ring does not cover the window.
   */
  method TryRingBundle(
    ring: SessionRing, cache: BundleCache, c: Controls, streamed: Option<Streamed>, qth: string, chunk: Chunk,
    key: BundleKey) returns (b: Option<Bundle>)
    requires ring.Valid() && cache.Valid()
    modifies ring`coverage, ring`coverageDirty, cache
    ensures ring.Valid() && ring.Live() == old(ring.Live()) && cache.Valid()
    ensures b.Some? <==> RingCohortSatisfies(c, streamed, qth) && CoveredList(ring.Live(), chunk.t0, chunk.t1)
    ensures b.Some? ==>
      b.value == Bundle(key, chunk.t0, chunk.t1, Keep(InWindow(ring.byT, chunk.t0, chunk.t1), c.filter))
    ensures b.Some? ==> Holds(old(cache.bundles), cache.bundles, b.value)
    ensures b.Some? ==> cache.order == LastN(Touched(old(cache.order), key), 4)
    ensures b.None? ==> cache.bundles == old(cache.bundles) && cache.order == old(cache.order)
  {
    if !RingCohortSatisfies(c, streamed, qth) {
      return None;
    }
    var covered := ring.Covers(chunk.t0, chunk.t1);
    if !covered {
      return None;
    }
    var spots := ring.SliceFiltered(chunk.t0, chunk.t1, c.filter);
    var bundle := Bundle(key, chunk.t0, chunk.t1, spots);
    cache.Put(key, bundle);
    b := Some(bundle);
  }

  lemma {:induction false} VisibleHas(s: seq<Entry>, c: Controls, e: Entry)
    ensures e in VisibleOnes(s, c) <==> e in s && Visible(e, c)
  {
    if s != [] {
      VisibleHas(s[..|s| - 1], c, e);
      assert s == s[..|s| - 1] + [s[|s| - 1]];
    }
  }

  /** A spot of the list, admitted by the filter, in the chunk and in the trailing window. */
  ghost predicate InMoment(s: seq<Entry>, raw: Raw, f: Filter, chunk: Chunk, T: real) {
    && (exists e :: e in s && EntryOk(e) && e.raw == raw) && FilterAllowed(raw, f)
    && chunk.t0 <= raw.t <= chunk.t1 && T - 900.0 <= raw.t as real <= T
  }

  lemma {:induction false} SameVisible(full: seq<Fed>, sf: Streamed, c: Controls, raw: Raw, chunk: Chunk, T: real)
    requires NothingEvicted(full) && RingCohortSatisfies(c, Some(sf), c.qth) && Shown(raw, c)
    ensures InMoment(Feed(Delivered(full, sf)), raw, c.filter, chunk, T)
            <==> InMoment(Feed(full), raw, c.filter, chunk, T)
  {
    var a, b := Feed(Delivered(full, sf)), Feed(full);
    DeliveredShowsTheSame(full, sf, c);
    if InMoment(a, raw, c.filter, chunk, T) {
      var e :| e in a && EntryOk(e) && e.raw == raw;
      VisibleHas(a, c, e);
      VisibleHas(b, c, e);
    }
    if InMoment(b, raw, c.filter, chunk, T) {
      var e :| e in b && EntryOk(e) && e.raw == raw;
      VisibleHas(a, c, e);
      VisibleHas(b, c, e);
    }
  }

  /** The moments served from the ring of the delivered feed are those of what that ring holds. */
  lemma {:induction false} ServedIsHeld(
    fed: seq<Fed>, f: Filter, byT: seq<Entry>, index: map<Key, Entry>, chunk: Chunk, T: real, raw: Raw)
    requires Consistent(Feed(fed), byT, index)
    ensures raw in MomentOf(Keep(InWindow(byT, chunk.t0, chunk.t1), f), T) <==> InMoment(Feed(fed), raw, f, chunk, T)
  {
    var live := Feed(fed);
    RingMoment(live, byT, index, chunk, f, T, raw);
    FeedEntriesOk(fed);
    if InMoment(live, raw, f, chunk, T) {
      var e :| e in live && EntryOk(e) && e.raw == raw;
      var i :| 0 <= i < |live| && live[i] == e;
      assert live[i].raw == raw && live[i].t == raw.t;
    }
    if i :| 0 <= i < |live| && live[i].raw == raw && chunk.t0 <= live[i].t <= chunk.t1 {
      assert live[i] in live && EntryOk(live[i]);
    }
  }

  // ── the moments of the whole feed ──

  /** A raw copy with this key: the filters read nothing but the key. */
  function RawFor(key: Key): Raw { Raw(key.t, key.source, key.band, key.snr, key.ident, "") }

  lemma {:induction false} FilterReadsKey(raw: Raw, f: Filter, c: Controls)
    ensures FilterAllowed(raw, f) <==> FilterAllowed(RawFor(SpotIdentity(raw)), f)
    ensures Shown(raw, c) <==> Shown(RawFor(SpotIdentity(raw)), c)
  {
  }

  /** The key passes the filter and lies in the chunk and in the trailing window. */
  predicate KeyInMoment(key: Key, f: Filter, chunk: Chunk, T: real) {
    && FilterAllowed(RawFor(key), f) && chunk.t0 <= key.t <= chunk.t1
    && T - MOMENT_WINDOW_SECONDS as real <= key.t as real <= T
  }

  /** The feed brought a spot of this key, other than a wspr spot. */
  ghost predicate Brought(full: seq<Fed>, key: Key) {
    exists i :: 0 <= i < |full| && full[i].spot.source != Wspr && KeyOf(full[i]) == key
  }

  /** A spot of this key is in the moment. */
  ghost predicate Serves(moment: seq<Raw>, key: Key) {
    exists raw :: raw in moment && SpotIdentity(raw) == key
  }

  lemma {:induction false} ServedWasBrought(
    full: seq<Fed>, sf: Streamed, f: Filter, byT: seq<Entry>, index: map<Key, Entry>, chunk: Chunk, T: real, key: Key)
    requires Consistent(Feed(Delivered(full, sf)), byT, index)
    requires Serves(MomentOf(Keep(InWindow(byT, chunk.t0, chunk.t1), f), T), key)
    ensures Brought(full, key) && KeyInMoment(key, f, chunk, T)
  {
    var live := Feed(Delivered(full, sf));
    var raw :| raw in MomentOf(Keep(InWindow(byT, chunk.t0, chunk.t1), f), T) && SpotIdentity(raw) == key;
    ServedIsHeld(Delivered(full, sf), f, byT, index, chunk, T, raw);
    var e :| e in live && EntryOk(e) && e.raw == raw;
    var k :| 0 <= k < |live| && live[k] == e;
    RetainedCame(Delivered(full, sf));
    NoWsprHeld(Delivered(full, sf));
    DeliveredCame(full, sf, e);
    var i :| 0 <= i < |full| && e == EntryOf(full[i].spot, full[i].clockMs);
    assert KeyOf(full[i]) == key && full[i].spot.source == e.raw.source;
    FilterReadsKey(raw, f, Controls(f, "", true, true));
  }

  lemma {:induction false} HeldIsServed(
    fed: seq<Fed>, f: Filter, byT: seq<Entry>, index: map<Key, Entry>, chunk: Chunk, T: real, key: Key)
    requires Consistent(Feed(fed), byT, index) && HasKey(Feed(fed), key) && KeyInMoment(key, f, chunk, T)
    ensures Serves(MomentOf(Keep(InWindow(byT, chunk.t0, chunk.t1), f), T), key)
  {
    var live := Feed(fed);
    var k :| 0 <= k < |live| && live[k].key == key;
    FeedEntriesOk(fed);
    assert live[k] in live && EntryOk(live[k]);
    FilterReadsKey(live[k].raw, f, Controls(f, "", true, true));
    ServedIsHeld(fed, f, byT, index, chunk, T, live[k].raw);
  }

  /**
   What a moment served from the ring is worth, however long the feed and whatever was evicted. When the
   chunk starts after the receipt of the oldest spot that the ring holds, exactly those spots of the whole
   feed are served that pass the filter and lie in the chunk and in the trailing window.
   */
  lemma {:induction false} ServesTheWholeFeed(
    full: seq<Fed>, sf: Streamed, c: Controls, byT: seq<Entry>, index: map<Key, Entry>, chunk: Chunk, T: real, key: Key)
    requires StampsInOrder(full) && AgesOk(full)
    requires RingCohortSatisfies(c, Some(sf), c.qth) && Shown(RawFor(key), c)
    requires Consistent(Feed(Delivered(full, sf)), byT, index)
    requires var live := Feed(Delivered(full, sf)); live != [] ==> live[0].recvMs / 1000 < chunk.t0
    ensures Serves(MomentOf(Keep(InWindow(byT, chunk.t0, chunk.t1), c.filter), T), key)
            <==> Brought(full, key) && KeyInMoment(key, c.filter, chunk, T)
  {
    if Serves(MomentOf(Keep(InWindow(byT, chunk.t0, chunk.t1), c.filter), T), key) {
      ServedWasBrought(full, sf, c.filter, byT, index, chunk, T, key);
    }
    if Brought(full, key) && KeyInMoment(key, c.filter, chunk, T) {
      var i :| 0 <= i < |full| && full[i].spot.source != Wspr && KeyOf(full[i]) == key;
      FilterReadsKey(RawOf(full[i]), c.filter, c);
      CohortIsNarrower(c, sf, RawOf(full[i]));
      HeldUnlessOld(full, sf, i);
      HeldIsServed(Delivered(full, sf), c.filter, byT, index, chunk, T, key);
    }
  }

  /**
   A ring fed only with what the stream let through serves, for every source the controls show, the
   moments that a ring of the full feed would give, as long as nothing is evicted.
   */
  lemma {:induction false} RingServesTheFullFeed(
    full: seq<Fed>, sf: Streamed, c: Controls, byT: seq<Entry>, index: map<Key, Entry>, chunk: Chunk, T: real, raw: Raw)
    requires NothingEvicted(full) && RingCohortSatisfies(c, Some(sf), c.qth) && Shown(raw, c)
    requires Consistent(Feed(Delivered(full, sf)), byT, index)
    ensures raw in MomentOf(Keep(InWindow(byT, chunk.t0, chunk.t1), c.filter), T)
            <==> InMoment(Feed(full), raw, c.filter, chunk, T)
  {
    ServedIsHeld(Delivered(full, sf), c.filter, byT, index, chunk, T, raw);
    SameVisible(full, sf, c, raw, chunk, T);
  }

  /**
   However long the feed and whatever is evicted: every spot that a ring of the full feed would show in a
   moment is in the moment served from the ring of the delivered feed.
   */
  lemma {:induction false} RingServesAtLeastTheFullRing(
    full: seq<Fed>, sf: Streamed, c: Controls, byT: seq<Entry>, index: map<Key, Entry>, chunk: Chunk, T: real, raw: Raw)
    requires StampsInOrder(full) && RepeatsHeld(full, sf) && RingCohortSatisfies(c, Some(sf), c.qth) && Shown(raw, c)
    requires Consistent(Feed(Delivered(full, sf)), byT, index)
    requires InMoment(Feed(full), raw, c.filter, chunk, T)
    ensures raw in MomentOf(Keep(InWindow(byT, chunk.t0, chunk.t1), c.filter), T)
  {
    var a, b := Feed(Delivered(full, sf)), Feed(full);
    ServedIsHeld(Delivered(full, sf), c.filter, byT, index, chunk, T, raw);
    DeliveredShowsAtLeast(full, sf, c);
    var e :| e in b && EntryOk(e) && e.raw == raw;
    VisibleHas(a, c, e);
    VisibleHas(b, c, e);
  }
}
