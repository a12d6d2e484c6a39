/**
 The session ring: one set of spots kept as a t-sorted list, as a receive-ordered list with a dead
 prefix, as a key index and, cached, as coverage intervals. `Live` is the plain list it stands for.
 */
module SessionRings {
  import opened Basics
  import opened Spots

  const RING_DEPTH_SECONDS := 21_600
  const RING_MAX_SPOTS := 50_000
  const COVERAGE_GAP_SECONDS := 300
  const COMPACT_AT := 8192

  // ── time-sorted lists ──

  ghost predicate Sorted(s: seq<Entry>) {
    forall i, j :: 0 <= i < j < |s| ==> s[i].t <= s[j].t
  }

  ghost predicate Splits(s: seq<Entry>, target: int, i: int) {
    0 <= i <= |s| && (forall k :: 0 <= k < i ==> s[k].t < target) && (forall k :: i <= k < |s| ==> target <= s[k].t)
  }

  method LowerBound(s: seq<Entry>, target: int) returns (lo: nat)
    requires Sorted(s)
    ensures Splits(s, target, lo)
  {
    lo := 0;
    var hi := |s|;
    while lo < hi
      invariant 0 <= lo <= hi <= |s|
      invariant forall k :: 0 <= k < lo ==> s[k].t < target
      invariant forall k :: hi <= k < |s| ==> target <= s[k].t
    {
      var mid := (lo + hi) / 2;
      if s[mid].t < target {
        lo := mid + 1;
      } else {
        hi := mid;
      }
    }
  }

  // ── coverage ──

  datatype Interval = Interval(start: int, end: int)

  /** One more entry, not earlier than the ones so far, joins the last run or starts a new one. */
  function Extend(ivs: seq<Interval>, t: int): (r: seq<Interval>)
    ensures |r| > 0
  {
    var n := |ivs|;
    if n > 0 && t - ivs[n - 1].end <= COVERAGE_GAP_SECONDS then ivs[..n - 1] + [ivs[n - 1].(end := t)]
    else ivs + [Interval(t, t)]
  }

  function Intervals(s: seq<Entry>): (r: seq<Interval>)
    ensures r == [] <==> s == []
  {
    if s == [] then [] else Extend(Intervals(s[..|s| - 1]), s[|s| - 1].t)
  }

  /** Two consecutive entries too far apart, at times `a` and `b`. */
  ghost predicate Gap(s: seq<Entry>, a: int, b: int) {
    b - a > COVERAGE_GAP_SECONDS && exists i :: 0 < i < |s| && s[i - 1].t == a && s[i].t == b
  }

  /**
   What covering a window means: the ring reaches back to its start, and no gap cuts into the part up
   to the last entry.
   */
  ghost predicate Covered(s: seq<Entry>, t0: int, t1: int) {
    s != [] && s[0].t <= t0
    && var upper := Min(t1, s[|s| - 1].t);
       t0 <= upper && forall a, b :: Gap(s, a, b) ==> b <= t0 || upper <= a
  }

  /** A time of some entry. */
  ghost predicate HasTime(s: seq<Entry>, t: int) { exists i :: 0 <= i < |s| && s[i].t == t }

  /** Two times in the list, too far apart, with none in between: no order of the list is involved. */
  ghost predicate GapIn(s: seq<Entry>, a: int, b: int) {
    b - a > 300 && HasTime(s, a) && HasTime(s, b)
    && forall i :: 0 <= i < |s| ==> s[i].t <= a || b <= s[i].t
  }

  /** What `covers` means for the plain list. */
  ghost predicate CoveredList(s: seq<Entry>, t0: int, t1: int) {
    && t0 <= t1
    && (exists i :: 0 <= i < |s| && s[i].t <= t0)
    && (exists i :: 0 <= i < |s| && t0 <= s[i].t)
    && (forall a, b :: GapIn(s, a, b) ==> b <= t0 || t1 <= a)
  }

  lemma {:induction false} GapNeighbours(s: seq<Entry>, a: int, b: int, j: nat)
    requires Sorted(s) && GapIn(s, a, b) && j < |s| && s[j].t == b
    ensures Gap(s, a, b)
  {
    if j == 0 {
      assert false;
    } else if s[j - 1].t == b {
      GapNeighbours(s, a, b, j - 1);
    } else {
      var i :| 0 <= i < |s| && s[i].t == a;
      assert i <= j - 1;
    }
  }

  lemma {:induction false} NothingBetween(s: seq<Entry>, i: int)
    requires Sorted(s) && 0 < i < |s|
    ensures forall k :: 0 <= k < |s| ==> s[k].t <= s[i - 1].t || s[i].t <= s[k].t
  {
  }

  lemma {:induction false} NeighboursGap(s: seq<Entry>, a: int, b: int)
    requires Sorted(s) && Gap(s, a, b)
    ensures GapIn(s, a, b)
  {
    var i :| 0 < i < |s| && s[i - 1].t == a && s[i].t == b;
    NothingBetween(s, i);
    hide Sorted;
    assert HasTime(s, a) && HasTime(s, b);
  }

  lemma {:induction false} GapIsNeighbours(s: seq<Entry>, a: int, b: int)
    requires Sorted(s) && GapIn(s, a, b)
    ensures Gap(s, a, b)
  {
    var j :| 0 <= j < |s| && s[j].t == b;
    GapNeighbours(s, a, b, j);
  }

  /** In a sorted list a gap is a pair of neighbours. */
  lemma {:induction false} SortedGaps(s: seq<Entry>)
    requires Sorted(s)
    ensures forall a, b :: Gap(s, a, b) <==> GapIn(s, a, b)
  {
    hide Sorted;
    hide Gap;
    hide GapIn;
    forall a, b ensures Gap(s, a, b) <==> GapIn(s, a, b) {
      if Gap(s, a, b) {
        NeighboursGap(s, a, b);
      }
      if GapIn(s, a, b) {
        GapIsNeighbours(s, a, b);
      }
    }
  }

  lemma {:induction false} SameTimes(a: seq<Entry>, b: seq<Entry>, i: int)
    requires multiset(a) == multiset(b) && 0 <= i < |a|
    ensures exists k :: 0 <= k < |b| && b[k] == a[i]
  {
    assert a[i] in multiset(b);
  }

  /** Gaps do not depend on the order of the list. */
  lemma {:induction false} GapsOfPermutation(s: seq<Entry>, r: seq<Entry>, a: int, b: int)
    requires multiset(s) == multiset(r) && GapIn(s, a, b)
    ensures GapIn(r, a, b)
  {
    var i :| 0 <= i < |s| && s[i].t == a;
    SameTimes(s, r, i);
    var j :| 0 <= j < |s| && s[j].t == b;
    SameTimes(s, r, j);
    forall k | 0 <= k < |r| ensures r[k].t <= a || b <= r[k].t {
      SameTimes(r, s, k);
    }
  }

  /** The sorted list is covered exactly when the plain list is. */
  lemma {:induction false} CoveredIsCovered(byT: seq<Entry>, live: seq<Entry>, t0: int, t1: int)
    requires Sorted(byT) && multiset(byT) == multiset(live)
    ensures Covered(byT, t0, t1) <==> CoveredList(live, t0, t1)
  {
    SortedGaps(byT);
    forall a, b ensures Gap(byT, a, b) <==> GapIn(live, a, b) {
      if GapIn(live, a, b) {
        GapsOfPermutation(live, byT, a, b);
      }
      if GapIn(byT, a, b) {
        GapsOfPermutation(byT, live, a, b);
      }
    }
    if byT != [] {
      SameTimes(byT, live, 0);
      SameTimes(byT, live, |byT| - 1);
    }
    if CoveredList(live, t0, t1) {
      var i :| 0 <= i < |live| && live[i].t <= t0;
      SameTimes(live, byT, i);
      var j :| 0 <= j < |live| && t0 <= live[j].t;
      SameTimes(live, byT, j);
    }
    forall a, b | Gap(byT, a, b) ensures a < byT[|byT| - 1].t {
    }
  }

  /** The same gaps, read off the intervals. */
  ghost predicate IntervalGap(ivs: seq<Interval>, a: int, b: int) {
    exists k :: 0 < k < |ivs| && ivs[k - 1].end == a && ivs[k].start == b
  }

  ghost predicate IntervalsOk(ivs: seq<Interval>, s: seq<Entry>) {
    && (ivs == [] <==> s == [])
    && (s != [] ==> ivs[0].start == s[0].t && ivs[|ivs| - 1].end == s[|s| - 1].t)
    && (forall k :: 0 <= k < |ivs| ==> ivs[k].start <= ivs[k].end)
    && (forall j, k :: 0 <= j < k < |ivs| ==> ivs[j].end + COVERAGE_GAP_SECONDS < ivs[k].start)
    && (forall a, b :: Gap(s, a, b) <==> IntervalGap(ivs, a, b))
  }

  lemma {:induction false} GapsGrow(s: seq<Entry>, e: Entry)
    requires s != []
    ensures forall a, b :: Gap(s + [e], a, b) <==>
      Gap(s, a, b) || (a == s[|s| - 1].t && b == e.t && b - a > COVERAGE_GAP_SECONDS)
  {
    var longer, n := s + [e], |s|;
    forall a, b
      ensures Gap(longer, a, b) <==> Gap(s, a, b) || (a == s[n - 1].t && b == e.t && b - a > COVERAGE_GAP_SECONDS)
    {
      if Gap(longer, a, b) {
        var i :| 0 < i < |longer| && longer[i - 1].t == a && longer[i].t == b;
        if i < n {
          assert s[i - 1].t == a && s[i].t == b;
        }
      }
      if Gap(s, a, b) {
        var i :| 0 < i < n && s[i - 1].t == a && s[i].t == b;
        assert longer[i - 1].t == a && longer[i].t == b;
      }
      if a == s[n - 1].t && b == e.t && b - a > COVERAGE_GAP_SECONDS {
        assert longer[n - 1].t == a && longer[n].t == b;
      }
    }
  }

  lemma {:induction false} IntervalGapsGrow(ivs: seq<Interval>, t: int)
    requires ivs != []
    ensures var last := ivs[|ivs| - 1].end;
      forall a, b :: IntervalGap(Extend(ivs, t), a, b) <==>
        IntervalGap(ivs, a, b) || (a == last && b == t && b - a > COVERAGE_GAP_SECONDS)
  {
    var r, n := Extend(ivs, t), |ivs|;
    var last := ivs[n - 1].end;
    forall a, b
      ensures IntervalGap(r, a, b) <==> IntervalGap(ivs, a, b) || (a == last && b == t && b - a > COVERAGE_GAP_SECONDS)
    {
      if IntervalGap(r, a, b) {
        var k :| 0 < k < |r| && r[k - 1].end == a && r[k].start == b;
        if k < n {
          assert ivs[k - 1].end == a && ivs[k].start == b;
        }
      }
      if IntervalGap(ivs, a, b) {
        var k :| 0 < k < n && ivs[k - 1].end == a && ivs[k].start == b;
        assert r[k - 1].end == a && r[k].start == b;
      }
      if a == last && b == t && b - a > COVERAGE_GAP_SECONDS {
        assert r[n - 1].end == a && r[n].start == b;
      }
    }
  }

  lemma {:induction false} ExtendOk(ivs: seq<Interval>, s: seq<Entry>, e: Entry)
    requires s != [] && IntervalsOk(ivs, s) && s[|s| - 1].t <= e.t
    ensures IntervalsOk(Extend(ivs, e.t), s + [e])
  {
    GapsGrow(s, e);
    IntervalGapsGrow(ivs, e.t);
  }

  /** The built intervals tell exactly where the list starts, ends and breaks. */
  lemma {:induction false} IntervalsFaithful(s: seq<Entry>)
    requires Sorted(s)
    ensures IntervalsOk(Intervals(s), s)
  {
    if |s| == 1 {
      assert Intervals(s[..0]) == [];
      assert Intervals(s) == [Interval(s[0].t, s[0].t)];
    } else if |s| > 1 {
      var n := |s| - 1;
      IntervalsFaithful(s[..n]);
      assert s == s[..n] + [s[n]];
      hide IntervalsOk;
      hide Extend;
      ExtendOk(Intervals(s[..n]), s[..n], s[n]);
    }
  }

  // ── eviction on the plain list ──

  function Expired(live: seq<Entry>, cutoffMs: int): (n: nat)
    ensures n <= |live|
    ensures forall i :: 0 <= i < n ==> live[i].recvMs < cutoffMs
    ensures n < |live| ==> live[n].recvMs >= cutoffMs
  {
    if live != [] && live[0].recvMs < cutoffMs then 1 + Expired(live[1..], cutoffMs) else 0
  }

  /** How many of the oldest-received entries go: the expired ones, or instead the excess over the cap. */
  function EvictCount(live: seq<Entry>, recvNowMs: int): (n: nat)
    ensures n <= |live|
  {
    var n := Expired(live, recvNowMs - RING_DEPTH_SECONDS * 1000);
    if |live| - n > RING_MAX_SPOTS then |live| - n - RING_MAX_SPOTS else n
  }

  predicate HasKey(live: seq<Entry>, key: Key) {
    exists i :: 0 <= i < |live| && live[i].key == key
  }

  /** What one accepted push does to the plain list: append, then drop a receive-order prefix. */
  function Admit(live: seq<Entry>, e: Entry): seq<Entry> {
    var longer := live + [e];
    longer[EvictCount(longer, e.recvMs)..]
  }

  /** A push as the plain list sees it; wspr spots and repeats are refused. */
  function PushList(live: seq<Entry>, spot: LiveSpot, clockMs: int): seq<Entry> {
    var e := EntryOf(spot, clockMs);
    if spot.source == Wspr || HasKey(live, e.key) then live else Admit(live, e)
  }

  // ── slices ──

  function InWindow(s: seq<Entry>, t0: int, t1: int): seq<Raw> {
    if s == [] then []
    else
      var rest := InWindow(s[..|s| - 1], t0, t1);
      if t0 <= s[|s| - 1].t <= t1 then rest + [s[|s| - 1].raw] else rest
  }

  function Keep(raws: seq<Raw>, f: Filter): seq<Raw> {
    if raws == [] then []
    else
      var rest := Keep(raws[..|raws| - 1], f);
      if FilterAllowed(raws[|raws| - 1], f) then rest + [raws[|raws| - 1]] else rest
  }

  ghost predicate DistinctKeys(s: seq<Entry>) {
    forall i, j :: 0 <= i < j < |s| ==> s[i].key != s[j].key
  }

  lemma {:induction false} ExpiredIs(live: seq<Entry>, cutoffMs: int, n: nat)
    requires n <= |live| && (forall i :: 0 <= i < n ==> live[i].recvMs < cutoffMs)
    requires n < |live| ==> live[n].recvMs >= cutoffMs
    ensures Expired(live, cutoffMs) == n
  {
    if n > 0 {
      ExpiredIs(live[1..], cutoffMs, n - 1);
    }
  }

  /** The same entries, in time order. */
  ghost predicate Arranges(byT: seq<Entry>, live: seq<Entry>) { Sorted(byT) && multiset(byT) == multiset(live) }

  ghost predicate SamePrefix(byT: seq<Entry>, live: seq<Entry>, n: nat) {
    n <= |byT| && n <= |live| && forall k :: 0 <= k < n ==> byT[k] == live[k]
  }

  lemma {:induction false} DropPrefix(byT: seq<Entry>, live: seq<Entry>, n: nat)
    requires Arranges(byT, live) && SamePrefix(byT, live, n)
    ensures Arranges(byT[n..], live[n..])
  {
    assert byT[..n] == live[..n];
    assert byT == byT[..n] + byT[n..] && live == live[..n] + live[n..];
    assert multiset(byT) == multiset(byT[..n]) + multiset(byT[n..]);
    assert multiset(live) == multiset(live[..n]) + multiset(live[n..]);
    forall x ensures multiset(byT[n..])[x] == multiset(live[n..])[x] {
      assert multiset(byT)[x] == multiset(byT[..n])[x] + multiset(byT[n..])[x];
      assert multiset(live)[x] == multiset(live[..n])[x] + multiset(live[n..])[x];
    }
  }

  lemma {:induction false} HeadIsThere(byT: seq<Entry>, live: seq<Entry>)
    requires live != [] && multiset(byT) == multiset(live)
    ensures live[0] in byT
  {
    assert live[0] in multiset(byT);
  }

  lemma {:induction false} DropOne(live: seq<Entry>)
    requires live != []
    ensures multiset(live) - multiset{live[0]} == multiset(live[1..])
  {
    assert live == [live[0]] + live[1..];
  }

  /** The index holds exactly the entries of `live`, by key. */
  ghost predicate Indexed(index: map<Key, Entry>, live: seq<Entry>) {
    && (forall k :: k in index <==> HasKey(live, k))
    && (forall k :: k in index ==> index[k].key == k && index[k] in live)
  }

  /** The sorted list and the index both hold the distinct spots of the plain list. */
  ghost predicate Consistent(live: seq<Entry>, byT: seq<Entry>, index: map<Key, Entry>) {
    && (forall i :: 0 <= i < |live| ==> EntryOk(live[i]))
    && DistinctKeys(live)
    && Sorted(byT) && multiset(byT) == multiset(live)
    && Indexed(index, live)
  }

  lemma {:induction false} ConsistentRest(
    live: seq<Entry>, byT: seq<Entry>, index: map<Key, Entry>, n: nat, byT': seq<Entry>, index': map<Key, Entry>)
    requires Consistent(live, byT, index) && n <= |live|
    requires Arranges(byT', live[n..]) && Indexed(index', live[n..])
    ensures Consistent(live[n..], byT', index')
  {
    assert forall i :: 0 <= i < |live[n..]| ==> live[n..][i] == live[i + n];
  }

  ghost predicate IndexedFrom(index: map<Key, Entry>, live: seq<Entry>, i: nat) {
    i <= |live| && Indexed(index, live[i..]) && DistinctKeys(live[i..])
  }

  /** Place `i` keeps the time order. */
  ghost predicate FitsAt(s: seq<Entry>, e: Entry, i: int) {
    0 <= i <= |s| && (forall k :: 0 <= k < i ==> s[k].t <= e.t) && (forall k :: i <= k < |s| ==> e.t <= s[k].t)
  }

  ghost predicate InsertedAt(s: seq<Entry>, e: Entry, r: seq<Entry>) {
    exists i :: FitsAt(s, e, i) && r == s[..i] + [e] + s[i..]
  }

  lemma {:induction false} InsertedSorted(s: seq<Entry>, e: Entry, i: int)
    requires Sorted(s) && FitsAt(s, e, i)
    ensures Sorted(s[..i] + [e] + s[i..])
  {
    var r := s[..i] + [e] + s[i..];
    forall j, k | 0 <= j < k < |r| ensures r[j].t <= r[k].t {
      assert j < i ==> r[j] == s[j];
      assert k > i ==> r[k] == s[k - 1];
      assert j > i ==> r[j] == s[j - 1];
    }
  }

  lemma {:induction false} InsertedKeeps(s: seq<Entry>, e: Entry, r: seq<Entry>)
    requires Sorted(s) && InsertedAt(s, e, r)
    ensures Sorted(r) && multiset(r) == multiset(s) + multiset{e}
  {
    var i :| FitsAt(s, e, i) && r == s[..i] + [e] + s[i..];
    InsertedSorted(s, e, i);
    assert s == s[..i] + s[i..];
    assert multiset(s) == multiset(s[..i]) + multiset(s[i..]);
  }

  lemma {:induction false} IndexOne(index: map<Key, Entry>, live: seq<Entry>, e: Entry)
    requires Indexed(index, live) && DistinctKeys(live) && e.key !in index
    ensures Indexed(index[e.key := e], live + [e]) && DistinctKeys(live + [e])
  {
    var m, longer := index[e.key := e], live + [e];
    forall i | 0 <= i < |live| ensures live[i].key != e.key {
      assert !HasKey(live, e.key);
    }
    forall k ensures k in m <==> HasKey(longer, k) {
      if HasKey(live, k) {
        var i :| 0 <= i < |live| && live[i].key == k;
        assert longer[i].key == k;
      }
      if k == e.key {
        assert longer[|live|].key == k;
      }
      if HasKey(longer, k) && k != e.key {
        var i :| 0 <= i < |longer| && longer[i].key == k;
        assert live[i].key == k;
      }
    }
    assert forall x :: x in live ==> x in longer;
  }

  lemma {:induction false} LinkConsistent(
    live: seq<Entry>, byT: seq<Entry>, index: map<Key, Entry>, e: Entry, inserted: seq<Entry>)
    requires Consistent(live, byT, index) && EntryOk(e) && e.key !in index && InsertedAt(byT, e, inserted)
    ensures Consistent(live + [e], inserted, index[e.key := e])
  {
    IndexOne(index, live, e);
    InsertedKeeps(byT, e, inserted);
    assert multiset(live + [e]) == multiset(live) + multiset{e};
  }

  lemma {:induction false} UnindexOne(index: map<Key, Entry>, live: seq<Entry>)
    requires live != [] && Indexed(index, live) && DistinctKeys(live)
    ensures Indexed(index - {live[0].key}, live[1..]) && DistinctKeys(live[1..])
  {
    var m, rest := index - {live[0].key}, live[1..];
    forall k ensures k in m <==> HasKey(rest, k) {
      if HasKey(live, k) && k != live[0].key {
        var i :| 0 <= i < |live| && live[i].key == k;
        assert rest[i - 1].key == k;
      }
      if HasKey(rest, k) {
        var i :| 0 <= i < |rest| && rest[i].key == k;
        assert live[i + 1].key == k;
      }
    }
  }

  lemma {:induction false} UnindexNext(index: map<Key, Entry>, live: seq<Entry>, i: nat)
    requires IndexedFrom(index, live, i) && i < |live|
    ensures IndexedFrom(index - {live[i].key}, live, i + 1)
  {
    UnindexOne(index, live[i..]);
    assert live[i..][1..] == live[i + 1..];
  }

  lemma {:induction false} SameSize(a: seq<Entry>, b: seq<Entry>)
    requires multiset(a) == multiset(b)
    ensures |a| == |b|
  {
    assert |a| == |multiset(a)| && |b| == |multiset(b)|;
  }

  /** Within the size invariant an admission keeps the cap and the new entry. */
  lemma {:induction false} EvictBounds(live: seq<Entry>, e: Entry)
    requires |live| <= RING_MAX_SPOTS
    ensures var longer := live + [e]; var n := EvictCount(longer, e.recvMs);
      n < |longer| && |longer| - n <= RING_MAX_SPOTS
  {
    var longer := live + [e];
    assert longer[|live|] == e;
  }

  lemma {:induction false} BreakOutside(ivs: seq<Interval>, s: seq<Entry>, k: int, j: int)
    requires IntervalsOk(ivs, s) && 0 <= k < |ivs| && 0 < j < |ivs|
    ensures ivs[j].start <= ivs[k].start || ivs[k].end <= ivs[j - 1].end
  {
    hide Gap;
    hide IntervalGap;
    if j < k {
      assert ivs[j].end < ivs[k].start;
    } else if k < j - 1 {
      assert ivs[k].end < ivs[j - 1].start;
    }
  }

  lemma {:induction false} GapBreaks(ivs: seq<Interval>, s: seq<Entry>, a: int, b: int) returns (j: int)
    requires IntervalsOk(ivs, s) && Gap(s, a, b)
    ensures 0 < j < |ivs| && ivs[j - 1].end == a && ivs[j].start == b
  {
    hide Gap;
    assert IntervalGap(ivs, a, b);
    j :| 0 < j < |ivs| && ivs[j - 1].end == a && ivs[j].start == b;
  }

  /** Once interval `k` reaches from `t0` or earlier up to `upper`, no gap lies in between. */
  lemma {:induction false} GapsOutside(ivs: seq<Interval>, s: seq<Entry>, k: int, t0: int, upper: int)
    requires IntervalsOk(ivs, s) && 0 <= k < |ivs| && ivs[k].start <= t0 && upper <= ivs[k].end
    ensures forall a, b :: Gap(s, a, b) ==> b <= t0 || upper <= a
  {
    hide IntervalsOk;
    hide Gap;
    hide IntervalGap;
    forall a, b | Gap(s, a, b) ensures b <= t0 || upper <= a {
      var j := GapBreaks(ivs, s, a, b);
      BreakOutside(ivs, s, k, j);
    }
  }

  lemma {:induction false} EmptyBefore(s: seq<Entry>, t0: int, t1: int, i: int)
    requires 0 <= i <= |s| && forall k :: 0 <= k < i ==> s[k].t < t0
    ensures InWindow(s[..i], t0, t1) == []
  {
    if i > 0 {
      assert s[..i][..i - 1] == s[..i - 1];
      EmptyBefore(s, t0, t1, i - 1);
    }
  }

  lemma {:induction false} NoneAfter(s: seq<Entry>, t0: int, t1: int, i: int)
    requires Sorted(s) && 0 <= i <= |s| && (i < |s| ==> t1 < s[i].t)
    ensures InWindow(s, t0, t1) == InWindow(s[..i], t0, t1)
  {
    if i == |s| {
      assert s[..i] == s;
    } else {
      var n := |s| - 1;
      assert s[..n][..i] == s[..i];
      NoneAfter(s[..n], t0, t1, i);
    }
  }

  lemma {:induction false} WithoutSorted(s: seq<Entry>, i: int)
    requires Sorted(s) && 0 <= i < |s|
    ensures Sorted(s[..i] + s[i + 1..])
  {
    var r := s[..i] + s[i + 1..];
    forall j, k | 0 <= j < k < |r| ensures r[j].t <= r[k].t {
      assert r[j] == s[if j < i then j else j + 1] && r[k] == s[if k < i then k else k + 1];
    }
  }

  lemma {:induction false} Without(s: seq<Entry>, i: int)
    requires 0 <= i < |s|
    ensures multiset(s[..i] + s[i + 1..]) == multiset(s) - multiset{s[i]}
  {
    var a, b := s[..i], s[i + 1..];
    assert s == a + [s[i]] + b;
    assert multiset(s) == multiset(a) + multiset{s[i]} + multiset(b);
    assert multiset(a + b) == multiset(a) + multiset(b);
  }

  /** The walk over the intervals: does an unbroken stretch lead from `t0` to `upper`? */
  method Reaches(ivs: seq<Interval>, ghost s: seq<Entry>, t0: int, upper: int) returns (r: bool)
    requires IntervalsOk(ivs, s) && s != [] && s[0].t <= t0 <= upper <= s[|s| - 1].t
    ensures r <==> forall a, b :: Gap(s, a, b) ==> b <= t0 || upper <= a
  {
    var cursor := t0;
    for k := 0 to |ivs|
      invariant k == 0 ==> cursor == t0
      invariant k > 0 ==> (cursor == t0 && ivs[k - 1].end < t0) || (t0 <= cursor == ivs[k - 1].end < upper)
    {
      var iv := ivs[k];
      if iv.end < cursor {
        continue;
      }
      if iv.start > cursor {
        assert IntervalGap(ivs, ivs[k - 1].end, ivs[k].start);
        return false;
      }
      cursor := Min(iv.end, upper);
      if cursor >= upper {
        GapsOutside(ivs, s, k, t0, upper);
        return true;
      }
    }
    r := cursor >= upper;
  }

  class SessionRing {
    var byT: seq<Entry>
    var recv: seq<Entry>
    var recvHead: nat
    var index: map<Key, Entry>
    var coverage: seq<Interval>
    var coverageDirty: bool

    /** The retained spots in receive order. */
    ghost function Live(): seq<Entry>
      reads this
      requires recvHead <= |recv|
    {
      recv[recvHead..]
    }

    ghost predicate Linked()
      reads this
    {
      recvHead <= |recv| && Consistent(Live(), byT, index)
    }

    ghost predicate Valid()
      reads this
    {
      && Linked()
      && |Live()| <= RING_MAX_SPOTS
      && (!coverageDirty ==> coverage == Intervals(byT))
    }

    constructor ()
      ensures Valid() && Live() == []
    {
      byT, recv, recvHead, index, coverage, coverageDirty := [], [], 0, map[], [], true;
    }

    method Clear()
      modifies this
      ensures Valid() && Live() == []
    {
      byT, recv, recvHead, index, coverage, coverageDirty := [], [], 0, map[], [], true;
    }

    method InsertByT(e: Entry) returns (appended: bool)
      requires Sorted(byT)
      modifies this`byT
      ensures appended <==> old(byT) == [] || old(byT)[|old(byT)| - 1].t <= e.t
      ensures InsertedAt(old(byT), e, byT) && (appended ==> byT == old(byT) + [e])
    {
      if byT == [] || e.t >= byT[|byT| - 1].t {
        byT := byT + [e];
        assert FitsAt(old(byT), e, |old(byT)|);
        assert byT == old(byT)[..|old(byT)|] + [e] + old(byT)[|old(byT)|..];
        return true;
      }
      var i := LowerBound(byT, e.t);
      assert FitsAt(byT, e, i);
      byT := byT[..i] + [e] + byT[i..];
      return false;
    }

    method RemoveFromByT(e: Entry)
      requires Sorted(byT) && e in byT
      modifies this`byT
      ensures Sorted(byT) && multiset(byT) == multiset(old(byT)) - multiset{e}
    {
      var i := LowerBound(byT, e.t);
      ghost var at :| 0 <= at < |byT| && byT[at] == e;
      while i < |byT| && byT[i].t == e.t
        invariant 0 <= i <= at && byT == old(byT)
        invariant forall k :: i <= k <= at ==> byT[k].t == e.t
        decreases at - i
      {
        if byT[i] == e {
          WithoutSorted(byT, i);
          Without(byT, i);
          byT := byT[..i] + byT[i + 1..];
          return;
        }
        i := i + 1;
      }
    }

    /** Delete the keys of the `n` oldest-received entries; report whether `byT` starts with them. */
    method UnlinkIndex(first: nat, n: nat) returns (isByTPrefix: bool)
      requires first + n <= |recv| && n <= |byT|
      requires Indexed(index, recv[first..]) && DistinctKeys(recv[first..])
      modifies this`index
      ensures Indexed(index, recv[first + n..])
      ensures isByTPrefix <==> SamePrefix(byT, recv[first..], n)
    {
      isByTPrefix := true;
      ghost var live := recv[first..];
      for i := 0 to n
        invariant IndexedFrom(index, live, i)
        invariant isByTPrefix <==> SamePrefix(byT, live, i)
      {
        UnindexNext(index, live, i);
        index := index - {recv[first + i].key};
        if isByTPrefix && byT[i] != recv[first + i] {
          isByTPrefix := false;
        }
      }
      assert live[n..] == recv[first + n..];
    }

    /** Unlink the `n` oldest-received entries from `byT`, in one batch when they are its prefix. */
    method UnlinkByT(first: nat, n: nat, isByTPrefix: bool)
      requires first + n <= |recv| && n <= |byT| && Arranges(byT, recv[first..])
      requires isByTPrefix <==> SamePrefix(byT, recv[first..], n)
      modifies this`byT
      ensures Arranges(byT, recv[first + n..])
    {
      hide Sorted;
      ghost var live := recv[first..];
      assert live[n..] == recv[first + n..];
      if isByTPrefix {
        DropPrefix(byT, live, n);
        byT := byT[n..];
      } else {
        assert live[0..] == live;
        for i := 0 to n
          invariant Arranges(byT, live[i..])
        {
          ghost var rest := live[i..];
          assert recv[first + i] == rest[0] && rest[1..] == live[i + 1..];
          HeadIsThere(byT, rest);
          DropOne(rest);
          RemoveFromByT(recv[first + i]);
        }
      }
    }

    method CountEvicted(recvNowMs: int) returns (n: nat)
      requires recvHead <= |recv|
      ensures n == EvictCount(Live(), recvNowMs)
    {
      var cutoffMs := recvNowMs - RING_DEPTH_SECONDS * 1000;
      n := 0;
      while recvHead + n < |recv| && recv[recvHead + n].recvMs < cutoffMs
        invariant recvHead + n <= |recv|
        invariant forall i :: 0 <= i < n ==> Live()[i].recvMs < cutoffMs
      {
        n := n + 1;
      }
      ExpiredIs(Live(), cutoffMs, n);
      var retained := |recv| - recvHead - n;
      if retained > RING_MAX_SPOTS {
        n := retained - RING_MAX_SPOTS;
      }
    }

    /** Advance past `n` dead entries; splice the dead prefix off once it is large. */
    method AdvanceHead(n: nat)
      requires recvHead + n <= |recv|
      modifies this`recv, this`recvHead
      ensures recvHead <= |recv| && Live() == old(Live())[n..]
    {
      recvHead := recvHead + n;
      assert Live() == old(Live())[n..];
      if recvHead >= COMPACT_AT && recvHead * 2 >= |recv| {
        recv := recv[recvHead..];
        recvHead := 0;
        assert Live() == old(Live())[n..];
      }
    }

    method Evict(recvNowMs: int) returns (n: nat)
      requires Linked()
      modifies this`index, this`byT, this`recv, this`recvHead
      ensures Linked() && n == EvictCount(old(Live()), recvNowMs) && Live() == old(Live())[n..]
      ensures n == 0 ==> byT == old(byT)
    {
      hide Indexed;
      hide DistinctKeys;
      hide Sorted;
      hide SamePrefix;
      n := CountEvicted(recvNowMs);
      if n == 0 {
        assert Live() == old(Live())[0..];
        return;
      }
      ghost var live := Live();
      SameSize(byT, live);
      var isByTPrefix := UnlinkIndex(recvHead, n);
      UnlinkByT(recvHead, n, isByTPrefix);
      assert recv[recvHead..][n..] == recv[recvHead + n..];
      ConsistentRest(live, old(byT), old(index), n, byT, index);
      AdvanceHead(n);
    }

    /** The O(1) coverage update for an entry appended to `byT`. */
    method PatchCoverage(t: int)
      modifies this`coverage
      ensures coverage == Extend(old(coverage), t)
    {
      var n := |coverage|;
      if n > 0 && t - coverage[n - 1].end <= COVERAGE_GAP_SECONDS {
        coverage := coverage[n - 1 := coverage[n - 1].(end := t)];
        assert coverage == old(coverage)[..n - 1] + [old(coverage)[n - 1].(end := t)];
      } else {
        coverage := coverage + [Interval(t, t)];
      }
    }

    /** Link a new entry into all three structures. */
    method Link(e: Entry) returns (appended: bool)
      requires Linked() && EntryOk(e) && e.key !in index
      modifies this`index, this`recv, this`byT
      ensures Linked() && Live() == old(Live()) + [e]
      ensures appended ==> byT == old(byT) + [e]
    {
      hide Indexed;
      hide DistinctKeys;
      hide Sorted;
      index := index[e.key := e];
      recv := recv + [e];
      appended := InsertByT(e);
      assert Live() == old(Live()) + [e];
      LinkConsistent(old(Live()), old(byT), old(index), e, byT);
    }

    method Accept(e: Entry)
      requires Valid() && EntryOk(e) && e.key !in index
      modifies this
      ensures Valid() && Live() == Admit(old(Live()), e)
    {
      hide Consistent;
      hide EvictCount;
      var appended := Link(e);
      var evicted := Evict(e.recvMs);
      EvictBounds(old(Live()), e);
      if evicted == 0 && !coverageDirty && appended {
        assert (old(byT) + [e])[..|old(byT)|] == old(byT);
        PatchCoverage(e.t);
      } else {
        coverageDirty := true;
      }
    }

    method Push(spot: LiveSpot, clockMs: int) returns (accepted: bool)
      requires Valid()
      modifies this
      ensures Valid() && Live() == PushList(old(Live()), spot, clockMs)
      ensures accepted <==> spot.source != Wspr && !HasKey(old(Live()), EntryOf(spot, clockMs).key)
    {
      if spot.source == Wspr {
        return false;
      }
      var e := EntryOf(spot, clockMs);
      if e.key in index {
        return false;
      }
      Accept(e);
      accepted := true;
    }

    method BuildCoverageIntervals()
      modifies this`coverage, this`coverageDirty
      ensures coverage == Intervals(byT) && !coverageDirty
    {
      var ivs: seq<Interval> := [];
      for i := 0 to |byT|
        invariant ivs == Intervals(byT[..i])
      {
        assert byT[..i + 1][..i] == byT[..i];
        var n := |ivs|;
        if n > 0 && byT[i].t - ivs[n - 1].end <= COVERAGE_GAP_SECONDS {
          ivs := ivs[..n - 1] + [ivs[n - 1].(end := byT[i].t)];
        } else {
          ivs := ivs + [Interval(byT[i].t, byT[i].t)];
        }
      }
      assert byT[..|byT|] == byT;
      coverage, coverageDirty := ivs, false;
    }

    method Covers(t0: int, t1: int) returns (r: bool)
      requires Valid()
      modifies this`coverage, this`coverageDirty
      ensures Valid() && Live() == old(Live())
      ensures r <==> Covered(byT, t0, t1)
      ensures r <==> CoveredList(Live(), t0, t1)
    {
      hide Indexed;
      hide DistinctKeys;
      hide Gap;
      hide CoveredList;
      hide IntervalsOk;
      CoveredIsCovered(byT, Live(), t0, t1);
      if |byT| == 0 {
        return false;
      }
      var minT, lastT := byT[0].t, byT[|byT| - 1].t;
      if minT > t0 {
        return false;
      }
      var upper := Min(t1, lastT);
      if upper < t0 {
        return false;
      }
      if coverageDirty {
        BuildCoverageIntervals();
      }
      IntervalsFaithful(byT);
      r := Reaches(coverage, byT, t0, upper);
    }

    method Slice(t0: int, t1: int) returns (out: seq<Raw>)
      requires Valid()
      ensures out == InWindow(byT, t0, t1)
    {
      out := [];
      var i := LowerBound(byT, t0);
      EmptyBefore(byT, t0, t1, i);
      while i < |byT| && byT[i].t <= t1
        invariant 0 <= i <= |byT| && out == InWindow(byT[..i], t0, t1)
        invariant forall k :: i <= k < |byT| ==> t0 <= byT[k].t
      {
        assert byT[..i + 1][..i] == byT[..i];
        out := out + [byT[i].raw];
        i := i + 1;
      }
      NoneAfter(byT, t0, t1, i);
    }

    method SliceFiltered(t0: int, t1: int, f: Filter) returns (out: seq<Raw>)
      requires Valid()
      ensures out == Keep(InWindow(byT, t0, t1), f)
    {
      var all := Slice(t0, t1);
      out := [];
      for i := 0 to |all|
        invariant out == Keep(all[..i], f)
      {
        assert all[..i + 1][..i] == all[..i];
        if FilterAllowed(all[i], f) {
          out := out + [all[i]];
        }
      }
      assert all[..|all|] == all;
    }
  }
}
