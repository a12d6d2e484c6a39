/** Laws of the session ring, stated on the plain receive-ordered list it refines. */
module RingLaws {
  import opened Basics
  import opened Spots
  import opened SessionRings

  // ── eviction ──

  /**
   The count of entries to evict replaces the count of expired ones when too many remain. The replaced
   count does both jobs exactly when nothing had expired or few enough remained.
   */
  lemma {:induction false} OverwrittenCount(live: seq<Entry>, recvNowMs: int)
    ensures var expired := Expired(live, recvNowMs - RING_DEPTH_SECONDS * 1000);
      var n := EvictCount(live, recvNowMs);
      (expired <= n && |live| - n <= RING_MAX_SPOTS) <==> (expired == 0 || |live| - expired <= RING_MAX_SPOTS)
  {
  }

  ghost predicate ReceiveOrdered(live: seq<Entry>) {
    forall i, j :: 0 <= i < j < |live| ==> live[i].recvMs <= live[j].recvMs
  }

  /** A push keeps the cap, the new spot, and a suffix of what was there. */
  lemma {:induction false} AdmitKeeps(live: seq<Entry>, e: Entry)
    requires |live| <= RING_MAX_SPOTS
    ensures var r := Admit(live, e);
      && 0 < |r| <= RING_MAX_SPOTS && r[|r| - 1] == e
      && (exists n :: 0 <= n <= |live| && r == live[n..] + [e])
  {
    EvictBounds(live, e);
    var n := EvictCount(live + [e], e.recvMs);
    assert (live + [e])[n..] == live[n..] + [e];
  }

  lemma {:induction false} KeptAreFresh(longer: seq<Entry>, cutoff: int, n: nat, i: nat)
    requires ReceiveOrdered(longer) && Expired(longer, cutoff) <= n <= i < |longer|
    ensures cutoff <= longer[i].recvMs
  {
    assert longer[Expired(longer, cutoff)].recvMs <= longer[i].recvMs;
  }

  lemma {:induction false} KeptInOrder(longer: seq<Entry>, n: nat)
    requires ReceiveOrdered(longer) && n <= |longer|
    ensures ReceiveOrdered(longer[n..])
  {
  }

  lemma {:induction false} InSuffix(s: seq<Entry>, n: nat, i: nat)
    requires n <= |s| && i < |s|
    ensures n <= i ==> s[i] in s[n..]
  {
    if n <= i {
      assert s[n..][i - n] == s[i];
    }
  }

  /** Within the size invariant more than the expired entries go only if the ring was full: then the oldest goes. */
  lemma {:induction false} EvictCountFits(live: seq<Entry>, e: Entry)
    requires |live| <= RING_MAX_SPOTS
    ensures var longer := live + [e];
      var expired, n := Expired(longer, e.recvMs - RING_DEPTH_SECONDS * 1000), EvictCount(longer, e.recvMs);
      expired <= n && (expired < n ==> |live| == RING_MAX_SPOTS && expired == 0 && n == 1)
  {
  }

  /**
   With receive times in order, what goes is exactly what is older than six hours, and one more spot
   only if the ring was full.
   */
  lemma {:induction false} AdmitEvictsTheOld(live: seq<Entry>, e: Entry)
    requires |live| <= RING_MAX_SPOTS && ReceiveOrdered(live + [e])
    ensures var r, cutoff := Admit(live, e), e.recvMs - RING_DEPTH_SECONDS * 1000;
      && (forall x :: x in r ==> cutoff <= x.recvMs) && ReceiveOrdered(r)
      && (forall x :: x in live && cutoff <= x.recvMs && x !in r
                      ==> |live| == RING_MAX_SPOTS && x == live[0] && cutoff <= live[0].recvMs)
  {
    hide ReceiveOrdered;
    hide Expired;
    hide EvictCount;
    var longer, cutoff := live + [e], e.recvMs - RING_DEPTH_SECONDS * 1000;
    var n := EvictCount(longer, e.recvMs);
    var r := longer[n..];
    EvictCountFits(live, e);
    KeptInOrder(longer, n);
    forall x | x in r ensures cutoff <= x.recvMs {
      var i :| 0 <= i < |r| && r[i] == x;
      KeptAreFresh(longer, cutoff, n, n + i);
    }
    forall x | x in live && cutoff <= x.recvMs && x !in r
      ensures |live| == RING_MAX_SPOTS && x == live[0] && cutoff <= live[0].recvMs
    {
      var i :| 0 <= i < |live| && live[i] == x;
      assert longer[i] == x;
      InSuffix(longer, n, i);
    }
  }

  // ── whole feeds ──

  datatype Fed = Fed(spot: LiveSpot, clockMs: int)

  function RawOf(f: Fed): Raw { EntryOf(f.spot, f.clockMs).raw }

  function KeyOf(f: Fed): Key { EntryOf(f.spot, f.clockMs).key }

  function StampOf(f: Fed): int { RecvMs(f.spot, f.clockMs) }

  /** The plain list after a feed, starting from a cleared ring. */
  function Feed(fed: seq<Fed>): seq<Entry> {
    if fed == [] then []
    else PushList(Feed(fed[..|fed| - 1]), fed[|fed| - 1].spot, fed[|fed| - 1].clockMs)
  }

  ghost predicate StampsInOrder(fed: seq<Fed>) {
    forall i, j :: 0 <= i < j < |fed| ==> StampOf(fed[i]) <= StampOf(fed[j])
  }

  ghost predicate StampedBy(live: seq<Entry>, ms: int) {
    forall i :: 0 <= i < |live| ==> live[i].recvMs <= ms
  }

  lemma {:induction false} PushKeepsOrder(live: seq<Entry>, e: Entry)
    requires |live| <= RING_MAX_SPOTS && ReceiveOrdered(live) && StampedBy(live, e.recvMs)
    ensures ReceiveOrdered(Admit(live, e)) && StampedBy(Admit(live, e), e.recvMs)
    ensures forall x :: x in Admit(live, e) ==> e.recvMs - RING_DEPTH_SECONDS * 1000 <= x.recvMs
  {
    assert ReceiveOrdered(live + [e]);
    AdmitEvictsTheOld(live, e);
    AdmitKeeps(live, e);
  }

  lemma {:induction false} DistinctGrows(s: seq<Entry>, e: Entry)
    requires DistinctKeys(s) && forall i :: 0 <= i < |s| ==> s[i].key != e.key
    ensures DistinctKeys(s + [e])
  {
  }

  lemma {:induction false} AdmitKeepsDistinct(live: seq<Entry>, e: Entry)
    requires |live| <= RING_MAX_SPOTS && DistinctKeys(live) && !HasKey(live, e.key)
    ensures DistinctKeys(Admit(live, e))
  {
    AdmitKeeps(live, e);
    var n :| 0 <= n <= |live| && Admit(live, e) == live[n..] + [e];
    forall i | 0 <= i < |live| ensures live[i].key != e.key {
    }
    DistinctGrows(live[n..], e);
  }

  /** After any feed: at most 50 000 distinct spots; with stamps in order, none older than six hours. */
  lemma {:induction false} FeedBounds(fed: seq<Fed>)
    ensures |Feed(fed)| <= 50_000 && DistinctKeys(Feed(fed))
    ensures StampsInOrder(fed) ==> ReceiveOrdered(Feed(fed))
    ensures StampsInOrder(fed) && fed != [] ==>
      StampedBy(Feed(fed), StampOf(fed[|fed| - 1]))
    ensures StampsInOrder(fed) && Feed(fed) != [] ==>
      forall x :: x in Feed(fed) ==> Feed(fed)[|Feed(fed)| - 1].recvMs - 21_600_000 <= x.recvMs
  {
    if fed != [] {
      var n := |fed| - 1;
      var before, last := fed[..n], fed[n];
      var live, e := Feed(before), EntryOf(last.spot, last.clockMs);
      FeedBounds(before);
      if StampsInOrder(fed) {
        assert StampsInOrder(before);
        if n > 0 {
          assert StampOf(fed[n - 1]) <= e.recvMs;
        }
      }
      if last.spot.source != Wspr && !HasKey(live, e.key) {
        AdmitKeeps(live, e);
        AdmitKeepsDistinct(live, e);
        if StampsInOrder(fed) {
          PushKeepsOrder(live, e);
        }
      }
    }
  }

  lemma {:induction false} OrderedPush(before: seq<Fed>, f: Fed)
    requires StampsInOrder(before + [f])
    ensures |Feed(before)| <= RING_MAX_SPOTS && ReceiveOrdered(Feed(before) + [EntryOf(f.spot, f.clockMs)])
  {
    var full, n := before + [f], |before|;
    FeedBounds(before);
    assert forall i :: 0 <= i < n ==> full[i] == before[i];
    assert StampsInOrder(before);
    if n > 0 {
      assert StampOf(full[n - 1]) <= StampOf(full[n]);
    }
  }

  lemma {:induction false} FeedEntriesOk(fed: seq<Fed>)
    ensures forall i :: 0 <= i < |Feed(fed)| ==> EntryOk(Feed(fed)[i])
  {
    if fed != [] {
      FeedEntriesOk(fed[..|fed| - 1]);
    }
  }

  lemma {:induction false} NoWsprHeld(full: seq<Fed>)
    ensures forall k :: 0 <= k < |Feed(full)| ==> Feed(full)[k].raw.source != Wspr
  {
    if full != [] {
      NoWsprHeld(full[..|full| - 1]);
    }
  }

  // ── what a feed leaves behind ──

  ghost predicate AgesOk(fed: seq<Fed>) {
    forall i :: 0 <= i < |fed| ==> 0 <= RecvAge(fed[i].spot)
  }

  /** No spot held is from after its receipt. */
  lemma {:induction false} HeldAged(fed: seq<Fed>)
    requires AgesOk(fed)
    ensures forall k :: 0 <= k < |Feed(fed)| ==> Feed(fed)[k].key.t <= Feed(fed)[k].recvMs / 1000
  {
    if fed != [] {
      var n := |fed| - 1;
      HeldAged(fed[..n]);
    }
  }

  lemma {:induction false} SuffixHasKey(s: seq<Entry>, n: nat, k: nat)
    requires n <= |s| && k < |s|
    ensures n <= k ==> HasKey(s[n..], s[k].key)
  {
    if n <= k {
      assert s[n..][k - n].key == s[k].key;
    }
  }

  lemma {:induction false} NewestHeld(live: seq<Entry>, e: Entry)
    requires |live| <= RING_MAX_SPOTS
    ensures HasKey(Admit(live, e), e.key)
  {
    EvictBounds(live, e);
    SuffixHasKey(live + [e], EvictCount(live + [e], e.recvMs), |live|);
  }

  /** A spot that an admission drops is no later than the oldest receipt that stays. */
  lemma {:induction false} DroppedIsOld(live: seq<Entry>, e: Entry, key: Key)
    requires |live| <= RING_MAX_SPOTS && ReceiveOrdered(live + [e])
    requires forall k :: 0 <= k < |live| ==> live[k].key.t <= live[k].recvMs / 1000
    requires HasKey(live, key) && !HasKey(Admit(live, e), key)
    ensures Admit(live, e) != [] && key.t <= Admit(live, e)[0].recvMs / 1000
  {
    var longer := live + [e];
    var n := EvictCount(longer, e.recvMs);
    EvictBounds(live, e);
    var p :| 0 <= p < |live| && live[p].key == key;
    SuffixHasKey(longer, n, p);
    assert longer[p].recvMs <= longer[n].recvMs;
  }

  lemma {:induction false} OldestLater(live: seq<Entry>, e: Entry)
    requires live != [] && |live| <= RING_MAX_SPOTS && ReceiveOrdered(live + [e])
    ensures Admit(live, e) != [] && live[0].recvMs <= Admit(live, e)[0].recvMs
  {
    var longer := live + [e];
    EvictBounds(live, e);
    assert longer[0].recvMs <= longer[EvictCount(longer, e.recvMs)].recvMs;
  }

  /**
   What the ring has forgotten, at whatever length of feed: a spot it no longer holds is from no later than
   the receipt of the oldest spot it still holds.
   */
  lemma {:induction false} Forgotten(fed: seq<Fed>, i: nat)
    requires StampsInOrder(fed) && AgesOk(fed) && i < |fed| && fed[i].spot.source != Wspr
    requires !HasKey(Feed(fed), KeyOf(fed[i]))
    ensures Feed(fed) != [] && KeyOf(fed[i]).t <= Feed(fed)[0].recvMs / 1000
  {
    hide Admit;
    hide ReceiveOrdered;
    hide HasKey;
    hide EntryOf;
    hide StampOf;
    hide RecvAge;
    var n := |fed| - 1;
    var before, f, key := fed[..n], fed[n], KeyOf(fed[i]);
    var live, e := Feed(before), EntryOf(fed[n].spot, fed[n].clockMs);
    assert fed == before + [f] && (i < n ==> before[i] == fed[i]);
    if f.spot.source == Wspr || HasKey(live, e.key) {
      Forgotten(before, i);
    } else {
      OrderedPush(before, f);
      NewestHeld(live, e);
      HeldAged(before);
      if HasKey(live, key) {
        DroppedIsOld(live, e, key);
      } else {
        Forgotten(before, i);
        OldestLater(live, e);
      }
    }
  }

  // ── spots that are surely still held ──

  /** The spot of key `key` is held, behind it at most `more` later ones. */
  ghost predicate HeldWithin(live: seq<Entry>, key: Key, recvMs: int, more: int) {
    exists p :: 0 <= p < |live| && live[p].key == key && live[p].recvMs == recvMs && |live| - 1 - p <= more
  }

  lemma {:induction false} StaysWithin(live: seq<Entry>, e: Entry, key: Key, recvMs: int, more: nat)
    requires |live| <= RING_MAX_SPOTS && HeldWithin(live, key, recvMs, more) && more + 1 < RING_MAX_SPOTS
    requires e.recvMs - RING_DEPTH_SECONDS * 1000 <= recvMs
    ensures HeldWithin(Admit(live, e), key, recvMs, more + 1)
  {
    var longer := live + [e];
    var n := EvictCount(longer, e.recvMs);
    var p :| 0 <= p < |live| && live[p].key == key && live[p].recvMs == recvMs && |live| - 1 - p <= more;
    assert longer[p] == live[p];
    EvictCountFits(live, e);
    assert n <= p;
    assert longer[n..][p - n] == longer[p];
  }

  lemma {:induction false} AdmittedHeld(live: seq<Entry>, e: Entry)
    requires |live| <= RING_MAX_SPOTS
    ensures HeldWithin(Admit(live, e), e.key, e.recvMs, 0)
  {
    hide Admit;
    AdmitKeeps(live, e);
    assert Admit(live, e)[|Admit(live, e)| - 1] == e;
  }

  lemma {:induction false} StillWithin(live: seq<Entry>, key: Key, recvMs: int, more: int)
    requires HeldWithin(live, key, recvMs, more)
    ensures HeldWithin(live, key, recvMs, more + 1)
  {
  }

  /** A spot taken at place `j` is held while fewer than the cap follow it, within six hours. */
  lemma {:induction false} HeldFor(fed: seq<Fed>, j: nat)
    requires StampsInOrder(fed) && j < |fed| && fed[j].spot.source != Wspr && !HasKey(Feed(fed[..j]), KeyOf(fed[j]))
    requires |fed| - 1 - j < RING_MAX_SPOTS
    requires StampOf(fed[|fed| - 1]) - StampOf(fed[j]) <= RING_DEPTH_SECONDS * 1000
    ensures HeldWithin(Feed(fed), KeyOf(fed[j]), StampOf(fed[j]), |fed| - 1 - j)
  {
    hide HeldWithin;
    hide Admit;
    hide HasKey;
    var n := |fed| - 1;
    var before, live := fed[..n], Feed(fed[..n]);
    var e := EntryOf(fed[n].spot, fed[n].clockMs);
    FeedBounds(before);
    if j == n {
      AdmittedHeld(live, e);
    } else {
      assert before[j] == fed[j] && before[..j] == fed[..j];
      assert StampOf(before[n - 1]) <= StampOf(fed[n]);
      HeldFor(before, j);
      StillWithin(live, KeyOf(fed[j]), StampOf(fed[j]), n - 1 - j);
      if fed[n].spot.source != Wspr && !HasKey(live, e.key) {
        StaysWithin(live, e, KeyOf(fed[j]), StampOf(fed[j]), n - 1 - j);
      }
    }
  }

  // ── coverage ──

  /** A covered window's sub-windows that start no later than the last spot are covered. */
  lemma {:induction false} SubWindowCovered(s: seq<Entry>, t0: int, t1: int, u0: int, u1: int)
    requires CoveredList(s, t0, t1) && t0 <= u0 <= u1 <= t1
    requires exists i :: 0 <= i < |s| && u0 <= s[i].t
    ensures CoveredList(s, u0, u1)
  {
    var i :| 0 <= i < |s| && s[i].t <= t0;
    assert s[i].t <= u0;
  }

  /** The latest time up to `t`. */
  lemma {:induction false} LatestUpTo(s: seq<Entry>, t: int) returns (a: int)
    requires exists i :: 0 <= i < |s| && s[i].t <= t
    ensures HasTime(s, a) && a <= t && forall i :: 0 <= i < |s| && s[i].t <= t ==> s[i].t <= a
  {
    var n := |s| - 1;
    if exists i :: 0 <= i < n && s[i].t <= t {
      var k :| 0 <= k < n && s[k].t <= t;
      assert s[..n][k].t <= t;
      a := LatestUpTo(s[..n], t);
      var j :| 0 <= j < n && s[..n][j].t == a;
      assert s[j].t == a;
      if a <= s[n].t <= t {
        a := s[n].t;
      }
      forall i | 0 <= i < |s| && s[i].t <= t ensures s[i].t <= a {
        if i < n {
          assert s[..n][i].t <= t;
        }
      }
    } else {
      a := s[n].t;
    }
  }

  lemma {:induction false} EarliestFrom(s: seq<Entry>, t: int) returns (b: int)
    requires exists i :: 0 <= i < |s| && t <= s[i].t
    ensures HasTime(s, b) && t <= b && forall i :: 0 <= i < |s| && t <= s[i].t ==> b <= s[i].t
  {
    var n := |s| - 1;
    if exists i :: 0 <= i < n && t <= s[i].t {
      var k :| 0 <= k < n && t <= s[k].t;
      assert t <= s[..n][k].t;
      b := EarliestFrom(s[..n], t);
      var j :| 0 <= j < n && s[..n][j].t == b;
      assert s[j].t == b;
      if t <= s[n].t <= b {
        b := s[n].t;
      }
      forall i | 0 <= i < |s| && t <= s[i].t ensures b <= s[i].t {
        if i < n {
          assert t <= s[..n][i].t;
        }
      }
    } else {
      b := s[n].t;
    }
  }

  lemma {:induction false} OldTime(s: seq<Entry>, e: Entry, t: int)
    requires HasTime(s + [e], t) && t != e.t
    ensures HasTime(s, t)
  {
    var i :| 0 <= i < |s| + 1 && (s + [e])[i].t == t;
    assert s[i].t == t;
  }

  /** A gap after the insertion lies inside a gap from before it, or is one. */
  lemma {:induction false} GapAfterDump(s: seq<Entry>, e: Entry, t0: int, t1: int, a: int, b: int)
    requires CoveredList(s, t0, t1) && GapIn(s + [e], a, b)
    requires exists i :: 0 <= i < |s| && e.t <= s[i].t
    ensures b <= t0 || t1 <= a
  {
    var r := s + [e];
    forall i | 0 <= i < |s| ensures s[i].t <= a || b <= s[i].t {
      assert r[i] == s[i];
    }
    var i :| 0 <= i < |s| && s[i].t <= t0;
    if b > t0 {
      assert s[i].t <= a;
      var a' := LatestUpTo(s, a);
      var b' := b;
      if b == e.t {
        b' := EarliestFrom(s, b);
      } else {
        OldTime(s, e, b);
      }
      assert GapIn(s, a', b');
    }
  }

  /** A spot from a reconnect dump, no later than the last one, never uncovers a window. */
  lemma {:induction false} DumpKeepsCovered(s: seq<Entry>, e: Entry, t0: int, t1: int)
    requires CoveredList(s, t0, t1)
    requires exists i :: 0 <= i < |s| && e.t <= s[i].t
    ensures CoveredList(s + [e], t0, t1)
  {
    var r := s + [e];
    var i :| 0 <= i < |s| && s[i].t <= t0;
    assert r[i].t <= t0;
    var j :| 0 <= j < |s| && t0 <= s[j].t;
    assert t0 <= r[j].t;
    forall a, b | GapIn(r, a, b) ensures b <= t0 || t1 <= a {
      GapAfterDump(s, e, t0, t1, a, b);
    }
  }

  // ── slices ──

  lemma {:induction false} InWindowHas(s: seq<Entry>, t0: int, t1: int, raw: Raw)
    ensures raw in InWindow(s, t0, t1) <==> exists i :: 0 <= i < |s| && s[i].raw == raw && t0 <= s[i].t <= t1
  {
    if s != [] {
      var n := |s| - 1;
      InWindowHas(s[..n], t0, t1, raw);
      if i :| 0 <= i < |s| && s[i].raw == raw && t0 <= s[i].t <= t1 && i < n {
        assert s[..n][i].raw == raw;
      }
      if i :| 0 <= i < n && s[..n][i].raw == raw && t0 <= s[..n][i].t <= t1 {
        assert s[i].raw == raw;
      }
    }
  }

  ghost predicate RawsSorted(out: seq<Raw>) { forall i, j :: 0 <= i < j < |out| ==> out[i].t <= out[j].t }

  ghost predicate RawsDistinct(out: seq<Raw>) {
    forall i, j :: 0 <= i < j < |out| ==> SpotIdentity(out[i]) != SpotIdentity(out[j])
  }

  lemma {:induction false} InWindowOrdered(s: seq<Entry>, t0: int, t1: int)
    requires Sorted(s) && DistinctKeys(s) && forall i :: 0 <= i < |s| ==> EntryOk(s[i])
    ensures RawsSorted(InWindow(s, t0, t1)) && RawsDistinct(InWindow(s, t0, t1))
  {
    if s != [] {
      var n := |s| - 1;
      var out := InWindow(s[..n], t0, t1);
      InWindowOrdered(s[..n], t0, t1);
      forall i | 0 <= i < |out| ensures out[i].t <= s[n].t && SpotIdentity(out[i]) != s[n].key {
        InWindowHas(s[..n], t0, t1, out[i]);
        assert out[i] in out;
        var k :| 0 <= k < n && s[..n][k].raw == out[i];
        assert s[k].raw == out[i];
      }
    }
  }

  lemma {:induction false} OnceEach(s: seq<Entry>, x: Entry)
    requires DistinctKeys(s)
    ensures multiset(s)[x] <= 1
  {
    if s != [] {
      var n := |s| - 1;
      assert s == s[..n] + [s[n]];
      OnceEach(s[..n], x);
      assert forall i :: 0 <= i < n ==> s[..n][i] != s[n];
      assert x == s[n] ==> x !in multiset(s[..n]);
    }
  }

  lemma {:induction false} TwiceIsTwo(s: seq<Entry>, i: int, j: int)
    requires 0 <= i < j < |s| && s[i] == s[j]
    ensures multiset(s)[s[i]] >= 2
  {
    assert s == s[..j] + s[j..];
    assert s[i] in s[..j] && s[j] in s[j..];
    assert multiset(s) == multiset(s[..j]) + multiset(s[j..]);
    assert s[..j][i] in multiset(s[..j]) && s[j..][0] in multiset(s[j..]);
  }

  lemma {:induction false} DistinctPermutation(a: seq<Entry>, b: seq<Entry>)
    requires multiset(a) == multiset(b) && DistinctKeys(b)
    ensures DistinctKeys(a)
  {
    forall i, j | 0 <= i < j < |a| ensures a[i].key != a[j].key {
      if a[i].key == a[j].key {
        SameTimes(a, b, i);
        var p :| 0 <= p < |b| && b[p] == a[i];
        SameTimes(a, b, j);
        var q :| 0 <= q < |b| && b[q] == a[j];
        assert p == q;
        TwiceIsTwo(a, i, j);
        OnceEach(b, a[i]);
      }
    }
  }

  /**
   A slice of the ring holds exactly the retained spots of the window, each once, in time order: a
   statement about the plain list alone.
   */
  lemma {:induction false} SliceMeaning(live: seq<Entry>, byT: seq<Entry>, index: map<Key, Entry>, t0: int, t1: int)
    requires Consistent(live, byT, index)
    ensures var out := InWindow(byT, t0, t1);
      && RawsSorted(out) && RawsDistinct(out)
      && (forall raw :: raw in out <==> exists i :: 0 <= i < |live| && live[i].raw == raw && t0 <= live[i].t <= t1)
  {
    DistinctPermutation(byT, live);
    forall i | 0 <= i < |byT| ensures EntryOk(byT[i]) {
      SameTimes(byT, live, i);
    }
    InWindowOrdered(byT, t0, t1);
    forall raw
      ensures raw in InWindow(byT, t0, t1)
              <==> exists i :: 0 <= i < |live| && live[i].raw == raw && t0 <= live[i].t <= t1
    {
      InWindowHas(byT, t0, t1, raw);
      if i :| 0 <= i < |live| && live[i].raw == raw && t0 <= live[i].t <= t1 {
        SameTimes(live, byT, i);
      }
      if i :| 0 <= i < |byT| && byT[i].raw == raw && t0 <= byT[i].t <= t1 {
        SameTimes(byT, live, i);
      }
    }
  }
}
