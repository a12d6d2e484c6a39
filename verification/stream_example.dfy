/**
 Short feeds that show which conditions are needed: for a ring of the full feed to show no more than the
 ring of the delivered feed does, and for a covered window to be served whole.
 */
module StreamExamples {
  import opened Basics
  import opened Spots
  import opened SessionRings
  import opened RingLaws
  import opened StreamFilters

  const STREAMED := Streamed({"20m"}, NoMode, None, None, true, true)

  const CONTROLS := Controls(Filter({"20m"}, NoMode, 0, 0), "", true, true)

  /** A spot received at `recvMs`, then `age` seconds old; `snr` tells apart spots that agree otherwise. */
  function At(recvMs: int, age: int, band: string, snr: int): Fed {
    Fed(LiveSpot(Some(recvMs), Some(age), None, Mqtt, band, Some(snr), "", ""), 0)
  }

  function Made(f: Fed): Entry { EntryOf(f.spot, f.clockMs) }

  function Pushed(live: seq<Entry>, f: Fed): seq<Entry> { PushList(live, f.spot, f.clockMs) }

  lemma {:induction false} MadeIs(recvMs: int, age: int, band: string, snr: int)
    ensures var f := At(recvMs, age, band, snr);
      && Made(f).recvMs == recvMs == StampOf(f) && RecvAge(f.spot) == age && f.spot.source == Mqtt
      && Made(f).key == KeyOf(f) == Key(Mqtt, band, Some(snr), "", recvMs / 1000 - age)
      && Made(f).t == recvMs / 1000 - age && RawOf(f) == Made(f).raw
      && (Visible(Made(f), CONTROLS) <==> band == "20m") && (StreamAllowed(RawOf(f), STREAMED) <==> band == "20m")
  {
  }

  /** The rings of the full and of the delivered feed after some spots. */
  ghost predicate Rings(fed: seq<Fed>, full: seq<Entry>, delivered: seq<Entry>) {
    Feed(fed) == full && Feed(Delivered(fed, STREAMED)) == delivered
  }

  lemma {:induction false} FeedMore(fed: seq<Fed>, f: Fed, a: seq<Entry>, b: seq<Entry>)
    requires Rings(fed, a, b)
    ensures Rings(fed + [f], Pushed(a, f), if StreamAllowed(RawOf(f), STREAMED) then Pushed(b, f) else b)
  {
    var d := Delivered(fed, STREAMED);
    hide StreamAllowed;
    hide PushList;
    assert (fed + [f])[..|fed|] == fed && (d + [f])[..|d|] == d;
  }

  /** A new spot joins an uncrowded list whose first `n` entries have expired. */
  lemma {:induction false} PushedBehind(live: seq<Entry>, f: Fed, n: nat)
    requires f.spot.source == Mqtt && !HasKey(live, Made(f).key) && n <= |live| && |live| - n < RING_MAX_SPOTS
    requires forall k :: 0 <= k < n ==> live[k].recvMs < Made(f).recvMs - RING_DEPTH_SECONDS * 1000
    requires n < |live| ==> Made(f).recvMs - RING_DEPTH_SECONDS * 1000 <= live[n].recvMs
    ensures Pushed(live, f) == live[n..] + [Made(f)]
  {
    var e := Made(f);
    ExpiredIs(live + [e], e.recvMs - RING_DEPTH_SECONDS * 1000, n);
    assert (live + [e])[n..] == live[n..] + [e];
  }

  lemma {:induction false} Refused(live: seq<Entry>, f: Fed)
    requires HasKey(live, Made(f).key)
    ensures Pushed(live, f) == live
  {
  }

  lemma {:induction false} NotAmong(s: seq<Entry>, key: Key)
    requires |s| <= 2 && (|s| > 0 ==> s[0].key != key) && (|s| > 1 ==> s[1].key != key)
    ensures !HasKey(s, key)
  {
  }

  lemma {:induction false} FirstRings(f: Fed)
    requires f.spot.source == Mqtt && StreamAllowed(RawOf(f), STREAMED)
    ensures Rings([f], [Made(f)], [Made(f)])
  {
    NotAmong([], Made(f).key);
    PushedBehind([], f, 0);
    FeedMore([], f, [], []);
    assert [] + [f] == [f] && [][0..] + [Made(f)] == [Made(f)];
  }

  lemma {:induction false} ShowsMore(s: seq<Entry>, g: Entry, h: Entry)
    requires Visible(g, CONTROLS) && Visible(h, CONTROLS)
    ensures !EndsWith(VisibleOnes([h], CONTROLS), VisibleOnes(s + [g] + [h], CONTROLS))
  {
    VisibleAfter([], h, CONTROLS);
    VisibleAfter(s + [g], h, CONTROLS);
    VisibleAfter(s, g, CONTROLS);
    hide Visible;
    assert [] + [h] == [h];
  }

  // ── a repeat after the ring of the full feed was crowded ──

  /** Spots of a band that is withheld, all received one second after the first spot. */
  function Crowd(n: nat): (r: seq<Fed>)
    ensures |r| == n
  {
    seq(n, k => At(1_000, 0, "40m", k))
  }

  function CrowdMade(n: nat): (r: seq<Entry>)
    ensures |r| == n
  {
    seq(n, k => Made(At(1_000, 0, "40m", k)))
  }

  const FIRST := At(0, 0, "20m", 0)

  lemma {:induction false} CrowdDistinct(e: Entry, n: nat)
    requires e == Made(FIRST)
    ensures !HasKey([e] + CrowdMade(n), Made(At(1_000, 0, "40m", n)).key) && !HasKey(CrowdMade(n), e.key)
  {
    MadeIs(1_000, 0, "40m", n);
    MadeIs(0, 0, "20m", 0);
    forall k | 0 <= k < n
      ensures CrowdMade(n)[k].key != Made(At(1_000, 0, "40m", n)).key && CrowdMade(n)[k].key != e.key
    {
      MadeIs(1_000, 0, "40m", k);
    }
  }

  lemma {:induction false} CrowdGrows(n: nat)
    ensures var f := At(1_000, 0, "40m", n);
      Crowd(n + 1) == Crowd(n) + [f] && CrowdMade(n + 1) == CrowdMade(n) + [Made(f)]
  {
    hide Made;
  }

  lemma {:induction false} CrowdJoined(m: nat)
    requires m + 1 < RING_MAX_SPOTS && Rings([FIRST] + Crowd(m), [Made(FIRST)] + CrowdMade(m), [Made(FIRST)])
    ensures Rings([FIRST] + Crowd(m + 1), [Made(FIRST)] + CrowdMade(m + 1), [Made(FIRST)])
  {
    hide Rings;
    hide Made;
    hide Pushed;
    hide HasKey;
    hide Crowd;
    hide CrowdMade;
    hide StreamAllowed;
    hide RawOf;
    var f, e := At(1_000, 0, "40m", m), Made(FIRST);
    var held := [e] + CrowdMade(m);
    MadeIs(0, 0, "20m", 0);
    MadeIs(1_000, 0, "40m", m);
    CrowdDistinct(e, m);
    CrowdGrows(m);
    hide At;
    PushedBehind(held, f, 0);
    FeedMore([FIRST] + Crowd(m), f, held, [e]);
    assert [FIRST] + Crowd(m) + [f] == [FIRST] + (Crowd(m) + [f]);
    assert held[0..] + [Made(f)] == [e] + (CrowdMade(m) + [Made(f)]);
  }

  /** Until it is crowded out the first spot is held by both rings. */
  lemma {:induction false} CrowdJoins(n: nat)
    requires n < RING_MAX_SPOTS
    ensures Rings([FIRST] + Crowd(n), [Made(FIRST)] + CrowdMade(n), [Made(FIRST)])
  {
    var e := Made(FIRST);
    MadeIs(0, 0, "20m", 0);
    if n == 0 {
      FirstRings(FIRST);
      assert [FIRST] + Crowd(0) == [FIRST] && [e] + CrowdMade(0) == [e];
    } else {
      var m := n - 1;
      CrowdJoins(m);
      CrowdJoined(m);
    }
  }

  /** A new spot in a full list: the oldest one goes. */
  lemma {:induction false} PushedOut(live: seq<Entry>, f: Fed)
    requires f.spot.source == Mqtt && !HasKey(live, Made(f).key) && |live| == RING_MAX_SPOTS
    requires Made(f).recvMs - RING_DEPTH_SECONDS * 1000 <= live[0].recvMs
    ensures Pushed(live, f) == live[1..] + [Made(f)]
  {
    var e := Made(f);
    ExpiredIs(live + [e], e.recvMs - RING_DEPTH_SECONDS * 1000, 0);
    assert (live + [e])[1..] == live[1..] + [e];
  }

  lemma {:induction false} CrowdTakesOver()
    ensures Rings([FIRST] + Crowd(RING_MAX_SPOTS), CrowdMade(RING_MAX_SPOTS), [Made(FIRST)])
  {
    var m, e := RING_MAX_SPOTS - 1, Made(FIRST);
    var f, held := At(1_000, 0, "40m", m), [e] + CrowdMade(m);
    MadeIs(0, 0, "20m", 0);
    MadeIs(1_000, 0, "40m", m);
    CrowdJoins(m);
    CrowdDistinct(e, m);
    hide Rings;
    hide Made;
    hide Pushed;
    PushedOut(held, f);
    FeedMore([FIRST] + Crowd(m), f, held, [e]);
    assert [FIRST] + Crowd(m) + [f] == [FIRST] + Crowd(RING_MAX_SPOTS);
    assert held[1..] + [Made(f)] == CrowdMade(RING_MAX_SPOTS);
  }

  const REPEAT := At(2_000, 2, "20m", 0)

  const LAST := At(21_601_500, 0, "20m", 0)

  function CrowdedFeed(): seq<Fed> { [FIRST] + Crowd(RING_MAX_SPOTS) + [REPEAT] + [LAST] }

  /** The ring of the full feed takes the repeat anew, the other one refuses it. */
  lemma {:induction false} RepeatTaken()
    ensures Rings([FIRST] + Crowd(RING_MAX_SPOTS) + [REPEAT],
                  CrowdMade(RING_MAX_SPOTS)[1..] + [Made(REPEAT)], [Made(FIRST)])
  {
    var held, e := CrowdMade(RING_MAX_SPOTS), Made(FIRST);
    MadeIs(0, 0, "20m", 0);
    MadeIs(1_000, 0, "40m", 0);
    MadeIs(2_000, 2, "20m", 0);
    CrowdDistinct(e, RING_MAX_SPOTS);
    CrowdTakesOver();
    assert held[0] == Made(At(1_000, 0, "40m", 0)) && [e][0].key == Made(REPEAT).key;
    hide Rings;
    hide Made;
    hide Pushed;
    PushedOut(held, REPEAT);
    Refused([e], REPEAT);
    FeedMore([FIRST] + Crowd(RING_MAX_SPOTS), REPEAT, held, [e]);
  }

  lemma {:induction false} LastForgets()
    ensures Rings(CrowdedFeed(), [Made(REPEAT)] + [Made(LAST)], [Made(LAST)])
  {
    var m, e, g, h := RING_MAX_SPOTS - 1, Made(FIRST), Made(REPEAT), Made(LAST);
    var held := CrowdMade(RING_MAX_SPOTS)[1..] + [g];
    MadeIs(0, 0, "20m", 0);
    MadeIs(2_000, 2, "20m", 0);
    MadeIs(21_601_500, 0, "20m", 0);
    forall k | 0 <= k < m ensures held[k].recvMs == 1_000 && held[k].key != h.key {
      MadeIs(1_000, 0, "40m", k + 1);
    }
    RepeatTaken();
    hide Rings;
    hide Made;
    hide Pushed;
    assert !HasKey(held, h.key) && !HasKey([e], h.key);
    PushedBehind(held, LAST, m);
    PushedBehind([e], LAST, 1);
    FeedMore([FIRST] + Crowd(RING_MAX_SPOTS) + [REPEAT], LAST, held, [e]);
    assert held[m..] == [g] && [e][1..] + [h] == [h];
  }

  lemma {:induction false} CrowdedFeedIsOrderly()
    ensures StampsInOrder(CrowdedFeed()) && YoungAges(CrowdedFeed())
  {
    forall k | 0 <= k < RING_MAX_SPOTS ensures StampOf(Crowd(RING_MAX_SPOTS)[k]) == 1_000 {
      MadeIs(1_000, 0, "40m", k);
    }
    MadeIs(0, 0, "20m", 0);
    MadeIs(2_000, 2, "20m", 0);
    MadeIs(21_601_500, 0, "20m", 0);
  }

  /**
   Fifty thousand withheld spots between a spot and its repeat crowd the spot out of the ring of the full
   feed, which then takes the repeat anew. The other ring still holds the spot, refuses the repeat, and
   forgets the spot six hours after its receipt, when the full ring still holds the repeat.
   */
  lemma {:induction false} CrowdedOutRepeatIsLost()
    ensures RingCohortSatisfies(CONTROLS, Some(STREAMED), CONTROLS.qth)
    ensures var full := CrowdedFeed();
      && StampsInOrder(full) && YoungAges(full)
      && !EndsWith(VisibleOnes(Feed(Delivered(full, STREAMED)), CONTROLS), VisibleOnes(Feed(full), CONTROLS))
  {
    CrowdedFeedIsOrderly();
    LastForgets();
    MadeIs(2_000, 2, "20m", 0);
    MadeIs(21_601_500, 0, "20m", 0);
    ShowsMore([], Made(REPEAT), Made(LAST));
    assert [] + [Made(REPEAT)] == [Made(REPEAT)];
    hide Made;
    hide CrowdedFeed;
    hide VisibleOnes;
    hide EndsWith;
    hide Feed;
    hide Delivered;
  }

  // ── receive times out of order ──

  const WITHHELD := At(30_000_000, 0, "40m", 0)

  const EARLY := At(10_000_000, 0, "20m", 0)

  const LATE := At(32_000_000, 0, "20m", 0)

  lemma {:induction false} NoRings()
    ensures Rings([], [], [])
  {
  }

  lemma {:induction false} EarlyRings()
    ensures Rings([WITHHELD, EARLY], [Made(WITHHELD), Made(EARLY)], [Made(EARLY)])
  {
    hide Rings;
    hide Made;
    hide Pushed;
    hide HasKey;
    hide StreamAllowed;
    hide RawOf;
    var y, x := WITHHELD, EARLY;
    var f, e := Made(y), Made(x);
    MadeIs(30_000_000, 0, "40m", 0);
    MadeIs(10_000_000, 0, "20m", 0);
    hide At;
    NoRings();
    assert [] + [y] == [y] && [y] + [x] == [y, x];
    assert [][0..] + [f] == [f] && [][0..] + [e] == [e] && [f][0..] + [e] == [f, e];
    NotAmong([], f.key);
    PushedBehind([], y, 0);
    FeedMore([], y, [], []);
    NotAmong([f], e.key);
    NotAmong([], e.key);
    PushedBehind([f], x, 0);
    PushedBehind([], x, 0);
    FeedMore([y], x, [f], []);
  }

  lemma {:induction false} UnorderedRings()
    ensures Rings([WITHHELD, EARLY, LATE], [Made(WITHHELD), Made(EARLY), Made(LATE)], [Made(LATE)])
  {
    hide Made;
    hide Pushed;
    hide HasKey;
    hide StreamAllowed;
    hide RawOf;
    hide Rings;
    var y, x, z := WITHHELD, EARLY, LATE;
    var f, e, h := Made(y), Made(x), Made(z);
    MadeIs(30_000_000, 0, "40m", 0);
    MadeIs(10_000_000, 0, "20m", 0);
    MadeIs(32_000_000, 0, "20m", 0);
    EarlyRings();
    hide At;
    assert [y, x] + [z] == [y, x, z];
    assert [f, e][0..] + [h] == [f, e, h] && [e][1..] + [h] == [h];
    NotAmong([f, e], h.key);
    NotAmong([e], h.key);
    PushedBehind([f, e], z, 0);
    PushedBehind([e], z, 1);
    FeedMore([y, x], z, [f, e], [e]);
  }

  lemma {:induction false} NoRepeats(full: seq<Fed>)
    requires forall i, j :: 0 <= j < i < |full| ==> KeyOf(full[j]) != KeyOf(full[i])
    ensures RepeatsHeld(full, STREAMED)
  {
  }

  /**
   A receive time out of order: in the ring of the full feed an expired spot is kept behind a withheld one
   that is not expired.
   */
  lemma {:induction false} UnorderedStampsLose()
    ensures RingCohortSatisfies(CONTROLS, Some(STREAMED), CONTROLS.qth)
    ensures var full := [WITHHELD, EARLY, LATE];
      && YoungAges(full) && RepeatsHeld(full, STREAMED)
      && !EndsWith(VisibleOnes(Feed(Delivered(full, STREAMED)), CONTROLS), VisibleOnes(Feed(full), CONTROLS))
  {
    var f, e, h := Made(WITHHELD), Made(EARLY), Made(LATE);
    MadeIs(30_000_000, 0, "40m", 0);
    MadeIs(10_000_000, 0, "20m", 0);
    MadeIs(32_000_000, 0, "20m", 0);
    NoRepeats([WITHHELD, EARLY, LATE]);
    UnorderedRings();
    ShowsMore([f], e, h);
    assert [f] + [e] + [h] == [f, e, h];
    hide Feed;
    hide Delivered;
    hide VisibleOnes;
    hide Made;
    hide EndsWith;
    hide RepeatsHeld;
  }

  // ── a covered window that was not served whole ──

  /** The spot at 1000 s, and three whose times leave no gap in the window from 800 to 1100 s. */
  const GONE := At(1_000_000, 0, "20m", 0)

  const BEFORE := At(1_001_000, 201, "20m", 0)

  const AFTER := At(1_100_000, 0, "20m", 0)

  const MUCH_LATER := At(22_600_500, 0, "20m", 0)

  lemma {:induction false} NotAmongThree(e: Entry, f: Entry, g: Entry, key: Key)
    requires e.key != key && f.key != key && g.key != key
    ensures !HasKey([e, f, g], key)
  {
  }

  lemma {:induction false} LaterForgets()
    ensures Feed([GONE, BEFORE, AFTER, MUCH_LATER]) == [Made(BEFORE), Made(AFTER), Made(MUCH_LATER)]
  {
    var x, y, w, z := GONE, BEFORE, AFTER, MUCH_LATER;
    var e, f, g, h := Made(x), Made(y), Made(w), Made(z);
    MadeIs(1_000_000, 0, "20m", 0);
    MadeIs(1_001_000, 201, "20m", 0);
    MadeIs(1_100_000, 0, "20m", 0);
    MadeIs(22_600_500, 0, "20m", 0);
    FirstRings(x);
    hide Made;
    hide Pushed;
    hide HasKey;
    assert [x] + [y] == [x, y] && [x, y] + [w] == [x, y, w] && [x, y, w] + [z] == [x, y, w, z];
    assert [e][0..] + [f] == [e, f] && [e, f][0..] + [g] == [e, f, g] && [e, f, g][1..] + [h] == [f, g, h];
    NotAmong([e], f.key);
    PushedBehind([e], y, 0);
    FeedMore([x], y, [e], [e]);
    NotAmong([e, f], g.key);
    PushedBehind([e, f], w, 0);
    FeedMore([x, y], w, [e, f], [e, f]);
    NotAmongThree(e, f, g, h.key);
    PushedBehind([e, f, g], z, 1);
    FeedMore([x, y, w], z, [e, f, g], [e, f, g]);
  }

  lemma {:induction false} ThreeCover(s: seq<Entry>)
    requires |s| == 3 && s[0].t == 800 && s[1].t == 1100 && s[2].t == 22_600
    ensures CoveredList(s, 800, 1100)
  {
    forall a, b | GapIn(s, a, b) ensures b <= 800 || 1100 <= a {
      assert s[1].t <= a || b <= s[1].t;
    }
  }

  lemma {:induction false} AllDelivered(fed: seq<Fed>)
    requires forall i :: 0 <= i < |fed| ==> StreamAllowed(RawOf(fed[i]), STREAMED)
    ensures Delivered(fed, STREAMED) == fed
  {
    if fed != [] {
      AllDelivered(fed[..|fed| - 1]);
    }
  }

  /**
   The ring covers the window, the controls ask for no more than the stream delivered, and yet a spot of
   the window was received and forgotten: the oldest receipt still held, at 1001 s, is not before the window.
   */
  lemma {:induction false} CoveredYetForgotten()
    ensures var fed := [GONE, BEFORE, AFTER, MUCH_LATER];
      && StampsInOrder(fed) && YoungAges(fed) && Delivered(fed, STREAMED) == fed
      && CoveredList(Feed(fed), 800, 1100) && Feed(fed)[0].recvMs / 1000 == 1001
      && 800 <= KeyOf(GONE).t <= 1100 && Visible(Made(GONE), CONTROLS) && !HasKey(Feed(fed), KeyOf(GONE))
  {
    hide Feed;
    hide Delivered;
    hide CoveredList;
    hide Made;
    hide HasKey;
    hide Visible;
    hide StreamAllowed;
    hide RawOf;
    MadeIs(1_000_000, 0, "20m", 0);
    MadeIs(1_001_000, 201, "20m", 0);
    MadeIs(1_100_000, 0, "20m", 0);
    MadeIs(22_600_500, 0, "20m", 0);
    LaterForgets();
    AllDelivered([GONE, BEFORE, AFTER, MUCH_LATER]);
    ThreeCover(Feed([GONE, BEFORE, AFTER, MUCH_LATER]));
    NotAmongThree(Made(BEFORE), Made(AFTER), Made(MUCH_LATER), KeyOf(GONE));
  }

  // ── no band enabled ──

  /** With every band switched off no reconnect is asked for, yet a spot that the slice filter admits was withheld. */
  lemma {:induction false} EmptyBandsWithhold()
    ensures var c := Controls(Filter({}, NoMode, 0, 0), "", true, true);
      var raw := Raw(0, Mqtt, "40m", Some(0), "", "");
      && !StreamFilterNeedsReconnect(c, Some(STREAMED))
      && FilterAllowed(raw, c.filter) && Shown(raw, c) && !StreamAllowed(raw, STREAMED)
  {
  }
}
