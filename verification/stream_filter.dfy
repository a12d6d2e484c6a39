/**
 The filter a live stream was opened with, the checks that compare it with the controls, and what a
 passed check is worth.
 */
module StreamFilters {
  import opened Basics
  import opened Spots
  import opened SessionRings
  import opened RingLaws

  const SSB_DEFAULT_DB := 0
  const CW_DEFAULT_DB := -15

  /** What the connection asked the server for. A threshold is set only in its own mode. */
  datatype Streamed = Streamed(
    bands: set<string>, mode: SnrMode, ssbMinDb: Option<int>, cwMinDb: Option<int>, rbn: bool, wspr: bool)

  /** The controls: the slice filter, the location, and which optional sources are shown. */
  datatype Controls = Controls(filter: Filter, qth: string, showRbn: bool, showWspr: bool)

  function Db(set_: Option<int>, default_: int): int { if set_.Some? then set_.value else default_ }

  function ServerFilter(sf: Streamed): Filter {
    Filter(sf.bands, sf.mode, Db(sf.ssbMinDb, SSB_DEFAULT_DB), Db(sf.cwMinDb, CW_DEFAULT_DB))
  }

  /** The server's decision about one spot. */
  predicate StreamAllowed(raw: Raw, sf: Streamed) {
    (raw.source == Rbn ==> sf.rbn) && (raw.source == Wspr ==> sf.wspr) && FilterAllowed(raw, ServerFilter(sf))
  }

  /** The server's own filter, with the sources it was told to leave out. */
  datatype ServerSide = ServerSide(
    enabledBands: set<string>, mode: SnrMode, ssbMinDb: int, cwMinDb: int,
    excludeDx: bool, excludeRbn: bool, excludeWspr: bool)

  /** The filter the server reads from the request: defaults for absent thresholds, sources left out by name. */
  function Requested(sf: Streamed): ServerSide {
    ServerSide(sf.bands, sf.mode,
               if sf.ssbMinDb.Some? then sf.ssbMinDb.value else 0,
               if sf.cwMinDb.Some? then sf.cwMinDb.value else -15,
               false, !sf.rbn, !sf.wspr)
  }

  /** The server's decision, check by check. */
  predicate SpotAllowed(raw: Raw, f: ServerSide) {
    if (match raw.source
        case DxCluster => f.excludeDx
        case Rbn => f.excludeRbn
        case Wspr => f.excludeWspr
        case _ => false) then false
    else if |f.enabledBands| > 0 && raw.band !in f.enabledBands then false
    else if raw.source != Unlabelled && raw.source != Mqtt && raw.source != Rbn then true
    else
      var snr := if raw.snr.Some? then raw.snr.value else 0;
      match f.mode
      case Ssb => !(snr < f.ssbMinDb)
      case Cw => !(snr < f.cwMinDb)
      case NoMode => true
  }

  /** The client's replica of the filter decides as the server does. */
  lemma {:induction false} ReplicaAgrees(raw: Raw, sf: Streamed)
    ensures StreamAllowed(raw, sf) <==> SpotAllowed(raw, Requested(sf))
  {
    if sf.bands == {} {
      assert |sf.bands| == 0;
    } else {
      var b :| b in sf.bands;
      assert sf.bands == {b} + (sf.bands - {b});
      assert |sf.bands| > 0;
    }
  }

  predicate Shown(raw: Raw, c: Controls) {
    (raw.source == Rbn ==> c.showRbn) && (raw.source == Wspr ==> c.showWspr)
  }

  /** May the session ring answer for the server under the current controls? */
  predicate RingCohortSatisfies(c: Controls, streamed: Option<Streamed>, qth: string) {
    match streamed
    case None => false
    case Some(sf) =>
      && c.qth == qth
      && c.filter.mode == sf.mode
      && c.filter.enabledBands != {}
      && c.filter.enabledBands <= sf.bands
      && (c.filter.mode == Ssb ==> Db(sf.ssbMinDb, SSB_DEFAULT_DB) <= c.filter.ssbMinDb)
      && (c.filter.mode == Cw ==> Db(sf.cwMinDb, CW_DEFAULT_DB) <= c.filter.cwMinDb)
      && !(!sf.rbn && c.showRbn)
  }

  /** Must the stream be reopened for the current controls? */
  predicate StreamFilterNeedsReconnect(c: Controls, streamed: Option<Streamed>) {
    match streamed
    case None => true
    case Some(sf) =>
      || !(c.filter.enabledBands <= sf.bands)
      || c.filter.mode != sf.mode
      || (if c.filter.mode == Ssb then Some(c.filter.ssbMinDb) else None) != sf.ssbMinDb
      || (if c.filter.mode == Cw then Some(c.filter.cwMinDb) else None) != sf.cwMinDb
      || (c.showRbn && !sf.rbn) || (c.showWspr && !sf.wspr)
  }

  /** With the cohort check passed, the stream had let through every spot the controls admit. */
  lemma {:induction false} CohortIsNarrower(c: Controls, sf: Streamed, raw: Raw)
    requires RingCohortSatisfies(c, Some(sf), c.qth)
    requires FilterAllowed(raw, c.filter) && Shown(raw, c) && raw.source != Wspr
    ensures StreamAllowed(raw, sf)
  {
  }

  /** The stream let through every spot but WSPR that the controls admit. */
  ghost predicate DeliversAll(c: Controls, sf: Streamed) {
    forall raw :: FilterAllowed(raw, c.filter) && Shown(raw, c) && raw.source != Wspr ==> StreamAllowed(raw, sf)
  }

  /** A band enabled or a source shown but not streamed, or a lower threshold, shows as a withheld spot. */
  lemma {:induction false} WideningWithholds(c: Controls, sf: Streamed)
    requires c.filter.mode == sf.mode && c.filter.enabledBands != {} && sf.bands != {} && DeliversAll(c, sf)
    ensures RingCohortSatisfies(c, Some(sf), c.qth)
  {
    var f := c.filter;
    forall b | b in f.enabledBands ensures b in sf.bands {
      var raw := Raw(0, DxCluster, b, None, "", "");
      assert FilterAllowed(raw, f) && Shown(raw, c);
      assert StreamAllowed(raw, sf);
    }
    var b :| b in f.enabledBands;
    var lowest := if f.mode == Ssb then f.ssbMinDb else f.cwMinDb;
    var spot := Raw(0, Mqtt, b, Some(lowest), "", "");
    assert FilterAllowed(spot, f) && Shown(spot, c);
    assert StreamAllowed(spot, sf);
    if c.showRbn {
      var skimmed := Raw(0, Rbn, b, Some(lowest), "", "");
      assert FilterAllowed(skimmed, f) && Shown(skimmed, c);
      assert StreamAllowed(skimmed, sf);
    }
  }

  /**
   The cohort check passes exactly when a stream is open for this location and SNR mode, bands are named
   on both sides, and the stream let through every spot but WSPR that the controls admit.
   */
  lemma {:induction false} CohortExact(c: Controls, streamed: Option<Streamed>, qth: string)
    ensures RingCohortSatisfies(c, streamed, qth)
      <==> streamed.Some? && c.qth == qth
           && c.filter.mode == streamed.value.mode && c.filter.enabledBands != {} && streamed.value.bands != {}
           && DeliversAll(c, streamed.value)
  {
    if streamed.Some? {
      var sf := streamed.value;
      if RingCohortSatisfies(c, streamed, qth) {
        forall raw | FilterAllowed(raw, c.filter) && Shown(raw, c) && raw.source != Wspr
          ensures StreamAllowed(raw, sf)
        {
          CohortIsNarrower(c, sf, raw);
        }
        var b :| b in c.filter.enabledBands;
        assert b in sf.bands;
      } else if c.filter.mode == sf.mode && c.filter.enabledBands != {} && sf.bands != {} && DeliversAll(c, sf) {
        WideningWithholds(c, sf);
      }
    }
  }

  /** No reconnect needed: nothing visible on an enabled band was withheld. */
  lemma {:induction false} NoReconnectNothingWithheld(c: Controls, sf: Streamed, raw: Raw)
    requires !StreamFilterNeedsReconnect(c, Some(sf))
    requires raw.band in c.filter.enabledBands && SnrAllowed(raw.source, raw.snr, c.filter) && Shown(raw, c)
    ensures StreamAllowed(raw, sf)
  {
  }

  /** The stream was opened with the threshold in force, and with no other. */
  predicate SameThresholds(c: Controls, sf: Streamed) {
    && (match c.filter.mode
        case NoMode => sf.ssbMinDb == None && sf.cwMinDb == None
        case Ssb => sf.ssbMinDb == Some(c.filter.ssbMinDb) && sf.cwMinDb == None
        case Cw => sf.ssbMinDb == None && sf.cwMinDb == Some(c.filter.cwMinDb))
  }

  /** ... and every shown spot on an enabled band was let through. */
  ghost predicate DeliversEnabled(c: Controls, sf: Streamed) {
    forall raw: Raw :: raw.band in c.filter.enabledBands && SnrAllowed(raw.source, raw.snr, c.filter) && Shown(raw, c)
                  ==> StreamAllowed(raw, sf)
  }

  lemma {:induction false} WithheldReconnects(c: Controls, sf: Streamed)
    requires c.filter.mode == sf.mode && SameThresholds(c, sf)
    requires c.filter.enabledBands != {} && sf.bands != {} && DeliversEnabled(c, sf)
    ensures !StreamFilterNeedsReconnect(c, Some(sf))
  {
    var f := c.filter;
    forall b | b in f.enabledBands ensures b in sf.bands {
      var raw := Raw(0, DxCluster, b, None, "", "");
      assert SnrAllowed(raw.source, raw.snr, f) && Shown(raw, c);
      assert StreamAllowed(raw, sf);
    }
    var b :| b in f.enabledBands;
    var lowest := if f.mode == Ssb then f.ssbMinDb else f.cwMinDb;
    if c.showRbn {
      var skimmed := Raw(0, Rbn, b, Some(lowest), "", "");
      assert SnrAllowed(skimmed.source, skimmed.snr, f) && Shown(skimmed, c);
      assert StreamAllowed(skimmed, sf);
    }
    if c.showWspr {
      var beacon := Raw(0, Wspr, b, None, "", "");
      assert SnrAllowed(beacon.source, beacon.snr, f) && Shown(beacon, c);
      assert StreamAllowed(beacon, sf);
    }
  }

  /**
   With bands enabled and streamed by name, a reconnect is asked for exactly when the mode or its threshold
   changed or some shown spot on an enabled band was withheld.
   */
  lemma {:induction false} ReconnectExact(c: Controls, sf: Streamed)
    requires c.filter.enabledBands != {} && sf.bands != {}
    ensures StreamFilterNeedsReconnect(c, Some(sf))
      <==> !(c.filter.mode == sf.mode && SameThresholds(c, sf) && DeliversEnabled(c, sf))
    ensures StreamFilterNeedsReconnect(c, None)
  {
    if !StreamFilterNeedsReconnect(c, Some(sf)) {
      forall raw: Raw | raw.band in c.filter.enabledBands && SnrAllowed(raw.source, raw.snr, c.filter) && Shown(raw, c)
        ensures StreamAllowed(raw, sf)
      {
        NoReconnectNothingWithheld(c, sf, raw);
      }
    } else if c.filter.mode == sf.mode && SameThresholds(c, sf) && DeliversEnabled(c, sf) {
      WithheldReconnects(c, sf);
    }
  }

  lemma {:induction false} LongestIn(bands: set<string>) returns (n: nat)
    ensures forall b :: b in bands ==> |b| <= n
  {
    if bands == {} {
      n := 0;
    } else {
      var b :| b in bands;
      var m := LongestIn(bands - {b});
      n := Max(m, |b|);
    }
  }

  /** Some band name is in no finite set. */
  lemma {:induction false} Unheard(bands: set<string>) returns (band: string)
    ensures band !in bands
  {
    var n := LongestIn(bands);
    band := seq(n + 1, i => 'x');
    assert |band| == n + 1;
  }

  /**
   The slice filter reads an empty band set as every band. Under that reading nothing is withheld
   exactly when some band is enabled or the stream asked for all of them.
   */
  lemma {:induction false} NoReconnectEmptyBands(c: Controls, sf: Streamed)
    requires !StreamFilterNeedsReconnect(c, Some(sf))
    ensures (forall raw :: FilterAllowed(raw, c.filter) && Shown(raw, c) ==> StreamAllowed(raw, sf))
            <==> (c.filter.enabledBands != {} || sf.bands == {})
  {
    if c.filter.enabledBands == {} && sf.bands != {} {
      var band := Unheard(sf.bands);
      var raw := Raw(0, DxCluster, band, None, "", "");
      assert FilterAllowed(raw, c.filter) && Shown(raw, c) && !StreamAllowed(raw, sf);
    }
  }

  // ── what the ring of the delivered feed knows about the full feed ──

  /** The part of the feed that the stream let through. */
  function Delivered(full: seq<Fed>, sf: Streamed): seq<Fed> {
    if full == [] then []
    else
      var rest := Delivered(full[..|full| - 1], sf);
      if StreamAllowed(RawOf(full[|full| - 1]), sf) then rest + [full[|full| - 1]] else rest
  }

  predicate Visible(e: Entry, c: Controls) { FilterAllowed(e.raw, c.filter) && Shown(e.raw, c) }

  function VisibleOnes(s: seq<Entry>, c: Controls): seq<Entry> {
    if s == [] then []
    else
      var rest := VisibleOnes(s[..|s| - 1], c);
      if Visible(s[|s| - 1], c) then rest + [s[|s| - 1]] else rest
  }

  /** No entry leaves the ring while this feed arrives: it is short, and received within six hours. */
  ghost predicate NothingEvicted(full: seq<Fed>) {
    |full| <= RING_MAX_SPOTS
    && forall i, j :: 0 <= i < |full| && 0 <= j < |full| ==>
         StampOf(full[j]) - RING_DEPTH_SECONDS * 1000 <= StampOf(full[i])
  }

  ghost predicate CameFrom(e: Entry, full: seq<Fed>) {
    exists i :: 0 <= i < |full| && e == EntryOf(full[i].spot, full[i].clockMs)
  }

  /** Every retained entry came from the feed. */
  ghost predicate FromFeed(live: seq<Entry>, full: seq<Fed>) {
    forall k :: 0 <= k < |live| ==> CameFrom(live[k], full)
  }

  lemma {:induction false} AdmitsAll(live: seq<Entry>, full: seq<Fed>, e: Entry)
    requires NothingEvicted(full) && FromFeed(live, full) && |live| < |full|
    requires CameFrom(e, full)
    ensures Admit(live, e) == live + [e]
  {
    var longer, cutoff := live + [e], e.recvMs - RING_DEPTH_SECONDS * 1000;
    forall k | 0 <= k < |longer| ensures cutoff <= longer[k].recvMs {
      if k < |live| {
        assert longer[k] == live[k] && CameFrom(live[k], full);
      }
    }
    ExpiredIs(longer, cutoff, 0);
  }

  lemma {:induction false} FromFeedGrows(live: seq<Entry>, before: seq<Fed>, full: seq<Fed>)
    requires FromFeed(live, before) && before <= full
    ensures FromFeed(live, full)
  {
    forall k | 0 <= k < |live| ensures CameFrom(live[k], full) {
      assert CameFrom(live[k], before);
      var i :| 0 <= i < |before| && live[k] == EntryOf(before[i].spot, before[i].clockMs);
      assert full[i] == before[i];
    }
  }

  /** Feeding a short feed only ever appends. */
  lemma {:induction false} FeedAppends(full: seq<Fed>)
    requires NothingEvicted(full)
    ensures FromFeed(Feed(full), full) && |Feed(full)| <= |full|
    ensures full != [] ==>
      var n := |full| - 1;
      var live, e := Feed(full[..n]), EntryOf(full[n].spot, full[n].clockMs);
      Feed(full) == if full[n].spot.source == Wspr || HasKey(live, e.key) then live else live + [e]
  {
    if full != [] {
      var n := |full| - 1;
      var before := full[..n];
      assert NothingEvicted(before);
      FeedAppends(before);
      FromFeedGrows(Feed(before), before, full);
      var e := EntryOf(full[n].spot, full[n].clockMs);
      AdmitsAll(Feed(before), full, e);
    }
  }

  lemma {:induction false} DeliveredInside(full: seq<Fed>, sf: Streamed)
    requires NothingEvicted(full)
    ensures NothingEvicted(Delivered(full, sf)) && |Delivered(full, sf)| <= |full|
    ensures forall x :: x in Delivered(full, sf) ==> x in full
  {
    if full != [] {
      var n := |full| - 1;
      assert NothingEvicted(full[..n]);
      DeliveredInside(full[..n], sf);
      var d := Delivered(full, sf);
      forall x | x in d ensures x in full {
        if x in full[..n] {
        } else {
          assert x == full[n];
        }
      }
      forall i, j | 0 <= i < |d| && 0 <= j < |d|
        ensures StampOf(d[j]) - RING_DEPTH_SECONDS * 1000 <= StampOf(d[i])
      {
        assert d[i] in full && d[j] in full;
      }
    }
  }

  /** A key the stream lets through; the filters read nothing but the key. */
  predicate KeyAllowed(k: Key, sf: Streamed) {
    StreamAllowed(Raw(k.t, k.source, k.band, k.snr, k.ident, ""), sf)
  }

  lemma {:induction false} KeyAfter(live: seq<Entry>, e: Entry, k: Key)
    ensures HasKey(live + [e], k) <==> HasKey(live, k) || e.key == k
  {
    if HasKey(live, k) {
      var i :| 0 <= i < |live| && live[i].key == k;
      assert (live + [e])[i].key == k;
    }
    if e.key == k {
      assert (live + [e])[|live|].key == k;
    }
    if HasKey(live + [e], k) && e.key != k {
      var i :| 0 <= i < |live| + 1 && (live + [e])[i].key == k;
      assert live[i].key == k;
    }
  }

  lemma {:induction false} SameKeys(full: seq<Fed>, sf: Streamed, k: Key)
    requires NothingEvicted(full) && KeyAllowed(k, sf)
    ensures HasKey(Feed(full), k) <==> HasKey(Feed(Delivered(full, sf)), k)
  {
    if full != [] {
      var n := |full| - 1;
      var before, f := full[..n], full[n];
      assert NothingEvicted(before);
      SameKeys(before, sf, k);
      FeedAppends(full);
      DeliveredInside(full, sf);
      var d := Delivered(full, sf);
      if StreamAllowed(RawOf(f), sf) {
        assert d[..|d| - 1] == Delivered(before, sf);
        FeedAppends(d);
        KeyAfter(Feed(before), EntryOf(f.spot, f.clockMs), k);
        KeyAfter(Feed(Delivered(before, sf)), EntryOf(f.spot, f.clockMs), k);
      } else {
        KeyAfter(Feed(before), EntryOf(f.spot, f.clockMs), k);
      }
    }
  }

  lemma {:induction false} VisibleAfter(live: seq<Entry>, e: Entry, c: Controls)
    ensures VisibleOnes(live + [e], c) == if Visible(e, c) then VisibleOnes(live, c) + [e] else VisibleOnes(live, c)
  {
    assert (live + [e])[..|live|] == live;
  }

  /** One feed step on a list that evicts nothing. */
  function Accept(live: seq<Entry>, f: Fed): seq<Entry> {
    var e := EntryOf(f.spot, f.clockMs);
    if f.spot.source == Wspr || HasKey(live, e.key) then live else live + [e]
  }

  lemma {:induction false} AcceptShows(a: seq<Entry>, b: seq<Entry>, f: Fed, c: Controls)
    requires VisibleOnes(a, c) == VisibleOnes(b, c)
    requires HasKey(a, KeyOf(f)) <==> HasKey(b, KeyOf(f))
    ensures VisibleOnes(Accept(a, f), c) == VisibleOnes(Accept(b, f), c)
  {
    VisibleAfter(a, EntryOf(f.spot, f.clockMs), c);
    VisibleAfter(b, EntryOf(f.spot, f.clockMs), c);
  }

  lemma {:induction false} AcceptHides(live: seq<Entry>, f: Fed, sf: Streamed, c: Controls)
    requires RingCohortSatisfies(c, Some(sf), c.qth) && !StreamAllowed(RawOf(f), sf)
    ensures VisibleOnes(Accept(live, f), c) == VisibleOnes(live, c)
  {
    var e := EntryOf(f.spot, f.clockMs);
    VisibleAfter(live, e, c);
    if Visible(e, c) && f.spot.source != Wspr {
      CohortIsNarrower(c, sf, e.raw);
    }
  }

  /**
   With the cohort check passed, the ring of the delivered feed shows what a ring of the full feed
   would show, spot for spot in receive order.
   */
  lemma {:induction false} DeliveredShowsTheSame(full: seq<Fed>, sf: Streamed, c: Controls)
    requires NothingEvicted(full) && RingCohortSatisfies(c, Some(sf), c.qth)
    ensures VisibleOnes(Feed(Delivered(full, sf)), c) == VisibleOnes(Feed(full), c)
  {
    if full != [] {
      var n := |full| - 1;
      var before, f := full[..n], full[n];
      assert NothingEvicted(before);
      DeliveredShowsTheSame(before, sf, c);
      FeedAppends(full);
      assert Feed(full) == Accept(Feed(before), f);
      DeliveredInside(full, sf);
      var d := Delivered(full, sf);
      if StreamAllowed(RawOf(f), sf) {
        assert d[..|d| - 1] == Delivered(before, sf);
        FeedAppends(d);
        SameKeys(before, sf, KeyOf(f));
        AcceptShows(Feed(Delivered(before, sf)), Feed(before), f, c);
      } else {
        AcceptHides(Feed(before), f, sf, c);
      }
    }
  }

  // ── feeds of any length: what eviction leaves of that ──

  function AllowedOnes(s: seq<Entry>, sf: Streamed): seq<Entry> {
    if s == [] then []
    else
      var rest := AllowedOnes(s[..|s| - 1], sf);
      if StreamAllowed(s[|s| - 1].raw, sf) then rest + [s[|s| - 1]] else rest
  }

  ghost predicate EndsWith(s: seq<Entry>, tail: seq<Entry>) { |tail| <= |s| && tail == s[|s| - |tail|..] }

  /** The spot of an earlier delivery comes again. */
  ghost predicate Repeats(full: seq<Fed>, i: int)
    requires 0 <= i < |full|
  {
    exists j :: 0 <= j < i && KeyOf(full[j]) == KeyOf(full[i])
  }

  /** A repeat that the stream lets through comes only while a ring of the full feed still holds the spot. */
  ghost predicate RepeatsHeld(full: seq<Fed>, sf: Streamed) {
    forall i :: 0 <= i < |full| && full[i].spot.source != Wspr && StreamAllowed(RawOf(full[i]), sf) && Repeats(full, i)
                ==> HasKey(Feed(full[..i]), KeyOf(full[i]))
  }

  lemma {:induction false} AdmitFrom(live: seq<Entry>, e: Entry, full: seq<Fed>)
    requires FromFeed(live, full) && CameFrom(e, full)
    ensures FromFeed(Admit(live, e), full)
  {
    var longer := live + [e];
    var n := EvictCount(longer, e.recvMs);
    forall k | 0 <= k < |longer[n..]| ensures CameFrom(longer[n..][k], full) {
      assert longer[n..][k] == longer[n + k];
    }
  }

  lemma {:induction false} RetainedCame(full: seq<Fed>)
    ensures FromFeed(Feed(full), full)
  {
    if full != [] {
      var n := |full| - 1;
      RetainedCame(full[..n]);
      FromFeedGrows(Feed(full[..n]), full[..n], full);
      assert CameFrom(EntryOf(full[n].spot, full[n].clockMs), full);
      AdmitFrom(Feed(full[..n]), EntryOf(full[n].spot, full[n].clockMs), full);
    }
  }

  // ── when repeats are held ──

  lemma {:induction false} KeyStays(full: seq<Fed>, j: nat)
    requires NothingEvicted(full) && j < |full| && full[j].spot.source != Wspr
    ensures HasKey(Feed(full), KeyOf(full[j]))
  {
    var n := |full| - 1;
    var live, e := Feed(full[..n]), EntryOf(full[n].spot, full[n].clockMs);
    assert NothingEvicted(full[..n]);
    FeedAppends(full);
    KeyAfter(live, e, KeyOf(full[j]));
    if j < n {
      KeyStays(full[..n], j);
    }
  }

  /** While nothing is evicted every repeat finds its spot held. */
  lemma {:induction false} ShortFeedsHold(full: seq<Fed>, sf: Streamed)
    requires NothingEvicted(full)
    ensures RepeatsHeld(full, sf)
  {
    forall i | 0 <= i < |full| && full[i].spot.source != Wspr && Repeats(full, i)
      ensures HasKey(Feed(full[..i]), KeyOf(full[i]))
    {
      var j :| 0 <= j < i && KeyOf(full[j]) == KeyOf(full[i]);
      assert NothingEvicted(full[..i]);
      KeyStays(full[..i], j);
    }
  }

  const HISTORY_SECONDS := 3600

  /** Ages as the stream sends them: its history reaches back an hour. */
  ghost predicate YoungAges(full: seq<Fed>) {
    forall i :: 0 <= i < |full| ==> 0 <= RecvAge(full[i].spot) <= HISTORY_SECONDS
  }

  /** Any so many consecutive spots as the ring holds take an hour to arrive. */
  ghost predicate Uncrowded(full: seq<Fed>) {
    forall i, j :: 0 <= j && j + RING_MAX_SPOTS <= i < |full| ==>
      StampOf(full[j]) + (HISTORY_SECONDS + 1) * 1000 <= StampOf(full[i])
  }

  /** A repeat follows its spot within the hour of history. */
  lemma {:induction false} RepeatWithinHour(f: Fed, g: Fed)
    requires KeyOf(f) == KeyOf(g) && 0 <= RecvAge(f.spot) && RecvAge(g.spot) <= HISTORY_SECONDS
    ensures StampOf(g) < StampOf(f) + (HISTORY_SECONDS + 1) * 1000
  {
  }

  /** The first spot of the key: the ring did not hold it yet. */
  lemma {:induction false} FirstOfKey(full: seq<Fed>, i: nat) returns (j: nat)
    requires i < |full|
    ensures j <= i && KeyOf(full[j]) == KeyOf(full[i]) && !HasKey(Feed(full[..j]), KeyOf(full[i]))
  {
    if k :| 0 <= k < i && KeyOf(full[k]) == KeyOf(full[i]) {
      j := FirstOfKey(full, k);
    } else {
      j := i;
      var live := Feed(full[..i]);
      RetainedCame(full[..i]);
      forall p | 0 <= p < |live| ensures live[p].key != KeyOf(full[i]) {
        assert CameFrom(live[p], full[..i]);
        var q :| 0 <= q < i && live[p] == EntryOf(full[..i][q].spot, full[..i][q].clockMs);
        assert full[..i][q] == full[q];
      }
    }
  }

  lemma {:induction false} StampsBefore(full: seq<Fed>, i: nat)
    requires StampsInOrder(full) && i <= |full|
    ensures StampsInOrder(full[..i])
    ensures 0 < i < |full| ==> StampOf(full[..i][i - 1]) <= StampOf(full[i])
  {
    hide StampOf;
  }

  lemma {:induction false} HeldIsThere(live: seq<Entry>, key: Key, recvMs: int, more: int)
    requires HeldWithin(live, key, recvMs, more)
    ensures HasKey(live, key)
  {
  }

  lemma {:induction false} RepeatFindsHeld(full: seq<Fed>, i: nat)
    requires StampsInOrder(full) && YoungAges(full) && Uncrowded(full)
    requires i < |full| && full[i].spot.source != Wspr && Repeats(full, i)
    ensures HasKey(Feed(full[..i]), KeyOf(full[i]))
  {
    hide HasKey;
    hide Feed;
    hide StampsInOrder;
    var k :| 0 <= k < i && KeyOf(full[k]) == KeyOf(full[i]);
    var j := FirstOfKey(full, k);
    assert KeyOf(full[j]).source == KeyOf(full[i]).source;
    hide KeyOf;
    RepeatWithinHour(full[j], full[i]);
    hide StampOf;
    hide RecvAge;
    var before := full[..i];
    assert before[j] == full[j] && before[..j] == full[..j];
    StampsBefore(full, i);
    HeldFor(before, j);
    HeldIsThere(Feed(before), KeyOf(before[j]), StampOf(before[j]), |before| - 1 - j);
  }

  /** While fewer spots than the ring holds arrive within an hour, every repeat finds its spot held. */
  lemma {:induction false} UncrowdedHolds(full: seq<Fed>, sf: Streamed)
    requires StampsInOrder(full) && YoungAges(full) && Uncrowded(full)
    ensures RepeatsHeld(full, sf)
  {
    forall i | 0 <= i < |full| && full[i].spot.source != Wspr && Repeats(full, i)
      ensures HasKey(Feed(full[..i]), KeyOf(full[i]))
    {
      RepeatFindsHeld(full, i);
    }
  }

  lemma {:induction false} RepeatsHeldBefore(full: seq<Fed>, n: nat, sf: Streamed)
    requires RepeatsHeld(full, sf) && n <= |full|
    ensures RepeatsHeld(full[..n], sf)
  {
    var before := full[..n];
    forall i | 0 <= i < n && before[i].spot.source != Wspr && StreamAllowed(RawOf(before[i]), sf) && Repeats(before, i)
      ensures HasKey(Feed(before[..i]), KeyOf(before[i]))
    {
      var j :| 0 <= j < i && KeyOf(before[j]) == KeyOf(before[i]);
      assert full[j] == before[j] && Repeats(full, i);
      assert before[..i] == full[..i];
    }
  }

  lemma {:induction false} SuffixOfSuffix(a: seq<Entry>, b: seq<Entry>, c: seq<Entry>)
    requires EndsWith(a, b) && EndsWith(b, c)
    ensures EndsWith(a, c)
  {
  }

  lemma {:induction false} SuffixGrows(s: seq<Entry>, tail: seq<Entry>, e: Entry)
    requires EndsWith(s, tail)
    ensures EndsWith(s + [e], tail + [e])
  {
  }

  lemma {:induction false} AllowedAfter(live: seq<Entry>, e: Entry, sf: Streamed)
    ensures AllowedOnes(live + [e], sf)
         == if StreamAllowed(e.raw, sf) then AllowedOnes(live, sf) + [e] else AllowedOnes(live, sf)
  {
    assert (live + [e])[..|live|] == live;
  }

  lemma {:induction false} AllowedHas(s: seq<Entry>, sf: Streamed, e: Entry)
    ensures e in AllowedOnes(s, sf) <==> e in s && StreamAllowed(e.raw, sf)
  {
    if s != [] {
      AllowedHas(s[..|s| - 1], sf, e);
      assert s == s[..|s| - 1] + [s[|s| - 1]];
    }
  }

  lemma {:induction false} AllowedAreFewer(s: seq<Entry>, sf: Streamed)
    ensures |AllowedOnes(s, sf)| <= |s|
  {
    if s != [] {
      AllowedAreFewer(s[..|s| - 1], sf);
    }
  }

  lemma {:induction false} AllowedOfSuffix(s: seq<Entry>, n: nat, sf: Streamed)
    requires n <= |s|
    ensures EndsWith(AllowedOnes(s, sf), AllowedOnes(s[n..], sf))
  {
    hide StreamAllowed;
    if n < |s| {
      var m := |s| - 1;
      AllowedOfSuffix(s[..m], n, sf);
      assert s[n..][..m - n] == s[..m][n..];
      if StreamAllowed(s[m].raw, sf) {
        SuffixGrows(AllowedOnes(s[..m], sf), AllowedOnes(s[..m][n..], sf), s[m]);
      }
    }
  }

  /** Eviction spares a fresh suffix that fits into the ring. */
  lemma {:induction false} FreshSuffixStays(longer: seq<Entry>, tail: seq<Entry>, recvNowMs: int)
    requires EndsWith(longer, tail) && |tail| <= RING_MAX_SPOTS
    requires forall x :: x in tail ==> recvNowMs - RING_DEPTH_SECONDS * 1000 <= x.recvMs
    ensures EndsWith(longer[EvictCount(longer, recvNowMs)..], tail)
  {
    if tail != [] {
      assert longer[|longer| - |tail|] == tail[0] && tail[0] in tail;
    }
  }

  lemma {:induction false} BothAdmit(a: seq<Entry>, b: seq<Entry>, e: Entry, sf: Streamed)
    requires EndsWith(b, AllowedOnes(a, sf)) && StreamAllowed(e.raw, sf)
    requires |a| <= RING_MAX_SPOTS && ReceiveOrdered(a + [e])
    ensures EndsWith(Admit(b, e), AllowedOnes(Admit(a, e), sf))
  {
    var kept := AllowedOnes(Admit(a, e), sf);
    AllowedAfter(a, e, sf);
    SuffixGrows(b, AllowedOnes(a, sf), e);
    AllowedOfSuffix(a + [e], EvictCount(a + [e], e.recvMs), sf);
    SuffixOfSuffix(b + [e], AllowedOnes(a + [e], sf), kept);
    AdmitEvictsTheOld(a, e);
    AdmitKeeps(a, e);
    AllowedAreFewer(Admit(a, e), sf);
    forall x | x in kept ensures e.recvMs - RING_DEPTH_SECONDS * 1000 <= x.recvMs {
      AllowedHas(Admit(a, e), sf, x);
    }
    hide Admit;
    FreshSuffixStays(b + [e], kept, e.recvMs);
  }

  // ── where retained entries come from ──

  lemma {:induction false} DeliveredCame(full: seq<Fed>, sf: Streamed, e: Entry)
    requires CameFrom(e, Delivered(full, sf))
    ensures CameFrom(e, full)
  {
    var n, d := |full| - 1, Delivered(full, sf);
    var before := Delivered(full[..n], sf);
    var i :| 0 <= i < |d| && e == EntryOf(d[i].spot, d[i].clockMs);
    if i < |before| {
      assert e == EntryOf(before[i].spot, before[i].clockMs);
      DeliveredCame(full[..n], sf, e);
      var j :| 0 <= j < n && e == EntryOf(full[..n][j].spot, full[..n][j].clockMs);
      assert full[j] == full[..n][j];
    } else {
      assert d[i] == full[n];
    }
  }

  /** A spot that the ring of the delivered feed still holds when it comes again is held by the full ring. */
  lemma {:induction false} HeldByFull(before: seq<Fed>, f: Fed, sf: Streamed)
    requires RepeatsHeld(before + [f], sf) && f.spot.source != Wspr && StreamAllowed(RawOf(f), sf)
    ensures HasKey(Feed(Delivered(before, sf)), KeyOf(f))
            ==> HasKey(Feed(before), KeyOf(f))
  {
    var full, n, live, key := before + [f], |before|, Feed(Delivered(before, sf)), KeyOf(f);
    assert full[..n] == before;
    if HasKey(live, key) {
      var i :| 0 <= i < |live| && live[i].key == key;
      RetainedCame(Delivered(before, sf));
      DeliveredCame(before, sf, live[i]);
      var j :| 0 <= j < n && live[i] == EntryOf(before[j].spot, before[j].clockMs);
      assert full[j] == before[j] && full[n] == f && Repeats(full, n);
    }
  }

  lemma {:induction false} HeldInBoth(a: seq<Entry>, b: seq<Entry>, e: Entry, sf: Streamed)
    requires EndsWith(b, AllowedOnes(a, sf)) && StreamAllowed(e.raw, sf) && HasKey(a, e.key)
    requires EntryOk(e) && forall k :: 0 <= k < |a| ==> EntryOk(a[k])
    ensures HasKey(b, e.key)
  {
    var i :| 0 <= i < |a| && a[i].key == e.key;
    AllowedHas(a, sf, a[i]);
    var k :| 0 <= k < |b| && b[k] == a[i];
  }

  lemma {:induction false} PushBoth(before: seq<Fed>, f: Fed, sf: Streamed)
    requires StampsInOrder(before + [f]) && RepeatsHeld(before + [f], sf) && StreamAllowed(RawOf(f), sf)
    requires EndsWith(Feed(Delivered(before, sf)), AllowedOnes(Feed(before), sf))
    ensures EndsWith(PushList(Feed(Delivered(before, sf)), f.spot, f.clockMs),
                     AllowedOnes(PushList(Feed(before), f.spot, f.clockMs), sf))
  {
    var a, b, e := Feed(before), Feed(Delivered(before, sf)), EntryOf(f.spot, f.clockMs);
    if f.spot.source != Wspr {
      if HasKey(a, e.key) {
        FeedEntriesOk(before);
        HeldInBoth(a, b, e, sf);
      } else {
        HeldByFull(before, f, sf);
        OrderedPush(before, f);
        BothAdmit(a, b, e, sf);
      }
    }
  }

  lemma {:induction false} AdmitWithheld(live: seq<Entry>, e: Entry, sf: Streamed)
    requires !StreamAllowed(e.raw, sf)
    ensures EndsWith(AllowedOnes(live, sf), AllowedOnes(Admit(live, e), sf))
  {
    AllowedAfter(live, e, sf);
    AllowedOfSuffix(live + [e], EvictCount(live + [e], e.recvMs), sf);
  }

  lemma {:induction false} NothingDelivered(sf: Streamed)
    ensures EndsWith(Feed(Delivered([], sf)), AllowedOnes(Feed([]), sf))
  {
  }

  /**
   A feed of any length, whatever is evicted meanwhile: what the full ring holds of the delivered spots
   is the newest part of what the ring of the delivered feed holds.
   */
  lemma {:induction false} DeliveredKeepsUp(full: seq<Fed>, sf: Streamed)
    requires StampsInOrder(full) && RepeatsHeld(full, sf)
    ensures EndsWith(Feed(Delivered(full, sf)), AllowedOnes(Feed(full), sf))
  {
    hide RepeatsHeld;
    hide StreamAllowed;
    hide EndsWith;
    hide AllowedOnes;
    hide Admit;
    hide HasKey;
    if full == [] {
      NothingDelivered(sf);
    } else {
      var n := |full| - 1;
      var before, f := full[..n], full[n];
      assert full == before + [f];
      assert StampsInOrder(before);
      RepeatsHeldBefore(full, n, sf);
      DeliveredKeepsUp(before, sf);
      var d := Delivered(full, sf);
      if StreamAllowed(RawOf(f), sf) {
        assert d[..|d| - 1] == Delivered(before, sf);
        PushBoth(before, f, sf);
      } else {
        AdmitWithheld(Feed(before), EntryOf(f.spot, f.clockMs), sf);
        SuffixOfSuffix(Feed(d), AllowedOnes(Feed(before), sf), AllowedOnes(Feed(full), sf));
      }
    }
  }

  lemma {:induction false} VisibleOfAllowed(s: seq<Entry>, sf: Streamed, c: Controls)
    requires RingCohortSatisfies(c, Some(sf), c.qth) && forall k :: 0 <= k < |s| ==> s[k].raw.source != Wspr
    ensures VisibleOnes(AllowedOnes(s, sf), c) == VisibleOnes(s, c)
  {
    if s != [] {
      var n := |s| - 1;
      VisibleOfAllowed(s[..n], sf, c);
      if StreamAllowed(s[n].raw, sf) {
        VisibleAfter(AllowedOnes(s[..n], sf), s[n], c);
      } else if Visible(s[n], c) {
        CohortIsNarrower(c, sf, s[n].raw);
      }
    }
  }

  lemma {:induction false} VisibleOfSuffix(s: seq<Entry>, tail: seq<Entry>, c: Controls)
    requires EndsWith(s, tail)
    ensures EndsWith(VisibleOnes(s, c), VisibleOnes(tail, c))
  {
    if tail != [] {
      var n, m := |s| - 1, |tail| - 1;
      assert s[..n][n - m..] == tail[..m];
      VisibleOfSuffix(s[..n], tail[..m], c);
      if Visible(s[n], c) {
        SuffixGrows(VisibleOnes(s[..n], c), VisibleOnes(tail[..m], c), s[n]);
      }
    }
  }

  /**
   With the cohort check passed, a ring of the full feed would show nothing that the ring of the
   delivered feed does not: what it would show is the newest part of what that ring shows.
   */
  lemma {:induction false} DeliveredShowsAtLeast(full: seq<Fed>, sf: Streamed, c: Controls)
    requires StampsInOrder(full) && RepeatsHeld(full, sf) && RingCohortSatisfies(c, Some(sf), c.qth)
    ensures EndsWith(VisibleOnes(Feed(Delivered(full, sf)), c), VisibleOnes(Feed(full), c))
  {
    DeliveredKeepsUp(full, sf);
    NoWsprHeld(full);
    VisibleOfAllowed(Feed(full), sf, c);
    VisibleOfSuffix(Feed(Delivered(full, sf)), AllowedOnes(Feed(full), sf), c);
  }

  /** So it is while fewer spots than the ring holds arrive within an hour. */
  lemma {:induction false} UncrowdedShowsAtLeast(full: seq<Fed>, sf: Streamed, c: Controls)
    requires StampsInOrder(full) && YoungAges(full) && Uncrowded(full) && RingCohortSatisfies(c, Some(sf), c.qth)
    ensures EndsWith(VisibleOnes(Feed(Delivered(full, sf)), c), VisibleOnes(Feed(full), c))
  {
    UncrowdedHolds(full, sf);
    DeliveredShowsAtLeast(full, sf, c);
  }

  // ── the whole feed, against what the ring of the delivered feed holds ──

  lemma {:induction false} DeliveredAmong(full: seq<Fed>, sf: Streamed, f: Fed)
    ensures f in Delivered(full, sf) <==> f in full && StreamAllowed(RawOf(f), sf)
  {
    if full != [] {
      DeliveredAmong(full[..|full| - 1], sf, f);
      assert full == full[..|full| - 1] + [full[|full| - 1]];
    }
  }

  lemma {:induction false} DeliveredOrdered(full: seq<Fed>, sf: Streamed)
    requires StampsInOrder(full) && AgesOk(full)
    ensures StampsInOrder(Delivered(full, sf)) && AgesOk(Delivered(full, sf))
  {
    if full != [] {
      var n := |full| - 1;
      var rest := Delivered(full[..n], sf);
      assert AgesOk(full[..n]);
      DeliveredOrdered(full[..n], sf);
      forall k | 0 <= k < |rest| ensures StampOf(rest[k]) <= StampOf(full[n]) {
        DeliveredAmong(full[..n], sf, rest[k]);
        var i :| 0 <= i < n && full[i] == rest[k];
      }
    }
  }

  /** A delivered spot is held, or from no later than the oldest receipt that is. */
  lemma {:induction false} HeldUnlessOld(full: seq<Fed>, sf: Streamed, i: nat)
    requires StampsInOrder(full) && AgesOk(full)
    requires i < |full| && full[i].spot.source != Wspr && StreamAllowed(RawOf(full[i]), sf)
    ensures var live := Feed(Delivered(full, sf));
      HasKey(live, KeyOf(full[i])) || (live != [] && KeyOf(full[i]).t <= live[0].recvMs / 1000)
  {
    DeliveredOrdered(full, sf);
    DeliveredAmong(full, sf, full[i]);
    var d := Delivered(full, sf);
    var k :| 0 <= k < |d| && d[k] == full[i];
    if !HasKey(Feed(d), KeyOf(d[k])) {
      Forgotten(d, k);
    }
  }
}
