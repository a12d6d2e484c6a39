/** Spots, their identity and the stream filter, shared by the session ring and the timeline. */
module Spots {
  import opened Basics

  /** A lower-cased, trimmed source type; `Unlabelled` is the empty one. */
  datatype Source = Unlabelled | Mqtt | Rbn | DxCluster | Wspr | OtherSource(name: string)

  /**
   A frozen raw copy. `ident` joins the identity fields other than source, band, snr and time, in
   upper case; `spelling` is what normalising drops. A missing snr is None.
   */
  datatype Raw = Raw(t: int, source: Source, band: string, snr: Option<int>, ident: string, spelling: string)

  /** The dedup key: every distinguishing field in its normalised form, and the derived time. */
  datatype Key = Key(source: Source, band: string, snr: Option<int>, ident: string, t: int)

  function SpotIdentity(raw: Raw): Key { Key(raw.source, raw.band, raw.snr, raw.ident, raw.t) }

  /** A spot as the feed delivers it, with the optional receive stamps. */
  datatype LiveSpot = LiveSpot(
    recvMs: Option<int>,
    recvAge: Option<int>,
    ageSeconds: Option<int>,
    source: Source,
    band: string,
    snr: Option<int>,
    ident: string,
    spelling: string)

  datatype Entry = Entry(key: Key, t: int, recvMs: int, raw: Raw)

  function RecvMs(spot: LiveSpot, clockMs: int): int {
    if spot.recvMs.Some? then spot.recvMs.value else clockMs
  }

  function RecvAge(spot: LiveSpot): int {
    if spot.recvAge.Some? then spot.recvAge.value
    else if spot.ageSeconds.Some? then spot.ageSeconds.value
    else 0
  }

  /** `/` rounds down for a positive divisor, as Math.floor does. */
  function DeriveT(recvMs: int, recvAge: int): int { recvMs / 1000 - recvAge }

  function EntryOf(spot: LiveSpot, clockMs: int): Entry {
    var recvMs := RecvMs(spot, clockMs);
    var t := DeriveT(recvMs, RecvAge(spot));
    var raw := Raw(t, spot.source, spot.band, spot.snr, spot.ident, spot.spelling);
    Entry(SpotIdentity(raw), t, recvMs, raw)
  }

  /**
   A spot counts as received at its stamp, or when it was pushed, and as heard its age before that: the
   receive age, else the age the feed gives, else none, in whole seconds.
   */
  lemma {:induction false} SpotTimes(spot: LiveSpot, clockMs: int)
    ensures var e := EntryOf(spot, clockMs);
      var age := match spot.recvAge
                 case Some(a) => a
                 case None => (match spot.ageSeconds case Some(a) => a case None => 0);
      && e.recvMs == (match spot.recvMs case Some(ms) => ms case None => clockMs)
      && 1000 * (e.t + age) <= e.recvMs < 1000 * (e.t + age + 1)
      && e.raw == Raw(e.t, spot.source, spot.band, spot.snr, spot.ident, spot.spelling)
  {
    var ms := RecvMs(spot, clockMs);
    assert ms == 1000 * (ms / 1000) + ms % 1000;
  }

  /** Two spots are the same when they agree in time and in every field but its spelling. */
  lemma {:induction false} SameSpot(a: LiveSpot, b: LiveSpot, clockA: int, clockB: int)
    ensures EntryOf(a, clockA).key == EntryOf(b, clockB).key
      <==> EntryOf(a, clockA).t == EntryOf(b, clockB).t && a.source == b.source && a.band == b.band
           && a.snr == b.snr && a.ident == b.ident
  {
    hide DeriveT;
  }

  ghost predicate EntryOk(e: Entry) { e.key == SpotIdentity(e.raw) && e.t == e.raw.t == e.key.t }

  // ── the filter, applied when slicing ──

  datatype SnrMode = NoMode | Ssb | Cw

  datatype Filter = Filter(enabledBands: set<string>, mode: SnrMode, ssbMinDb: int, cwMinDb: int)

  /** dxcluster and wspr are exempt from the thresholds, unlabelled spots are not. */
  predicate SnrCalibrated(source: Source) { source == Unlabelled || source == Mqtt || source == Rbn }

  predicate SnrAllowed(source: Source, snr: Option<int>, f: Filter) {
    var db := if snr.Some? then snr.value else 0;
    SnrCalibrated(source) ==> (f.mode == Ssb ==> db >= f.ssbMinDb) && (f.mode == Cw ==> db >= f.cwMinDb)
  }

  /** The client replica of the server's filter; an empty band set allows every band. */
  predicate FilterAllowed(raw: Raw, f: Filter) {
    (f.enabledBands != {} ==> raw.band in f.enabledBands) && SnrAllowed(raw.source, raw.snr, f)
  }
}
