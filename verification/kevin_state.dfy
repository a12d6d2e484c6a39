/**
 The tuning table and the plain-data state of the Horst-Kevin poll reducer. Times are
 integer milliseconds. Band names arrive already lower-cased and trimmed, so a band is a value
 of an enumeration; the names Kevin never dares are `OtherBand`.
 */
module KevinState {
  import opened Basics

  const POLL_MS := 30_000
  const RESYNC_GAP_MS := 150_000
  const FADE_GRACE_MS := 300_000
  const EPISODE_MERGE_MS := 600_000
  const GRUDGE_MIN_RUNG := 1
  const GRUDGE_MIN_OBSERVED_MS := 300_000
  const VERDICT_BANGER_SHARE := 0.6
  const VERDICT_MIN_COVERAGE := 0.4
  const VERDICT_STALE_POLLS := 3
  const GLOBAL_MIN_GAP_MS := 300_000
  const MIN_SIGHTING_GAP_MS := 24_000
  const DAILY_DARE_CAP := 6
  const DAILY_SURPRISE_CAP := 10
  const HOLD_MIN_SPM := 0.3
  const HOLD_PEAK_SHARE := 0.4
  const MAX_LIVE_RUNG := 2
  const GRUDGE_WINDOW_MS := 604_800_000
  const MAX_GRUDGES := 60
  const MAX_CALLS := 60
  const LONGEST_VERDICT_MS := 600_000
  const DAY_MS := 86_400_000

  datatype Band = M80 | M40 | M30 | M20 | M17 | M15 | M12 | M10 | M6 | OtherBand(name: string)
  datatype Kind = NoKind | Rising | DxSurge | Surprise | OtherKind(text: string)
  datatype Profile = Fast | Mid | Low

  function BandProfile(b: Band): Profile {
    match b
    case M12 => Fast
    case M10 => Fast
    case M6 => Fast
    case M80 => Low
    case M40 => Low
    case M30 => Low
    case _ => Mid
  }

  function ConfirmPolls(b: Band): (n: int)
    ensures 2 <= n <= 3
  {
    if BandProfile(b) == Fast then 2 else 3
  }

  function RungsMs(b: Band): (r: seq<int>)
    ensures |r| == 3 && r[0] == 0 && 0 < r[1] < r[2]
  {
    match BandProfile(b)
    case Fast => [0, 120_000, 300_000]
    case Mid => [0, 480_000, 1_200_000]
    case Low => [0, 720_000, 1_800_000]
  }

  function VerdictMs(b: Band): (v: int)
    ensures FADE_GRACE_MS <= v <= 2 * FADE_GRACE_MS && v <= LONGEST_VERDICT_MS
  {
    if BandProfile(b) == Fast then 300_000 else 600_000
  }

  function CooldownMs(b: Band): (c: int)
    ensures 2 * FADE_GRACE_MS < c
  {
    if BandProfile(b) == Fast then 1_800_000 else 5_400_000
  }

  /** The three profiles, in minutes; a band outside the table has the middle one. */
  lemma {:induction false} Profiles(b: Band)
    ensures b in {M12, M10, M6} ==>
      ConfirmPolls(b) == 2 && RungsMs(b) == [0, 2 * 60_000, 5 * 60_000]
      && VerdictMs(b) == 5 * 60_000 && CooldownMs(b) == 30 * 60_000
    ensures b in {M80, M40, M30} ==>
      ConfirmPolls(b) == 3 && RungsMs(b) == [0, 12 * 60_000, 30 * 60_000]
      && VerdictMs(b) == 10 * 60_000 && CooldownMs(b) == 90 * 60_000
    ensures b !in {M12, M10, M6, M80, M40, M30} ==>
      ConfirmPolls(b) == 3 && RungsMs(b) == [0, 8 * 60_000, 20 * 60_000]
      && VerdictMs(b) == 10 * 60_000 && CooldownMs(b) == 90 * 60_000
  {
  }

  /** The highest rung whose observed time has been reached, searched from the top down. */
  function DesiredRung(b: Band, observedMs: int): (k: int)
    ensures 0 <= k <= MAX_LIVE_RUNG
    ensures k > 0 ==> RungsMs(b)[k] <= observedMs
    ensures forall j :: k < j <= MAX_LIVE_RUNG ==> observedMs < RungsMs(b)[j]
  {
    var rungs := RungsMs(b);
    if observedMs >= rungs[2] then 2 else if observedMs >= rungs[1] then 1 else 0
  }

  datatype Verdict = Pending | Void | Answered | Banger | Dud

  datatype CallId = CallId(ts: int, band: Band)

  /** One spoken rung-0 dare, kept across page loads. */
  datatype Call = Call(id: CallId, band: Band, rung: int, kind: Kind, rate: real, ts: int, verdict: Verdict)

  /** One opening on one band. `rung` is the highest rung spoken, -1 before the first line. */
  datatype Episode = Episode(
    band: Band,
    firstSeenAt: int,
    lastSeenAt: int,
    lastCountedAt: int,
    seenPolls: int,
    confirmed: bool,
    observedMs: int,
    rung: int,
    spoken: bool,
    answered: bool,
    grudged: bool,
    peakRate: real,
    kind: Kind,
    reason: string,
    callId: Option<CallId>)

  datatype Ended = Ended(endedAt: int, episode: Episode)

  datatype Grudge = Grudge(band: Band, kind: Kind, reason: string, peakRate: real, firstSeenAt: int, fadedAt: int)

  datatype PollRec = PollRec(ts: int, present: set<Band>, grace: set<Band>)

  /** `lastPollAt == 0` and `lastSpokeAt == 0` mean "never". */
  datatype State = State(
    lastPollAt: int,
    ctxKey: Option<string>,
    episodes: map<Band, Episode>,
    recent: map<Band, Ended>,
    cooldownUntil: map<Band, int>,
    lastSpokeAt: int,
    lastSpokeBand: Option<Band>,
    day: Option<int>,
    dareCount: int,
    polls: seq<PollRec>,
    calls: seq<Call>,
    grudges: seq<Grudge>)

  function UtcDay(ts: int): int { ts / DAY_MS }

  function CooldownOf(s: State, b: Band): int {
    if b in s.cooldownUntil then s.cooldownUntil[b] else 0
  }

  function SetCooldown(s: State, b: Band, from: int): State {
    s.(cooldownUntil := s.cooldownUntil[b := Max(CooldownOf(s, b), from + CooldownMs(b))])
  }

  /** Spoken rung-0 dares on one UTC day, whatever their verdict. */
  function DaresOn(calls: seq<Call>, day: int): (n: nat)
    ensures n <= |calls|
  {
    if calls == [] then 0
    else
      var c := calls[|calls| - 1];
      DaresOn(calls[..|calls| - 1], day) + (if c.rung == 0 && c.ts > 0 && UtcDay(c.ts) == day then 1 else 0)
  }

  // ── a fresh page: the speech budget is re-derived from the stored calls ──

  predicate Usable(c: Call) { c.ts != 0 && c.band != OtherBand("") }

  function LatestTs(calls: seq<Call>): (t: int)
    ensures t >= 0
    ensures forall c :: c in calls && Usable(c) ==> c.ts <= t
  {
    if calls == [] then 0
    else
      var rest := LatestTs(calls[..|calls| - 1]);
      if Usable(calls[|calls| - 1]) then Max(rest, calls[|calls| - 1].ts) else rest
  }

  function CooldownFloor(calls: seq<Call>): (m: map<Band, int>)
    ensures forall c :: c in calls && Usable(c) ==> c.band in m && c.ts + CooldownMs(c.band) <= m[c.band]
  {
    if calls == [] then map[]
    else
      var rest := CooldownFloor(calls[..|calls| - 1]);
      var c := calls[|calls| - 1];
      if Usable(c) then
        rest[c.band := Max(if c.band in rest then rest[c.band] else 0, c.ts + CooldownMs(c.band))]
      else rest
  }

  function FreshState(calls: seq<Call>, grudges: seq<Grudge>): State {
    var kept := LastN(calls, MAX_CALLS);
    State(0, None, map[], map[], CooldownFloor(kept), LatestTs(kept), None, None, 0, [], kept,
          LastN(grudges, MAX_GRUDGES))
  }

  method CreateState(calls: seq<Call>, grudges: seq<Grudge>) returns (s: State)
    ensures s == FreshState(calls, grudges)
  {
    hide CooldownMs;
    hide Max;
    hide LastN;
    var kept := LastN(calls, MAX_CALLS);
    var cooldownUntil: map<Band, int> := map[];
    var lastSpokeAt := 0;
    for i := 0 to |kept|
      invariant cooldownUntil == CooldownFloor(kept[..i])
      invariant lastSpokeAt == LatestTs(kept[..i])
    {
      assert kept[..i + 1][..i] == kept[..i];
      var c := kept[i];
      if Usable(c) {
        lastSpokeAt := Max(lastSpokeAt, c.ts);
        var before := if c.band in cooldownUntil then cooldownUntil[c.band] else 0;
        cooldownUntil := cooldownUntil[c.band := Max(before, c.ts + CooldownMs(c.band))];
      }
    }
    assert kept[..|kept|] == kept;
    s := State(0, None, map[], map[], cooldownUntil, lastSpokeAt, None, None, 0, [], kept,
               LastN(grudges, MAX_GRUDGES));
  }

  // ── verdicts set outside grading ──

  /** Give the first call with this id the verdict `v`, if it is still pending. */
  function Decide(calls: seq<Call>, id: CallId, v: Verdict): (r: seq<Call>)
    ensures |r| == |calls|
    ensures forall i :: 0 <= i < |calls| ==>
              r[i] == calls[i] || (calls[i].id == id && calls[i].verdict == Pending && r[i] == calls[i].(verdict := v))
    ensures forall i :: (0 <= i < |calls| && calls[i].id == id && calls[i].verdict == Pending
                         && (forall j :: 0 <= j < i ==> calls[j].id != id)) ==> r[i].verdict == v
  {
    if calls == [] then []
    else if calls[0].id == id then
      [if calls[0].verdict == Pending then calls[0].(verdict := v) else calls[0]] + calls[1..]
    else [calls[0]] + Decide(calls[1..], id, v)
  }

  function VoidIfPending(c: Call): Call {
    if c.verdict == Pending then c.(verdict := Void) else c
  }

  function VoidPending(calls: seq<Call>): (r: seq<Call>)
    ensures |r| == |calls|
    ensures forall i :: 0 <= i < |calls| ==> r[i] == VoidIfPending(calls[i])
  {
    seq(|calls|, i requires 0 <= i < |calls| => VoidIfPending(calls[i]))
  }

  /** The episodes' bands that spoke, with their cooldowns counted from when they were last seen. */
  function EndingCooldowns(s: State, order: seq<Band>): State {
    if order == [] then s
    else
      var b := order[|order| - 1];
      var rest := EndingCooldowns(s, order[..|order| - 1]);
      if b in s.episodes && s.episodes[b].spoken then SetCooldown(rest, b, s.episodes[b].lastSeenAt) else rest
  }

  /** Close every episode without grudges or speech and void the pending calls. */
  function ResyncInPlace(s: State, order: seq<Band>): State {
    EndingCooldowns(s, order).(episodes := map[], recent := map[], polls := [], calls := VoidPending(s.calls))
  }

  /** The quiet reset (no location, stale feed): the next poll counts as a first poll. */
  function Resync(s: State, order: seq<Band>): State {
    ResyncInPlace(s, order).(lastPollAt := 0, ctxKey := None)
  }

  method ResyncState(state: State, order: seq<Band>) returns (s: State)
    ensures s == ResyncInPlace(state, order)
  {
    s := state;
    for i := 0 to |order|
      invariant s == EndingCooldowns(state, order[..i])
      invariant s.episodes == state.episodes && s.calls == state.calls
    {
      assert order[..i + 1][..i] == order[..i];
      var b := order[i];
      if b in s.episodes && s.episodes[b].spoken {
        s := SetCooldown(s, b, s.episodes[b].lastSeenAt);
      }
    }
    assert order[..|order|] == order;
    s := s.(episodes := map[], recent := map[], polls := []);
    var calls := s.calls;
    for i := 0 to |calls|
      invariant |calls| == |state.calls|
      invariant forall k :: 0 <= k < i ==> calls[k] == VoidIfPending(state.calls[k])
      invariant forall k :: i <= k < |calls| ==> calls[k] == state.calls[k]
    {
      if calls[i].verdict == Pending {
        calls := calls[i := calls[i].(verdict := Void)];
      }
    }
    assert calls == VoidPending(state.calls);
    s := s.(calls := calls);
  }

  function AnswerEpisode(s: State, b: Band): State
    requires b in s.episodes
  {
    var ep := s.episodes[b];
    if ep.answered then s
    else
      s.(episodes := s.episodes[b := ep.(answered := true)],
         calls := if ep.callId.Some? then Decide(s.calls, ep.callId.value, Answered) else s.calls)
  }

  /** The operator took the dare from the bubble. */
  function MarkAnswered(s: State, b: Band): State {
    if b in s.episodes then AnswerEpisode(s, b) else s
  }
}
