/**
 One poll of the reducer. The JavaScript walks its objects in key order; that order is the
 parameter `order`, and nothing proved later depends on which order it is.

 Each loop over the bands is a `Step` applied band by band (`Sweep`), so that an invariant kept by
 every step is kept by every poll.
 */
module KevinReduce {
  import opened Basics
  import opened KevinState

  datatype Rec = Rec(band: Band, kind: Kind, spotsPerMinute: real, reason: string)

  /** `down` stands for a red or grey status. */
  datatype Holding = Holding(down: bool, spotsPerMinute: real)

  /**
   What a poll receives. `usual` holds the bands the almanac calls usually open now (empty without an
   almanac), `sixMetreSeason` whether the UTC month is one in which 6m is in scope.
   */
  datatype Input = Input(
    now: int,
    recs: seq<Rec>,
    ctxKey: Option<string>,
    answered: set<Band>,
    enabled: Option<set<Band>>,
    holding: map<Band, Holding>,
    usual: set<Band>,
    panelOpen: bool,
    sixMetreSeason: bool)

  datatype LineType = DareLine | FadeLine | DudLine

  /** A spoken line. `opening` and `observedMs` identify and date the episode it is about. */
  datatype Speech = Speech(what: LineType, band: Band, rung: int, kind: Kind, nag: bool, opening: int, observedMs: int)

  predicate Allowed(b: Band, inp: Input) {
    !b.OtherBand? && (b == M6 ==> inp.sixMetreSeason) && (inp.enabled.Some? ==> b in inp.enabled.value)
  }

  // ── the start of a poll: day rollover, quiet resync ──

  predicate AreaChanged(s: State, inp: Input) {
    inp.ctxKey.Some? && s.ctxKey.Some? && inp.ctxKey != s.ctxKey
  }

  predicate Silent(s: State, inp: Input) {
    s.lastPollAt == 0 || inp.now - s.lastPollAt > RESYNC_GAP_MS || AreaChanged(s, inp)
  }

  function RollDay(s: State, now: int): State {
    var day := UtcDay(now);
    if s.day == Some(day) then s else s.(day := Some(day), dareCount := DaresOn(s.calls, day))
  }

  function Begin(state: State, inp: Input, order: seq<Band>): State {
    var s := RollDay(state, inp.now);
    var s := if Silent(s, inp) && s.lastPollAt != 0 then ResyncInPlace(s, order) else s;
    s.(ctxKey := if inp.ctxKey.Some? then inp.ctxKey else s.ctxKey, lastPollAt := inp.now)
  }

  // ── the recommendations in scope, first entry per band ──

  datatype Seen = Seen(bands: seq<Band>, recs: map<Band, Rec>)

  function PresentBands(recs: seq<Rec>, inp: Input): (p: Seen)
    ensures forall b :: b in p.bands <==> b in p.recs
    ensures forall b :: b in p.recs ==> Allowed(b, inp) && p.recs[b] in recs && p.recs[b].band == b
    ensures forall i, j :: 0 <= i < j < |p.bands| ==> p.bands[i] != p.bands[j]
  {
    if recs == [] then Seen([], map[])
    else
      var p := PresentBands(recs[..|recs| - 1], inp);
      var rec := recs[|recs| - 1];
      if !Allowed(rec.band, inp) || rec.band in p.recs then p
      else Seen(p.bands + [rec.band], p.recs[rec.band := rec])
  }

  method GatherPresent(inp: Input) returns (p: Seen)
    ensures p == PresentBands(inp.recs, inp)
  {
    p := Seen([], map[]);
    for i := 0 to |inp.recs|
      invariant p == PresentBands(inp.recs[..i], inp)
    {
      assert inp.recs[..i + 1][..i] == inp.recs[..i];
      var rec := inp.recs[i];
      if Allowed(rec.band, inp) && rec.band !in p.recs {
        p := Seen(p.bands + [rec.band], p.recs[rec.band := rec]);
      }
    }
    assert inp.recs[..|inp.recs|] == inp.recs;
  }

  // ── per-episode bookkeeping ──

  function Accrue(ep: Episode, now: int): Episode {
    ep.(observedMs := ep.observedMs + Max(0, Min(now - ep.lastSeenAt, 2 * POLL_MS)))
  }

  function CountSighting(ep: Episode, now: int): Episode {
    if now - ep.lastCountedAt < MIN_SIGHTING_GAP_MS then ep
    else ep.(seenPolls := ep.seenPolls + 1, lastCountedAt := now)
  }

  function MaxRate(a: real, b: real): real { if a <= b then b else a }

  function NewEpisode(b: Band, rec: Rec, now: int): Episode {
    Episode(b, now, now, now, 1, false, 0, -1, false, false, false, rec.spotsPerMinute, rec.kind, rec.reason, None)
  }

  /** The part of a sighting that follows creation or continuation. */
  function Sight(ep: Episode, rec: Rec, now: int): Episode {
    ep.(lastSeenAt := now,
        peakRate := MaxRate(ep.peakRate, rec.spotsPerMinute),
        kind := if rec.kind == NoKind then ep.kind else rec.kind,
        reason := if rec.reason == "" then ep.reason else rec.reason)
  }

  function Confirm(ep: Episode): Episode {
    if !ep.confirmed && ep.seenPolls >= ConfirmPolls(ep.band) then ep.(confirmed := true) else ep
  }

  predicate Gated(b: Band, kind: Kind, inp: Input) {
    (kind == Rising || kind == DxSurge) && b in inp.usual
  }

  predicate IsHoldingOpen(h: Holding, peakRate: real) {
    !h.down && h.spotsPerMinute >= MaxRate(HOLD_MIN_SPM, HOLD_PEAK_SHARE * peakRate)
  }

  function KeepRecent(gs: seq<Grudge>, now: int): (r: seq<Grudge>)
    ensures forall g :: g in r <==> g in gs && now - g.fadedAt < GRUDGE_WINDOW_MS
  {
    if gs == [] then []
    else
      var r := KeepRecent(gs[..|gs| - 1], now);
      if now - gs[|gs| - 1].fadedAt < GRUDGE_WINDOW_MS then r + [gs[|gs| - 1]] else r
  }

  function AddGrudge(s: State, g: Grudge, now: int): State {
    s.(grudges := LastN(KeepRecent(s.grudges + [g], now), MAX_GRUDGES))
  }

  predicate EarnsGrudge(ep: Episode) {
    !ep.answered && ep.spoken && !ep.grudged && ep.rung >= GRUDGE_MIN_RUNG && ep.observedMs >= GRUDGE_MIN_OBSERVED_MS
  }

  function RoundRate(r: real): real { (r * 100.0 + 0.5).Floor as real / 100.0 }

  function GrudgeFor(ep: Episode, now: int): Grudge {
    Grudge(ep.band, ep.kind, ep.reason, RoundRate(ep.peakRate), ep.firstSeenAt, now)
  }

  // ── the sweeps ──

  /** A poll in progress: the state, the unanswered spoken episodes that faded, the grudges added. */
  datatype Work = Work(s: State, faded: seq<Episode>, added: seq<Grudge>)

  datatype Phase = LeaveScope | ExpireRecent | AnswerActive | SeePresent | SeeAbsent | GateUnspoken

  function LeaveScopeStep(s: State, b: Band, inp: Input): State {
    if b in s.episodes && !Allowed(b, inp) then
      var ep := s.episodes[b];
      s.(episodes := s.episodes - {b},
         calls := if ep.callId.Some? then Decide(s.calls, ep.callId.value, Void) else s.calls)
    else s
  }

  function ExpireRecentStep(s: State, b: Band, inp: Input): State {
    if b in s.recent && (inp.now - s.recent[b].endedAt > EPISODE_MERGE_MS || !Allowed(b, inp)) then
      s.(recent := s.recent - {b})
    else s
  }

  function AnswerActiveStep(s: State, b: Band, inp: Input): State {
    if b in s.episodes && b in inp.answered then AnswerEpisode(s, b) else s
  }

  /** The state with `ep` put at its band, answered and confirmed as the sighting demands. */
  function PutSighted(s: State, b: Band, ep: Episode, rec: Rec, inp: Input): State {
    var sighted := Sight(ep, rec, inp.now);
    var taken := b in inp.answered && !sighted.answered;
    s.(episodes := s.episodes[b := Confirm(if taken then sighted.(answered := true) else sighted)],
       calls := if taken && ep.callId.Some? then Decide(s.calls, ep.callId.value, Answered) else s.calls)
  }

  function SeePresentStep(s: State, b: Band, rec: Rec, inp: Input): State {
    var now := inp.now;
    if b in s.episodes then
      PutSighted(s, b, CountSighting(Accrue(s.episodes[b], now), now), rec, inp)
    else if b in s.recent then
      var ep := CountSighting(Accrue(s.recent[b].episode, now), now);
      PutSighted(s.(recent := s.recent - {b}, cooldownUntil := s.cooldownUntil - {b}), b, ep, rec, inp)
    else if Gated(b, rec.kind, inp) then s
    else PutSighted(s, b, NewEpisode(b, rec, now), rec, inp)
  }

  function FadeStep(w: Work, b: Band, now: int): Work
    requires b in w.s.episodes
  {
    var ep := w.s.episodes[b];
    var grudge := EarnsGrudge(ep);
    var ended := if grudge then ep.(grudged := true) else ep;
    var s1 := w.s.(episodes := w.s.episodes - {b}, recent := w.s.recent[b := Ended(now, ended)]);
    var s2 := if ep.spoken then SetCooldown(s1, b, now) else s1;
    Work(if grudge then AddGrudge(s2, GrudgeFor(ep, now), now) else s2,
         if !ep.answered && ep.spoken then w.faded + [ended] else w.faded,
         if grudge then w.added + [GrudgeFor(ep, now)] else w.added)
  }

  function SeeAbsentStep(w: Work, b: Band, inp: Input): Work
    requires b in w.s.episodes
  {
    var s, now := w.s, inp.now;
    var ep := s.episodes[b];
    if ep.answered && b in inp.answered then
      w.(s := s.(episodes := s.episodes[b := Accrue(ep, now).(lastSeenAt := now)]))
    else if !ep.confirmed then
      w.(s := s.(episodes := s.episodes - {b}))
    else if b in inp.holding && IsHoldingOpen(inp.holding[b], ep.peakRate) then
      w.(s := s.(episodes := s.episodes[b := CountSighting(Accrue(ep, now), now).(lastSeenAt := now)]))
    else if now - ep.lastSeenAt < FADE_GRACE_MS then w
    else FadeStep(w, b, now)
  }

  function GateUnspokenStep(s: State, b: Band, inp: Input): State {
    if b in s.episodes && !s.episodes[b].spoken && !s.episodes[b].answered && Gated(b, s.episodes[b].kind, inp) then
      s.(episodes := s.episodes - {b})
    else s
  }

  function Step(phase: Phase, w: Work, b: Band, inp: Input, recs: map<Band, Rec>): Work {
    match phase
    case LeaveScope => w.(s := LeaveScopeStep(w.s, b, inp))
    case ExpireRecent => w.(s := ExpireRecentStep(w.s, b, inp))
    case AnswerActive => w.(s := AnswerActiveStep(w.s, b, inp))
    case SeePresent => if b in recs then w.(s := SeePresentStep(w.s, b, recs[b], inp)) else w
    case SeeAbsent => if b in w.s.episodes && b !in recs then SeeAbsentStep(w, b, inp) else w
    case GateUnspoken => w.(s := GateUnspokenStep(w.s, b, inp))
  }

  function Sweep(phase: Phase, w: Work, order: seq<Band>, inp: Input, recs: map<Band, Rec>): Work {
    if order == [] then w
    else Step(phase, Sweep(phase, w, order[..|order| - 1], inp, recs), order[|order| - 1], inp, recs)
  }

  function Observe(s: State, order: seq<Band>, inp: Input): Work {
    var seen := PresentBands(inp.recs, inp);
    var w := Sweep(LeaveScope, Work(s, [], []), order, inp, seen.recs);
    var w := Sweep(ExpireRecent, w, order, inp, seen.recs);
    var w := Sweep(AnswerActive, w, order, inp, seen.recs);
    var w := Sweep(SeePresent, w, seen.bands, inp, seen.recs);
    var w := Sweep(SeeAbsent, w, order, inp, seen.recs);
    Sweep(GateUnspoken, w, order, inp, seen.recs)
  }

  method RunSweep(phase: Phase, before: Work, order: seq<Band>, inp: Input, recs: map<Band, Rec>) returns (w: Work)
    ensures w == Sweep(phase, before, order, inp, recs)
  {
    w := before;
    for i := 0 to |order|
      invariant w == Sweep(phase, before, order[..i], inp, recs)
    {
      assert order[..i + 1][..i] == order[..i];
      w := Step(phase, w, order[i], inp, recs);
    }
    assert order[..|order|] == order;
  }

  // ── what to say ──

  datatype Candidate = Candidate(ep: Episode, rung: int)

  predicate Earned(ep: Episode, now: int) {
    ep.confirmed && !ep.answered && ep.lastSeenAt == now
    && ep.rung + 1 <= MAX_LIVE_RUNG && DesiredRung(ep.band, ep.observedMs) >= ep.rung + 1
  }

  function Candidates(s: State, order: seq<Band>, now: int): (r: seq<Candidate>)
    ensures forall c :: c in r <==> exists b :: b in order && b in s.episodes && Earned(s.episodes[b], now)
                                                && c == Candidate(s.episodes[b], s.episodes[b].rung + 1)
  {
    if order == [] then []
    else
      var r := Candidates(s, order[..|order| - 1], now);
      var b := order[|order| - 1];
      assert forall x :: x in order <==> x in order[..|order| - 1] || x == b;
      if b in s.episodes && Earned(s.episodes[b], now) then
        r + [Candidate(s.episodes[b], s.episodes[b].rung + 1)]
      else r
  }

  /** The comparator: a higher rung first, then a `surprise`, then the higher peak rate. */
  predicate Outranks(a: Candidate, b: Candidate) {
    var sa, sb := a.ep.kind == Surprise, b.ep.kind == Surprise;
    if a.rung != b.rung then a.rung > b.rung
    else if sa != sb then sa
    else a.ep.peakRate > b.ep.peakRate
  }

  /** Stable insertion: behind every candidate that `c` does not outrank. */
  function InsertRanked(sorted: seq<Candidate>, c: Candidate): (r: seq<Candidate>)
    ensures multiset(r) == multiset(sorted) + multiset{c}
    ensures forall x :: x in r <==> x in sorted || x == c
  {
    if sorted == [] then [c]
    else if Outranks(c, sorted[0]) then [c] + sorted
    else
      assert sorted == [sorted[0]] + sorted[1..];
      [sorted[0]] + InsertRanked(sorted[1..], c)
  }

  function Ranked(cs: seq<Candidate>): (r: seq<Candidate>)
    ensures multiset(r) == multiset(cs)
  {
    if cs == [] then []
    else
      assert cs == cs[..|cs| - 1] + [cs[|cs| - 1]];
      InsertRanked(Ranked(cs[..|cs| - 1]), cs[|cs| - 1])
  }

  predicate GapOk(s: State, now: int) {
    s.lastSpokeAt == 0 || now - s.lastSpokeAt >= GLOBAL_MIN_GAP_MS
  }

  function DareCap(kind: Kind): int { if kind == Surprise then DAILY_SURPRISE_CAP else DAILY_DARE_CAP }

  predicate MaySpeak(s: State, c: Candidate, now: int) {
    (GapOk(s, now) || (c.rung > 0 && s.lastSpokeBand == Some(c.ep.band)))
    && (c.rung == 0 ==> CooldownOf(s, c.ep.band) <= now && s.dareCount < DareCap(c.ep.kind))
  }

  function FirstSpeakable(s: State, cs: seq<Candidate>, now: int): (r: Option<Candidate>)
    ensures r.Some? ==> exists k :: 0 <= k < |cs| && r.value == cs[k] && MaySpeak(s, cs[k], now)
                                    && forall j :: 0 <= j < k ==> !MaySpeak(s, cs[j], now)
    ensures r.None? ==> forall c :: c in cs ==> !MaySpeak(s, c, now)
  {
    if cs == [] then None
    else if MaySpeak(s, cs[0], now) then Some(cs[0])
    else FirstSpeakable(s, cs[1..], now)
  }

  function RecordCall(calls: seq<Call>, ep: Episode, now: int): seq<Call> {
    LastN(calls + [Call(CallId(now, ep.band), ep.band, 0, ep.kind, ep.peakRate, now, Pending)], MAX_CALLS)
  }

  /** Speak the candidate's line: its rung rises, and a first dare is recorded and counted. */
  function SpeakDare(s: State, c: Candidate, now: int): State {
    var b := c.ep.band;
    if c.rung == 0 then
      s.(episodes := s.episodes[b := c.ep.(rung := 0, spoken := true, callId := Some(CallId(now, b)))],
         dareCount := s.dareCount + 1,
         calls := RecordCall(s.calls, c.ep, now))
    else
      s.(episodes := s.episodes[b := c.ep.(rung := c.rung, spoken := true)])
  }

  function DareSpeech(c: Candidate): Speech {
    Speech(DareLine, c.ep.band, c.rung, c.ep.kind, c.rung >= 1 || c.ep.kind == Surprise,
           c.ep.firstSeenAt, c.ep.observedMs)
  }

  /** The faded episode with the highest rung, the earliest of equals. */
  function TopFaded(faded: seq<Episode>): (ep: Episode)
    requires faded != []
    ensures ep in faded
    ensures forall e :: e in faded ==> e.rung <= ep.rung
  {
    if |faded| == 1 then faded[0]
    else
      var ep := TopFaded(faded[..|faded| - 1]);
      var last := faded[|faded| - 1];
      if last.rung > ep.rung then last else ep
  }

  /** Of equal rungs it is the earliest. */
  lemma {:induction false} EarliestTop(faded: seq<Episode>) returns (i: nat)
    requires faded != []
    ensures i < |faded| && faded[i] == TopFaded(faded) && forall j :: 0 <= j < i ==> faded[j].rung < faded[i].rung
  {
    i := 0;
    if |faded| > 1 {
      var n := |faded| - 1;
      var k := EarliestTop(faded[..n]);
      var top := faded[..n][k];
      i := if faded[n].rung > top.rung then n else k;
      assert forall j :: 0 <= j < n ==> faded[j] in faded[..n] && faded[j] == faded[..n][j];
    }
  }

  function FadeSpeech(ep: Episode): Speech {
    Speech(FadeLine, ep.band, ep.rung, ep.kind, false, ep.firstSeenAt, ep.observedMs)
  }

  function Chosen(s: State, order: seq<Band>, now: int): Option<Candidate> {
    FirstSpeakable(s, Ranked(Candidates(s, order, now)), now)
  }

  datatype Said = Said(s: State, speech: seq<Speech>)

  function Talk(w: Work, order: seq<Band>, now: int, silent: bool): Said {
    if silent then Said(w.s, [])
    else
      var c := Chosen(w.s, order, now);
      if c.Some? then Said(SpeakDare(w.s, c.value, now), [DareSpeech(c.value)])
      else if w.faded != [] && GapOk(w.s, now) then Said(w.s, [FadeSpeech(TopFaded(w.faded))])
      else Said(w.s, [])
  }

  // ── verdicts ──

  function KeepPolls(polls: seq<PollRec>, now: int): seq<PollRec> {
    if polls == [] then []
    else
      var p := polls[|polls| - 1];
      var rest := KeepPolls(polls[..|polls| - 1], now);
      if now - p.ts <= LONGEST_VERDICT_MS + (VERDICT_STALE_POLLS + 2) * POLL_MS then rest + [p] else rest
  }

  function LogPoll(s: State, now: int): State {
    var rec := PollRec(now,
      set b | b in s.episodes && s.episodes[b].lastSeenAt == now,
      set b | b in s.episodes && s.episodes[b].lastSeenAt != now);
    var n := |s.polls|;
    var polls := if n > 0 && now - s.polls[n - 1].ts < MIN_SIGHTING_GAP_MS then s.polls[..n - 1] + [rec]
                 else s.polls + [rec];
    s.(polls := KeepPolls(polls, now))
  }

  /** How many of the polls in the call's window there were, and in how many the band was alive. */
  function Tally(polls: seq<PollRec>, c: Call, bridged: bool): (r: (int, int))
    ensures 0 <= r.1 <= r.0
  {
    if polls == [] then (0, 0)
    else
      var p := polls[|polls| - 1];
      var (seen, alive) := Tally(polls[..|polls| - 1], c, bridged);
      if c.ts <= p.ts <= c.ts + VerdictMs(c.band) then
        (seen + 1, if c.band in p.present || (bridged && c.band in p.grace) then alive + 1 else alive)
      else (seen, alive)
  }

  function Grade(c: Call, s: State, now: int): Call {
    var win := VerdictMs(c.band);
    if c.verdict != Pending || now - c.ts < win then c
    else if now - c.ts > win + VERDICT_STALE_POLLS * POLL_MS then c.(verdict := Void)
    else
      var bridged := c.band in s.episodes && s.episodes[c.band].lastSeenAt == now;
      var (seen, alive) := Tally(s.polls, c, bridged);
      if seen as real < VERDICT_MIN_COVERAGE * (win / POLL_MS) as real then c.(verdict := Void)
      else if alive as real >= VERDICT_BANGER_SHARE * seen as real then c.(verdict := Banger)
      else c.(verdict := Dud)
  }

  function GradeAll(calls: seq<Call>, s: State, now: int): (r: seq<Call>)
    ensures |r| == |calls|
    ensures forall i :: 0 <= i < |calls| ==> r[i] == Grade(calls[i], s, now)
  {
    seq(|calls|, i requires 0 <= i < |calls| => Grade(calls[i], s, now))
  }

  function NewDuds(calls: seq<Call>, s: State, now: int): seq<Band> {
    if calls == [] then []
    else
      var c := calls[|calls| - 1];
      var rest := NewDuds(calls[..|calls| - 1], s, now);
      if c.verdict == Pending && Grade(c, s, now).verdict == Dud then rest + [c.band] else rest
  }

  method GradeCalls(s: State, now: int) returns (calls: seq<Call>, duds: seq<Band>)
    ensures calls == GradeAll(s.calls, s, now)
    ensures duds == NewDuds(s.calls, s, now)
  {
    calls, duds := s.calls, [];
    for i := 0 to |calls|
      invariant |calls| == |s.calls|
      invariant forall k :: 0 <= k < i ==> calls[k] == Grade(s.calls[k], s, now)
      invariant forall k :: i <= k < |calls| ==> calls[k] == s.calls[k]
      invariant duds == NewDuds(s.calls[..i], s, now)
    {
      assert s.calls[..i + 1][..i] == s.calls[..i];
      var graded := Grade(calls[i], s, now);
      if calls[i].verdict == Pending && graded.verdict == Dud {
        duds := duds + [calls[i].band];
      }
      calls := calls[i := graded];
    }
    assert s.calls[..|s.calls|] == s.calls;
  }

  // ── the whole poll ──

  datatype PollResult = PollResult(s: State, speech: seq<Speech>, added: seq<Grudge>)

  /** Grade, speak about a dud if nothing else was said, and remember the line. */
  function Finish(said: Said, added: seq<Grudge>, inp: Input, silent: bool): PollResult {
    var s := LogPoll(said.s, inp.now);
    var duds := NewDuds(s.calls, s, inp.now);
    var speech := if duds != [] && said.speech == [] && !silent && GapOk(s, inp.now) && inp.panelOpen then
                    [Speech(DudLine, duds[0], -1, NoKind, false, 0, 0)]
                  else said.speech;
    var s := s.(calls := GradeAll(s.calls, s, inp.now));
    PollResult(if speech == [] then s else s.(lastSpokeAt := inp.now, lastSpokeBand := Some(speech[0].band)),
               speech, added)
  }

  function Poll(state: State, inp: Input, order: seq<Band>): PollResult {
    var silent := Silent(state, inp);
    var w := Observe(Begin(state, inp, order), order, inp);
    Finish(Talk(w, order, inp.now, silent), w.added, inp, silent)
  }

  method StartPoll(state: State, inp: Input, order: seq<Band>) returns (s: State, silent: bool)
    ensures s == Begin(state, inp, order) && silent == Silent(state, inp)
  {
    s := state;
    var day := UtcDay(inp.now);
    if s.day != Some(day) {
      s := s.(day := Some(day), dareCount := DaresOn(s.calls, day));
    }
    silent := Silent(s, inp);
    if silent && s.lastPollAt != 0 {
      s := ResyncState(s, order);
    }
    s := s.(ctxKey := if inp.ctxKey.Some? then inp.ctxKey else s.ctxKey, lastPollAt := inp.now);
  }

  method ObserveBands(s: State, order: seq<Band>, inp: Input) returns (w: Work)
    ensures w == Observe(s, order, inp)
  {
    var seen := GatherPresent(inp);
    w := RunSweep(LeaveScope, Work(s, [], []), order, inp, seen.recs);
    w := RunSweep(ExpireRecent, w, order, inp, seen.recs);
    w := RunSweep(AnswerActive, w, order, inp, seen.recs);
    w := RunSweep(SeePresent, w, seen.bands, inp, seen.recs);
    w := RunSweep(SeeAbsent, w, order, inp, seen.recs);
    w := RunSweep(GateUnspoken, w, order, inp, seen.recs);
  }

  /** Collect the rung candidates, rank them, and take the first one no rule holds back. */
  method PickDare(s: State, order: seq<Band>, now: int) returns (choice: Option<Candidate>)
    ensures choice == Chosen(s, order, now)
  {
    var cs: seq<Candidate> := [];
    for i := 0 to |order|
      invariant cs == Candidates(s, order[..i], now)
    {
      assert order[..i + 1][..i] == order[..i];
      var b := order[i];
      if b in s.episodes && Earned(s.episodes[b], now) {
        cs := cs + [Candidate(s.episodes[b], s.episodes[b].rung + 1)];
      }
    }
    assert order[..|order|] == order;
    var ranked := Ranked(cs);
    for i := 0 to |ranked|
      invariant FirstSpeakable(s, ranked[i..], now) == FirstSpeakable(s, ranked, now)
    {
      if MaySpeak(s, ranked[i], now) {
        return Some(ranked[i]);
      }
      assert ranked[i..][1..] == ranked[i + 1..];
    }
    choice := None;
  }

  method SayLine(w: Work, order: seq<Band>, now: int, silent: bool) returns (said: Said)
    ensures said == Talk(w, order, now, silent)
  {
    said := Said(w.s, []);
    if !silent {
      var choice := PickDare(w.s, order, now);
      if choice.Some? {
        said := Said(SpeakDare(w.s, choice.value, now), [DareSpeech(choice.value)]);
      } else if w.faded != [] && GapOk(w.s, now) {
        said := Said(w.s, [FadeSpeech(TopFaded(w.faded))]);
      }
    }
  }

  method EndPoll(said: Said, added: seq<Grudge>, inp: Input, silent: bool) returns (r: PollResult)
    ensures r == Finish(said, added, inp, silent)
  {
    var s, speech := LogPoll(said.s, inp.now), said.speech;
    var calls, duds := GradeCalls(s, inp.now);
    if duds != [] && speech == [] && !silent && GapOk(s, inp.now) && inp.panelOpen {
      speech := [Speech(DudLine, duds[0], -1, NoKind, false, 0, 0)];
    }
    s := s.(calls := calls);
    if speech != [] {
      s := s.(lastSpokeAt := inp.now, lastSpokeBand := Some(speech[0].band));
    }
    r := PollResult(s, speech, added);
  }

  method Reduce(state: State, inp: Input, order: seq<Band>) returns (r: PollResult)
    ensures r == Poll(state, inp, order)
  {
    var s, silent := StartPoll(state, inp, order);
    var w := ObserveBands(s, order, inp);
    var said := SayLine(w, order, inp.now, silent);
    r := EndPoll(said, w.added, inp, silent);
  }

  // ── the chosen line is the best-ranked one that may be spoken ──

  predicate RankedSeq(cs: seq<Candidate>) {
    forall i, j :: 0 <= i < j < |cs| ==> !Outranks(cs[j], cs[i])
  }

  lemma {:induction false} RankPrepended(first: Candidate, rest: seq<Candidate>)
    requires RankedSeq(rest) && forall x :: x in rest ==> !Outranks(x, first)
    ensures RankedSeq([first] + rest)
  {
    var r := [first] + rest;
    forall j | 0 < j < |r| ensures !Outranks(r[j], first) {
      assert r[j] == rest[j - 1];
    }
  }

  lemma {:induction false} InsertAtFront(sorted: seq<Candidate>, c: Candidate)
    requires RankedSeq(sorted) && sorted != [] && Outranks(c, sorted[0])
    ensures RankedSeq([c] + sorted)
  {
    var r := [c] + sorted;
    forall j | 0 < j < |r| ensures !Outranks(r[j], c) {
      assert r[j] == sorted[j - 1];
    }
  }

  lemma {:induction false} InsertKeepsRank(sorted: seq<Candidate>, c: Candidate)
    requires RankedSeq(sorted)
    ensures RankedSeq(InsertRanked(sorted, c))
  {
    if sorted == [] {
    } else if Outranks(c, sorted[0]) {
      InsertAtFront(sorted, c);
    } else {
      InsertKeepsRank(sorted[1..], c);
      RankPrepended(sorted[0], InsertRanked(sorted[1..], c));
    }
  }

  lemma {:induction false} RankedIsRanked(cs: seq<Candidate>)
    ensures RankedSeq(Ranked(cs))
  {
    if cs != [] {
      RankedIsRanked(cs[..|cs| - 1]);
      InsertKeepsRank(Ranked(cs[..|cs| - 1]), cs[|cs| - 1]);
    }
  }

  /** `best` may be spoken, and nothing of `cs` that may be spoken outranks it. */
  ghost predicate BestOf(s: State, cs: seq<Candidate>, now: int, best: Candidate) {
    best in cs && MaySpeak(s, best, now) && forall c :: c in cs && MaySpeak(s, c, now) ==> !Outranks(c, best)
  }

  /** Of a ranked list, the first that may be spoken is a best one. */
  lemma {:induction false} FirstIsBest(s: State, cs: seq<Candidate>, now: int)
    requires RankedSeq(cs) && FirstSpeakable(s, cs, now).Some?
    ensures BestOf(s, cs, now, FirstSpeakable(s, cs, now).value)
  {
    hide MaySpeak;
    assert forall c :: c in cs <==> c == cs[0] || c in cs[1..];
    if !MaySpeak(s, cs[0], now) {
      hide Outranks;
      FirstIsBest(s, cs[1..], now);
    }
  }

  lemma {:induction false} SameElements(a: seq<Candidate>, b: seq<Candidate>)
    requires multiset(a) == multiset(b)
    ensures forall c :: c in a <==> c in b
  {
    assert forall c :: c in a <==> c in multiset(b);
  }

  /** What the choice of a dare means: it may be spoken, and nothing that may be spoken outranks it. */
  lemma {:induction false} ChosenIsBest(s: State, order: seq<Band>, now: int)
    ensures var choice, cs := Chosen(s, order, now), Candidates(s, order, now);
      match choice
      case None => forall c :: c in cs ==> !MaySpeak(s, c, now)
      case Some(best) => best in cs && MaySpeak(s, best, now)
                         && forall c :: c in cs && MaySpeak(s, c, now) ==> !Outranks(c, best)
  {
    var cs := Candidates(s, order, now);
    hide Candidates;
    hide Ranked;
    hide Outranks;
    hide MaySpeak;
    hide RankedSeq;
    RankedIsRanked(cs);
    SameElements(cs, Ranked(cs));
    if Chosen(s, order, now).Some? {
      FirstIsBest(s, Ranked(cs), now);
    }
    hide FirstSpeakable;
  }
}
