/**
 A poll seen from one band. The six sweeps over objects whose keys come in any order add up to one
 table that looks at the band alone: its episode, its ended episode, its cooldown, and one of its calls.
 */
module KevinBands {
  import opened Basics
  import opened KevinState
  import opened KevinReduce
  import opened KevinSteps
  import opened KevinPending
  import opened KevinPolls
  import opened KevinRuns

  /** What the state holds for one band, and the call at one index. */
  datatype View = View(ep: Option<Episode>, ended: Option<Ended>, cool: Option<int>, call: Option<Call>)

  function CallAt(calls: seq<Call>, k: int): Option<Call> {
    if 0 <= k < |calls| then Some(calls[k]) else None
  }

  function CoolAt(s: State, b: Band): Option<int> {
    if b in s.cooldownUntil then Some(s.cooldownUntil[b]) else None
  }

  function ViewOf(s: State, b: Band, k: int): View {
    View(if b in s.episodes then Some(s.episodes[b]) else None,
         if b in s.recent then Some(s.recent[b]) else None,
         CoolAt(s, b), CallAt(s.calls, k))
  }

  /** The first recommendation for a band. */
  function FirstRec(recs: seq<Rec>, b: Band): Option<Rec> {
    if recs == [] then None
    else if recs[0].band == b then Some(recs[0])
    else FirstRec(recs[1..], b)
  }

  function Ruling(c: Option<Call>, id: Option<CallId>, v: Verdict): Option<Call> {
    if c.Some? && id == Some(c.value.id) && c.value.verdict == Pending then Some(c.value.(verdict := v)) else c
  }

  // ── the table ──

  /** The sighting at `now`, with the time since the last one observed, at most a minute of it. */
  function SeenAgain(e: Episode, now: int): Episode {
    e.(lastSeenAt := now,
       observedMs := e.observedMs + if now - e.lastSeenAt > 60_000 then 60_000 else now - e.lastSeenAt)
  }

  /** ... counted toward the debounce when the last counted one is at least 24 seconds ago. */
  function CountedAgain(e: Episode, now: int): Episode {
    if now - e.lastCountedAt >= 24_000 then
      SeenAgain(e, now).(seenPolls := e.seenPolls + 1, lastCountedAt := now)
    else SeenAgain(e, now)
  }

  /** A recommendation continues the episode. */
  function Recommended(e: Episode, rec: Rec, taken: bool, now: int): Episode {
    var f := CountedAgain(e, now);
    f.(peakRate := if rec.spotsPerMinute > e.peakRate then rec.spotsPerMinute else e.peakRate,
       kind := if rec.kind != NoKind then rec.kind else e.kind,
       reason := if rec.reason != "" then rec.reason else e.reason,
       answered := e.answered || taken,
       confirmed := e.confirmed || f.seenPolls >= ConfirmPolls(e.band))
  }

  /** A band that may be dared now: 80m to 10m, 6m in its season, and enabled if bands are chosen. */
  predicate InScope(b: Band, inp: Input): (scoped: bool)
    ensures scoped <==> Allowed(b, inp)
  {
    && b in {M80, M40, M30, M20, M17, M15, M12, M10} + (if inp.sixMetreSeason then {M6} else {})
    && (inp.enabled == None || b in inp.enabled.value)
  }

  /** Neither spoken nor answered, of a kind the almanac gates, on a band usually open now. */
  predicate Expected(e: Episode, inp: Input) {
    !e.spoken && !e.answered && e.kind in {Rising, DxSurge} && e.band in inp.usual
  }

  function Ungated(e: Episode, inp: Input): Option<Episode> {
    if Expected(e, inp) then None else Some(e)
  }

  predicate StillHolds(e: Episode, inp: Input) {
    && e.band in inp.holding && !inp.holding[e.band].down
    && inp.holding[e.band].spotsPerMinute >= 0.3
    && inp.holding[e.band].spotsPerMinute >= 0.4 * e.peakRate
  }

  /** The episode fades now: in scope, confirmed, not recommended, not answered now, not holding, away five minutes. */
  predicate Fading(e: Episode, rec: Option<Rec>, inp: Input) {
    && InScope(e.band, inp) && rec.None? && e.confirmed && e.band !in inp.answered && !StillHolds(e, inp)
    && inp.now - e.lastSeenAt >= 300_000
  }

  /** A fade is held against the operator: spoken up to rung 1, five minutes observed, never answered. */
  predicate Resented(e: Episode) {
    e.spoken && e.rung >= 1 && e.observedMs >= 300_000 && !e.answered && !e.grudged
  }

  /** The band's episode after a poll without a recommendation for it. */
  function Unrecommended(e: Episode, inp: Input): Option<Episode> {
    if e.band in inp.answered then Some(SeenAgain(e, inp.now).(answered := true))
    else if !e.confirmed then None
    else if StillHolds(e, inp) then Ungated(CountedAgain(e, inp.now), inp)
    else if inp.now - e.lastSeenAt >= 300_000 then None
    else Ungated(e, inp)
  }

  /** The ended episode a recommendation may still continue. */
  function Mergeable(v: View, now: int): Option<Ended> {
    if v.ended.Some? && now - v.ended.value.endedAt <= 600_000 then v.ended else None
  }

  /** The episode of a band in scope. */
  function EpisodeNext(v: View, b: Band, rec: Option<Rec>, inp: Input): Option<Episode> {
    var ended := Mergeable(v, inp.now);
    match rec
    case None => if v.ep.Some? then Unrecommended(v.ep.value, inp) else None
    case Some(r) =>
      if v.ep.Some? then Ungated(Recommended(v.ep.value, r, b in inp.answered, inp.now), inp)
      else if ended.Some? then Ungated(Recommended(ended.value.episode, r, b in inp.answered, inp.now), inp)
      else if r.kind in {Rising, DxSurge} && b in inp.usual then None
      else Some(Episode(b, inp.now, inp.now, inp.now, 1, false, 0, -1, false, b in inp.answered, false,
                        r.spotsPerMinute, r.kind, r.reason, None))
  }

  function EndedNext(v: View, b: Band, rec: Option<Rec>, inp: Input): Option<Ended> {
    if v.ep.Some? && Fading(v.ep.value, rec, inp) then
      Some(Ended(inp.now, if Resented(v.ep.value) then v.ep.value.(grudged := true) else v.ep.value))
    else if rec.Some? then None
    else Mergeable(v, inp.now)
  }

  function CoolNext(v: View, b: Band, rec: Option<Rec>, inp: Input): Option<int> {
    if v.ep.Some? && Fading(v.ep.value, rec, inp) && v.ep.value.spoken then
      Some(Max(if v.cool.Some? then v.cool.value else 0, inp.now + CooldownMs(b)))
    else if v.ep.None? && rec.Some? && Mergeable(v, inp.now).Some? then None
    else v.cool
  }

  /** The pending call of the live episode is void when the band leaves scope, answered when the band is. */
  function CallNext(v: View, b: Band, rec: Option<Rec>, inp: Input): Option<Call> {
    var ended := Mergeable(v, inp.now);
    if v.ep.Some? && !InScope(b, inp) then Ruling(v.call, v.ep.value.callId, Void)
    else if !InScope(b, inp) || b !in inp.answered then v.call
    else if v.ep.Some? then
      if v.ep.value.answered then v.call else Ruling(v.call, v.ep.value.callId, Answered)
    else if rec.Some? && ended.Some? && !ended.value.episode.answered then
      Ruling(v.call, ended.value.episode.callId, Answered)
    else v.call
  }

  function ViewNext(v: View, b: Band, rec: Option<Rec>, inp: Input): View {
    if !InScope(b, inp) then View(None, None, v.cool, CallNext(v, b, rec, inp))
    else View(EpisodeNext(v, b, rec, inp), EndedNext(v, b, rec, inp), CoolNext(v, b, rec, inp),
              CallNext(v, b, rec, inp))
  }

  // ── each sweep, seen from one band ──

  function ScopedView(v: View, b: Band, inp: Input): View {
    if v.ep.Some? && !Allowed(b, inp) then v.(ep := None, call := Ruling(v.call, v.ep.value.callId, Void)) else v
  }

  function ExpiredView(v: View, b: Band, inp: Input): View {
    if v.ended.Some? && (inp.now - v.ended.value.endedAt > EPISODE_MERGE_MS || !Allowed(b, inp)) then
      v.(ended := None)
    else v
  }

  function AnsweredView(v: View, b: Band, inp: Input): View {
    if v.ep.Some? && b in inp.answered && !v.ep.value.answered then
      v.(ep := Some(v.ep.value.(answered := true)), call := Ruling(v.call, v.ep.value.callId, Answered))
    else v
  }

  function SightedEp(e: Episode, rec: Rec, inp: Input): Episode {
    var f := Sight(CountSighting(e, inp.now), rec, inp.now);
    Confirm(if e.band in inp.answered && !f.answered then f.(answered := true) else f)
  }

  function SightedCall(c: Option<Call>, e: Episode, inp: Input): Option<Call> {
    if e.band in inp.answered && !e.answered then Ruling(c, e.callId, Answered) else c
  }

  function PresentView(v: View, b: Band, rec: Rec, inp: Input): View {
    if v.ep.Some? then
      var e := Accrue(v.ep.value, inp.now);
      View(Some(SightedEp(e, rec, inp)), v.ended, v.cool, SightedCall(v.call, e, inp))
    else if v.ended.Some? then
      var e := Accrue(v.ended.value.episode, inp.now);
      View(Some(SightedEp(e, rec, inp)), None, None, SightedCall(v.call, e, inp))
    else if Gated(b, rec.kind, inp) then v
    else
      var e := NewEpisode(b, rec, inp.now);
      View(Some(SightedEp(e, rec, inp)), None, v.cool, SightedCall(v.call, e, inp))
  }

  function FadedView(v: View, e: Episode, now: int): View {
    View(None, Some(Ended(now, if EarnsGrudge(e) then e.(grudged := true) else e)),
         if e.spoken then Some(Max(if v.cool.Some? then v.cool.value else 0, now + CooldownMs(e.band))) else v.cool,
         v.call)
  }

  function AbsentView(v: View, e: Episode, inp: Input): View {
    var now := inp.now;
    if e.answered && e.band in inp.answered then v.(ep := Some(Accrue(e, now).(lastSeenAt := now)))
    else if !e.confirmed then v.(ep := None)
    else if e.band in inp.holding && IsHoldingOpen(inp.holding[e.band], e.peakRate) then
      v.(ep := Some(CountSighting(Accrue(e, now), now).(lastSeenAt := now)))
    else if now - e.lastSeenAt < FADE_GRACE_MS then v
    else FadedView(v, e, now)
  }

  function GatedView(v: View, b: Band, inp: Input): View {
    if v.ep.Some? && !v.ep.value.spoken && !v.ep.value.answered && Gated(b, v.ep.value.kind, inp) then
      v.(ep := None)
    else v
  }

  /** One step, seen from its own band. */
  function StepView(phase: Phase, v: View, b: Band, rec: Option<Rec>, inp: Input): View {
    match phase
    case LeaveScope => ScopedView(v, b, inp)
    case ExpireRecent => ExpiredView(v, b, inp)
    case AnswerActive => AnsweredView(v, b, inp)
    case SeePresent => if rec.Some? then PresentView(v, b, rec.value, inp) else v
    case SeeAbsent => if v.ep.Some? && rec.None? then AbsentView(v, v.ep.value, inp) else v
    case GateUnspoken => GatedView(v, b, inp)
  }

  lemma {:induction false} DecideFirst(calls: seq<Call>, id: CallId, v: Verdict, k: nat)
    requires k < |calls| && calls[k].id == id && forall j :: 0 <= j < k ==> calls[j].id != id
    ensures Decide(calls, id, v)[k] == if calls[k].verdict == Pending then calls[k].(verdict := v) else calls[k]
  {
    if k > 0 {
      DecideFirst(calls[1..], id, v, k - 1);
    }
  }

  lemma {:induction false} DecideOne(calls: seq<Call>, id: CallId, v: Verdict, now: int, k: nat)
    requires CallsOk(calls, now) && k < |calls|
    ensures Some(Decide(calls, id, v)[k]) == Ruling(Some(calls[k]), Some(id), v)
  {
    if calls[k].id == id {
      assert forall j :: 0 <= j < k ==> calls[j].id != id;
      DecideFirst(calls, id, v, k);
    }
  }

  /** The call at `k`, if there is one, is a call of the band. */
  ghost predicate CallOn(calls: seq<Call>, b: Band, k: int) { 0 <= k < |calls| ==> calls[k].band == b }

  ghost predicate LinkOk(e: Episode) { e.callId.Some? ==> e.callId.value.band == e.band }

  function Decided(calls: seq<Call>, id: Option<CallId>, v: Verdict): seq<Call> {
    if id.Some? then Decide(calls, id.value, v) else calls
  }

  ghost predicate Sound(s: State, now: int) { EpsOk(s, now) && CallsOk(s.calls, now) && now > 0 }

  function RecOf(recs: map<Band, Rec>, b: Band): Option<Rec> { if b in recs then Some(recs[b]) else None }

  /** Deciding the call an episode is linked to, seen from a band. */
  lemma {:induction false} DecideSeen(s: State, e: Episode, b: Band, v: Verdict, now: int, k: int)
    requires CallsOk(s.calls, now) && CallOn(s.calls, b, k) && LinkOk(e)
    ensures CallAt(Decided(s.calls, e.callId, v), k)
      == if e.band == b then Ruling(CallAt(s.calls, k), e.callId, v) else CallAt(s.calls, k)
  {
    if e.callId.Some? && 0 <= k < |s.calls| {
      DecideOne(s.calls, e.callId.value, v, now, k);
    }
  }

  // ── one step, on the calls ──

  /** The episodes a band can have, live or ended but not both, name it and are linked to calls of it. */
  ghost predicate Linked(s: State, x: Band) {
    && (x in s.episodes ==> s.episodes[x].band == x && LinkOk(s.episodes[x]) && x !in s.recent)
    && (x in s.recent ==> s.recent[x].episode.band == x && LinkOk(s.recent[x].episode))
  }

  lemma {:induction false} EpsLinked(s: State, x: Band, now: int)
    requires EpsOk(s, now)
    ensures Linked(s, x)
  {
    assert SlotOk(s, x, now);
  }

  lemma {:induction false} LeaveScopeCall(s: State, x: Band, b: Band, inp: Input, k: int)
    requires Linked(s, x) && CallsOk(s.calls, inp.now) && CallOn(s.calls, b, k)
    ensures CallAt(LeaveScopeStep(s, x, inp).calls, k)
      == if x == b then ScopedView(ViewOf(s, b, k), b, inp).call else CallAt(s.calls, k)
  {
    hide CallsOk;
    hide Ruling;
    hide Decide;
    hide CallAt;
    hide CallOn;
    hide LinkOk;
    hide Allowed;
    hide InScope;
    if x in s.episodes {
      DecideSeen(s, s.episodes[x], b, Void, inp.now, k);
    }
  }

  lemma {:induction false} AnswerCall(s: State, x: Band, b: Band, inp: Input, k: int)
    requires Linked(s, x) && CallsOk(s.calls, inp.now) && CallOn(s.calls, b, k)
    ensures CallAt(AnswerActiveStep(s, x, inp).calls, k)
      == if x == b then AnsweredView(ViewOf(s, b, k), b, inp).call else CallAt(s.calls, k)
  {
    hide CallsOk;
    hide Ruling;
    hide Decide;
    hide CallAt;
    hide CallOn;
    hide LinkOk;
    if x in s.episodes {
      DecideSeen(s, s.episodes[x], b, Answered, inp.now, k);
    }
  }

  lemma {:induction false} PutCall(s: State, e: Episode, rec: Rec, b: Band, inp: Input, k: int)
    requires CallsOk(s.calls, inp.now) && CallOn(s.calls, b, k) && LinkOk(e)
    ensures CallAt(PutSighted(s, e.band, CountSighting(e, inp.now), rec, inp).calls, k)
      == if e.band == b then SightedCall(CallAt(s.calls, k), e, inp) else CallAt(s.calls, k)
  {
    hide CallsOk;
    hide Ruling;
    hide Decide;
    hide CallAt;
    hide CallOn;
    hide LinkOk;
    hide Confirm;
    DecideSeen(s, e, b, Answered, inp.now, k);
  }

  lemma {:induction false} AccruedLinked(e: Episode, b: Band, rec: Rec, now: int)
    ensures LinkOk(e) ==> LinkOk(Accrue(e, now))
    ensures Accrue(e, now).band == e.band
    ensures NewEpisode(b, rec, now).band == b && LinkOk(NewEpisode(b, rec, now))
    ensures CountSighting(NewEpisode(b, rec, now), now) == NewEpisode(b, rec, now)
  {
  }

  lemma {:induction false} SeeAgainCall(s: State, x: Band, rec: Rec, b: Band, inp: Input, k: int)
    requires x in s.episodes && Linked(s, x) && CallsOk(s.calls, inp.now) && CallOn(s.calls, b, k)
    ensures CallAt(SeePresentStep(s, x, rec, inp).calls, k)
      == if x == b then PresentView(ViewOf(s, b, k), b, rec, inp).call else CallAt(s.calls, k)
  {
    hide CallsOk;
    hide CallAt;
    hide CallOn;
    hide SightedEp;
    hide SightedCall;
    hide PutSighted;
    hide CountSighting;
    hide Accrue;
    hide NewEpisode;
    hide Gated;
    hide LinkOk;
    AccruedLinked(s.episodes[x], x, rec, inp.now);
    PutCall(s, Accrue(s.episodes[x], inp.now), rec, b, inp, k);
  }

  lemma {:induction false} MergeCall(s: State, x: Band, rec: Rec, b: Band, inp: Input, k: int)
    requires x !in s.episodes && x in s.recent
    requires Linked(s, x) && CallsOk(s.calls, inp.now) && CallOn(s.calls, b, k)
    ensures CallAt(SeePresentStep(s, x, rec, inp).calls, k)
      == if x == b then PresentView(ViewOf(s, b, k), b, rec, inp).call else CallAt(s.calls, k)
  {
    hide CallsOk;
    hide CallAt;
    hide CallOn;
    hide SightedEp;
    hide SightedCall;
    hide PutSighted;
    hide CountSighting;
    hide Accrue;
    hide NewEpisode;
    hide Gated;
    hide LinkOk;
    AccruedLinked(s.recent[x].episode, x, rec, inp.now);
    PutCall(s.(recent := s.recent - {x}, cooldownUntil := s.cooldownUntil - {x}),
            Accrue(s.recent[x].episode, inp.now), rec, b, inp, k);
  }

  lemma {:induction false} OpenCall(s: State, x: Band, rec: Rec, b: Band, inp: Input, k: int)
    requires x !in s.episodes && x !in s.recent && CallsOk(s.calls, inp.now) && CallOn(s.calls, b, k)
    ensures CallAt(SeePresentStep(s, x, rec, inp).calls, k)
      == if x == b then PresentView(ViewOf(s, b, k), b, rec, inp).call else CallAt(s.calls, k)
  {
    hide CallsOk;
    hide CallAt;
    hide CallOn;
    hide SightedEp;
    hide SightedCall;
    hide PutSighted;
    hide CountSighting;
    hide Accrue;
    hide NewEpisode;
    hide Gated;
    hide LinkOk;
    var e := NewEpisode(x, rec, inp.now);
    AccruedLinked(e, x, rec, inp.now);
    PutCall(s, e, rec, b, inp, k);
  }

  lemma {:induction false} SeePresentCall(s: State, x: Band, rec: Rec, b: Band, inp: Input, k: int)
    requires Linked(s, x) && CallsOk(s.calls, inp.now) && CallOn(s.calls, b, k)
    ensures CallAt(SeePresentStep(s, x, rec, inp).calls, k)
      == if x == b then PresentView(ViewOf(s, b, k), b, rec, inp).call else CallAt(s.calls, k)
  {
    hide *;
    if x in s.episodes {
      SeeAgainCall(s, x, rec, b, inp, k);
    } else if x in s.recent {
      MergeCall(s, x, rec, b, inp, k);
    } else {
      OpenCall(s, x, rec, b, inp, k);
    }
  }

  /** Expiry, absence and the gate decide no call. */
  lemma {:induction false} NoCallTouched(w: Work, x: Band, inp: Input)
    ensures ExpireRecentStep(w.s, x, inp).calls == w.s.calls && GateUnspokenStep(w.s, x, inp).calls == w.s.calls
    ensures x in w.s.episodes ==> SeeAbsentStep(w, x, inp).s.calls == w.s.calls
  {
    hide EarnsGrudge;
    hide GrudgeFor;
    hide CooldownMs;
    hide KeepRecent;
    hide IsHoldingOpen;
    hide Gated;
    hide Allowed;
    hide InScope;
    hide Accrue;
    hide CountSighting;
  }

  /** Only a step of the same band decides the call, and only the one its episode is linked to. */
  lemma {:induction false} CallSeen(
    phase: Phase, w: Work, x: Band, b: Band, inp: Input, recs: map<Band, Rec>, k: int)
    requires Linked(w.s, x) && CallsOk(w.s.calls, inp.now) && CallOn(w.s.calls, b, k)
    ensures CallAt(Step(phase, w, x, inp, recs).s.calls, k)
      == if x == b then StepView(phase, ViewOf(w.s, b, k), b, RecOf(recs, b), inp).call else CallAt(w.s.calls, k)
  {
    hide Linked;
    hide CallsOk;
    hide CallAt;
    hide CallOn;
    hide ScopedView;
    hide AnsweredView;
    hide PresentView;
    hide LeaveScopeStep;
    hide AnswerActiveStep;
    hide SeePresentStep;
    hide ExpireRecentStep;
    hide GateUnspokenStep;
    hide SeeAbsentStep;
    hide EarnsGrudge;
    hide Accrue;
    hide CountSighting;
    hide IsHoldingOpen;
    hide CooldownMs;
    NoCallTouched(w, x, inp);
    match phase
    case LeaveScope => LeaveScopeCall(w.s, x, b, inp, k);
    case AnswerActive => AnswerCall(w.s, x, b, inp, k);
    case SeePresent => if x in recs { SeePresentCall(w.s, x, recs[x], b, inp, k); }
    case _ =>
  }

  // ── one step, on the episode, the ended episode and the cooldown ──

  /** The two views differ in the call at most. */
  predicate SameBand(v: View, u: View) { v.ep == u.ep && v.ended == u.ended && v.cool == u.cool }

  lemma {:induction false} OthersSeen(s: State, t: State, x: Band, b: Band, k: int)
    requires OthersKept(s, t, x) && x != b
    ensures SameBand(ViewOf(t, b, k), ViewOf(s, b, k))
  {
  }

  lemma {:induction false} AccruedBand(s: State, b: Band, rec: Rec, now: int)
    ensures b in s.episodes ==> Accrue(s.episodes[b], now).band == s.episodes[b].band
    ensures b in s.recent ==> Accrue(s.recent[b].episode, now).band == s.recent[b].episode.band
    ensures CountSighting(NewEpisode(b, rec, now), now) == NewEpisode(b, rec, now)
  {
  }

  lemma {:induction false} SeePresentSeen(s: State, b: Band, rec: Rec, inp: Input, k: int)
    requires Linked(s, b)
    ensures SameBand(ViewOf(SeePresentStep(s, b, rec, inp), b, k), PresentView(ViewOf(s, b, k), b, rec, inp))
  {
    hide LinkOk;
    hide Gated;
    hide CallAt;
    hide Decide;
    hide Sight;
    hide CountSighting;
    hide Confirm;
    hide Accrue;
    AccruedBand(s, b, rec, inp.now);
  }

  lemma {:induction false} FadeSeen(w: Work, b: Band, now: int, k: int)
    requires b in w.s.episodes && w.s.episodes[b].band == b
    ensures SameBand(ViewOf(FadeStep(w, b, now).s, b, k), FadedView(ViewOf(w.s, b, k), w.s.episodes[b], now))
  {
    hide EarnsGrudge;
    hide GrudgeFor;
    hide CooldownMs;
    hide KeepRecent;
    hide CallAt;
  }

  lemma {:induction false} SeeAbsentSeen(w: Work, b: Band, inp: Input, k: int)
    requires b in w.s.episodes && w.s.episodes[b].band == b
    ensures SameBand(ViewOf(SeeAbsentStep(w, b, inp).s, b, k),
                     AbsentView(ViewOf(w.s, b, k), w.s.episodes[b], inp))
  {
    hide FadeStep;
    hide FadedView;
    hide Accrue;
    hide CountSighting;
    hide IsHoldingOpen;
    hide CallAt;
    FadeSeen(w, b, inp.now, k);
  }

  lemma {:induction false} LeaveScopeSeen(s: State, b: Band, inp: Input, k: int)
    ensures SameBand(ViewOf(LeaveScopeStep(s, b, inp), b, k), ScopedView(ViewOf(s, b, k), b, inp))
  {
    hide CallAt;
    hide Decide;
    hide Gated;
    hide Allowed;
    hide InScope;
  }

  lemma {:induction false} ExpireSeen(s: State, b: Band, inp: Input, k: int)
    ensures SameBand(ViewOf(ExpireRecentStep(s, b, inp), b, k), ExpiredView(ViewOf(s, b, k), b, inp))
  {
    hide CallAt;
    hide Decide;
    hide Gated;
    hide Allowed;
    hide InScope;
  }

  lemma {:induction false} AnswerSeen(s: State, b: Band, inp: Input, k: int)
    ensures SameBand(ViewOf(AnswerActiveStep(s, b, inp), b, k), AnsweredView(ViewOf(s, b, k), b, inp))
  {
    hide CallAt;
    hide Decide;
    hide Gated;
    hide Allowed;
    hide InScope;
  }

  lemma {:induction false} GateSeen(s: State, b: Band, inp: Input, k: int)
    ensures SameBand(ViewOf(GateUnspokenStep(s, b, inp), b, k), GatedView(ViewOf(s, b, k), b, inp))
  {
    hide CallAt;
    hide Decide;
    hide Gated;
    hide Allowed;
    hide InScope;
  }

  lemma {:induction false} OwnSeen(phase: Phase, w: Work, b: Band, inp: Input, recs: map<Band, Rec>, k: int)
    requires Linked(w.s, b)
    ensures SameBand(ViewOf(Step(phase, w, b, inp, recs).s, b, k),
                     StepView(phase, ViewOf(w.s, b, k), b, RecOf(recs, b), inp))
  {
    hide LinkOk;
    hide CallAt;
    hide LeaveScopeStep;
    hide AnswerActiveStep;
    hide ExpireRecentStep;
    hide GateUnspokenStep;
    hide SeePresentStep;
    hide SeeAbsentStep;
    hide ScopedView;
    hide AnsweredView;
    hide ExpiredView;
    hide GatedView;
    hide PresentView;
    hide AbsentView;
    match phase
    case SeePresent => if b in recs { SeePresentSeen(w.s, b, recs[b], inp, k); }
    case SeeAbsent => if b in w.s.episodes && b !in recs { SeeAbsentSeen(w, b, inp, k); }
    case LeaveScope => LeaveScopeSeen(w.s, b, inp, k);
    case ExpireRecent => ExpireSeen(w.s, b, inp, k);
    case AnswerActive => AnswerSeen(w.s, b, inp, k);
    case GateUnspoken => GateSeen(w.s, b, inp, k);
  }

  // ── a whole sweep ──

  lemma {:induction false} StepKeepsOthers(phase: Phase, w: Work, x: Band, inp: Input, recs: map<Band, Rec>)
    requires EpsOk(w.s, inp.now) && inp.now > 0 && RecsInScope(recs)
    ensures OthersKept(w.s, Step(phase, w, x, inp, recs).s, x)
  {
    assert SlotOk(w.s, x, inp.now);
    StepIsOk(phase, w, x, inp, recs);
  }

  /** A step acts on its own band only, and only by what it sees there. */
  lemma {:induction false} StepSeen(
    phase: Phase, w: Work, x: Band, b: Band, inp: Input, recs: map<Band, Rec>, k: int)
    requires Sound(w.s, inp.now) && RecsInScope(recs) && CallOn(w.s.calls, b, k)
    ensures ViewOf(Step(phase, w, x, inp, recs).s, b, k)
      == if x == b then StepView(phase, ViewOf(w.s, b, k), b, RecOf(recs, b), inp) else ViewOf(w.s, b, k)
  {
    hide EpsOk;
    hide CallsOk;
    hide Step;
    hide StepView;
    hide CallAt;
    hide CallOn;
    hide Linked;
    EpsLinked(w.s, x, inp.now);
    CallSeen(phase, w, x, b, inp, recs, k);
    if x == b {
      OwnSeen(phase, w, b, inp, recs, k);
    } else {
      StepKeepsOthers(phase, w, x, inp, recs);
      OthersSeen(w.s, Step(phase, w, x, inp, recs).s, x, b, k);
    }
  }

  ghost predicate Distinct(order: seq<Band>) {
    forall i, j :: 0 <= i < j < |order| ==> order[i] != order[j]
  }

  lemma {:induction false} SweepSound(phase: Phase, w: Work, order: seq<Band>, inp: Input, recs: map<Band, Rec>)
    requires Sound(w.s, inp.now) && RecsInScope(recs)
    ensures var t := Sweep(phase, w, order, inp, recs).s; Sound(t, inp.now) && Evolved(w.s.calls, t.calls)
  {
    hide EpsOk;
    hide CallsOk;
    hide Evolved;
    SweepKeeps(phase, w, order, inp, recs);
    EvolvedKeepsCalls(w.s.calls, Sweep(phase, w, order, inp, recs).s.calls, inp.now);
  }

  lemma {:induction false} EvolvedOn(s: State, t: State, b: Band, k: int)
    requires Evolved(s.calls, t.calls) && CallOn(s.calls, b, k)
    ensures CallOn(t.calls, b, k)
  {
    if 0 <= k < |s.calls| {
      assert Ruled(s.calls[k], t.calls[k]);
    }
  }

  /** A sweep in any order is its step at the band, if the band is among those swept. */
  lemma {:induction false} SweepSeen(
    phase: Phase, w: Work, order: seq<Band>, b: Band, inp: Input, recs: map<Band, Rec>, k: int)
    requires Sound(w.s, inp.now) && RecsInScope(recs) && CallOn(w.s.calls, b, k) && Distinct(order)
    ensures ViewOf(Sweep(phase, w, order, inp, recs).s, b, k)
      == if b in order then StepView(phase, ViewOf(w.s, b, k), b, RecOf(recs, b), inp) else ViewOf(w.s, b, k)
  {
    hide Sound;
    hide RecsInScope;
    hide Step;
    hide StepView;
    hide CallOn;
    hide ViewOf;
    hide Evolved;
    if order != [] {
      var n := |order| - 1;
      var mid := Sweep(phase, w, order[..n], inp, recs);
      SweepSeen(phase, w, order[..n], b, inp, recs, k);
      SweepSound(phase, w, order[..n], inp, recs);
      EvolvedOn(w.s, mid.s, b, k);
      StepSeen(phase, mid, order[n], b, inp, recs, k);
      assert forall x :: x in order <==> x in order[..n] || x == order[n];
    }
  }

  // ── the six sweeps together ──

  function SixViews(v: View, b: Band, rec: Option<Rec>, inp: Input): View {
    var v := StepView(LeaveScope, v, b, rec, inp);
    var v := StepView(ExpireRecent, v, b, rec, inp);
    var v := StepView(AnswerActive, v, b, rec, inp);
    var v := StepView(SeePresent, v, b, rec, inp);
    var v := StepView(SeeAbsent, v, b, rec, inp);
    StepView(GateUnspoken, v, b, rec, inp)
  }

  ghost predicate ViewOk(v: View, b: Band, now: int) {
    && (v.ep.Some? ==> EpOk(b, v.ep.value, now) && v.ended.None?)
    && (v.ended.Some? ==> RecentOk(b, v.ended.value, now))
  }

  lemma {:induction false} OutOfScopeView(v: View, b: Band, inp: Input)
    requires ViewOk(v, b, inp.now) && !Allowed(b, inp)
    ensures SixViews(v, b, None, inp) == View(None, None, v.cool, CallNext(v, b, None, inp))
  {
    hide EpOk;
    hide RecentOk;
  }

  /** Seen again, in the model's steps and written out. */
  lemma {:induction false} SeenAgainIs(b: Band, e: Episode, rec: Rec, inp: Input)
    requires EpOk(b, e, inp.now)
    ensures Accrue(e, inp.now).(lastSeenAt := inp.now) == SeenAgain(e, inp.now)
    ensures CountSighting(Accrue(e, inp.now), inp.now).(lastSeenAt := inp.now) == CountedAgain(e, inp.now)
    ensures Accrue(e, inp.now).callId == e.callId && Accrue(e, inp.now).answered == e.answered
    ensures Accrue(e, inp.now).band == b
    ensures SightedEp(Accrue(e, inp.now), rec, inp) == Recommended(e, rec, b in inp.answered, inp.now)
  {
  }

  lemma {:induction false} GatedIs(v: View, b: Band, e: Episode, inp: Input)
    requires v.ep == Some(e) && e.band == b
    ensures GatedView(v, b, inp) == v.(ep := Ungated(e, inp))
  {
  }

  lemma {:induction false} RecommendedBand(b: Band, f: Episode, e: Episode, rec: Rec, taken: bool, now: int)
    requires e.band == b && f == if taken && !e.answered then e.(answered := true) else e
    ensures Recommended(f, rec, taken, now) == Recommended(e, rec, taken, now)
    ensures Recommended(e, rec, taken, now).band == b
  {
  }

  lemma {:induction false} MarkedEpOk(b: Band, e: Episode, taken: bool, now: int)
    requires EpOk(b, e, now)
    ensures EpOk(b, if taken && !e.answered then e.(answered := true) else e, now) && e.band == b
  {
  }

  lemma {:induction false} AgainView(v: View, b: Band, rec: Rec, inp: Input)
    requires ViewOk(v, b, inp.now) && Allowed(b, inp) && v.ep.Some?
    ensures SixViews(v, b, Some(rec), inp) == ViewNext(v, b, Some(rec), inp)
  {
    hide Allowed;
    hide InScope;
    hide EpOk;
    hide RecentOk;
    hide Accrue;
    hide SightedEp;
    hide Recommended;
    hide GatedView;
    hide Ungated;
    hide Ruling;
    var e := v.ep.value;
    var taken := b in inp.answered;
    var f := if taken && !e.answered then e.(answered := true) else e;
    MarkedEpOk(b, e, taken, inp.now);
    SeenAgainIs(b, f, rec, inp);
    RecommendedBand(b, f, e, rec, taken, inp.now);
    var v4 := View(Some(Recommended(f, rec, taken, inp.now)), None, v.cool, CallNext(v, b, Some(rec), inp));
    GatedIs(v4, b, v4.ep.value, inp);
  }

  lemma {:induction false} MergedView(v: View, b: Band, rec: Rec, inp: Input)
    requires ViewOk(v, b, inp.now) && Allowed(b, inp) && v.ep.None? && Mergeable(v, inp.now).Some?
    ensures SixViews(v, b, Some(rec), inp) == ViewNext(v, b, Some(rec), inp)
  {
    hide Allowed;
    hide InScope;
    hide EpOk;
    hide Accrue;
    hide SightedEp;
    hide Recommended;
    hide GatedView;
    hide Ungated;
    hide Ruling;
    var e := v.ended.value.episode;
    var taken := b in inp.answered;
    MarkedEpOk(b, e, taken, inp.now);
    SeenAgainIs(b, e, rec, inp);
    RecommendedBand(b, if taken && !e.answered then e.(answered := true) else e, e, rec, taken, inp.now);
    var v4 := View(Some(Recommended(e, rec, taken, inp.now)), None, None, CallNext(v, b, Some(rec), inp));
    GatedIs(v4, b, v4.ep.value, inp);
  }

  lemma {:induction false} OpenedView(v: View, b: Band, rec: Rec, inp: Input)
    requires ViewOk(v, b, inp.now) && Allowed(b, inp) && v.ep.None? && Mergeable(v, inp.now).None?
    ensures SixViews(v, b, Some(rec), inp) == ViewNext(v, b, Some(rec), inp)
  {
    hide Allowed;
    hide InScope;
    hide EpOk;
    hide RecentOk;
  }

  lemma {:induction false} FadingIs(b: Band, e: Episode, inp: Input)
    requires EpOk(b, e, inp.now)
    ensures EarnsGrudge(e) == Resented(e)
    ensures (b in inp.holding && IsHoldingOpen(inp.holding[b], e.peakRate)) == StillHolds(e, inp)
  {
  }

  /** What counting keeps of an episode. */
  lemma {:induction false} CountedKeeps(e: Episode, now: int)
    ensures var f := SeenAgain(e, now);
      f.band == e.band && f.spoken == e.spoken && f.answered == e.answered && f.kind == e.kind
    ensures var f := CountedAgain(e, now);
      f.band == e.band && f.spoken == e.spoken && f.answered == e.answered && f.kind == e.kind
    ensures SeenAgain(e.(answered := true), now) == SeenAgain(e, now).(answered := true)
    ensures e.answered ==> e.(answered := true) == e
  {
  }

  lemma {:induction false} MissingView(v: View, b: Band, inp: Input)
    requires ViewOk(v, b, inp.now) && Allowed(b, inp)
    ensures SixViews(v, b, None, inp) == ViewNext(v, b, None, inp)
  {
    hide Allowed;
    hide InScope;
    hide EpOk;
    hide RecentOk;
    hide Accrue;
    hide CountSighting;
    hide EarnsGrudge;
    hide Resented;
    hide IsHoldingOpen;
    hide StillHolds;
    hide SeenAgain;
    hide CountedAgain;
    hide Ruling;
    hide CooldownMs;
    hide Max;
    if v.ep.Some? {
      var e := v.ep.value;
      var taken := b in inp.answered;
      var f := if taken && !e.answered then e.(answered := true) else e;
      MarkedEpOk(b, e, taken, inp.now);
      SeenAgainIs(b, f, Rec(b, NoKind, 0.0, ""), inp);
      FadingIs(b, f, inp);
      CountedKeeps(e, inp.now);
      CountedKeeps(f, inp.now);
    }
  }

  lemma {:induction false} SixViewsAre(v: View, b: Band, rec: Option<Rec>, inp: Input)
    requires ViewOk(v, b, inp.now)
    ensures SixViews(v, b, if Allowed(b, inp) then rec else None, inp) == ViewNext(v, b, rec, inp)
  {
    hide ViewOk;
    hide Allowed;
    hide InScope;
    hide SixViews;
    hide Mergeable;
    hide EpisodeNext;
    hide EndedNext;
    hide CoolNext;
    if !Allowed(b, inp) {
      OutOfScopeView(v, b, inp);
    } else if rec.None? {
      MissingView(v, b, inp);
    } else if v.ep.Some? {
      AgainView(v, b, rec.value, inp);
    } else if Mergeable(v, inp.now).Some? {
      MergedView(v, b, rec.value, inp);
    } else {
      OpenedView(v, b, rec.value, inp);
    }
  }

  // ── the recommendation of a band ──

  lemma {:induction false} FirstRecOfMore(recs: seq<Rec>, rec: Rec, b: Band)
    ensures FirstRec(recs + [rec], b)
      == if FirstRec(recs, b).Some? then FirstRec(recs, b) else if rec.band == b then Some(rec) else None
  {
    if recs != [] {
      assert (recs + [rec])[1..] == recs[1..] + [rec];
      FirstRecOfMore(recs[1..], rec, b);
    }
  }

  /** The recommendation kept for a band in scope is the first one for it. */
  lemma {:induction false} KeptRecIsFirst(recs: seq<Rec>, inp: Input, b: Band)
    ensures RecOf(PresentBands(recs, inp).recs, b) == if Allowed(b, inp) then FirstRec(recs, b) else None
  {
    hide Allowed;
    hide InScope;
    if recs != [] {
      var n := |recs| - 1;
      KeptRecIsFirst(recs[..n], inp, b);
      FirstRecOfMore(recs[..n], recs[n], b);
      assert recs[..n] + [recs[n]] == recs;
    }
  }

  lemma {:induction false} FirstRecIsThere(recs: seq<Rec>, b: Band)
    ensures FirstRec(recs, b).Some? ==> exists i :: 0 <= i < |recs| && recs[i].band == b
  {
    if recs != [] && recs[0].band != b {
      FirstRecIsThere(recs[1..], b);
      if FirstRec(recs, b).Some? {
        var i :| 0 <= i < |recs[1..]| && recs[1..][i].band == b;
        assert recs[i + 1].band == b;
      }
    }
  }

  // ── the observing part of a poll ──

  /** Without an episode, an ended one and a recommendation nothing happens to a band. */
  predicate Untouched(v: View, rec: Option<Rec>) { v.ep.None? && v.ended.None? && rec.None? }

  lemma {:induction false} UntouchedStep(phase: Phase, v: View, b: Band, rec: Option<Rec>, inp: Input)
    requires Untouched(v, rec)
    ensures StepView(phase, v, b, rec, inp) == v
  {
  }

  /** A sweep over all keys is its step at every band. */
  lemma {:induction false} FullSweepSeen(
    phase: Phase, w: Work, order: seq<Band>, b: Band, inp: Input, recs: map<Band, Rec>, k: int)
    requires Sound(w.s, inp.now) && RecsInScope(recs) && CallOn(w.s.calls, b, k) && Distinct(order)
    requires b in order || Untouched(ViewOf(w.s, b, k), RecOf(recs, b))
             || (phase == SeePresent && RecOf(recs, b).None?)
    ensures var t := Sweep(phase, w, order, inp, recs).s;
      && Sound(t, inp.now) && CallOn(t.calls, b, k)
      && ViewOf(t, b, k) == StepView(phase, ViewOf(w.s, b, k), b, RecOf(recs, b), inp)
  {
    hide Sound;
    hide RecsInScope;
    hide CallOn;
    hide Distinct;
    hide ViewOf;
    hide Sweep;
    hide Evolved;
    SweepSeen(phase, w, order, b, inp, recs, k);
    SweepSound(phase, w, order, inp, recs);
    EvolvedOn(w.s, Sweep(phase, w, order, inp, recs).s, b, k);
    if b !in order && Untouched(ViewOf(w.s, b, k), RecOf(recs, b)) {
      UntouchedStep(phase, ViewOf(w.s, b, k), b, RecOf(recs, b), inp);
    }
  }

  lemma {:induction false} SeenInScope(inp: Input)
    ensures RecsInScope(PresentBands(inp.recs, inp).recs) && Distinct(PresentBands(inp.recs, inp).bands)
  {
  }

  lemma {:induction false} PresentHasRec(inp: Input, b: Band)
    ensures var seen := PresentBands(inp.recs, inp); b in seen.bands <==> RecOf(seen.recs, b).Some?
  {
  }

  /** Observing, in any order of the keys, is the six steps at every band. */
  lemma {:induction false} ObserveSeen(s: State, order: seq<Band>, inp: Input, b: Band, k: int)
    requires Sound(s, inp.now) && CallOn(s.calls, b, k) && Distinct(order)
    requires b in order || Untouched(ViewOf(s, b, k), FirstRec(inp.recs, b))
    ensures ViewOf(Observe(s, order, inp).s, b, k)
      == SixViews(ViewOf(s, b, k), b, if Allowed(b, inp) then FirstRec(inp.recs, b) else None, inp)
  {
    hide Sound;
    hide RecsInScope;
    hide CallOn;
    hide Distinct;
    hide ViewOf;
    hide Sweep;
    hide StepView;
    hide PresentBands;
    hide FirstRec;
    hide RecOf;
    hide Allowed;
    hide InScope;
    var seen := PresentBands(inp.recs, inp);
    SeenInScope(inp);
    KeptRecIsFirst(inp.recs, inp, b);
    PresentHasRec(inp, b);
    var rec := RecOf(seen.recs, b);
    var w0 := Work(s, [], []);
    forall phase | b !in order ensures StepView(phase, ViewOf(s, b, k), b, rec, inp) == ViewOf(s, b, k) {
      UntouchedStep(phase, ViewOf(s, b, k), b, rec, inp);
    }
    var w1 := Sweep(LeaveScope, w0, order, inp, seen.recs);
    FullSweepSeen(LeaveScope, w0, order, b, inp, seen.recs, k);
    var w2 := Sweep(ExpireRecent, w1, order, inp, seen.recs);
    FullSweepSeen(ExpireRecent, w1, order, b, inp, seen.recs, k);
    var w3 := Sweep(AnswerActive, w2, order, inp, seen.recs);
    FullSweepSeen(AnswerActive, w2, order, b, inp, seen.recs, k);
    var w4 := Sweep(SeePresent, w3, seen.bands, inp, seen.recs);
    FullSweepSeen(SeePresent, w3, seen.bands, b, inp, seen.recs, k);
    var w5 := Sweep(SeeAbsent, w4, order, inp, seen.recs);
    FullSweepSeen(SeeAbsent, w4, order, b, inp, seen.recs, k);
    FullSweepSeen(GateUnspoken, w5, order, b, inp, seen.recs, k);
  }

  // ── the start of a poll ──

  /** The episodes go on: no long gap since the last poll and no change of area. */
  predicate GoesOn(s: State, inp: Input) {
    || s.lastPollAt == 0
    || (inp.now - s.lastPollAt <= 150_000
        && (inp.ctxKey == None || s.ctxKey == None || inp.ctxKey == s.ctxKey))
  }

  /** Otherwise they end quietly: a spoken one cools its band down, a pending call is void. */
  function ViewBegun(v: View, b: Band, on: bool): View {
    if on then v
    else
      View(None, None,
           if v.ep.Some? && v.ep.value.spoken then
             Some(Max(if v.cool.Some? then v.cool.value else 0, v.ep.value.lastSeenAt + CooldownMs(b)))
           else v.cool,
           if v.call.Some? && v.call.value.verdict == Pending then Some(v.call.value.(verdict := Void)) else v.call)
  }

  lemma {:induction false} SetCooldownAt(s: State, x: Band, from: int, b: Band)
    ensures CoolAt(SetCooldown(s, x, from), b)
      == if x == b then Some(Max(CooldownOf(s, b), from + CooldownMs(b))) else CoolAt(s, b)
    ensures CooldownOf(s, b) == if CoolAt(s, b).Some? then CoolAt(s, b).value else 0
  {
    hide CooldownMs;
    hide Max;
  }

  lemma {:induction false} CooledSeen(s: State, order: seq<Band>, b: Band)
    ensures CoolAt(EndingCooldowns(s, order), b)
      == if b in order && b in s.episodes && s.episodes[b].spoken then
           Some(Max(CooldownOf(s, b), s.episodes[b].lastSeenAt + CooldownMs(b)))
         else CoolAt(s, b)
  {
    hide CooldownMs;
    hide CoolAt;
    hide CooldownOf;
    hide SetCooldown;
    if order != [] {
      var n := |order| - 1;
      CooledSeen(s, order[..n], b);
      assert forall x :: x in order <==> x in order[..n] || x == order[n];
      var rest := EndingCooldowns(s, order[..n]);
      var x := order[n];
      SetCooldownAt(s, x, 0, b);
      if x in s.episodes {
        SetCooldownAt(rest, x, s.episodes[x].lastSeenAt, b);
      }
    }
  }

  lemma {:induction false} ResyncSeen(s: State, order: seq<Band>, b: Band, k: int)
    requires b in s.episodes ==> b in order
    ensures ViewOf(ResyncInPlace(s, order), b, k) == ViewBegun(ViewOf(s, b, k), b, false)
  {
    hide CooldownMs;
    hide Max;
    hide EndingCooldowns;
    CooledSeen(s, order, b);
    EndingCooldownsOnlyCools(s, order);
  }

  lemma {:induction false} BeginSeen(s: State, inp: Input, order: seq<Band>, b: Band, k: int)
    requires b in s.episodes ==> b in order
    ensures ViewOf(Begin(s, inp, order), b, k) == ViewBegun(ViewOf(s, b, k), b, GoesOn(s, inp))
  {
    hide CooldownMs;
    hide DaresOn;
    hide UtcDay;
    hide Max;
    hide CallAt;
    hide ResyncInPlace;
    ResyncSeen(RollDay(s, inp.now), order, b, k);
  }

  // ── the poll ──

  lemma {:induction false} BegunSound(s: State, inp: Input, order: seq<Band>, before: int)
    requires EpsOk(s, before) && CallsOk(s.calls, before) && 0 <= before < inp.now
    ensures Sound(Begin(s, inp, order), inp.now) && Evolved(s.calls, Begin(s, inp, order).calls)
  {
    hide EpsOk;
    hide Begin;
    BeginKeeps(s, inp, order, before);
    BeginShape(s, inp, order);
    EvolvedKeepsCalls(s.calls, Begin(s, inp, order).calls, before);
  }

  lemma {:induction false} SoundView(s: State, b: Band, now: int, k: int)
    requires Sound(s, now)
    ensures ViewOk(ViewOf(s, b, k), b, now)
  {
    assert SlotOk(s, b, now);
  }

  lemma {:induction false} KeysListed(s: State, order: seq<Band>, inp: Input, b: Band, k: int)
    requires Enumerates(order, s, inp.recs)
    ensures Distinct(order) && (b in s.episodes ==> b in order)
    ensures b in order || Untouched(ViewOf(s, b, k), FirstRec(inp.recs, b))
  {
    FirstRecIsThere(inp.recs, b);
  }

  lemma {:induction false} BegunUntouched(v: View, b: Band, rec: Option<Rec>, on: bool)
    requires Untouched(v, rec)
    ensures Untouched(ViewBegun(v, b, on), rec)
  {
  }

  /**
   What a poll makes of a band before anything is said is the table's entry for what it held, its
   first recommendation and the input, whatever the order in which the sweeps visit the bands.
   */
  lemma {:induction false} PollOnBand(s: State, inp: Input, order: seq<Band>, before: int, b: Band, k: int)
    requires EpsOk(s, before) && CallsOk(s.calls, before) && 0 <= before < inp.now
    requires Enumerates(order, s, inp.recs) && CallOn(s.calls, b, k)
    ensures ViewOf(Observe(Begin(s, inp, order), order, inp).s, b, k)
      == ViewNext(ViewBegun(ViewOf(s, b, k), b, GoesOn(s, inp)), b, FirstRec(inp.recs, b), inp)
  {
    hide EpsOk;
    hide CallsOk;
    hide Enumerates;
    hide CallOn;
    hide Distinct;
    hide Begin;
    hide Observe;
    hide ViewOf;
    hide ViewNext;
    hide ViewBegun;
    hide ViewOk;
    hide SixViews;
    hide Sound;
    hide Untouched;
    hide FirstRec;
    hide Evolved;
    hide GoesOn;
    hide Allowed;
    hide InScope;
    var begun := Begin(s, inp, order);
    BegunSound(s, inp, order, before);
    EvolvedOn(s, begun, b, k);
    KeysListed(s, order, inp, b, k);
    BeginSeen(s, inp, order, b, k);
    if b !in order {
      BegunUntouched(ViewOf(s, b, k), b, FirstRec(inp.recs, b), GoesOn(s, inp));
    }
    ObserveSeen(begun, order, inp, b, k);
    SoundView(begun, b, inp.now, k);
    SixViewsAre(ViewOf(begun, b, k), b, FirstRec(inp.recs, b), inp);
  }

  /** So the order in which JavaScript walks its objects makes no difference to any band. */
  lemma {:induction false} OrderDoesNotMatter(
    s: State, inp: Input, order: seq<Band>, order': seq<Band>, before: int, b: Band)
    requires EpsOk(s, before) && CallsOk(s.calls, before) && 0 <= before < inp.now
    requires Enumerates(order, s, inp.recs) && Enumerates(order', s, inp.recs)
    ensures ViewOf(Observe(Begin(s, inp, order), order, inp).s, b, -1)
      == ViewOf(Observe(Begin(s, inp, order'), order', inp).s, b, -1)
  {
    hide EpsOk;
    hide CallsOk;
    hide Enumerates;
    hide Begin;
    hide Observe;
    hide ViewOf;
    hide ViewNext;
    hide ViewBegun;
    hide FirstRec;
    hide GoesOn;
    PollOnBand(s, inp, order, before, b, -1);
    PollOnBand(s, inp, order', before, b, -1);
  }
}
