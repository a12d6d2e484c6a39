/**
 A concrete run. It shows that the heckler does speak, and that a page loaded with a pending call can
 end up with two of them on one band: the reloaded page keeps the call but not its episode, a new
 episode confirms under the restored cooldown, fades unspoken, and coming back within the merge window
 lifts that cooldown.
 */
module KevinExample {
  import opened Basics
  import opened KevinState
  import opened KevinReduce
  import opened KevinSteps
  import opened KevinRuns
  import opened KevinPromises

  const TIP := Rec(M20, Surprise, 1.0, "")

  function In(now: int, here: bool): Input {
    Input(now, if here then [TIP] else [], None, {}, None, map[], {}, false, false)
  }

  function PollOf(s: State, now: int, here: bool): PollResult { Poll(s, In(now, here), [M20]) }

  /** The episode that opened at `opening` and was last seen, and counted, at `last`. */
  function Opening(opening: int, last: int, polls: int, observedMs: int): Episode {
    Episode(M20, opening, last, last, polls, polls >= 3, observedMs, -1, false, false, false, 1.0, Surprise, "", None)
  }

  function Dared(ep: Episode, now: int): Episode {
    ep.(rung := 0, spoken := true, callId := Some(CallId(now, M20)))
  }

  function CallAt(now: int): Call { Call(CallId(now, M20), M20, 0, Surprise, 1.0, now, Pending) }

  /** The parts of the state that decide what comes next. */
  ghost predicate Page(
    s: State, last: int, episodes: map<Band, Episode>, recent: map<Band, Ended>, calls: seq<Call>, spokeAt: int,
    cooldownUntil: map<Band, int>)
  {
    && s.lastPollAt == last && s.episodes == episodes && s.recent == recent && s.calls == calls
    && s.lastSpokeAt == spokeAt && s.cooldownUntil == cooldownUntil
    && s.day == Some(0) && s.dareCount == |calls|
  }

  /** A page before its first poll. */
  ghost predicate Loaded(s: State, calls: seq<Call>, spokeAt: int, cooldownUntil: map<Band, int>) {
    && s.lastPollAt == 0 && s.day == None && s.episodes == map[] && s.recent == map[] && s.calls == calls
    && s.lastSpokeAt == spokeAt && s.cooldownUntil == cooldownUntil && DaresOn(calls, 0) == |calls|
  }

  // ── a poll of a page that knows one band ──

  lemma {:induction false} OneBand(phase: Phase, w: Work, inp: Input, recs: map<Band, Rec>)
    ensures Sweep(phase, w, [M20], inp, recs) == Step(phase, w, M20, inp, recs)
  {
    hide Step;
    assert [M20][..0] == [];
    assert Sweep(phase, w, [], inp, recs) == w;
  }

  lemma {:induction false} TipIsPresent(now: int)
    ensures PresentBands([TIP], In(now, true)) == Seen([M20], map[M20 := TIP])
  {
    assert [TIP][..0] == [];
    assert PresentBands([], In(now, true)) == Seen([], map[]);
  }

  lemma {:induction false} ObserveHere(s: State, now: int)
    requires M20 in s.recent ==> now - s.recent[M20].endedAt <= EPISODE_MERGE_MS
    ensures Observe(s, [M20], In(now, true)) == Work(SeePresentStep(s, M20, TIP, In(now, true)), [], [])
  {
    hide Accrue;
    hide CountSighting;
    hide Sight;
    hide Confirm;
    hide Decide;
    hide PresentBands;
    hide Sweep;
    var inp, recs := In(now, true), map[M20 := TIP];
    TipIsPresent(now);
    var w := Work(s, [], []);
    OneBand(LeaveScope, w, inp, recs);
    OneBand(ExpireRecent, w, inp, recs);
    OneBand(AnswerActive, w, inp, recs);
    OneBand(SeePresent, w, inp, recs);
    hide SeePresentStep;
    var v := Work(SeePresentStep(s, M20, TIP, inp), [], []);
    OneBand(SeeAbsent, v, inp, recs);
    OneBand(GateUnspoken, v, inp, recs);
  }

  lemma {:induction false} ObserveAway(s: State, now: int)
    requires M20 in s.episodes && s.recent == map[]
    ensures Observe(s, [M20], In(now, false)) == SeeAbsentStep(Work(s, [], []), M20, In(now, false))
  {
    var inp: Input, recs: map<Band, Rec> := In(now, false), map[];
    var w := Work(s, [], []);
    OneBand(LeaveScope, w, inp, recs);
    OneBand(ExpireRecent, w, inp, recs);
    OneBand(AnswerActive, w, inp, recs);
    OneBand(SeeAbsent, w, inp, recs);
    hide SeeAbsentStep;
    OneBand(GateUnspoken, SeeAbsentStep(w, M20, inp), inp, recs);
  }

  lemma {:induction false} BeginQuiet(s: State, now: int, here: bool)
    requires UtcDay(now) == 0 && (s.lastPollAt == 0 || now - s.lastPollAt <= RESYNC_GAP_MS)
    ensures Begin(s, In(now, here), [M20]) == RollDay(s, now).(lastPollAt := now)
    ensures Silent(s, In(now, here)) <==> s.lastPollAt == 0
  {
  }

  function Next(ep: Episode): Candidate { Candidate(ep, ep.rung + 1) }

  lemma {:induction false} ChosenOne(s: State, now: int)
    ensures Chosen(s, [M20], now)
         == if M20 in s.episodes && Earned(s.episodes[M20], now) && MaySpeak(s, Next(s.episodes[M20]), now)
            then Some(Next(s.episodes[M20])) else None
  {
    hide Earned;
    hide MaySpeak;
    assert [M20][..0] == [];
    assert Candidates(s, [], now) == [];
    if M20 in s.episodes && Earned(s.episodes[M20], now) {
      var c := Next(s.episodes[M20]);
      assert Candidates(s, [M20], now) == [c];
      assert [c][..0] == [] && Ranked([]) == [] && Ranked([c]) == [c];
      assert [c][1..] == [];
    }
  }

  /** No pending call has reached the end of its verdict window. */
  ghost predicate NoneDue(calls: seq<Call>, now: int) {
    forall i :: 0 <= i < |calls| ==> now - calls[i].ts < VerdictMs(calls[i].band)
  }

  lemma {:induction false} NothingGraded(calls: seq<Call>, s: State, now: int)
    requires NoneDue(calls, now)
    ensures GradeAll(calls, s, now) == calls && NewDuds(calls, s, now) == []
  {
    if calls != [] {
      var n := |calls| - 1;
      assert Grade(calls[n], s, now) == calls[n];
      NothingGraded(calls[..n], s, now);
      forall i | 0 <= i < |calls| ensures Grade(calls[i], s, now) == calls[i] {
      }
    }
  }

  /** A poll that has nothing to say leaves what it observed, and its log entry. */
  lemma {:induction false} QuietFinish(w: Work, inp: Input, silent: bool)
    requires NoneDue(w.s.calls, inp.now)
    ensures var r := Finish(Said(w.s, []), w.added, inp, silent);
      r.speech == [] && r.s == w.s.(polls := r.s.polls)
  {
    NothingGraded(w.s.calls, LogPoll(w.s, inp.now), inp.now);
  }

  lemma {:induction false} SpokenFinish(s: State, line: Speech, inp: Input)
    requires NoneDue(s.calls, inp.now)
    ensures var r := Finish(Said(s, [line]), [], inp, false);
      r.speech == [line] && r.s == s.(polls := r.s.polls, lastSpokeAt := inp.now, lastSpokeBand := Some(line.band))
  {
    NothingGraded(s.calls, LogPoll(s, inp.now), inp.now);
  }

  /** What the poll has seen before it speaks. */
  function Observed(s: State, now: int, here: bool): Work {
    Observe(Begin(s, In(now, here), [M20]), [M20], In(now, here))
  }

  /** A poll that observes `w` and has nothing to say. */
  lemma {:induction false} QuietPoll(s: State, now: int, here: bool, w: Work)
    requires UtcDay(now) == 0 && (s.lastPollAt == 0 || now - s.lastPollAt <= RESYNC_GAP_MS)
    requires w == Observed(s, now, here) && w.faded == []
    requires s.lastPollAt == 0 || Chosen(w.s, [M20], now) == None
    requires NoneDue(w.s.calls, now)
    ensures var r := PollOf(s, now, here); r.speech == [] && r.s == w.s.(polls := r.s.polls)
  {
    BeginQuiet(s, now, here);
    QuietFinish(w, In(now, here), s.lastPollAt == 0);
    hide Observe;
    hide Begin;
    hide Silent;
    hide Finish;
    hide Chosen;
    hide NoneDue;
  }

  // ── the polls of the run ──

  /** The first poll of a page is silent and opens an episode. */
  lemma {:induction false} FirstPoll(s: State, now: int, calls: seq<Call>, spokeAt: int, cooldownUntil: map<Band, int>)
    requires Loaded(s, calls, spokeAt, cooldownUntil) && 0 < now && UtcDay(now) == 0 && NoneDue(calls, now)
    ensures var r := PollOf(s, now, true);
      r.speech == [] && Page(r.s, now, map[M20 := Opening(now, now, 1, 0)], map[], calls, spokeAt, cooldownUntil)
  {
    BeginQuiet(s, now, true);
    var b := Begin(s, In(now, true), [M20]);
    ObserveHere(b, now);
    assert SeePresentStep(b, M20, TIP, In(now, true)).episodes == map[M20 := Opening(now, now, 1, 0)];
    QuietPoll(s, now, true, Observed(s, now, true));
  }

  lemma {:induction false} SightedAgain(opening: int, last: int, now: int, polls: int, observedMs: int)
    requires now == last + POLL_MS
    ensures Confirm(Sight(CountSighting(Accrue(Opening(opening, last, polls, observedMs), now), now), TIP, now))
         == Opening(opening, now, polls + 1, observedMs + POLL_MS)
  {
  }

  lemma {:induction false} PutAgain(b: State, opening: int, now: int, polls: int, observedMs: int)
    requires b.episodes == map[M20 := Opening(opening, now - POLL_MS, polls, observedMs)]
    ensures SeePresentStep(b, M20, TIP, In(now, true))
         == b.(episodes := map[M20 := Opening(opening, now, polls + 1, observedMs + POLL_MS)])
  {
    SightedAgain(opening, now - POLL_MS, now, polls, observedMs);
  }

  /** Half a minute later the band is seen again. */
  lemma {:induction false} NextSeen(
    s: State, now: int, opening: int, polls: int, calls: seq<Call>, spokeAt: int, cooldownUntil: map<Band, int>)
    requires polls > 0 && 0 < now - POLL_MS && UtcDay(now) == 0
    requires var before := Opening(opening, now - POLL_MS, polls, (polls - 1) * POLL_MS);
      Page(s, now - POLL_MS, map[M20 := before], map[], calls, spokeAt, cooldownUntil)
    ensures var after, w := Opening(opening, now, polls + 1, polls * POLL_MS), Observed(s, now, true);
      w == Work(w.s, [], []) && Page(w.s, now, map[M20 := after], map[], calls, spokeAt, cooldownUntil)
  {
    hide Observe;
    hide Begin;
    hide Silent;
    hide SeePresentStep;
    hide Opening;
    BeginQuiet(s, now, true);
    var b := Begin(s, In(now, true), [M20]);
    ObserveHere(b, now);
    PutAgain(b, opening, now, polls, (polls - 1) * POLL_MS);
  }

  /** Then it is too early to speak: not confirmed yet, or within the global gap. */
  lemma {:induction false} NextPoll(
    s: State, now: int, opening: int, polls: int, calls: seq<Call>, spokeAt: int, cooldownUntil: map<Band, int>)
    requires polls > 0 && 0 < now - POLL_MS && UtcDay(now) == 0 && NoneDue(calls, now)
    requires var before := Opening(opening, now - POLL_MS, polls, (polls - 1) * POLL_MS);
      Page(s, now - POLL_MS, map[M20 := before], map[], calls, spokeAt, cooldownUntil)
    requires polls < 2 || (spokeAt != 0 && now - spokeAt < GLOBAL_MIN_GAP_MS)
    ensures var after, r := Opening(opening, now, polls + 1, polls * POLL_MS), PollOf(s, now, true);
      r.speech == [] && Page(r.s, now, map[M20 := after], map[], calls, spokeAt, cooldownUntil)
  {
    NextSeen(s, now, opening, polls, calls, spokeAt, cooldownUntil);
    hide Observed;
    var w := Observed(s, now, true);
    ChosenOne(w.s, now);
    hide Chosen;
    hide Poll;
    hide NoneDue;
    QuietPoll(s, now, true, w);
  }

  lemma {:induction false} DareRecorded(s: State, now: int, ep: Episode, calls: seq<Call>)
    requires Page(s, now, map[M20 := ep], map[], calls, s.lastSpokeAt, map[]) && |calls| < DAILY_SURPRISE_CAP
    requires ep.band == M20 && ep.rung == -1 && ep.kind == Surprise && ep.peakRate == 1.0
    ensures var t := SpeakDare(s, Next(ep), now);
      Page(t, now, map[M20 := Dared(ep, now)], map[], calls + [CallAt(now)], s.lastSpokeAt, map[])
  {
  }

  /** What was observed is a new rung-0 dare that nothing holds back. */
  lemma {:induction false} DarePoll(s: State, now: int, ep: Episode, calls: seq<Call>)
    requires UtcDay(now) == 0 && s.lastPollAt != 0 && now - s.lastPollAt <= RESYNC_GAP_MS
    requires var w := Observed(s, now, true);
      && w == Work(w.s, [], []) && Page(w.s, now, map[M20 := ep], map[], calls, w.s.lastSpokeAt, map[])
      && GapOk(w.s, now)
    requires ep.band == M20 && ep.rung == -1 && ep.kind == Surprise && ep.peakRate == 1.0
    requires Earned(ep, now) && |calls| < DAILY_SURPRISE_CAP && 0 <= now && NoneDue(calls + [CallAt(now)], now)
    ensures var r := PollOf(s, now, true);
      && r.speech == [DareSpeech(Next(ep))]
      && Page(r.s, now, map[M20 := Dared(ep, now)], map[], calls + [CallAt(now)], now, map[])
  {
    var w := Observed(s, now, true);
    BeginQuiet(s, now, true);
    hide Silent;
    hide Observe;
    hide Begin;
    hide NoneDue;
    hide CallAt;
    hide Dared;
    hide Earned;
    hide GapOk;
    ChosenOne(w.s, now);
    assert MaySpeak(w.s, Next(ep), now);
    hide MaySpeak;
    hide Chosen;
    DareRecorded(w.s, now, ep, calls);
    hide SpeakDare;
    SpokenFinish(SpeakDare(w.s, Next(ep), now), DareSpeech(Next(ep)), In(now, true));
    hide Finish;
  }

  /** The band is missing, for less than the grace time. */
  lemma {:induction false} GracePoll(
    s: State, last: int, now: int, ep: Episode, calls: seq<Call>, spokeAt: int, cooldownUntil: map<Band, int>)
    requires Page(s, last, map[M20 := ep], map[], calls, spokeAt, cooldownUntil)
    requires 0 < last <= now <= last + RESYNC_GAP_MS && UtcDay(now) == 0 && NoneDue(calls, now)
    requires ep.confirmed && !ep.answered && ep.lastSeenAt < now < ep.lastSeenAt + FADE_GRACE_MS
    ensures var r := PollOf(s, now, false);
      r.speech == [] && Page(r.s, now, map[M20 := ep], map[], calls, spokeAt, cooldownUntil)
  {
    BeginQuiet(s, now, false);
    var b := Begin(s, In(now, false), [M20]);
    ObserveAway(b, now);
    hide Observe;
    hide Begin;
    var w := Work(b, [], []);
    ChosenOne(b, now);
    QuietPoll(s, now, false, w);
  }

  /** The band is missing for the grace time, and its unspoken episode fades. */
  lemma {:induction false} FadePoll(
    s: State, last: int, now: int, ep: Episode, calls: seq<Call>, spokeAt: int, cooldownUntil: map<Band, int>)
    requires Page(s, last, map[M20 := ep], map[], calls, spokeAt, cooldownUntil)
    requires 0 < last <= now <= last + RESYNC_GAP_MS && UtcDay(now) == 0 && NoneDue(calls, now)
    requires ep.confirmed && !ep.answered && !ep.spoken && ep.lastSeenAt + FADE_GRACE_MS <= now
    ensures var r := PollOf(s, now, false);
      r.speech == [] && Page(r.s, now, map[], map[M20 := Ended(now, ep)], calls, spokeAt, cooldownUntil)
  {
    BeginQuiet(s, now, false);
    var b := Begin(s, In(now, false), [M20]);
    ObserveAway(b, now);
    var w := SeeAbsentStep(Work(b, [], []), M20, In(now, false));
    hide Observe;
    hide Begin;
    assert w == Work(b.(episodes := map[], recent := map[M20 := Ended(now, ep)]), [], []);
    ChosenOne(w.s, now);
    QuietPoll(s, now, false, w);
  }

  /** The third sighting confirms the opening, and the dare is spoken. */
  lemma {:induction false} ConfirmingPoll(s: State, now: int, opening: int)
    requires 0 < now - POLL_MS && UtcDay(now) == 0
    requires Page(s, now - POLL_MS, map[M20 := Opening(opening, now - POLL_MS, 2, POLL_MS)], map[], [], 0, map[])
    ensures var ep, r := Opening(opening, now, 3, 2 * POLL_MS), PollOf(s, now, true);
      && r.speech == [DareSpeech(Next(ep))]
      && Page(r.s, now, map[M20 := Dared(ep, now)], map[], [CallAt(now)], now, map[])
  {
    NextSeen(s, now, opening, 2, [], 0, map[]);
    assert [] + [CallAt(now)] == [CallAt(now)];
    hide Observed;
    hide Poll;
    DarePoll(s, now, Opening(opening, now, 3, 2 * POLL_MS), []);
  }

  /** Back within the merge window: the episode continues, and the cooldown is lifted. */
  lemma {:induction false} SeenAgain(
    s: State, now: int, opening: int, last: int, calls: seq<Call>, spokeAt: int, until: int)
    requires 0 < last && last + 2 * POLL_MS <= now - POLL_MS && UtcDay(now) == 0
    requires var ended := Ended(now - POLL_MS, Opening(opening, last, 3, 2 * POLL_MS));
      Page(s, now - POLL_MS, map[], map[M20 := ended], calls, spokeAt, map[M20 := until])
    ensures var ep, w := Opening(opening, now, 4, 4 * POLL_MS), Observed(s, now, true);
      w == Work(w.s, [], []) && Page(w.s, now, map[M20 := ep], map[], calls, spokeAt, map[])
  {
    BeginQuiet(s, now, true);
    var b := Begin(s, In(now, true), [M20]);
    ObserveHere(b, now);
    hide Observe;
    hide Begin;
    var t := SeePresentStep(b, M20, TIP, In(now, true));
    assert t.episodes == map[M20 := Opening(opening, now, 4, 4 * POLL_MS)];
    assert t.recent == map[] && t.cooldownUntil == map[];
  }

  /** The dare is spoken after all. */
  lemma {:induction false} ReturningPoll(
    s: State, now: int, opening: int, last: int, calls: seq<Call>, spokeAt: int, until: int)
    requires 0 < last && last + 2 * POLL_MS <= now - POLL_MS && UtcDay(now) == 0
    requires var ended := Ended(now - POLL_MS, Opening(opening, last, 3, 2 * POLL_MS));
      Page(s, now - POLL_MS, map[], map[M20 := ended], calls, spokeAt, map[M20 := until])
    requires |calls| < DAILY_SURPRISE_CAP && NoneDue(calls + [CallAt(now)], now) && spokeAt + GLOBAL_MIN_GAP_MS <= now
    ensures var ep, r := Opening(opening, now, 4, 4 * POLL_MS), PollOf(s, now, true);
      && r.speech == [DareSpeech(Next(ep))]
      && Page(r.s, now, map[M20 := Dared(ep, now)], map[], calls + [CallAt(now)], now, map[])
  {
    SeenAgain(s, now, opening, last, calls, spokeAt, until);
    hide Observed;
    hide Poll;
    hide NoneDue;
    hide CallAt;
    DarePoll(s, now, Opening(opening, now, 4, 4 * POLL_MS), calls);
  }

  // ── the run ──

  lemma {:induction false} RunGrows(ws: seq<World>, es: seq<Event>, e: Event)
    requires IsRun(ws, es) && CanHappen(ws[|es|], e)
    ensures IsRun(ws + [Apply(ws[|es|], e)], es + [e])
  {
    hide CanHappen;
    hide Apply;
    var vs, fs := ws + [Apply(ws[|es|], e)], es + [e];
    forall i | 0 <= i < |fs| ensures LeadsTo(vs[i], fs[i], vs[i + 1]) {
      assert i < |es| ==> es[i] == fs[i];
    }
  }

  /** The world knows no band but M20. */
  ghost predicate OnlyM20(s: State) { s.episodes.Keys + s.recent.Keys <= {M20} }

  function PollAt(now: int, here: bool): Event { PollEvent(In(now, here), [M20]) }

  lemma {:induction false} PollCanHappen(w: World, now: int, here: bool)
    requires OnlyM20(w.s) && w.now < now
    ensures CanHappen(w, PollAt(now, here))
  {
    assert [M20][0] == M20;
  }

  lemma {:induction false} PollApplies(w: World, now: int, here: bool)
    ensures var v := Apply(w, PollAt(now, here)); v.s == PollOf(w.s, now, here).s && v.now == now
  {
    hide Poll;
  }

  ghost predicate EndsIn(ws: seq<World>, es: seq<Event>, w: World) { IsRun(ws, es) && ws[|es|] == w }

  ghost predicate Reached(w: World) { exists ws, es :: EndsIn(ws, es, w) }

  lemma {:induction false} EndGrows(ws: seq<World>, es: seq<Event>, w: World, e: Event)
    requires EndsIn(ws, es, w) && CanHappen(w, e)
    ensures EndsIn(ws + [Apply(w, e)], es + [e], Apply(w, e))
  {
    RunGrows(ws, es, e);
    hide LeadsTo;
    hide CanHappen;
    hide Apply;
  }

  lemma {:induction false} EventReaches(w: World, e: Event)
    requires Reached(w) && CanHappen(w, e)
    ensures Reached(Apply(w, e))
  {
    hide EndsIn;
    hide CanHappen;
    hide Apply;
    var ws, es :| EndsIn(ws, es, w);
    EndGrows(ws, es, w, e);
  }

  ghost predicate OnPage(
    w: World, last: int, episodes: map<Band, Episode>, recent: map<Band, Ended>, calls: seq<Call>, spokeAt: int,
    cooldownUntil: map<Band, int>)
  {
    Reached(w) && w.now == last && Page(w.s, last, episodes, recent, calls, spokeAt, cooldownUntil)
  }

  lemma {:induction false} Onward(
    w: World, now: int, here: bool, episodes: map<Band, Episode>, recent: map<Band, Ended>, calls: seq<Call>,
    spokeAt: int, cooldownUntil: map<Band, int>) returns (v: World)
    requires Reached(w) && OnlyM20(w.s) && w.now < now
    requires Page(PollOf(w.s, now, here).s, now, episodes, recent, calls, spokeAt, cooldownUntil)
    ensures OnPage(v, now, episodes, recent, calls, spokeAt, cooldownUntil)
  {
    hide Reached;
    hide Page;
    PollCanHappen(w, now, here);
    PollApplies(w, now, here);
    hide CanHappen;
    hide Apply;
    EventReaches(w, PollAt(now, here));
    v := Apply(w, PollAt(now, here));
  }

  /** A reload keeps the one pending call and puts its band under the cooldown counted from it. */
  lemma {:induction false} ReloadApplies(w: World, t: int)
    requires w.s.calls == [CallAt(t)] && 0 < t && UtcDay(t) == 0
    ensures var v := Apply(w, ReloadEvent);
      v.now == w.now && Loaded(v.s, [CallAt(t)], t, map[M20 := t + CooldownMs(M20)])
  {
    assert [CallAt(t)][..0] == [];
    assert LatestTs([]) == 0 && CooldownFloor([]) == map[] && DaresOn([], 0) == 0;
  }

  lemma {:induction false} FirstEnds()
    ensures EndsIn([FIRST_LOAD], [], FIRST_LOAD)
  {
    hide FreshState;
    hide LeadsTo;
  }

  lemma {:induction false} FirstIsLoaded()
    ensures Loaded(FIRST_LOAD.s, [], 0, map[])
  {
    assert DaresOn([], 0) == 0;
  }

  lemma {:induction false} FirstReached()
    ensures Reached(FIRST_LOAD)
  {
    FirstEnds();
    hide EndsIn;
    hide FreshState;
  }

  lemma {:induction false} FirstLoaded() returns (w: World)
    ensures Reached(w) && w.now == 0 && Loaded(w.s, [], 0, map[])
  {
    FirstIsLoaded();
    FirstReached();
    hide Reached;
    hide Loaded;
    hide FreshState;
    w := FIRST_LOAD;
  }

  lemma {:induction false} NotDueYet(t: int, u: int, now: int)
    requires now < t + 600_000 && now < u + 600_000
    ensures NoneDue([], now) && NoneDue([CallAt(t)], now) && NoneDue([CallAt(t)] + [CallAt(u)], now)
  {
  }

  lemma {:induction false} NotDueEarlier(calls: seq<Call>, now: int)
    requires NoneDue(calls, now)
    ensures forall u :: u <= now ==> NoneDue(calls, u)
  {
  }

  // ── the polls, as steps of the run ──

  lemma {:induction false} Opens(w: World, now: int, calls: seq<Call>, spokeAt: int, until: map<Band, int>)
    returns (v: World)
    requires Reached(w) && Loaded(w.s, calls, spokeAt, until) && w.now < now
    requires 0 < now && UtcDay(now) == 0 && NoneDue(calls, now)
    ensures OnPage(v, now, map[M20 := Opening(now, now, 1, 0)], map[], calls, spokeAt, until)
  {
    hide Reached;
    hide Poll;
    hide Opening;
    FirstPoll(w.s, now, calls, spokeAt, until);
    v := Onward(w, now, true, map[M20 := Opening(now, now, 1, 0)], map[], calls, spokeAt, until);
  }

  lemma {:induction false} GoesOn(
    w: World, now: int, opening: int, polls: int, calls: seq<Call>, spokeAt: int, until: map<Band, int>)
    returns (v: World)
    requires polls > 0 && 0 < now - POLL_MS && UtcDay(now) == 0 && NoneDue(calls, now)
    requires var before := Opening(opening, now - POLL_MS, polls, (polls - 1) * POLL_MS);
      OnPage(w, now - POLL_MS, map[M20 := before], map[], calls, spokeAt, until)
    requires polls < 2 || (spokeAt != 0 && now - spokeAt < GLOBAL_MIN_GAP_MS)
    ensures var after := Opening(opening, now, polls + 1, polls * POLL_MS);
      OnPage(v, now, map[M20 := after], map[], calls, spokeAt, until)
  {
    hide Reached;
    hide Poll;
    hide Opening;
    NextPoll(w.s, now, opening, polls, calls, spokeAt, until);
    var after := Opening(opening, now, polls + 1, polls * POLL_MS);
    v := Onward(w, now, true, map[M20 := after], map[], calls, spokeAt, until);
  }

  lemma {:induction false} Confirms(w: World, now: int, opening: int) returns (v: World)
    requires 0 < now - POLL_MS && UtcDay(now) == 0
    requires OnPage(w, now - POLL_MS, map[M20 := Opening(opening, now - POLL_MS, 2, POLL_MS)], map[], [], 0, map[])
    ensures var ep := Dared(Opening(opening, now, 3, 2 * POLL_MS), now);
      OnPage(v, now, map[M20 := ep], map[], [CallAt(now)], now, map[])
  {
    hide Reached;
    hide Poll;
    hide Opening;
    hide Dared;
    ConfirmingPoll(w.s, now, opening);
    var ep := Dared(Opening(opening, now, 3, 2 * POLL_MS), now);
    v := Onward(w, now, true, map[M20 := ep], map[], [CallAt(now)], now, map[]);
  }

  /** Grace at 150 s, fade at 300 s after the last sighting. */
  lemma {:induction false} FadesUnspoken(
    w: World, last: int, ep: Episode, calls: seq<Call>, spokeAt: int, until: map<Band, int>) returns (v: World)
    requires OnPage(w, last, map[M20 := ep], map[], calls, spokeAt, until)
    requires 0 < last && UtcDay(last + 150_000) == 0 == UtcDay(last + 300_000) && NoneDue(calls, last + 300_000)
    requires ep.confirmed && !ep.answered && !ep.spoken && ep.lastSeenAt == last
    ensures OnPage(v, last + 300_000, map[], map[M20 := Ended(last + 300_000, ep)], calls, spokeAt, until)
  {
    assert NoneDue(calls, last + 150_000);
    hide Reached;
    hide Poll;
    hide NoneDue;
    GracePoll(w.s, last, last + 150_000, ep, calls, spokeAt, until);
    v := Onward(w, last + 150_000, false, map[M20 := ep], map[], calls, spokeAt, until);
    FadePoll(v.s, last + 150_000, last + 300_000, ep, calls, spokeAt, until);
    v := Onward(v, last + 300_000, false, map[], map[M20 := Ended(last + 300_000, ep)], calls, spokeAt, until);
  }

  lemma {:induction false} Returns(
    w: World, now: int, opening: int, last: int, calls: seq<Call>, spokeAt: int, until: int) returns (v: World)
    requires 0 < last && last + 2 * POLL_MS <= now - POLL_MS && UtcDay(now) == 0
    requires var ended := Ended(now - POLL_MS, Opening(opening, last, 3, 2 * POLL_MS));
      OnPage(w, now - POLL_MS, map[], map[M20 := ended], calls, spokeAt, map[M20 := until])
    requires |calls| < DAILY_SURPRISE_CAP && NoneDue(calls + [CallAt(now)], now) && spokeAt + GLOBAL_MIN_GAP_MS <= now
    ensures var ep := Dared(Opening(opening, now, 4, 4 * POLL_MS), now);
      OnPage(v, now, map[M20 := ep], map[], calls + [CallAt(now)], now, map[])
  {
    hide Reached;
    hide Poll;
    hide Opening;
    hide Dared;
    ReturningPoll(w.s, now, opening, last, calls, spokeAt, until);
    var ep := Dared(Opening(opening, now, 4, 4 * POLL_MS), now);
    v := Onward(w, now, true, map[M20 := ep], map[], calls + [CallAt(now)], now, map[]);
  }

  /** The first page: three sightings, and a dare whose call is pending. */
  lemma {:induction false} FirstPage(t: int) returns (w: World)
    requires t == 1_060_000
    ensures Reached(w) && w.now == t && w.s.calls == [CallAt(t)]
  {
    var opening := t - 2 * POLL_MS;
    w := FirstLoaded();
    NotDueYet(t, t, t);
    hide Reached;
    hide NoneDue;
    hide Opening;
    hide Loaded;
    w := Opens(w, opening, [], 0, map[]);
    w := GoesOn(w, t - POLL_MS, opening, 1, [], 0, map[]);
    w := Confirms(w, t, opening);
  }

  /**
   The second page: loaded with the pending call, it sees the band confirm under the cooldown, fade
   unspoken, and come back.
   */
  lemma {:induction false} SecondPage(w: World, t: int) returns (v: World)
    requires t == 1_060_000 && Reached(w) && w.now == t && w.s.calls == [CallAt(t)]
    ensures Reached(v) && v.s.calls == [CallAt(t)] + [CallAt(t + 420_000)]
  {
    var calls, until := [CallAt(t)], map[M20 := t + CooldownMs(M20)];
    var opening := t + POLL_MS;
    var last := t + 3 * POLL_MS;
    ReloadApplies(w, t);
    EventReaches(w, ReloadEvent);
    NotDueYet(t, t + 420_000, t + 420_000);
    NotDueEarlier(calls, t + 420_000);
    v := Apply(w, ReloadEvent);
    hide Apply;
    hide Reached;
    hide NoneDue;
    hide Opening;
    hide Loaded;
    hide CallAt;
    v := Opens(v, opening, calls, t, until);
    v := GoesOn(v, t + 2 * POLL_MS, opening, 1, calls, t, until);
    v := GoesOn(v, last, opening, 2, calls, t, until);
    v := FadesUnspoken(v, last, Opening(opening, last, 3, 2 * POLL_MS), calls, t, until);
    v := Returns(v, t + 420_000, opening, last, calls, t, t + CooldownMs(M20));
  }

  /**
   A page loaded with a pending call can end with two pending calls on one band: the older of the two
   is the one it was loaded with.
   */
  lemma {:induction false} TwoPendingAfterReload() returns (ws: seq<World>, es: seq<Event>)
    ensures IsRun(ws, es)
    ensures var w := ws[|es|];
      && |w.s.calls| == 2 && w.s.calls[0].verdict == w.s.calls[1].verdict == Pending
      && w.s.calls[0].band == w.s.calls[1].band && w.s.calls[0].ts <= w.loadedAt
  {
    var first := FirstPage(1_060_000);
    var w := SecondPage(first, 1_060_000);
    hide LeadsTo;
    ws, es :| EndsIn(ws, es, w);
    AtMostOnePending(ws, es, |es|);
    assert BothPending(w.s.calls, 0, 1);
  }
}
