/**
 Whole runs: any sequence of polls, answers, quiet resyncs and page reloads, starting from an empty
 store. The guarantees of the heckler are theorems about every world such a run can reach.
 */
module KevinRuns {
  import opened Basics
  import opened KevinState
  import opened KevinReduce
  import opened KevinSteps
  import opened KevinPending
  import opened KevinPolls

  /**
   The reducer's state, the time of the last poll, and the log of everything spoken and held against
   the operator. `loadedAt` is the time of the last poll before the page was loaded: the calls made up
   to then are the ones it was loaded with.
   */
  datatype World = World(s: State, now: int, session: nat, loadedAt: int, lines: seq<Spoken>, grudges: seq<Grudge>)

  datatype Event =
    | PollEvent(inp: Input, order: seq<Band>)
    | AnswerEvent(band: Band)
    | ResyncEvent(order: seq<Band>)
    | ReloadEvent

  /** `order` lists, once each, at least the keys of the objects the event walks. */
  ghost predicate Enumerates(order: seq<Band>, s: State, recs: seq<Rec>) {
    && (forall b :: b in s.episodes || b in s.recent ==> b in order)
    && (forall i :: 0 <= i < |recs| ==> recs[i].band in order)
    && (forall i, j :: 0 <= i < j < |order| ==> order[i] != order[j])
  }

  /** Time moves on between polls. */
  ghost predicate CanHappen(w: World, e: Event) {
    match e
    case PollEvent(inp, order) => inp.now > w.now && Enumerates(order, w.s, inp.recs)
    case ResyncEvent(order) => Enumerates(order, w.s, [])
    case _ => true
  }

  predicate NoPending(calls: seq<Call>) {
    forall i :: 0 <= i < |calls| ==> calls[i].verdict != Pending
  }

  function Tag(speech: seq<Speech>, at: int, session: nat): (r: seq<Spoken>)
    ensures |r| == |speech|
    ensures forall i :: 0 <= i < |speech| ==> r[i] == Spoken(at, session, speech[i])
  {
    seq(|speech|, i requires 0 <= i < |speech| => Spoken(at, session, speech[i]))
  }

  function AfterPoll(w: World, r: PollResult, now: int): World {
    World(r.s, now, w.session, w.loadedAt,
          w.lines + Tag(r.speech, now, w.session), w.grudges + r.added)
  }

  function Apply(w: World, e: Event): World {
    match e
    case PollEvent(inp, order) => AfterPoll(w, Poll(w.s, inp, order), inp.now)
    case AnswerEvent(band) =>
      w.(s := MarkAnswered(w.s, band))
    case ResyncEvent(order) =>
      w.(s := Resync(w.s, order))
    case ReloadEvent =>
      w.(s := FreshState(w.s.calls, w.s.grudges), session := w.session + 1, loadedAt := w.now)
  }

  /** The page loaded for the first time, with nothing stored. */
  const FIRST_LOAD :=
    World(State(0, None, map[], map[], map[], 0, None, None, 0, [], [], []), 0, 0, 0, [], [])

  lemma {:induction false} FirstLoadIsFresh()
    ensures FIRST_LOAD.s == FreshState([], [])
  {
    assert LatestTs([]) == 0 && CooldownFloor([]) == map[];
  }

  ghost predicate LeadsTo(w: World, e: Event, v: World) { CanHappen(w, e) && v == Apply(w, e) }

  /** A run: the worlds that a sequence of events leads through, from the first load on. */
  ghost predicate IsRun(ws: seq<World>, es: seq<Event>) {
    && |ws| == |es| + 1 && ws[0] == FIRST_LOAD
    && forall i {:trigger es[i]} :: 0 <= i < |es| ==> LeadsTo(ws[i], es[i], ws[i + 1])
  }

  lemma {:induction false} RunStarts(ws: seq<World>, es: seq<Event>)
    requires IsRun(ws, es)
    ensures ws != [] && ws[0] == FIRST_LOAD && ws[0].now == ws[0].loadedAt == 0
  {
    hide FreshState;
    hide LeadsTo;
  }

  lemma {:induction false} RunStep(ws: seq<World>, es: seq<Event>, i: nat)
    requires IsRun(ws, es) && i + 1 < |ws|
    ensures i < |es| && CanHappen(ws[i], es[i]) && ws[i + 1] == Apply(ws[i], es[i])
  {
    hide CanHappen;
    hide Apply;
    assert LeadsTo(ws[i], es[i], ws[i + 1]);
  }

  // ── the facts that hold after every event ──

  predicate FirstDare(l: Speech) { l.what == DareLine && l.rung == 0 }

  function DaresSpoken(lines: seq<Spoken>, day: int): nat {
    if lines == [] then 0
    else
      var l := lines[|lines| - 1];
      DaresSpoken(lines[..|lines| - 1], day) + (if FirstDare(l.line) && UtcDay(l.at) == day then 1 else 0)
  }

  /** A dare on a new episode went out only while the day's count was under the cap of its kind. */
  ghost predicate CapsOk(lines: seq<Spoken>) {
    forall i :: 0 <= i < |lines| && FirstDare(lines[i].line) ==>
      DaresSpoken(lines[..i], UtcDay(lines[i].at)) < DareCap(lines[i].line.kind)
  }

  /** The persisted calls and the running count agree with the log, from today on. */
  ghost predicate BudgetOk(s: State, lines: seq<Spoken>, now: int) {
    && (forall d :: UtcDay(now) <= d ==> DaresOn(s.calls, d) == DaresSpoken(lines, d))
    && (s.day.Some? ==> s.day.value == UtcDay(now) && s.dareCount == DaresOn(s.calls, s.day.value))
  }

  /** A dare's rung had been reached in observed time, after the confirming polls. */
  ghost predicate DareTimed(l: Spoken) {
    l.line.what == DareLine ==>
      && 0 <= l.line.rung <= MAX_LIVE_RUNG
      && RungsMs(l.line.band)[l.line.rung] <= l.line.observedMs <= l.at - l.line.opening
      && (ConfirmPolls(l.line.band) - 1) * MIN_SIGHTING_GAP_MS <= l.at - l.line.opening
  }

  ghost predicate LogOk(lines: seq<Spoken>, now: int, session: nat) {
    && (forall i :: 0 <= i < |lines| ==> 0 < lines[i].at <= now && lines[i].session <= session && DareTimed(lines[i]))
    && (forall i, j :: 0 <= i < j < |lines| ==> lines[i].at < lines[j].at)
  }

  predicate IsLadder(rungs: seq<int>) { |rungs| <= 3 && rungs == [0, 1, 2][..|rungs|] }

  ghost predicate AllLadders(lines: seq<Spoken>) {
    forall id :: IsLadder(RungsOf(lines, id))
  }

  /** `next` is the next rung of the band that spoke last. */
  predicate Escalates(prev: Spoken, next: Spoken) {
    next.line.what == DareLine && next.line.rung > 0 && next.line.band == prev.line.band
  }

  ghost predicate SpacedOut(lines: seq<Spoken>) {
    && (forall i :: 0 < i < |lines| && lines[i - 1].session == lines[i].session ==>
          lines[i].at - lines[i - 1].at >= GLOBAL_MIN_GAP_MS || Escalates(lines[i - 1], lines[i]))
    && (forall i, j :: 0 <= i < j < |lines| && FirstDare(lines[i].line) ==>
          lines[j].at - lines[i].at >= GLOBAL_MIN_GAP_MS
          || (lines[j].line.what == DareLine && lines[j].line.rung > 0))
  }

  /** What the state remembers of the last line, and of the last dare across reloads. */
  ghost predicate Remembers(s: State, lines: seq<Spoken>, now: int, session: nat) {
    && 0 <= s.lastSpokeAt <= now
    && (lines != [] && lines[|lines| - 1].session == session ==>
          s.lastSpokeAt == lines[|lines| - 1].at && s.lastSpokeBand == Some(lines[|lines| - 1].line.band))
    && (s.calls != [] ==> s.calls[|s.calls| - 1].ts <= s.lastSpokeAt)
    && (forall i :: 0 <= i < |lines| && FirstDare(lines[i].line) ==>
          s.calls != [] && lines[i].at <= s.calls[|s.calls| - 1].ts)
  }

  ghost predicate NoneOverdue(calls: seq<Call>, now: int) {
    forall i :: 0 <= i < |calls| && calls[i].verdict == Pending ==> !Overdue(calls[i], now)
  }

  ghost predicate Inv(w: World) {
    && w.now >= 0
    && EpsOk(w.s, w.now) && CallsOk(w.s.calls, w.now)
    && LogOk(w.lines, w.now, w.session) && AllLadders(w.lines) && LadderedLive(w.s, w.lines)
    && GrudgesOk(w.grudges, w.s, w.lines) && Ledger(w.s, w.grudges, w.now)
    && BudgetOk(w.s, w.lines, w.now) && CapsOk(w.lines)
    && SpacedOut(w.lines) && Remembers(w.s, w.lines, w.now, w.session)
    && NoneOverdue(w.s.calls, w.now)
    && PendingTracked(w.s, w.now, w.loadedAt) && OnePending(w.s.calls, w.now, w.loadedAt)
  }

  // ── counting a day's dares ──

  lemma {:induction false} EvolvedKeepsDares(a: seq<Call>, b: seq<Call>, d: int)
    requires Evolved(a, b)
    ensures DaresOn(a, d) == DaresOn(b, d)
  {
    if a != [] {
      var n := |a| - 1;
      assert Ruled(a[n], b[n]);
      EvolvedKeepsDares(a[..n], b[..n], d);
    }
  }

  lemma {:induction false} DaresOnHead(calls: seq<Call>, d: int)
    requires calls != []
    ensures DaresOn(calls, d) == DaresOn(calls[..1], d) + DaresOn(calls[1..], d)
  {
    var n := |calls| - 1;
    if n == 0 {
      assert calls[..1] == calls;
    } else {
      DaresOnHead(calls[..n], d);
      assert calls[..n][1..] == calls[1..][..n - 1] && calls[..n][..1] == calls[..1];
    }
  }

  lemma {:induction false} AllOnOneDay(calls: seq<Call>, d: int)
    requires forall i :: 0 <= i < |calls| ==> calls[i].rung == 0 && calls[i].ts > 0 && UtcDay(calls[i].ts) == d
    ensures DaresOn(calls, d) == |calls|
  {
    if calls != [] {
      AllOnOneDay(calls[..|calls| - 1], d);
    }
  }

  lemma {:induction false} DayMonotone(a: int, b: int)
    requires a <= b
    ensures UtcDay(a) <= UtcDay(b)
  {
  }

  /**
   Recording a call counts once on its day. The truncation to the last 60 drops the oldest call, and
   that one is of an earlier day: else all 60 would be of this day, beyond the cap.
   */
  lemma {:induction false} RecordCounts(calls: seq<Call>, ep: Episode, before: int, now: int, d: int)
    requires CallsOk(calls, before) && 0 <= before < now && !ep.band.OtherBand?
    requires DaresOn(calls, UtcDay(now)) < DAILY_SURPRISE_CAP && UtcDay(now) <= d
    ensures DaresOn(RecordCall(calls, ep, now), d) == DaresOn(calls, d) + (if d == UtcDay(now) then 1 else 0)
  {
    var c := Call(CallId(now, ep.band), ep.band, 0, ep.kind, ep.peakRate, now, Pending);
    var all := calls + [c];
    assert all[..|calls|] == calls;
    assert DaresOn(all, d) == DaresOn(calls, d) + (if d == UtcDay(now) then 1 else 0);
    if |all| > MAX_CALLS {
      if UtcDay(calls[0].ts) >= UtcDay(now) {
        forall i | 0 <= i < |calls| ensures UtcDay(calls[i].ts) == UtcDay(now) {
          DayMonotone(calls[0].ts, calls[i].ts);
          DayMonotone(calls[i].ts, now);
        }
        AllOnOneDay(calls, UtcDay(now));
        assert false;
      }
      DaresOnHead(all, d);
      assert all[..1] == [calls[0]] && all[1..] == all[|all| - MAX_CALLS..];
    }
  }

  lemma {:induction false} CapsBoundDares(lines: seq<Spoken>, d: int)
    requires CapsOk(lines)
    ensures DaresSpoken(lines, d) <= DAILY_SURPRISE_CAP
  {
    if lines != [] {
      var n := |lines| - 1;
      forall i | 0 <= i < n && FirstDare(lines[..n][i].line)
        ensures DaresSpoken(lines[..n][..i], UtcDay(lines[..n][i].at)) < DareCap(lines[..n][i].line.kind)
      {
        assert lines[..n][..i] == lines[..i];
      }
      CapsBoundDares(lines[..n], d);
    }
  }

  // ── one poll, piece by piece ──

  /** The states inside a poll, named once for the lemmas below. */
  datatype Inside = Inside(b: State, w: Work, said: Said, r: PollResult)

  function InsidePoll(s: State, inp: Input, order: seq<Band>): Inside {
    var b := Begin(s, inp, order);
    var w := Observe(b, order, inp);
    var said := Talk(w, order, inp.now, Silent(s, inp));
    Inside(b, w, said, Finish(said, w.added, inp, Silent(s, inp)))
  }

  lemma {:induction false} FinishShape(said: Said, added: seq<Grudge>, inp: Input, silent: bool)
    ensures var r := Finish(said, added, inp, silent);
      && r.s.episodes == said.s.episodes && r.s.recent == said.s.recent
      && r.s.cooldownUntil == said.s.cooldownUntil
      && r.s.day == said.s.day && r.s.dareCount == said.s.dareCount
      && r.s.grudges == said.s.grudges && r.added == added
      && Evolved(said.s.calls, r.s.calls) && NoneOverdue(r.s.calls, inp.now)
      && (r.speech == [] ==> r.s.lastSpokeAt == said.s.lastSpokeAt && r.s.lastSpokeBand == said.s.lastSpokeBand)
      && (r.speech != [] ==> r.s.lastSpokeAt == inp.now && r.s.lastSpokeBand == Some(r.speech[0].band))
  {
    var s := LogPoll(said.s, inp.now);
    var r := Finish(said, added, inp, silent);
    assert r.s.calls == GradeAll(said.s.calls, s, inp.now);
    forall i | 0 <= i < |said.s.calls| ensures Ruled(said.s.calls[i], Grade(said.s.calls[i], s, inp.now)) {
    }
    forall i | 0 <= i < |r.s.calls| && r.s.calls[i].verdict == Pending ensures !Overdue(r.s.calls[i], inp.now) {
      assert r.s.calls[i] == Grade(said.s.calls[i], s, inp.now);
    }
  }

  /** What a poll says: the chosen dare, else a fade line in the gap, else a dud line in the gap, else nothing. */
  lemma {:induction false} WhatIsSaid(s: State, inp: Input, order: seq<Band>)
    ensures var p := InsidePoll(s, inp, order);
      var c, gap := Chosen(p.w.s, order, inp.now), GapOk(p.w.s, inp.now);
      var duds := NewDuds(p.w.s.calls, LogPoll(p.w.s, inp.now), inp.now);
      && p.r == Poll(s, inp, order)
      && (Silent(s, inp) ==> p.r.speech == [] && p.said.s == p.w.s)
      && (!Silent(s, inp) && c.Some? ==>
            p.r.speech == [DareSpeech(c.value)] && p.said.s == SpeakDare(p.w.s, c.value, inp.now))
      && (!Silent(s, inp) && c.None? ==>
            && p.said.s == p.w.s
            && p.r.speech == if gap && p.w.faded != [] then [FadeSpeech(TopFaded(p.w.faded))]
                             else if gap && inp.panelOpen && duds != [] then
                               [Speech(DudLine, duds[0], -1, NoKind, false, 0, 0)]
                             else [])
  {
    hide Begin;
    hide Observe;
    hide Silent;
    hide Chosen;
    hide SpeakDare;
    hide DareSpeech;
    hide FadeSpeech;
    hide TopFaded;
    hide NewDuds;
    hide GradeAll;
  }

  lemma {:induction false} LiveFromTrans(s: State, t: State, u: State, now: int)
    requires LiveFrom(s, t, now) && LiveFrom(t, u, now)
    ensures LiveFrom(s, u, now)
  {
    forall b | LiveAt(u, b).Some?
      ensures Fresh(LiveAt(u, b).value, now)
              || (LiveAt(s, b).Some? && Continues(LiveAt(s, b).value, LiveAt(u, b).value))
    {
      assert Fresh(LiveAt(u, b).value, now)
             || (LiveAt(t, b).Some? && Continues(LiveAt(t, b).value, LiveAt(u, b).value));
    }
  }

  /** Up to the point of speaking. */
  lemma {:induction false} BeforeTalk(w: World, inp: Input, order: seq<Band>)
    requires Inv(w) && inp.now > w.now
    ensures var p := InsidePoll(w.s, inp, order);
      && EpsOk(p.w.s, inp.now) && Evolved(w.s.calls, p.w.s.calls) && CallsOk(p.w.s.calls, w.now)
      && LadderedLive(p.w.s, w.lines) && NoneFrom(w.lines, inp.now)
      && p.w.s.lastSpokeAt == w.s.lastSpokeAt && p.w.s.lastSpokeBand == w.s.lastSpokeBand
      && p.w.s.day == Some(UtcDay(inp.now))
      && p.w.s.dareCount == DaresSpoken(w.lines, UtcDay(inp.now))
      && (forall d :: UtcDay(inp.now) <= d ==> DaresOn(p.w.s.calls, d) == DaresSpoken(w.lines, d))
  {
    var p := InsidePoll(w.s, inp, order);
    BeginShape(w.s, inp, order);
    BeginKeeps(w.s, inp, order, w.now);
    ObserveKeeps(p.b, order, inp);
    EvolvedTrans(w.s.calls, p.b.calls, p.w.s.calls);
    EvolvedKeepsCalls(w.s.calls, p.w.s.calls, w.now);
    LiveFromTrans(w.s, p.b, p.w.s, inp.now);
    forall i | 0 <= i < |w.lines| && w.lines[i].line.what == DareLine ensures w.lines[i].line.opening < inp.now {
      assert DareTimed(w.lines[i]);
    }
    LaddersContinue(w.s, p.w.s, w.lines, inp.now);
    DayMonotone(w.now, inp.now);
    forall d | UtcDay(inp.now) <= d ensures DaresOn(p.w.s.calls, d) == DaresSpoken(w.lines, d) {
      EvolvedKeepsDares(w.s.calls, p.w.s.calls, d);
    }
  }

  // ── a turn: what the rest of the proof knows about a poll ──

  /** The state before anything is said, the candidate that speaks, the states after, the line. */
  datatype Turn = Turn(now: int, mid: State, c: Option<Candidate>, said: State, t: State, speech: seq<Speech>)

  ghost predicate TurnOpens(w: World, u: Turn) {
    && u.now > w.now
    && EpsOk(u.mid, u.now) && Evolved(w.s.calls, u.mid.calls) && CallsOk(u.mid.calls, w.now)
    && LadderedLive(u.mid, w.lines) && NoneFrom(w.lines, u.now)
    && u.mid.lastSpokeAt == w.s.lastSpokeAt && u.mid.lastSpokeBand == w.s.lastSpokeBand
    && u.mid.day == Some(UtcDay(u.now))
    && u.mid.dareCount == DaresSpoken(w.lines, UtcDay(u.now))
    && (forall d :: UtcDay(u.now) <= d ==> DaresOn(u.mid.calls, d) == DaresSpoken(w.lines, d))
  }

  ghost predicate TurnTalks(u: Turn) {
    && (u.c.Some? ==>
          && IsCandidate(u.mid, u.c.value, u.now) && MaySpeak(u.mid, u.c.value, u.now)
          && u.said == SpeakDare(u.mid, u.c.value, u.now) && u.speech == [DareSpeech(u.c.value)])
    && (u.c.None? ==>
          && u.said == u.mid && |u.speech| <= 1
          && (u.speech != [] ==> u.speech[0].what != DareLine && GapOk(u.mid, u.now)))
  }

  ghost predicate TurnEnds(u: Turn) {
    && u.t.episodes == u.said.episodes && u.t.recent == u.said.recent && u.t.cooldownUntil == u.said.cooldownUntil
    && u.t.day == u.said.day && u.t.dareCount == u.said.dareCount && u.t.grudges == u.said.grudges
    && Evolved(u.said.calls, u.t.calls) && NoneOverdue(u.t.calls, u.now)
    && (u.speech == [] ==> u.t.lastSpokeAt == u.said.lastSpokeAt && u.t.lastSpokeBand == u.said.lastSpokeBand)
    && (u.speech != [] ==> u.t.lastSpokeAt == u.now && u.t.lastSpokeBand == Some(u.speech[0].band))
  }

  ghost predicate TurnOk(w: World, u: Turn) { TurnOpens(w, u) && TurnTalks(u) && TurnEnds(u) }

  function LinesAfter(w: World, u: Turn): seq<Spoken> {
    if u.speech == [] then w.lines else w.lines + [Spoken(u.now, w.session, u.speech[0])]
  }

  function TurnOf(w: World, inp: Input, order: seq<Band>): Turn {
    var p := InsidePoll(w.s, inp, order);
    var c := if Silent(w.s, inp) then None else Chosen(p.w.s, order, inp.now);
    Turn(inp.now, p.w.s, c, p.said.s, p.r.s, p.r.speech)
  }

  lemma {:induction false} PollIsATurn(w: World, inp: Input, order: seq<Band>)
    requires Inv(w) && inp.now > w.now
    ensures var u := TurnOf(w, inp, order);
      && TurnOk(w, u) && u.now == inp.now
      && u.t == Poll(w.s, inp, order).s && u.speech == Poll(w.s, inp, order).speech
  {
    var p := InsidePoll(w.s, inp, order);
    var u := TurnOf(w, inp, order);
    WhatIsSaid(w.s, inp, order);
    assert TurnOpens(w, u) by { BeforeTalk(w, inp, order); }
    assert TurnEnds(u) by { FinishShape(p.said, p.w.added, inp, Silent(w.s, inp)); }
    if u.c.Some? {
      ChosenIsCandidate(p.w.s, order, inp.now);
    }
  }

  lemma {:induction false} TurnKeepsEpisodes(w: World, u: Turn)
    requires w.now >= 0 && TurnOk(w, u)
    ensures EpsOk(u.t, u.now) && CallsOk(u.said.calls, u.now) && CallsOk(u.t.calls, u.now)
  {
    if u.c.Some? {
      SpeakKeepsEps(u.mid, u.c.value, u.now);
      assert EpOk(u.c.value.ep.band, u.c.value.ep, u.now);
      RecordKeepsCalls(u.mid.calls, u.c.value.ep, w.now, u.now);
    }
    assert CallsOk(u.said.calls, u.now);
    EvolvedKeepsCalls(u.said.calls, u.t.calls, u.now);
  }

  lemma {:induction false} LaddersGrow(lines: seq<Spoken>, l: Spoken)
    requires AllLadders(lines)
    requires l.line.what == DareLine ==>
      0 <= l.line.rung <= MAX_LIVE_RUNG
      && RungsOf(lines, EpId(l.line.band, l.line.opening)) == Ladder(l.line.rung - 1)
    ensures AllLadders(lines + [l])
  {
    assert (lines + [l])[..|lines|] == lines;
    forall id ensures IsLadder(RungsOf(lines + [l], id)) {
      assert IsLadder(RungsOf(lines, id));
    }
  }

  lemma {:induction false} NoDareNoClimb(lines: seq<Spoken>, l: Spoken)
    requires l.line.what != DareLine
    ensures forall id :: RungsOf(lines + [l], id) == RungsOf(lines, id)
  {
    assert (lines + [l])[..|lines|] == lines;
  }

  lemma {:induction false} CandidateTimed(s: State, c: Candidate, now: int, session: nat)
    requires EpsOk(s, now) && IsCandidate(s, c, now)
    ensures DareTimed(Spoken(now, session, DareSpeech(c)))
    ensures LiveAt(s, c.ep.band) == Some(c.ep)
  {
    assert EpOk(c.ep.band, c.ep, now);
  }

  lemma {:induction false} LogGrows(lines: seq<Spoken>, l: Spoken, now: int, session: nat)
    requires LogOk(lines, now, session) && now < l.at && 0 < l.at && l.session == session && DareTimed(l)
    ensures LogOk(lines + [l], l.at, session)
  {
    var longer := lines + [l];
    forall i | 0 <= i < |longer|
      ensures 0 < longer[i].at <= l.at && longer[i].session <= session && DareTimed(longer[i])
    {
      if i < |lines| {
        assert longer[i] == lines[i] && DareTimed(lines[i]);
      }
    }
  }

  lemma {:induction false} TurnKeepsLadders(w: World, u: Turn)
    requires w.now >= 0 && TurnOk(w, u) && AllLadders(w.lines) && LogOk(w.lines, w.now, w.session)
    ensures var lines := LinesAfter(w, u);
      LogOk(lines, u.now, w.session) && AllLadders(lines) && LadderedLive(u.t, lines)
  {
    assert forall b :: LiveAt(u.t, b) == LiveAt(u.said, b);
    if u.speech != [] {
      var l := Spoken(u.now, w.session, u.speech[0]);
      if u.c.Some? {
        CandidateTimed(u.mid, u.c.value, u.now, w.session);
        SpeakClimbs(u.mid, u.c.value, u.now, w.lines, l);
      } else {
        NoDareNoClimb(w.lines, l);
      }
      LaddersGrow(w.lines, l);
      LogGrows(w.lines, l, w.now, w.session);
    }
  }

  lemma {:induction false} TurnKeepsCaps(w: World, u: Turn)
    requires TurnOk(w, u) && CapsOk(w.lines)
    ensures CapsOk(LinesAfter(w, u))
  {
    var lines := LinesAfter(w, u);
    forall i | 0 <= i < |lines| && FirstDare(lines[i].line)
      ensures DaresSpoken(lines[..i], UtcDay(lines[i].at)) < DareCap(lines[i].line.kind)
    {
      if i < |w.lines| {
        assert lines[..i] == w.lines[..i] && lines[i] == w.lines[i];
      } else {
        assert lines[..i] == w.lines;
      }
    }
  }

  lemma {:induction false} TurnKeepsBudget(w: World, u: Turn)
    requires w.now >= 0 && TurnOk(w, u) && CapsOk(w.lines)
    ensures BudgetOk(u.t, LinesAfter(w, u), u.now)
  {
    var lines, today := LinesAfter(w, u), UtcDay(u.now);
    if u.c.Some? {
      assert EpOk(u.c.value.ep.band, u.c.value.ep, u.now);
    }
    forall d | today <= d ensures DaresOn(u.t.calls, d) == DaresSpoken(lines, d) {
      EvolvedKeepsDares(u.said.calls, u.t.calls, d);
      if u.speech != [] {
        assert lines[..|w.lines|] == w.lines;
        if u.c.Some? && u.c.value.rung == 0 {
          RecordCounts(u.mid.calls, u.c.value.ep, w.now, u.now, d);
        }
      }
    }
    if u.speech != [] {
      assert lines[..|w.lines|] == w.lines;
    }
  }

  lemma {:induction false} EvolvedLast(a: seq<Call>, b: seq<Call>)
    requires Evolved(a, b) && a != []
    ensures b != [] && b[|b| - 1].ts == a[|a| - 1].ts
  {
    assert Ruled(a[|a| - 1], b[|a| - 1]);
  }

  /** The newest call of a record is the one just made; otherwise the newest stays the newest. */
  lemma {:induction false} LastCall(w: World, u: Turn)
    requires w.now >= 0 && TurnOk(w, u)
    ensures u.c.Some? && u.c.value.rung == 0 ==> u.t.calls != [] && u.t.calls[|u.t.calls| - 1].ts == u.now
    ensures !(u.c.Some? && u.c.value.rung == 0) ==>
      |u.t.calls| == |w.s.calls|
      && (w.s.calls != [] ==> u.t.calls[|u.t.calls| - 1].ts == w.s.calls[|w.s.calls| - 1].ts)
  {
    if u.c.Some? && u.c.value.rung == 0 {
      assert EpOk(u.c.value.ep.band, u.c.value.ep, u.now);
      RecordKeepsCalls(u.mid.calls, u.c.value.ep, w.now, u.now);
      EvolvedLast(u.said.calls, u.t.calls);
    } else if w.s.calls != [] {
      EvolvedLast(w.s.calls, u.mid.calls);
      assert u.said.calls == u.mid.calls;
      EvolvedLast(u.said.calls, u.t.calls);
    }
  }

  lemma {:induction false} TurnKeepsMemory(w: World, u: Turn)
    requires w.now >= 0 && TurnOk(w, u) && Remembers(w.s, w.lines, w.now, w.session)
    requires LogOk(w.lines, w.now, w.session)
    ensures Remembers(u.t, LinesAfter(w, u), u.now, w.session)
  {
    LastCall(w, u);
    var lines := LinesAfter(w, u);
    forall i | 0 <= i < |lines| && FirstDare(lines[i].line)
      ensures u.t.calls != [] && lines[i].at <= u.t.calls[|u.t.calls| - 1].ts
    {
      if i < |w.lines| {
        assert lines[i] == w.lines[i];
        assert w.s.calls != [] && w.lines[i].at <= w.s.calls[|w.s.calls| - 1].ts;
      }
    }
  }

  lemma {:induction false} SpacingGrows(s: State, lines: seq<Spoken>, l: Spoken, now: int, session: nat)
    requires SpacedOut(lines) && Remembers(s, lines, now, session) && LogOk(lines, now, session)
    requires l.session == session
    requires GapOk(s, l.at)
             || (l.line.what == DareLine && l.line.rung > 0 && s.lastSpokeBand == Some(l.line.band))
    ensures SpacedOut(lines + [l])
  {
    var longer, n := lines + [l], |lines|;
    forall i | 0 <= i < n && FirstDare(longer[i].line)
      ensures l.at - longer[i].at >= GLOBAL_MIN_GAP_MS || (l.line.what == DareLine && l.line.rung > 0)
    {
      assert longer[i] == lines[i];
      assert 0 < lines[i].at <= s.calls[|s.calls| - 1].ts <= s.lastSpokeAt;
    }
  }

  lemma {:induction false} TurnKeepsSpacing(w: World, u: Turn)
    requires TurnOk(w, u) && SpacedOut(w.lines) && Remembers(w.s, w.lines, w.now, w.session)
    requires LogOk(w.lines, w.now, w.session)
    ensures SpacedOut(LinesAfter(w, u))
  {
    if u.speech != [] {
      SpacingGrows(w.s, w.lines, Spoken(u.now, w.session, u.speech[0]), w.now, w.session);
    }
  }

  /** A turn changes no episode but for the rung of the one that speaks. */
  lemma {:induction false} TurnContinues(u: Turn)
    requires EpsOk(u.mid, u.now) && TurnTalks(u) && TurnEnds(u)
    ensures forall b :: LiveAt(u.t, b).Some? ==>
      LiveAt(u.mid, b).Some?
      && var e, f := LiveAt(u.mid, b).value, LiveAt(u.t, b).value;
         f.firstSeenAt == e.firstSeenAt && f.grudged == e.grudged && f.answered == e.answered
  {
    assert forall b :: LiveAt(u.t, b) == LiveAt(u.said, b);
    if u.c.Some? {
      assert EpOk(u.c.value.ep.band, u.c.value.ep, u.now);
      assert LiveAt(u.mid, u.c.value.ep.band) == Some(u.c.value.ep);
    }
  }

  lemma {:induction false} TurnKeepsGrudges(gs: seq<Grudge>, w: World, u: Turn)
    requires TurnOk(w, u) && GrudgesOk(gs, u.mid, w.lines)
    ensures GrudgesOk(gs, u.t, LinesAfter(w, u))
  {
    TurnContinues(u);
    var more := if u.speech == [] then [] else [Spoken(u.now, w.session, u.speech[0])];
    assert w.lines + more == LinesAfter(w, u);
    SpeakKeepsGrudges(gs, u.mid, u.t, w.lines, more);
  }

  // ── pending calls ──

  /** A first dare finds no other call pending on its band, unless one due for its verdict or restored at load. */
  lemma {:induction false} FirstDareFindsNone(s: State, c: Candidate, now: int, since: int)
    requires EpsOk(s, now) && PendingTracked(s, now, since) && IsCandidate(s, c, now) && c.rung == 0
    requires CooldownOf(s, c.ep.band) <= now
    ensures forall i :: 0 <= i < |s.calls| && s.calls[i].verdict == Pending && s.calls[i].band == c.ep.band
                        ==> s.calls[i].ts <= since || Overdue(s.calls[i], now)
  {
    var b := c.ep.band;
    assert EpOk(b, s.episodes[b], now);
    forall i | 0 <= i < |s.calls| && s.calls[i].verdict == Pending && s.calls[i].band == b
      ensures s.calls[i].ts <= since || Overdue(s.calls[i], now)
    {
      assert Tracked(s, s.calls[i], now, since);
    }
  }

  /** A change that keeps the calls, the ended episodes and the cooldowns, and every episode's link. */
  lemma {:induction false} SameLinksTrack(s: State, t: State, now: int, since: int)
    requires PendingTracked(s, now, since) && t.calls == s.calls
    requires t.recent == s.recent && t.cooldownUntil == s.cooldownUntil && t.episodes.Keys == s.episodes.Keys
    requires forall b :: b in t.episodes ==>
      t.episodes[b].callId == s.episodes[b].callId && t.episodes[b].firstSeenAt == s.episodes[b].firstSeenAt
    ensures PendingTracked(t, now, since)
  {
    forall i | 0 <= i < |t.calls| && t.calls[i].verdict == Pending ensures Tracked(t, t.calls[i], now, since) {
      assert Tracked(s, s.calls[i], now, since);
    }
  }

  /** A call recorded and linked to its episode, the older calls kept as they were. */
  lemma {:induction false} RecordTracks(s: State, t: State, b: Band, now: int, since: int)
    requires PendingTracked(s, now, since) && OnePending(s.calls, now, since)
    requires OthersKept(s, t, b)
    requires t.calls != [] && |t.calls| <= |s.calls| + 1
    requires t.calls[..|t.calls| - 1] == s.calls[|s.calls| + 1 - |t.calls|..]
    requires var c := t.calls[|t.calls| - 1]; c.band == b && b in t.episodes && t.episodes[b].callId == Some(c.id)
    requires forall i :: 0 <= i < |s.calls| && s.calls[i].verdict == Pending && s.calls[i].band == b
                         ==> s.calls[i].ts <= since || Overdue(s.calls[i], now)
    ensures PendingTracked(t, now, since) && OnePending(t.calls, now, since)
  {
    var d, n := |s.calls| + 1 - |t.calls|, |t.calls| - 1;
    forall i | 0 <= i < n ensures t.calls[i] == s.calls[i + d] {
      assert t.calls[i] == t.calls[..n][i];
    }
    forall i | 0 <= i < |t.calls| && t.calls[i].verdict == Pending ensures Tracked(t, t.calls[i], now, since) {
      if i < n {
        assert Tracked(s, s.calls[i + d], now, since);
      }
    }
  }

  lemma {:induction false} FirstDareTracks(s: State, c: Candidate, before: int, now: int, since: int)
    requires EpsOk(s, now) && CallsOk(s.calls, before) && 0 <= before < now
    requires PendingTracked(s, now, since) && OnePending(s.calls, now, since)
    requires IsCandidate(s, c, now) && MaySpeak(s, c, now) && c.rung == 0
    ensures var t := SpeakDare(s, c, now); PendingTracked(t, now, since) && OnePending(t.calls, now, since)
  {
    assert EpOk(c.ep.band, c.ep, now);
    FirstDareFindsNone(s, c, now, since);
    RecordKeepsCalls(s.calls, c.ep, before, now);
    RecordTracks(s, SpeakDare(s, c, now), c.ep.band, now, since);
  }

  /** Calls that only change by being decided keep their links. */
  lemma {:induction false} DecidedTracks(s: State, t: State, now: int, since: int)
    requires PendingTracked(s, now, since) && Evolved(s.calls, t.calls)
    requires t.episodes == s.episodes && t.recent == s.recent && t.cooldownUntil == s.cooldownUntil
    ensures PendingTracked(t, now, since)
  {
    forall i | 0 <= i < |t.calls| && t.calls[i].verdict == Pending ensures Tracked(t, t.calls[i], now, since) {
      assert Ruled(s.calls[i], t.calls[i]);
      assert Tracked(s, s.calls[i], now, since);
    }
  }

  lemma {:induction false} TurnKeepsPending(w: World, u: Turn)
    requires w.now >= 0 && TurnOk(w, u)
    requires PendingTracked(u.mid, u.now, w.loadedAt) && OnePending(u.mid.calls, u.now, w.loadedAt)
    ensures PendingTracked(u.t, u.now, w.loadedAt) && OnePending(u.t.calls, u.now, w.loadedAt)
  {
    hide OnePending;
    hide PendingTracked;
    hide CallsOk;
    hide Evolved;
    if u.c.Some? {
      if u.c.value.rung == 0 {
        FirstDareTracks(u.mid, u.c.value, w.now, u.now, w.loadedAt);
      } else {
        assert EpOk(u.c.value.ep.band, u.c.value.ep, u.now);
        SameLinksTrack(u.mid, u.said, u.now, w.loadedAt);
      }
    }
    EvolvedKeepsOnePending(u.said.calls, u.t.calls, u.now, w.loadedAt);
    DecidedTracks(u.said, u.t, u.now, w.loadedAt);
  }
}
