/** Every event keeps the invariant, and what that says about every run. */
module KevinTheorems {
  import opened Basics
  import opened KevinState
  import opened KevinReduce
  import opened KevinSteps
  import opened KevinPending
  import opened KevinPolls
  import opened KevinRuns

  // ── polls ──

  lemma {:induction false} LinesInThePast(w: World)
    requires LogOk(w.lines, w.now, w.session)
    ensures NoneFrom(w.lines, w.now)
  {
    forall i | 0 <= i < |w.lines| && w.lines[i].line.what == DareLine ensures w.lines[i].line.opening < w.now {
      assert DareTimed(w.lines[i]);
    }
  }

  lemma {:induction false} PollKeepsGrudges(w: World, inp: Input, order: seq<Band>)
    requires Inv(w) && inp.now > w.now
    ensures var p := InsidePoll(w.s, inp, order);
      GrudgesOk(w.grudges + p.w.added, p.w.s, w.lines) && Ledger(p.w.s, w.grudges + p.w.added, inp.now)
  {
    var b := Begin(w.s, inp, order);
    BeginKeeps(w.s, inp, order, w.now);
    LinesInThePast(w);
    LaddersContinue(w.s, b, w.lines, inp.now);
    ObserveKeepsGrudges(w.grudges, b, order, inp, w.lines);
    BeginKeepsLedger(w.grudges, w.s, inp, order, w.now);
    ObserveKeepsLedger(w.grudges, b, order, inp);
  }

  /** `v` is the world after the turn `u` in `w`. */
  ghost predicate WorldAfter(w: World, u: Turn, v: World) {
    && TurnOk(w, u) && v.s == u.t && v.now == u.now && v.session == w.session
    && v.lines == LinesAfter(w, u) && v.loadedAt == w.loadedAt
    && GrudgesOk(v.grudges, u.mid, w.lines) && Ledger(u.mid, v.grudges, u.now)
  }

  lemma {:induction false} AfterPollShape(w: World, r: PollResult, u: Turn)
    requires TurnOk(w, u) && r.s == u.t && r.speech == u.speech
    requires GrudgesOk(w.grudges + r.added, u.mid, w.lines) && Ledger(u.mid, w.grudges + r.added, u.now)
    ensures WorldAfter(w, u, AfterPoll(w, r, u.now))
  {
    assert AfterPoll(w, r, u.now).lines == LinesAfter(w, u);
  }

  lemma {:induction false} PollWorld(w: World, inp: Input, order: seq<Band>)
    requires Inv(w) && inp.now > w.now
    ensures WorldAfter(w, TurnOf(w, inp, order), Apply(w, PollEvent(inp, order)))
  {
    PollIsATurn(w, inp, order);
    PollKeepsGrudges(w, inp, order);
    AfterPollShape(w, Poll(w.s, inp, order), TurnOf(w, inp, order));
  }

  lemma {:induction false} OnePendingLater(calls: seq<Call>, before: int, now: int, since: int)
    requires OnePending(calls, before, since) && before <= now
    ensures OnePending(calls, now, since)
  {
    forall i, j | 0 <= i < j < |calls| && calls[i].verdict == Pending && calls[j].verdict == Pending
                  && calls[i].band == calls[j].band
      ensures calls[i].ts <= since || Overdue(calls[i], now)
    {
      assert calls[i].ts <= since || Overdue(calls[i], before);
    }
  }

  lemma {:induction false} PollTracks(w: World, inp: Input, order: seq<Band>)
    requires Inv(w) && inp.now > w.now
    ensures var u := TurnOf(w, inp, order);
      PendingTracked(u.mid, u.now, w.loadedAt) && OnePending(u.mid.calls, u.now, w.loadedAt)
  {
    var p, u := InsidePoll(w.s, inp, order), TurnOf(w, inp, order);
    BeginShape(w.s, inp, order);
    BeginKeeps(w.s, inp, order, w.now);
    BeginTracks(w.s, inp, order, w.now, w.loadedAt);
    EvolvedKeepsCalls(w.s.calls, p.b.calls, w.now);
    assert CallsOk(p.b.calls, inp.now);
    ObserveTracks(p.b, order, inp, w.loadedAt);
    ObserveKeeps(p.b, order, inp);
    EvolvedTrans(w.s.calls, p.b.calls, p.w.s.calls);
    OnePendingLater(w.s.calls, w.now, inp.now, w.loadedAt);
    EvolvedKeepsOnePending(w.s.calls, p.w.s.calls, inp.now, w.loadedAt);
  }

  lemma {:induction false} NoPendingTracks(s: State, now: int, since: int)
    requires NoPending(s.calls)
    ensures PendingTracked(s, now, since) && OnePending(s.calls, now, since) && NoneOverdue(s.calls, now)
  {
  }

  lemma {:induction false} TurnKeepsLedger(gs: seq<Grudge>, u: Turn)
    requires TurnTalks(u) && TurnEnds(u) && Ledger(u.mid, gs, u.now)
    ensures Ledger(u.t, gs, u.now)
  {
    hide Dated;
    hide HeldOf;
    hide Evolved;
    hide NoneOverdue;
  }

  lemma {:induction false} TurnKeepsInv(w: World, u: Turn, v: World)
    requires Inv(w) && WorldAfter(w, u, v)
    requires PendingTracked(u.mid, u.now, w.loadedAt) && OnePending(u.mid.calls, u.now, w.loadedAt)
    ensures Inv(v)
  {
    TurnKeepsEpisodes(w, u);
    TurnKeepsLadders(w, u);
    TurnKeepsCaps(w, u);
    TurnKeepsBudget(w, u);
    TurnKeepsMemory(w, u);
    TurnKeepsSpacing(w, u);
    TurnKeepsGrudges(v.grudges, w, u);
    TurnKeepsPending(w, u);
    TurnKeepsLedger(v.grudges, u);
  }

  lemma {:induction false} PollKeepsInv(w: World, inp: Input, order: seq<Band>)
    requires Inv(w) && inp.now > w.now
    ensures Inv(Apply(w, PollEvent(inp, order)))
  {
    PollWorld(w, inp, order);
    PollTracks(w, inp, order);
    TurnKeepsInv(w, TurnOf(w, inp, order), Apply(w, PollEvent(inp, order)));
  }

  // ── answers, resyncs, reloads ──

  lemma {:induction false} QuietKeepsLog(gs: seq<Grudge>, s: State, t: State, lines: seq<Spoken>)
    requires LadderedLive(s, lines) && GrudgesOk(gs, s, lines)
    requires forall b :: LiveAt(t, b).Some? ==>
      LiveAt(s, b).Some? && Continues(LiveAt(s, b).value, LiveAt(t, b).value)
    ensures LadderedLive(t, lines) && GrudgesOk(gs, t, lines)
  {
  }

  lemma {:induction false} QuietKeepsCalls(s: State, t: State, lines: seq<Spoken>, now: int, session: nat)
    requires Evolved(s.calls, t.calls) && NoneOverdue(s.calls, now)
    requires BudgetOk(s, lines, now) && Remembers(s, lines, now, session)
    requires t.lastSpokeAt == s.lastSpokeAt && t.lastSpokeBand == s.lastSpokeBand
    requires t.day == s.day && t.dareCount == s.dareCount
    ensures NoneOverdue(t.calls, now) && BudgetOk(t, lines, now) && Remembers(t, lines, now, session)
  {
    forall d ensures DaresOn(t.calls, d) == DaresOn(s.calls, d) {
      EvolvedKeepsDares(s.calls, t.calls, d);
    }
    if s.calls != [] {
      EvolvedLast(s.calls, t.calls);
    }
    forall i | 0 <= i < |t.calls| && t.calls[i].verdict == Pending ensures !Overdue(t.calls[i], now) {
      assert Ruled(s.calls[i], t.calls[i]);
    }
  }

  /** A change of the state that says nothing and keeps the speech budget. */
  lemma {:induction false} QuietKeepsInv(w: World, v: World)
    requires Inv(w)
    requires v.now == w.now && v.session == w.session && v.lines == w.lines && v.grudges == w.grudges
    requires v.loadedAt == w.loadedAt && EpsOk(v.s, w.now) && Evolved(w.s.calls, v.s.calls)
    requires forall b :: LiveAt(v.s, b).Some? ==>
      LiveAt(w.s, b).Some? && Continues(LiveAt(w.s, b).value, LiveAt(v.s, b).value)
    requires v.s.lastSpokeAt == w.s.lastSpokeAt && v.s.lastSpokeBand == w.s.lastSpokeBand
    requires v.s.day == w.s.day && v.s.dareCount == w.s.dareCount && v.s.grudges == w.s.grudges
    requires PendingTracked(v.s, w.now, w.loadedAt) && OnePending(v.s.calls, w.now, w.loadedAt)
    ensures Inv(v)
  {
    EvolvedKeepsCalls(w.s.calls, v.s.calls, w.now);
    QuietKeepsLog(w.grudges, w.s, v.s, w.lines);
    QuietKeepsCalls(w.s, v.s, w.lines, w.now, w.session);
  }

  /** Answering links nothing anew: the band's episode goes on, the others are untouched. */
  lemma {:induction false} AnswerShape(s: State, b: Band, now: int, since: int)
    requires EpsOk(s, now) && b in s.episodes
    ensures var t := AnswerEpisode(s, b);
      && EpsOk(t, now) && Evolved(s.calls, t.calls) && SameBudget(s, t)
      && (PendingTracked(s, now, since) && OnePending(s.calls, now, since)
          ==> PendingTracked(t, now, since) && OnePending(t.calls, now, since))
      && (forall x :: LiveAt(t, x).Some? ==>
            LiveAt(s, x).Some? && Continues(LiveAt(s, x).value, LiveAt(t, x).value))
  {
    var t := AnswerEpisode(s, b);
    assert SlotOk(s, b, now);
    AnswerOk(s, b, now);
    StepOkLifts(s, t, b, now);
    assert t.recent == s.recent && t.cooldownUntil == s.cooldownUntil;
    forall x | LiveAt(t, x).Some?
      ensures LiveAt(s, x).Some? && Continues(LiveAt(s, x).value, LiveAt(t, x).value)
    {
      if x != b {
        assert LiveAt(t, x) == LiveAt(s, x);
      }
    }
    if PendingTracked(s, now, since) && OnePending(s.calls, now, since) {
      ContinuedTracks(s, t, b, now, since);
      TrackedLifts(s, t, b, now, since);
      EvolvedKeepsOnePending(s.calls, t.calls, now, since);
    }
  }

  lemma {:induction false} AnswerKeepsInv(w: World, b: Band)
    requires Inv(w)
    ensures Inv(Apply(w, AnswerEvent(b)))
  {
    hide LogOk;
    hide AllLadders;
    hide LadderedLive;
    hide GrudgesOk;
    hide Ledger;
    hide BudgetOk;
    hide CapsOk;
    hide SpacedOut;
    hide Remembers;
    hide PendingTracked;
    hide OnePending;
    var v := Apply(w, AnswerEvent(b));
    if b in w.s.episodes {
      AnswerShape(w.s, b, w.now, w.loadedAt);
    }
    QuietKeepsInv(w, v);
  }

  lemma {:induction false} ResyncKeepsInv(w: World, order: seq<Band>)
    requires Inv(w)
    ensures Inv(Apply(w, ResyncEvent(order)))
  {
    hide LogOk;
    hide AllLadders;
    hide LadderedLive;
    hide GrudgesOk;
    hide Ledger;
    hide BudgetOk;
    hide CapsOk;
    hide SpacedOut;
    hide Remembers;
    hide PendingTracked;
    hide OnePending;
    hide Evolved;
    var v := Apply(w, ResyncEvent(order));
    ResyncEmpties(w.s, order);
    NoPendingTracks(v.s, w.now, w.loadedAt);
    QuietKeepsInv(w, v);
  }

  lemma {:induction false} LatestTsIsLast(calls: seq<Call>, now: int)
    requires CallsOk(calls, now)
    ensures LatestTs(calls) == if calls == [] then 0 else calls[|calls| - 1].ts
  {
    if calls != [] {
      LatestTsIsLast(calls[..|calls| - 1], now);
    }
  }

  lemma {:induction false} FreshMemory(s: State, t: State, lines: seq<Spoken>, now: int, session: nat)
    requires Remembers(s, lines, now, session) && CallsOk(s.calls, now) && LogOk(lines, now, session)
    requires t.calls == s.calls && t.lastSpokeAt == LatestTs(s.calls) && now >= 0
    ensures Remembers(t, lines, now, session + 1) && LogOk(lines, now, session + 1)
  {
    LatestTsIsLast(s.calls, now);
  }

  lemma {:induction false} FreshShape(calls: seq<Call>, grudges: seq<Grudge>)
    requires |calls| <= MAX_CALLS
    ensures var t := FreshState(calls, grudges);
      && t.calls == calls && t.episodes == map[] && t.recent == map[]
      && t.lastSpokeAt == LatestTs(calls) && t.day == None
      && (|grudges| <= MAX_GRUDGES ==> t.grudges == grudges)
  {
  }

  lemma {:induction false} NobodyLive(gs: seq<Grudge>, s: State, t: State, lines: seq<Spoken>, now: int)
    requires GrudgesOk(gs, s, lines) && t.episodes == map[] && t.recent == map[]
    ensures EpsOk(t, now) && LadderedLive(t, lines) && GrudgesOk(gs, t, lines)
  {
  }

  /** All calls a page is loaded with are as old as its load. */
  lemma {:induction false} RestoredTracks(s: State, now: int)
    requires CallsOk(s.calls, now)
    ensures PendingTracked(s, now, now) && OnePending(s.calls, now, now)
  {
  }

  lemma {:induction false} EmptiedKeepsInv(w: World, v: World)
    requires Inv(w) && v.now == w.now && v.session == w.session + 1
    requires v.lines == w.lines && v.grudges == w.grudges && v.loadedAt == w.now
    requires v.s.calls == w.s.calls && v.s.episodes == map[] && v.s.recent == map[]
    requires v.s.lastSpokeAt == LatestTs(w.s.calls) && v.s.day == None && v.s.grudges == w.s.grudges
    ensures Inv(v)
  {
    FreshMemory(w.s, v.s, w.lines, w.now, w.session);
    NobodyLive(w.grudges, w.s, v.s, w.lines, w.now);
    RestoredTracks(v.s, v.now);
  }

  /** A reload loses the episodes and the later lines; the persisted calls bring the budget back. */
  lemma {:induction false} ReloadKeepsInv(w: World)
    requires Inv(w)
    ensures Inv(Apply(w, ReloadEvent))
  {
    hide EpsOk;
    hide LogOk;
    hide AllLadders;
    hide LadderedLive;
    hide GrudgesOk;
    hide BudgetOk;
    hide CapsOk;
    hide SpacedOut;
    hide Remembers;
    hide NoneOverdue;
    hide PendingTracked;
    hide OnePending;
    assert |w.s.grudges| <= 60 by { HeldIsSuffix(w.s.grudges, w.grudges); }
    FreshShape(w.s.calls, w.s.grudges);
    EmptiedKeepsInv(w, Apply(w, ReloadEvent));
  }

  lemma {:induction false} NothingSaid()
    ensures LogOk([], 0, 0) && AllLadders([]) && CapsOk([]) && SpacedOut([]) && NoneFrom([], 0)
  {
    forall id ensures IsLadder(RungsOf([], id)) {
    }
  }

  lemma {:induction false} NobodyYet(s: State)
    requires s.episodes == map[] && s.recent == map[]
    ensures EpsOk(s, 0) && LadderedLive(s, []) && GrudgesOk([], s, [])
  {
  }

  lemma {:induction false} NothingStored(s: State)
    requires s.calls == [] && s.lastSpokeAt == 0 && s.day == None && s.grudges == []
    ensures NoPending(s.calls) && CallsOk(s.calls, 0) && Ledger(s, [], 0)
    ensures BudgetOk(s, [], 0) && Remembers(s, [], 0, 0)
  {
  }

  lemma {:induction false} EmptyInv(w: World)
    requires w.now == 0 && w.session == 0 && w.lines == [] && w.grudges == []
    requires w.s.calls == [] && w.s.episodes == map[] && w.s.recent == map[]
    requires w.s.lastSpokeAt == 0 && w.s.day == None && w.s.grudges == []
    ensures Inv(w)
  {
    hide EpsOk;
    hide CallsOk;
    hide LogOk;
    hide AllLadders;
    hide LadderedLive;
    hide GrudgesOk;
    hide Ledger;
    hide BudgetOk;
    hide CapsOk;
    hide SpacedOut;
    hide Remembers;
    hide NoneOverdue;
    hide PendingTracked;
    hide OnePending;
    NothingSaid();
    NobodyYet(w.s);
    NothingStored(w.s);
    NoPendingTracks(w.s, 0, w.loadedAt);
  }

  lemma {:induction false} FirstLoadInv()
    ensures Inv(FIRST_LOAD)
  {
    FreshShape([], []);
    EmptyInv(FIRST_LOAD);
  }

  lemma {:induction false} EventKeepsInv(w: World, e: Event)
    requires Inv(w) && CanHappen(w, e)
    ensures Inv(Apply(w, e))
  {
    match e
    case PollEvent(inp, order) => PollKeepsInv(w, inp, order);
    case AnswerEvent(b) => AnswerKeepsInv(w, b);
    case ResyncEvent(order) => ResyncKeepsInv(w, order);
    case ReloadEvent => ReloadKeepsInv(w);
  }

  /** Every world of every run satisfies the joint invariant. */
  lemma {:induction false} RunInv(ws: seq<World>, es: seq<Event>, i: nat)
    requires IsRun(ws, es) && i < |ws|
    ensures Inv(ws[i])
  {
    hide *;
    if i == 0 {
      FirstLoadInv();
      RunStarts(ws, es);
    } else {
      RunInv(ws, es, i - 1);
      RunStep(ws, es, i - 1);
      EventKeepsInv(ws[i - 1], es[i - 1]);
    }
  }
}
