/** The promises of the heckler, each over every run from an empty store. */
module KevinPromises {
  import opened Basics
  import opened KevinState
  import opened KevinReduce
  import opened KevinSteps
  import opened KevinPending
  import opened KevinPolls
  import opened KevinRuns
  import opened KevinTheorems

  // ── the daily budget ──

  /**
   On any UTC day at most ten new openings are dared, and from the seventh on only surprises, page
   reloads included.
   */
  lemma {:induction false} DailyBudget(ws: seq<World>, es: seq<Event>, i: nat, day: int)
    requires IsRun(ws, es) && i < |ws|
    ensures DaresSpoken(ws[i].lines, day) <= DAILY_SURPRISE_CAP
    ensures forall k :: 0 <= k < |ws[i].lines| && FirstDare(ws[i].lines[k].line)
                        && DaresSpoken(ws[i].lines[..k], UtcDay(ws[i].lines[k].at)) >= DAILY_DARE_CAP
                        ==> ws[i].lines[k].line.kind == Surprise
  {
    RunInv(ws, es, i);
    CapsBoundDares(ws[i].lines, day);
  }

  /** What the persisted calls say about today is what was really spoken today. */
  lemma {:induction false} BudgetSurvivesReload(ws: seq<World>, es: seq<Event>, i: nat)
    requires IsRun(ws, es) && i < |ws|
    ensures var w := ws[i];
      DaresOn(FreshState(w.s.calls, w.s.grudges).calls, UtcDay(w.now)) == DaresSpoken(w.lines, UtcDay(w.now))
  {
    RunInv(ws, es, i);
  }

  // ── verdicts ──

  /** Two calls pending on one band, the older one first. */
  ghost predicate BothPending(calls: seq<Call>, j: int, k: int) {
    && 0 <= j < k < |calls| && calls[j].band == calls[k].band
    && calls[j].verdict == Pending && calls[k].verdict == Pending
  }

  /**
   Of two calls pending on one band the older is one the page was loaded with; and no pending call is
   past its verdict window when a poll has ended.
   */
  lemma {:induction false} AtMostOnePending(ws: seq<World>, es: seq<Event>, i: nat)
    requires IsRun(ws, es) && i < |ws|
    ensures var calls := ws[i].s.calls;
      && (forall j, k :: BothPending(calls, j, k) ==> calls[j].ts <= ws[i].loadedAt)
      && (forall j :: 0 <= j < |calls| && calls[j].verdict == Pending
                      ==> ws[i].now - calls[j].ts < VerdictMs(calls[j].band))
  {
    RunInv(ws, es, i);
    var calls := ws[i].s.calls;
    forall j | 0 <= j < |calls| && calls[j].verdict == Pending
      ensures ws[i].now - calls[j].ts < VerdictMs(calls[j].band)
    {
      assert !Overdue(calls[j], ws[i].now);
    }
  }

  lemma {:induction false} OnlyReloadLoads(w: World, e: Event)
    ensures Apply(w, e).loadedAt == if e.ReloadEvent? then w.now else w.loadedAt
    ensures e.ReloadEvent? ==> Apply(w, e).now == w.now
  {
    hide Poll;
  }

  /** The world in which the page of `ws[i]` was loaded: the first one, or one right after a reload. */
  lemma {:induction false} LoadOf(ws: seq<World>, es: seq<Event>, i: nat) returns (k: nat)
    requires IsRun(ws, es) && i < |ws|
    ensures k <= i && (k == 0 || es[k - 1].ReloadEvent?) && ws[k].now == ws[i].loadedAt
    ensures forall m :: k <= m < i ==> !es[m].ReloadEvent?
  {
    hide *;
    if i == 0 {
      RunStarts(ws, es);
      k := 0;
    } else {
      RunStep(ws, es, i - 1);
      OnlyReloadLoads(ws[i - 1], es[i - 1]);
      if es[i - 1].ReloadEvent? {
        k := i;
      } else {
        k := LoadOf(ws, es, i - 1);
      }
    }
  }

  /** Every call of `b` as old as `t` is one of `a`, and differs only if it was pending there. */
  ghost predicate CallsFrom(a: seq<Call>, b: seq<Call>, t: int) {
    forall j :: 0 <= j < |b| && b[j].ts <= t ==> exists i :: 0 <= i < |a| && Ruled(a[i], b[j])
  }

  lemma {:induction false} CallsFromEvolved(a: seq<Call>, b: seq<Call>, t: int)
    requires Evolved(a, b)
    ensures CallsFrom(a, b, t)
  {
    forall j | 0 <= j < |b| && b[j].ts <= t ensures exists i :: 0 <= i < |a| && Ruled(a[i], b[j]) {
      assert Ruled(a[j], b[j]);
    }
  }

  lemma {:induction false} CallsFromSelf(a: seq<Call>, t: int)
    ensures CallsFrom(a, a, t)
  {
    CallsFromEvolved(a, a, t);
  }

  lemma {:induction false} CallsFromTrans(a: seq<Call>, b: seq<Call>, c: seq<Call>, t: int, u: int)
    requires CallsFrom(a, b, t) && CallsFrom(b, c, u) && t <= u
    ensures CallsFrom(a, c, t)
  {
    forall j | 0 <= j < |c| && c[j].ts <= t ensures exists i :: 0 <= i < |a| && Ruled(a[i], c[j]) {
      var k :| 0 <= k < |b| && Ruled(b[k], c[j]);
      var i :| 0 <= i < |a| && Ruled(a[i], b[k]);
      assert Ruled(a[i], c[j]);
    }
  }

  lemma {:induction false} RecordKeepsVerdicts(calls: seq<Call>, ep: Episode, before: int, now: int)
    requires CallsOk(calls, before) && 0 <= before < now && !ep.band.OtherBand?
    ensures CallsFrom(calls, RecordCall(calls, ep, now), before)
  {
    RecordKeepsCalls(calls, ep, before, now);
    var r := RecordCall(calls, ep, now);
    var d, n := |calls| + 1 - |r|, |r| - 1;
    forall j | 0 <= j < |r| && r[j].ts <= before ensures exists i :: 0 <= i < |calls| && Ruled(calls[i], r[j]) {
      assert r[j] == r[..n][j] == calls[j + d];
      assert Ruled(calls[j + d], r[j]);
    }
  }

  lemma {:induction false} TurnKeepsVerdicts(w: World, u: Turn)
    requires w.now >= 0 && TurnOk(w, u)
    ensures CallsFrom(w.s.calls, u.t.calls, w.now)
  {
    CallsFromEvolved(w.s.calls, u.mid.calls, w.now);
    CallsFromEvolved(u.said.calls, u.t.calls, w.now);
    if u.c.Some? && u.c.value.rung == 0 {
      assert EpOk(u.c.value.ep.band, u.c.value.ep, u.now);
      RecordKeepsVerdicts(u.mid.calls, u.c.value.ep, w.now, u.now);
    } else {
      assert u.said.calls == u.mid.calls;
      CallsFromEvolved(u.mid.calls, u.said.calls, w.now);
    }
    CallsFromTrans(w.s.calls, u.mid.calls, u.said.calls, w.now, w.now);
    CallsFromTrans(w.s.calls, u.said.calls, u.t.calls, w.now, w.now);
  }

  lemma {:induction false} EventKeepsVerdicts(w: World, e: Event)
    requires Inv(w) && CanHappen(w, e)
    ensures CallsFrom(w.s.calls, Apply(w, e).s.calls, w.now) && w.now <= Apply(w, e).now
  {
    match e
    case PollEvent(inp, order) =>
      PollWorld(w, inp, order);
      TurnKeepsVerdicts(w, TurnOf(w, inp, order));
    case AnswerEvent(b) =>
      if b in w.s.episodes {
        AnswerShape(w.s, b, w.now, w.loadedAt);
        CallsFromEvolved(w.s.calls, AnswerEpisode(w.s, b).calls, w.now);
      }
    case ResyncEvent(order) =>
      ResyncEmpties(w.s, order);
      CallsFromEvolved(w.s.calls, ResyncInPlace(w.s, order).calls, w.now);
    case ReloadEvent =>
      CallsFromEvolved(w.s.calls, w.s.calls, w.now);
  }

  /** A verdict is final: however the run goes on, a decided call keeps its verdict while it is kept at all. */
  lemma {:induction false} VerdictsAreFinal(ws: seq<World>, es: seq<Event>, i: nat, j: nat)
    requires IsRun(ws, es) && i <= j < |ws|
    ensures CallsFrom(ws[i].s.calls, ws[j].s.calls, ws[i].now) && ws[i].now <= ws[j].now
  {
    hide *;
    if i == j {
      CallsFromSelf(ws[i].s.calls, ws[i].now);
    } else {
      VerdictsAreFinal(ws, es, i, j - 1);
      RunInv(ws, es, j - 1);
      RunStep(ws, es, j - 1);
      EventKeepsVerdicts(ws[j - 1], es[j - 1]);
      CallsFromTrans(ws[i].s.calls, ws[j - 1].s.calls, ws[j].s.calls, ws[i].now, ws[j - 1].now);
    }
  }

  /** The older of two calls pending on one band has been stored, and pending, ever since the page was loaded. */
  lemma {:induction false} OlderPendingSinceLoad(ws: seq<World>, es: seq<Event>, m: nat, i: nat)
    requires IsRun(ws, es) && m <= i < |ws| && ws[i].loadedAt <= ws[m].now
    ensures var calls := ws[i].s.calls;
      forall j, k :: BothPending(calls, j, k) ==> calls[j] in ws[m].s.calls
  {
    AtMostOnePending(ws, es, i);
    VerdictsAreFinal(ws, es, m, i);
    var before, calls := ws[m].s.calls, ws[i].s.calls;
    forall j, k | BothPending(calls, j, k) ensures calls[j] in before {
      var a :| 0 <= a < |before| && Ruled(before[a], calls[j]);
      assert before[a] == calls[j];
    }
  }

  predicate NonePendingOn(calls: seq<Call>, b: Band) {
    forall i :: 0 <= i < |calls| && calls[i].band == b ==> calls[i].verdict != Pending
  }

  /** From a moment of the page on at which nothing is pending on a band, at most one call is. */
  lemma {:induction false} OnePendingOnceQuiet(ws: seq<World>, es: seq<Event>, m: nat, i: nat, b: Band)
    requires IsRun(ws, es) && m <= i < |ws| && ws[i].loadedAt <= ws[m].now
    requires NonePendingOn(ws[m].s.calls, b)
    ensures forall j, k :: BothPending(ws[i].s.calls, j, k) ==> ws[i].s.calls[j].band != b
  {
    OlderPendingSinceLoad(ws, es, m, i);
  }

  // ── the ladder ──

  lemma {:induction false} LadderForms(r: seq<int>)
    requires IsLadder(r)
    ensures r in {[], [0], [0, 1], [0, 1, 2]}
  {
    assert [0, 1, 2][..0] == [] && [0, 1, 2][..1] == [0] && [0, 1, 2][..2] == [0, 1] && [0, 1, 2][..3] == [0, 1, 2];
  }

  /** The dares of one episode are rungs 0, 1, 2 in order, each at most once, through fades and merges. */
  lemma {:induction false} OneLadderPerEpisode(ws: seq<World>, es: seq<Event>, i: nat, id: EpId)
    requires IsRun(ws, es) && i < |ws|
    ensures RungsOf(ws[i].lines, id) in {[], [0], [0, 1], [0, 1, 2]}
  {
    RunInv(ws, es, i);
    assert IsLadder(RungsOf(ws[i].lines, id));
    LadderForms(RungsOf(ws[i].lines, id));
  }

  /** No dare is early: its rung's observed time had passed, and so had the confirming polls. */
  lemma {:induction false} NoDareIsEarly(ws: seq<World>, es: seq<Event>, i: nat, k: nat)
    requires IsRun(ws, es) && i < |ws| && k < |ws[i].lines| && ws[i].lines[k].line.what == DareLine
    ensures var l := ws[i].lines[k];
      && 0 <= l.line.rung <= MAX_LIVE_RUNG
      && RungsMs(l.line.band)[l.line.rung] <= l.line.observedMs <= l.at - l.line.opening
      && (ConfirmPolls(l.line.band) - 1) * MIN_SIGHTING_GAP_MS <= l.at - l.line.opening
  {
    RunInv(ws, es, i);
    assert DareTimed(ws[i].lines[k]);
  }

  // ── spacing ──

  /** A poll speaks at most one line, and none when it is a quiet tick. */
  lemma {:induction false} OneLinePerPoll(s: State, inp: Input, order: seq<Band>)
    ensures |Poll(s, inp, order).speech| <= 1
    ensures Silent(s, inp) ==> Poll(s, inp, order).speech == []
  {
    WhatIsSaid(s, inp, order);
  }

  /**
   Two consecutive lines of one page are five minutes apart unless the later is the next rung of the
   band that spoke last. A line that is not a rung escalation also keeps that distance from every
   earlier dare on a new episode, across reloads.
   */
  lemma {:induction false} LinesAreSpaced(ws: seq<World>, es: seq<Event>, i: nat)
    requires IsRun(ws, es) && i < |ws|
    ensures SpacedOut(ws[i].lines)
  {
    RunInv(ws, es, i);
  }

  // ── grudges ──

  /** No episode is held against the operator twice, and only after its rung-1 dare. */
  lemma {:induction false} OneGrudgePerEpisode(ws: seq<World>, es: seq<Event>, i: nat)
    requires IsRun(ws, es) && i < |ws|
    ensures OncePerEpisode(ws[i].grudges) && AllClimbed(ws[i].grudges, ws[i].lines)
  {
    RunInv(ws, es, i);
  }

  function RungOneDares(lines: seq<Spoken>): nat {
    if lines == [] then 0
    else
      var l := lines[|lines| - 1].line;
      RungOneDares(lines[..|lines| - 1]) + (if l.what == DareLine && l.rung == 1 then 1 else 0)
  }

  /** The episodes whose rung-1 dare was spoken. */
  function RungOneIds(lines: seq<Spoken>): set<EpId> {
    if lines == [] then {}
    else
      var l := lines[|lines| - 1].line;
      RungOneIds(lines[..|lines| - 1])
      + (if l.what == DareLine && l.rung == 1 then {EpId(l.band, l.opening)} else {})
  }

  lemma {:induction false} RungOneIdsBounded(lines: seq<Spoken>)
    ensures |RungOneIds(lines)| <= RungOneDares(lines)
  {
    if lines != [] {
      RungOneIdsBounded(lines[..|lines| - 1]);
    }
  }

  lemma {:induction false} RungOneIdsComplete(lines: seq<Spoken>, id: EpId)
    requires 1 in RungsOf(lines, id)
    ensures id in RungOneIds(lines)
  {
    var l := lines[|lines| - 1].line;
    if 1 in RungsOf(lines[..|lines| - 1], id) {
      RungOneIdsComplete(lines[..|lines| - 1], id);
    }
  }

  function GrudgeIds(gs: seq<Grudge>): set<EpId> {
    set i | 0 <= i < |gs| :: GrudgeId(gs[i])
  }

  lemma {:induction false} DistinctGrudges(gs: seq<Grudge>)
    requires OncePerEpisode(gs)
    ensures |GrudgeIds(gs)| == |gs|
  {
    if gs != [] {
      var n := |gs| - 1;
      DistinctGrudges(gs[..n]);
      assert GrudgeIds(gs) == GrudgeIds(gs[..n]) + {GrudgeId(gs[n])};
    } else {
      assert GrudgeIds(gs) == {};
    }
  }

  lemma {:induction false} SubsetSize<T>(a: set<T>, b: set<T>)
    requires a <= b
    ensures |a| <= |b|
  {
    assert b == a + (b - a);
  }

  lemma {:induction false} GrudgesClimbed(gs: seq<Grudge>, lines: seq<Spoken>)
    requires AllClimbed(gs, lines)
    ensures GrudgeIds(gs) <= RungOneIds(lines)
  {
    forall id | id in GrudgeIds(gs) ensures id in RungOneIds(lines) {
      RungOneIdsComplete(lines, id);
    }
  }

  lemma {:induction false} CountGrudges(gs: seq<Grudge>, lines: seq<Spoken>)
    requires OncePerEpisode(gs) && AllClimbed(gs, lines)
    ensures |gs| <= RungOneDares(lines)
  {
    DistinctGrudges(gs);
    GrudgesClimbed(gs, lines);
    SubsetSize(GrudgeIds(gs), RungOneIds(lines));
    RungOneIdsBounded(lines);
  }

  /** All grudges ever added are paid for by rung-1 dares. */
  lemma {:induction false} GrudgesWithinRungOneDares(ws: seq<World>, es: seq<Event>, i: nat)
    requires IsRun(ws, es) && i < |ws|
    ensures |ws[i].grudges| <= RungOneDares(ws[i].lines)
  {
    OneGrudgePerEpisode(ws, es, i);
    CountGrudges(ws[i].grudges, ws[i].lines);
  }

  /** The episode is answered or over, and no grudge is held for it. */
  ghost predicate Forgiven(w: World, id: EpId) {
    Settled(w.s, id, w.now + 1) && !Grudged(w.grudges, id)
  }

  lemma {:induction false} PollSettles(w: World, inp: Input, order: seq<Band>, id: EpId)
    requires Inv(w) && inp.now > w.now && Settled(w.s, id, inp.now)
    ensures var p := InsidePoll(w.s, inp, order); Settled(p.w.s, id, inp.now) && !Grudged(p.w.added, id)
  {
    var p := InsidePoll(w.s, inp, order);
    BeginKeeps(w.s, inp, order, w.now);
    BeginSettles(w.s, inp, order, id, w.now);
    ObserveSettles(p.b, order, inp, id);
  }

  lemma {:induction false} PollForgives(w: World, inp: Input, order: seq<Band>, id: EpId)
    requires Inv(w) && inp.now > w.now && Forgiven(w, id)
    ensures Forgiven(Apply(w, PollEvent(inp, order)), id)
  {
    hide EpsOk;
    hide CallsOk;
    hide LogOk;
    hide AllLadders;
    hide GrudgesOk;
    hide Ledger;
    hide BudgetOk;
    hide CapsOk;
    hide SpacedOut;
    hide Remembers;
    hide NoneOverdue;
    hide PendingTracked;
    hide OnePending;
    hide Evolved;
    PollSettles(w, inp, order, id);
    PollWorld(w, inp, order);
    TurnContinues(TurnOf(w, inp, order));
  }

  lemma {:induction false} EventForgives(w: World, e: Event, id: EpId)
    requires Inv(w) && CanHappen(w, e) && Forgiven(w, id)
    ensures Forgiven(Apply(w, e), id)
  {
    hide EpsOk;
    hide CallsOk;
    hide LogOk;
    hide AllLadders;
    hide LadderedLive;
    hide GrudgesOk;
    hide Ledger;
    hide BudgetOk;
    hide CapsOk;
    hide SpacedOut;
    hide Remembers;
    hide NoneOverdue;
    hide PendingTracked;
    hide OnePending;
    hide Evolved;
    hide Poll;
    match e
    case PollEvent(inp, order) => PollForgives(w, inp, order, id);
    case AnswerEvent(b) => if b in w.s.episodes { AnswerShape(w.s, b, w.now, w.loadedAt); }
    case ResyncEvent(order) => ResyncEmpties(w.s, order);
    case ReloadEvent =>
  }

  /** The band's episode, live or just ended, is the one named; it was answered, and no grudge is held for it. */
  ghost predicate AnsweredInTime(w: World, id: EpId) {
    && LiveAt(w.s, id.band).Some? && LiveAt(w.s, id.band).value.firstSeenAt == id.opening
    && LiveAt(w.s, id.band).value.answered && !Grudged(w.grudges, id)
  }

  lemma {:induction false} AnsweredIsForgiven(w: World, id: EpId)
    requires Inv(w) && AnsweredInTime(w, id)
    ensures Forgiven(w, id)
  {
  }

  /** An episode answered before it was held against the operator never is, however the run goes on. */
  lemma {:induction false} AnsweredMeansForgiven(ws: seq<World>, es: seq<Event>, i: nat, j: nat, id: EpId)
    requires IsRun(ws, es) && i <= j < |ws| && AnsweredInTime(ws[i], id)
    ensures Forgiven(ws[j], id)
  {
    hide *;
    if i == j {
      RunInv(ws, es, i);
      AnsweredIsForgiven(ws[i], id);
    } else {
      AnsweredMeansForgiven(ws, es, i, j - 1, id);
      RunInv(ws, es, j - 1);
      RunStep(ws, es, j - 1);
      EventForgives(ws[j - 1], es[j - 1], id);
    }
  }
}
