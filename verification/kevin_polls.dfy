/**
 What a whole poll keeps. A log of the spoken lines and of the grudges added lies beside the state;
 the lemmas here relate the state to that log across one poll.
 */
module KevinPolls {
  import opened Basics
  import opened KevinState
  import opened KevinReduce
  import opened KevinSteps
  import opened KevinPending

  datatype Spoken = Spoken(at: int, session: nat, line: Speech)

  /** An episode for life: fades and merges keep the time it was first seen. */
  datatype EpId = EpId(band: Band, opening: int)

  /** The rungs of the dares spoken for one episode, in order. */
  function RungsOf(lines: seq<Spoken>, id: EpId): seq<int> {
    if lines == [] then []
    else
      var l := lines[|lines| - 1].line;
      var rest := RungsOf(lines[..|lines| - 1], id);
      if l.what == DareLine && l.band == id.band && l.opening == id.opening then rest + [l.rung] else rest
  }

  function Ladder(rung: int): seq<int>
    requires -1 <= rung <= MAX_LIVE_RUNG
  {
    [0, 1, 2][..rung + 1]
  }

  /** Each live episode has spoken exactly the rungs up to its own. */
  ghost predicate LadderedLive(s: State, lines: seq<Spoken>) {
    forall b :: LiveAt(s, b).Some? ==>
      var e := LiveAt(s, b).value;
      -1 <= e.rung <= MAX_LIVE_RUNG && RungsOf(lines, EpId(b, e.firstSeenAt)) == Ladder(e.rung)
  }

  /** No line is about an episode first seen at `now` or later. */
  ghost predicate NoneFrom(lines: seq<Spoken>, now: int) {
    forall i :: 0 <= i < |lines| && lines[i].line.what == DareLine ==> lines[i].line.opening < now
  }

  lemma {:induction false} NoneFromNow(lines: seq<Spoken>, now: int, id: EpId)
    requires NoneFrom(lines, now) && id.opening >= now
    ensures RungsOf(lines, id) == []
  {
    if lines != [] {
      assert lines[|lines| - 1].line.what == DareLine ==> lines[|lines| - 1].line.opening < now;
      NoneFromNow(lines[..|lines| - 1], now, id);
    }
  }

  lemma {:induction false} LaddersContinue(s: State, t: State, lines: seq<Spoken>, now: int)
    requires LadderedLive(s, lines) && LiveFrom(s, t, now) && NoneFrom(lines, now)
    ensures LadderedLive(t, lines)
  {
    forall b | LiveAt(t, b).Some?
      ensures var e := LiveAt(t, b).value;
        -1 <= e.rung <= MAX_LIVE_RUNG && RungsOf(lines, EpId(b, e.firstSeenAt)) == Ladder(e.rung)
    {
      if Fresh(LiveAt(t, b).value, now) {
        NoneFromNow(lines, now, EpId(b, now));
      }
    }
  }

  // ── what the sweeps keep ──

  ghost predicate SameBudget(s: State, t: State) {
    t.lastSpokeAt == s.lastSpokeAt && t.lastSpokeBand == s.lastSpokeBand
    && t.day == s.day && t.dareCount == s.dareCount && t.lastPollAt == s.lastPollAt
  }

  ghost predicate Kept(s: State, t: State, now: int) {
    EpsOk(t, now) && LiveFrom(s, t, now) && Evolved(s.calls, t.calls) && SameBudget(s, t)
  }

  lemma {:induction false} KeptTrans(s: State, t: State, u: State, now: int)
    requires Kept(s, t, now) && Kept(t, u, now)
    ensures Kept(s, u, now)
  {
    EvolvedTrans(s.calls, t.calls, u.calls);
  }

  lemma {:induction false} SweepKeeps(phase: Phase, w: Work, order: seq<Band>, inp: Input, recs: map<Band, Rec>)
    requires EpsOk(w.s, inp.now) && inp.now > 0
    requires RecsInScope(recs)
    ensures Kept(w.s, Sweep(phase, w, order, inp, recs).s, inp.now)
  {
    if order != [] {
      var n := |order| - 1;
      var mid := Sweep(phase, w, order[..n], inp, recs);
      SweepKeeps(phase, w, order[..n], inp, recs);
      assert SlotOk(mid.s, order[n], inp.now);
      StepIsOk(phase, mid, order[n], inp, recs);
      var next := Step(phase, mid, order[n], inp, recs);
      StepOkLifts(mid.s, next.s, order[n], inp.now);
      KeptTrans(w.s, mid.s, next.s, inp.now);
    }
  }

  lemma {:induction false} SweepTracks(
    phase: Phase, w: Work, order: seq<Band>, inp: Input, recs: map<Band, Rec>, since: int)
    requires EpsOk(w.s, inp.now) && CallsOk(w.s.calls, inp.now) && PendingTracked(w.s, inp.now, since) && inp.now > 0
    requires RecsInScope(recs)
    ensures PendingTracked(Sweep(phase, w, order, inp, recs).s, inp.now, since)
  {
    if order != [] {
      var n := |order| - 1;
      var mid := Sweep(phase, w, order[..n], inp, recs);
      SweepTracks(phase, w, order[..n], inp, recs, since);
      SweepKeeps(phase, w, order[..n], inp, recs);
      EvolvedKeepsCalls(w.s.calls, mid.s.calls, inp.now);
      StepTracks(phase, mid, order[n], inp, recs, since);
    }
  }

  // ── grudges ──

  function GrudgeId(g: Grudge): EpId { EpId(g.band, g.firstSeenAt) }

  ghost predicate Grudged(gs: seq<Grudge>, id: EpId) {
    exists i :: 0 <= i < |gs| && GrudgeId(gs[i]) == id
  }

  /** The grudges are about distinct episodes. */
  ghost predicate OncePerEpisode(gs: seq<Grudge>) {
    forall i, j :: 0 <= i < j < |gs| ==> GrudgeId(gs[i]) != GrudgeId(gs[j])
  }

  /** Every grudge is about an episode that had its rung-1 dare spoken. */
  ghost predicate AllClimbed(gs: seq<Grudge>, lines: seq<Spoken>) {
    forall i :: 0 <= i < |gs| ==> 1 in RungsOf(lines, GrudgeId(gs[i]))
  }

  /** ... and a live episode not marked as grudged has none. */
  ghost predicate GrudgesOk(gs: seq<Grudge>, s: State, lines: seq<Spoken>) {
    && OncePerEpisode(gs) && AllClimbed(gs, lines)
    && (forall b :: LiveAt(s, b).Some? && !LiveAt(s, b).value.grudged
                    ==> !Grudged(gs, EpId(b, LiveAt(s, b).value.firstSeenAt)))
  }

  // ── the stored grudges ──

  /** Grudges in the order in which their episodes faded, none later than `now`. */
  ghost predicate Dated(gs: seq<Grudge>, now: int) {
    && (forall i :: 0 <= i < |gs| ==> gs[i].fadedAt <= now)
    && (forall i, j :: 0 <= i < j < |gs| ==> gs[i].fadedAt <= gs[j].fadedAt)
  }

  /**
   `held` is the last at most sixty of those of `all` that were under seven days old when the last one
   was added: a last part of `all` that reaches back to the cap or to the seven days.
   */
  ghost predicate HeldOf(held: seq<Grudge>, all: seq<Grudge>) {
    var d := |all| - |held|;
    && |held| <= 60 && d >= 0 && held == all[d..]
    && (all != [] ==>
          var last := all[|all| - 1].fadedAt;
          && held != []
          && (forall g :: g in held ==> last - g.fadedAt < 604_800_000)
          && (d > 0 ==> |held| == 60 || last - all[d - 1].fadedAt >= 604_800_000))
  }

  /** The state holds the grudges it should, of all that were ever added. */
  ghost predicate Ledger(s: State, gs: seq<Grudge>, now: int) { Dated(gs, now) && HeldOf(s.grudges, gs) }

  /** `kept` is what of `gs` is under seven days old. */
  ghost predicate Unforgotten(gs: seq<Grudge>, kept: seq<Grudge>, now: int) {
    var d := |gs| - |kept|;
    && d >= 0 && kept == gs[d..]
    && (forall g :: g in kept ==> now - g.fadedAt < GRUDGE_WINDOW_MS)
    && (d > 0 ==> now - gs[d - 1].fadedAt >= GRUDGE_WINDOW_MS)
  }

  lemma {:induction false} RecentLast(gs: seq<Grudge>, rest: seq<Grudge>, now: int)
    requires gs != [] && Unforgotten(gs[..|gs| - 1], rest, now) && now - gs[|gs| - 1].fadedAt < GRUDGE_WINDOW_MS
    ensures Unforgotten(gs, rest + [gs[|gs| - 1]], now)
  {
    var n := |gs| - 1;
    assert gs[..n][n - |rest|..] + [gs[n]] == gs[n - |rest|..];
  }

  /** With the last grudge too old, all are. */
  lemma {:induction false} OldLast(gs: seq<Grudge>, rest: seq<Grudge>, now: int)
    requires gs != [] && Dated(gs, now)
    requires Unforgotten(gs[..|gs| - 1], rest, now) && now - gs[|gs| - 1].fadedAt >= GRUDGE_WINDOW_MS
    ensures rest == [] && Unforgotten(gs, [], now)
  {
    var n := |gs| - 1;
    assert n > 0 ==> gs[n].fadedAt >= gs[n - 1].fadedAt;
    assert rest != [] ==> rest[|rest| - 1] == gs[n - 1];
  }

  lemma {:induction false} KeptGrudges(gs: seq<Grudge>, now: int)
    requires Dated(gs, now)
    ensures Unforgotten(gs, KeepRecent(gs, now), now)
  {
    if gs != [] {
      var n := |gs| - 1;
      KeptGrudges(gs[..n], now);
      hide Unforgotten;
      if now - gs[n].fadedAt < GRUDGE_WINDOW_MS {
        RecentLast(gs, KeepRecent(gs[..n], now), now);
      } else {
        OldLast(gs, KeepRecent(gs[..n], now), now);
      }
    }
  }

  lemma {:induction false} DatedGrows(gs: seq<Grudge>, g: Grudge, now: int)
    requires Dated(gs, now) && g.fadedAt == now
    ensures Dated(gs + [g], now)
  {
  }

  lemma {:induction false} DatedSuffix(gs: seq<Grudge>, d: nat, now: int)
    requires Dated(gs, now) && d <= |gs|
    ensures Dated(gs[d..], now)
  {
  }

  /** `kept` is a last part of `more`, all of it recent, which ends at the cap or before an old one. */
  ghost predicate LastRecent(more: seq<Grudge>, kept: seq<Grudge>, now: int) {
    var e := |more| - |kept|;
    && e >= 0 && kept == more[e..] && kept != []
    && (forall g :: g in kept ==> now - g.fadedAt < GRUDGE_WINDOW_MS)
    && (e > 0 && |kept| < MAX_GRUDGES ==> now - more[e - 1].fadedAt >= GRUDGE_WINDOW_MS)
  }

  /** The newest grudge no longer held is too old by now, or there are sixty newer ones. */
  lemma {:induction false} DroppedIsOld(held: seq<Grudge>, all: seq<Grudge>, now: int)
    requires HeldOf(held, all) && Dated(all, now) && |held| < |all|
    ensures |held| == MAX_GRUDGES || now - all[|all| - |held| - 1].fadedAt >= GRUDGE_WINDOW_MS
  {
  }

  /** What is kept of a last part is a last part of the whole. */
  lemma {:induction false} KeptOfSuffix(more: seq<Grudge>, d: nat, kept: seq<Grudge>, now: int)
    requires d <= |more| && Unforgotten(more[d..], kept, now)
    ensures var e := |more| - |kept|;
      && d <= e && kept == more[e..]
      && (forall g :: g in kept ==> now - g.fadedAt < GRUDGE_WINDOW_MS)
      && (e > d ==> now - more[e - 1].fadedAt >= GRUDGE_WINDOW_MS)
  {
    var c := |more[d..]| - |kept|;
    assert more[d..][c..] == more[d + c..];
  }

  lemma {:induction false} KeptNotEmpty(held: seq<Grudge>, g: Grudge, kept: seq<Grudge>, now: int)
    requires g.fadedAt == now && Unforgotten(held + [g], kept, now)
    ensures kept != []
  {
    assert (held + [g])[|held|] == g;
  }

  lemma {:induction false} SuffixPlus(all: seq<Grudge>, d: nat, g: Grudge)
    requires d <= |all|
    ensures all[d..] + [g] == (all + [g])[d..]
  {
  }

  lemma {:induction false} ReachesBack(more: seq<Grudge>, kept: seq<Grudge>, d: nat, now: int)
    requires kept != [] && d <= |more| - |kept| && kept == more[|more| - |kept|..]
    requires forall g :: g in kept ==> now - g.fadedAt < GRUDGE_WINDOW_MS
    requires |more| - |kept| > d ==> now - more[|more| - |kept| - 1].fadedAt >= GRUDGE_WINDOW_MS
    requires |more| - d == MAX_GRUDGES + 1 || d == 0 || now - more[d - 1].fadedAt >= GRUDGE_WINDOW_MS
    ensures LastRecent(more, kept, now)
  {
  }

  /** What is kept of the held ones and one more, as a last part of all. */
  lemma {:induction false} KeptOfAll(held: seq<Grudge>, all: seq<Grudge>, kept: seq<Grudge>, g: Grudge, now: int)
    requires |held| <= |all| && held == all[|all| - |held|..]
    requires g.fadedAt == now && Unforgotten(held + [g], kept, now)
    requires |held| == MAX_GRUDGES || |held| == |all| || now - all[|all| - |held| - 1].fadedAt >= GRUDGE_WINDOW_MS
    ensures LastRecent(all + [g], kept, now)
  {
    hide Unforgotten;
    hide LastRecent;
    var more, d := all + [g], |all| - |held|;
    KeptNotEmpty(held, g, kept, now);
    SuffixPlus(all, d, g);
    KeptOfSuffix(more, d, kept, now);
    assert d > 0 ==> more[d - 1] == all[d - 1];
    ReachesBack(more, kept, d, now);
  }

  /** The cut to the last sixty of it. */
  lemma {:induction false} CutHeld(more: seq<Grudge>, kept: seq<Grudge>, now: int)
    requires more != [] && more[|more| - 1].fadedAt == now && LastRecent(more, kept, now)
    ensures HeldOf(LastN(kept, MAX_GRUDGES), more)
  {
    if |kept| > MAX_GRUDGES {
      var e, c := |more| - |kept|, |kept| - MAX_GRUDGES;
      assert more[e..][c..] == more[e + c..];
      assert kept[c..] == more[|more| - MAX_GRUDGES..];
    }
  }

  lemma {:induction false} HeldIsSuffix(held: seq<Grudge>, all: seq<Grudge>)
    requires HeldOf(held, all)
    ensures |held| <= |all| && held == all[|all| - |held|..]
  {
  }

  lemma {:induction false} HeldAfter(held: seq<Grudge>, all: seq<Grudge>, kept: seq<Grudge>, g: Grudge, now: int)
    requires HeldOf(held, all) && Dated(all, now) && g.fadedAt == now && Unforgotten(held + [g], kept, now)
    ensures HeldOf(LastN(kept, MAX_GRUDGES), all + [g])
  {
    hide HeldOf;
    hide Dated;
    hide Unforgotten;
    hide LastRecent;
    HeldIsSuffix(held, all);
    if |held| < |all| {
      DroppedIsOld(held, all, now);
    }
    KeptOfAll(held, all, kept, g, now);
    CutHeld(all + [g], kept, now);
  }

  lemma {:induction false} HeldGrows(s: State, all: seq<Grudge>, g: Grudge, now: int)
    requires Ledger(s, all, now) && g.fadedAt == now
    ensures Ledger(AddGrudge(s, g, now), all + [g], now)
  {
    hide HeldOf;
    hide Dated;
    hide Unforgotten;
    hide KeepRecent;
    hide LastN;
    HeldIsSuffix(s.grudges, all);
    DatedSuffix(all, |all| - |s.grudges|, now);
    DatedGrows(s.grudges, g, now);
    DatedGrows(all, g, now);
    KeptGrudges(s.grudges + [g], now);
    HeldAfter(s.grudges, all, KeepRecent(s.grudges + [g], now), g, now);
  }

  /** How a step can add a grudge. */
  ghost predicate AddsFor(w: Work, v: Work, b: Band, now: int) {
    || (v.added == w.added && v.s.grudges == w.s.grudges)
    || (b in w.s.episodes && EarnsGrudge(w.s.episodes[b])
        && v.added == w.added + [GrudgeFor(w.s.episodes[b], now)]
        && v.s.grudges == AddGrudge(w.s, GrudgeFor(w.s.episodes[b], now), now).grudges
        && LiveAt(v.s, b).Some? && LiveAt(v.s, b).value.firstSeenAt == w.s.episodes[b].firstSeenAt
        && LiveAt(v.s, b).value.grudged)
  }

  lemma {:induction false} FadeAdds(w: Work, b: Band, now: int)
    requires b in w.s.episodes
    ensures AddsFor(w, FadeStep(w, b, now), b, now)
  {
    hide KeepRecent;
    hide CooldownMs;
  }

  lemma {:induction false} AbsentAdds(w: Work, b: Band, inp: Input)
    requires b in w.s.episodes
    ensures AddsFor(w, SeeAbsentStep(w, b, inp), b, inp.now)
  {
    hide FadeStep;
    hide Accrue;
    hide CountSighting;
    hide IsHoldingOpen;
    FadeAdds(w, b, inp.now);
  }

  lemma {:induction false} PresentAdds(s: State, b: Band, rec: Rec, inp: Input)
    ensures SeePresentStep(s, b, rec, inp).grudges == s.grudges
  {
    hide Accrue;
    hide CountSighting;
    hide Sight;
    hide Confirm;
    hide Gated;
    hide Decide;
  }

  lemma {:induction false} StepAdds(phase: Phase, w: Work, b: Band, inp: Input, recs: map<Band, Rec>)
    ensures AddsFor(w, Step(phase, w, b, inp, recs), b, inp.now)
  {
    hide SeeAbsentStep;
    hide SeePresentStep;
    hide AddGrudge;
    hide Gated;
    hide Allowed;
    hide Decide;
    match phase
    case SeePresent => if b in recs { PresentAdds(w.s, b, recs[b], inp); }
    case SeeAbsent => if b in w.s.episodes && b !in recs { AbsentAdds(w, b, inp); }
    case _ =>
  }

  lemma {:induction false} StepGoesOn(phase: Phase, w: Work, b: Band, inp: Input, recs: map<Band, Rec>)
    requires EpsOk(w.s, inp.now) && inp.now > 0
    requires RecsInScope(recs)
    ensures var v := Step(phase, w, b, inp, recs);
      EpsOk(v.s, inp.now) && LiveFrom(w.s, v.s, inp.now) && AddsFor(w, v, b, inp.now)
  {
    assert SlotOk(w.s, b, inp.now);
    StepIsOk(phase, w, b, inp, recs);
    StepOkLifts(w.s, Step(phase, w, b, inp, recs).s, b, inp.now);
    StepAdds(phase, w, b, inp, recs);
  }

  lemma {:induction false} StepKeepsGrudges(gs: seq<Grudge>, w: Work, v: Work, b: Band, lines: seq<Spoken>, now: int)
    requires EpsOk(w.s, now) && LiveFrom(w.s, v.s, now) && AddsFor(w, v, b, now)
    requires GrudgesOk(gs + w.added, w.s, lines) && LadderedLive(w.s, lines) && NoneFrom(lines, now)
    ensures GrudgesOk(gs + v.added, v.s, lines)
  {
    var old_ := gs + w.added;
    var new_ := gs + v.added;
    forall x | LiveAt(v.s, x).Some? && !LiveAt(v.s, x).value.grudged
      ensures !Grudged(old_, EpId(x, LiveAt(v.s, x).value.firstSeenAt))
    {
      if Fresh(LiveAt(v.s, x).value, now) {
        NoneFromNow(lines, now, EpId(x, now));
      }
    }
    if v.added != w.added {
      var ep := w.s.episodes[b];
      var g := GrudgeFor(ep, now);
      assert LiveAt(w.s, b) == Some(ep) && ep.band == b;
      assert new_ == old_ + [g];
      assert RungsOf(lines, GrudgeId(g)) == Ladder(ep.rung) && Ladder(ep.rung)[1] == 1;
      assert !Grudged(old_, GrudgeId(g));
    }
  }

  lemma {:induction false} SweepKeepsGrudges(
    phase: Phase, gs: seq<Grudge>, w: Work, order: seq<Band>, inp: Input, recs: map<Band, Rec>, lines: seq<Spoken>)
    requires EpsOk(w.s, inp.now) && inp.now > 0 && LadderedLive(w.s, lines) && NoneFrom(lines, inp.now)
    requires GrudgesOk(gs + w.added, w.s, lines)
    requires RecsInScope(recs)
    ensures var v := Sweep(phase, w, order, inp, recs); GrudgesOk(gs + v.added, v.s, lines)
  {
    if order != [] {
      var n := |order| - 1;
      var mid := Sweep(phase, w, order[..n], inp, recs);
      SweepKeepsGrudges(phase, gs, w, order[..n], inp, recs, lines);
      SweepKeeps(phase, w, order[..n], inp, recs);
      LaddersContinue(w.s, mid.s, lines, inp.now);
      StepGoesOn(phase, mid, order[n], inp, recs);
      StepKeepsGrudges(gs, mid, Step(phase, mid, order[n], inp, recs), order[n], lines, inp.now);
    }
  }

  lemma {:induction false} SweepKeepsLedger(
    phase: Phase, gs: seq<Grudge>, w: Work, order: seq<Band>, inp: Input, recs: map<Band, Rec>)
    requires Ledger(w.s, gs + w.added, inp.now)
    ensures var v := Sweep(phase, w, order, inp, recs); Ledger(v.s, gs + v.added, inp.now)
  {
    hide HeldOf;
    hide Dated;
    hide Step;
    hide AddGrudge;
    if order != [] {
      var n := |order| - 1;
      var mid := Sweep(phase, w, order[..n], inp, recs);
      var v := Step(phase, mid, order[n], inp, recs);
      SweepKeepsLedger(phase, gs, w, order[..n], inp, recs);
      StepAdds(phase, mid, order[n], inp, recs);
      if v.added != mid.added {
        var g := GrudgeFor(mid.s.episodes[order[n]], inp.now);
        HeldGrows(mid.s, gs + mid.added, g, inp.now);
        assert gs + v.added == gs + mid.added + [g];
      }
    }
  }

  // ── an answered episode ──

  /** If episode `id` is still live it has been answered; it is not one of the future. */
  ghost predicate Settled(s: State, id: EpId, now: int) {
    id.opening < now
    && (LiveAt(s, id.band).Some? && LiveAt(s, id.band).value.firstSeenAt == id.opening
        ==> LiveAt(s, id.band).value.answered)
  }

  lemma {:induction false} StepSettles(w: Work, v: Work, b: Band, id: EpId, now: int)
    requires EpsOk(w.s, now) && LiveFrom(w.s, v.s, now) && AddsFor(w, v, b, now)
    requires Settled(w.s, id, now) && !Grudged(w.added, id)
    ensures Settled(v.s, id, now) && !Grudged(v.added, id)
  {
    if v.added != w.added {
      var ep := w.s.episodes[b];
      assert LiveAt(w.s, b) == Some(ep) && ep.band == b;
      assert GrudgeId(GrudgeFor(ep, now)) != id;
    }
  }

  lemma {:induction false} SweepKeepsSettled(
    phase: Phase, w: Work, order: seq<Band>, inp: Input, recs: map<Band, Rec>, id: EpId)
    requires EpsOk(w.s, inp.now) && inp.now > 0 && Settled(w.s, id, inp.now) && !Grudged(w.added, id)
    requires RecsInScope(recs)
    ensures var v := Sweep(phase, w, order, inp, recs); Settled(v.s, id, inp.now) && !Grudged(v.added, id)
  {
    if order != [] {
      var n := |order| - 1;
      var mid := Sweep(phase, w, order[..n], inp, recs);
      SweepKeepsSettled(phase, w, order[..n], inp, recs, id);
      SweepKeeps(phase, w, order[..n], inp, recs);
      StepGoesOn(phase, mid, order[n], inp, recs);
      StepSettles(mid, Step(phase, mid, order[n], inp, recs), order[n], id, inp.now);
    }
  }

  // ── the parts of a poll ──

  lemma {:induction false} EndingCooldownsOnlyCools(s: State, order: seq<Band>)
    ensures var t := EndingCooldowns(s, order); t == s.(cooldownUntil := t.cooldownUntil)
  {
    if order != [] {
      EndingCooldownsOnlyCools(s, order[..|order| - 1]);
    }
  }

  /** A quiet resync leaves no live episode and no pending call. */
  lemma {:induction false} ResyncEmpties(s: State, order: seq<Band>)
    ensures var t := ResyncInPlace(s, order);
      && t.episodes == map[] && t.recent == map[] && Evolved(s.calls, t.calls) && SameBudget(s, t)
      && t.grudges == s.grudges
      && (forall i :: 0 <= i < |t.calls| ==> t.calls[i].verdict != Pending)
  {
    EndingCooldownsOnlyCools(s, order);
    forall i | 0 <= i < |s.calls| ensures Ruled(s.calls[i], VoidIfPending(s.calls[i])) {
    }
  }

  lemma {:induction false} EpsLater(s: State, before: int, now: int)
    requires EpsOk(s, before) && before <= now
    ensures EpsOk(s, now)
  {
    forall b | b in s.episodes ensures EpOk(b, s.episodes[b], now) {
      assert EpOk(b, s.episodes[b], before);
    }
    forall b | b in s.recent ensures RecentOk(b, s.recent[b], now) {
      assert RecentOk(b, s.recent[b], before);
    }
  }

  /** A poll begins by rolling the day and, after a gap or a new area, by forgetting every episode. */
  lemma {:induction false} BeginShape(s: State, inp: Input, order: seq<Band>)
    ensures var t := Begin(s, inp, order);
      && ((t.episodes == map[] && t.recent == map[]
           && (forall i :: 0 <= i < |t.calls| ==> t.calls[i].verdict != Pending))
          || t == s.(day := t.day, dareCount := t.dareCount, ctxKey := t.ctxKey, lastPollAt := t.lastPollAt))
      && Evolved(s.calls, t.calls)
      && t.lastSpokeAt == s.lastSpokeAt && t.lastSpokeBand == s.lastSpokeBand
      && t.day == Some(UtcDay(inp.now))
      && t.dareCount == (if s.day == t.day then s.dareCount else DaresOn(s.calls, UtcDay(inp.now)))
  {
    ResyncEmpties(RollDay(s, inp.now), order);
  }

  lemma {:induction false} BegunKeeps(s: State, t: State, now: int)
    requires EpsOk(s, now)
    requires (t.episodes == map[] && t.recent == map[]) || (t.episodes == s.episodes && t.recent == s.recent)
    ensures EpsOk(t, now) && LiveFrom(s, t, now)
    ensures forall b :: LiveAt(t, b).Some? ==> LiveAt(t, b) == LiveAt(s, b)
  {
  }

  lemma {:induction false} BeginKeeps(s: State, inp: Input, order: seq<Band>, before: int)
    requires EpsOk(s, before) && before < inp.now
    ensures var t := Begin(s, inp, order);
      && EpsOk(t, inp.now) && LiveFrom(s, t, inp.now)
      && (forall b :: LiveAt(t, b).Some? ==> LiveAt(t, b) == LiveAt(s, b))
  {
    EpsLater(s, before, inp.now);
    BeginShape(s, inp, order);
    BegunKeeps(s, Begin(s, inp, order), inp.now);
  }

  lemma {:induction false} TrackedLater(s: State, before: int, now: int, since: int)
    requires PendingTracked(s, before, since) && before <= now
    ensures PendingTracked(s, now, since)
  {
    forall i | 0 <= i < |s.calls| && s.calls[i].verdict == Pending ensures Tracked(s, s.calls[i], now, since) {
      assert Tracked(s, s.calls[i], before, since);
    }
  }

  lemma {:induction false} BeginTracks(s: State, inp: Input, order: seq<Band>, before: int, since: int)
    requires PendingTracked(s, before, since) && before < inp.now
    ensures PendingTracked(Begin(s, inp, order), inp.now, since)
  {
    BeginShape(s, inp, order);
    TrackedLater(s, before, inp.now, since);
    var t := Begin(s, inp, order);
    forall i | 0 <= i < |t.calls| && t.calls[i].verdict == Pending ensures Tracked(t, t.calls[i], inp.now, since) {
      assert Tracked(s, s.calls[i], inp.now, since);
    }
  }

  lemma {:induction false} BeginSettles(s: State, inp: Input, order: seq<Band>, id: EpId, before: int)
    requires EpsOk(s, before) && before < inp.now && Settled(s, id, inp.now)
    ensures Settled(Begin(s, inp, order), id, inp.now)
  {
    BeginKeeps(s, inp, order, before);
  }

  lemma {:induction false} ObserveKeeps(s: State, order: seq<Band>, inp: Input)
    requires EpsOk(s, inp.now) && inp.now > 0
    ensures Kept(s, Observe(s, order, inp).s, inp.now)
  {
    var seen := PresentBands(inp.recs, inp);
    var w0 := Work(s, [], []);
    var w1 := Sweep(LeaveScope, w0, order, inp, seen.recs);
    var w2 := Sweep(ExpireRecent, w1, order, inp, seen.recs);
    var w3 := Sweep(AnswerActive, w2, order, inp, seen.recs);
    var w4 := Sweep(SeePresent, w3, seen.bands, inp, seen.recs);
    var w5 := Sweep(SeeAbsent, w4, order, inp, seen.recs);
    var w6 := Sweep(GateUnspoken, w5, order, inp, seen.recs);
    SweepKeeps(LeaveScope, w0, order, inp, seen.recs);
    SweepKeeps(ExpireRecent, w1, order, inp, seen.recs);
    KeptTrans(s, w1.s, w2.s, inp.now);
    SweepKeeps(AnswerActive, w2, order, inp, seen.recs);
    KeptTrans(s, w2.s, w3.s, inp.now);
    SweepKeeps(SeePresent, w3, seen.bands, inp, seen.recs);
    KeptTrans(s, w3.s, w4.s, inp.now);
    SweepKeeps(SeeAbsent, w4, order, inp, seen.recs);
    KeptTrans(s, w4.s, w5.s, inp.now);
    SweepKeeps(GateUnspoken, w5, order, inp, seen.recs);
    KeptTrans(s, w5.s, w6.s, inp.now);
  }

  lemma {:induction false} SweepKeepsThenTracks(
    phase: Phase, w: Work, order: seq<Band>, inp: Input, recs: map<Band, Rec>, since: int)
    requires EpsOk(w.s, inp.now) && CallsOk(w.s.calls, inp.now) && PendingTracked(w.s, inp.now, since) && inp.now > 0
    requires RecsInScope(recs)
    ensures var v := Sweep(phase, w, order, inp, recs);
      EpsOk(v.s, inp.now) && CallsOk(v.s.calls, inp.now) && PendingTracked(v.s, inp.now, since)
  {
    SweepKeeps(phase, w, order, inp, recs);
    SweepTracks(phase, w, order, inp, recs, since);
    EvolvedKeepsCalls(w.s.calls, Sweep(phase, w, order, inp, recs).s.calls, inp.now);
  }

  lemma {:induction false} ObserveTracks(s: State, order: seq<Band>, inp: Input, since: int)
    requires EpsOk(s, inp.now) && inp.now > 0 && CallsOk(s.calls, inp.now) && PendingTracked(s, inp.now, since)
    ensures PendingTracked(Observe(s, order, inp).s, inp.now, since)
  {
    var seen := PresentBands(inp.recs, inp);
    var w0 := Work(s, [], []);
    var w1 := Sweep(LeaveScope, w0, order, inp, seen.recs);
    var w2 := Sweep(ExpireRecent, w1, order, inp, seen.recs);
    var w3 := Sweep(AnswerActive, w2, order, inp, seen.recs);
    var w4 := Sweep(SeePresent, w3, seen.bands, inp, seen.recs);
    var w5 := Sweep(SeeAbsent, w4, order, inp, seen.recs);
    SweepKeepsThenTracks(LeaveScope, w0, order, inp, seen.recs, since);
    SweepKeepsThenTracks(ExpireRecent, w1, order, inp, seen.recs, since);
    SweepKeepsThenTracks(AnswerActive, w2, order, inp, seen.recs, since);
    SweepKeepsThenTracks(SeePresent, w3, seen.bands, inp, seen.recs, since);
    SweepKeepsThenTracks(SeeAbsent, w4, order, inp, seen.recs, since);
    SweepKeepsThenTracks(GateUnspoken, w5, order, inp, seen.recs, since);
  }

  /** What the grudge bookkeeping needs between two sweeps. */
  ghost predicate GrudgeReady(gs: seq<Grudge>, w: Work, lines: seq<Spoken>, now: int) {
    EpsOk(w.s, now) && LadderedLive(w.s, lines) && GrudgesOk(gs + w.added, w.s, lines)
  }

  lemma {:induction false} SweepKeepsGrudgeReady(
    phase: Phase, gs: seq<Grudge>, w: Work, order: seq<Band>, inp: Input, recs: map<Band, Rec>, lines: seq<Spoken>)
    requires GrudgeReady(gs, w, lines, inp.now) && inp.now > 0 && NoneFrom(lines, inp.now)
    requires RecsInScope(recs)
    ensures GrudgeReady(gs, Sweep(phase, w, order, inp, recs), lines, inp.now)
  {
    SweepKeeps(phase, w, order, inp, recs);
    LaddersContinue(w.s, Sweep(phase, w, order, inp, recs).s, lines, inp.now);
    SweepKeepsGrudges(phase, gs, w, order, inp, recs, lines);
  }

  lemma {:induction false} ObserveKeepsGrudges(
    gs: seq<Grudge>, s: State, order: seq<Band>, inp: Input, lines: seq<Spoken>)
    requires EpsOk(s, inp.now) && inp.now > 0 && LadderedLive(s, lines) && NoneFrom(lines, inp.now)
    requires GrudgesOk(gs, s, lines)
    ensures var w := Observe(s, order, inp); GrudgesOk(gs + w.added, w.s, lines)
  {
    var seen := PresentBands(inp.recs, inp);
    var w0 := Work(s, [], []);
    assert gs + w0.added == gs;
    var w1 := Sweep(LeaveScope, w0, order, inp, seen.recs);
    var w2 := Sweep(ExpireRecent, w1, order, inp, seen.recs);
    var w3 := Sweep(AnswerActive, w2, order, inp, seen.recs);
    var w4 := Sweep(SeePresent, w3, seen.bands, inp, seen.recs);
    var w5 := Sweep(SeeAbsent, w4, order, inp, seen.recs);
    SweepKeepsGrudgeReady(LeaveScope, gs, w0, order, inp, seen.recs, lines);
    SweepKeepsGrudgeReady(ExpireRecent, gs, w1, order, inp, seen.recs, lines);
    SweepKeepsGrudgeReady(AnswerActive, gs, w2, order, inp, seen.recs, lines);
    SweepKeepsGrudgeReady(SeePresent, gs, w3, seen.bands, inp, seen.recs, lines);
    SweepKeepsGrudgeReady(SeeAbsent, gs, w4, order, inp, seen.recs, lines);
    SweepKeepsGrudgeReady(GateUnspoken, gs, w5, order, inp, seen.recs, lines);
  }

  lemma {:induction false} ObserveKeepsLedger(gs: seq<Grudge>, s: State, order: seq<Band>, inp: Input)
    requires Ledger(s, gs, inp.now)
    ensures var w := Observe(s, order, inp); Ledger(w.s, gs + w.added, inp.now)
  {
    hide Ledger;
    hide Sweep;
    hide PresentBands;
    var seen := PresentBands(inp.recs, inp);
    var w0 := Work(s, [], []);
    assert gs + w0.added == gs;
    var w1 := Sweep(LeaveScope, w0, order, inp, seen.recs);
    var w2 := Sweep(ExpireRecent, w1, order, inp, seen.recs);
    var w3 := Sweep(AnswerActive, w2, order, inp, seen.recs);
    var w4 := Sweep(SeePresent, w3, seen.bands, inp, seen.recs);
    var w5 := Sweep(SeeAbsent, w4, order, inp, seen.recs);
    SweepKeepsLedger(LeaveScope, gs, w0, order, inp, seen.recs);
    SweepKeepsLedger(ExpireRecent, gs, w1, order, inp, seen.recs);
    SweepKeepsLedger(AnswerActive, gs, w2, order, inp, seen.recs);
    SweepKeepsLedger(SeePresent, gs, w3, seen.bands, inp, seen.recs);
    SweepKeepsLedger(SeeAbsent, gs, w4, order, inp, seen.recs);
    SweepKeepsLedger(GateUnspoken, gs, w5, order, inp, seen.recs);
  }

  lemma {:induction false} BeginKeepsLedger(gs: seq<Grudge>, s: State, inp: Input, order: seq<Band>, before: int)
    requires Ledger(s, gs, before) && before <= inp.now
    ensures Ledger(Begin(s, inp, order), gs, inp.now)
  {
    hide HeldOf;
    hide DaresOn;
    hide VoidPending;
    hide UtcDay;
    EndingCooldownsOnlyCools(RollDay(s, inp.now), order);
  }

  /** Sweeping keeps an answered episode answered and adds no grudge for it. */
  ghost predicate SettledWork(w: Work, id: EpId, now: int) {
    EpsOk(w.s, now) && Settled(w.s, id, now) && !Grudged(w.added, id)
  }

  lemma {:induction false} SweepKeepsSettledWork(
    phase: Phase, w: Work, order: seq<Band>, inp: Input, recs: map<Band, Rec>, id: EpId)
    requires SettledWork(w, id, inp.now) && inp.now > 0
    requires RecsInScope(recs)
    ensures SettledWork(Sweep(phase, w, order, inp, recs), id, inp.now)
  {
    SweepKeeps(phase, w, order, inp, recs);
    SweepKeepsSettled(phase, w, order, inp, recs, id);
  }

  lemma {:induction false} ObserveSettles(s: State, order: seq<Band>, inp: Input, id: EpId)
    requires EpsOk(s, inp.now) && inp.now > 0 && Settled(s, id, inp.now)
    ensures SettledWork(Observe(s, order, inp), id, inp.now)
  {
    var seen := PresentBands(inp.recs, inp);
    var w0 := Work(s, [], []);
    var w1 := Sweep(LeaveScope, w0, order, inp, seen.recs);
    var w2 := Sweep(ExpireRecent, w1, order, inp, seen.recs);
    var w3 := Sweep(AnswerActive, w2, order, inp, seen.recs);
    var w4 := Sweep(SeePresent, w3, seen.bands, inp, seen.recs);
    var w5 := Sweep(SeeAbsent, w4, order, inp, seen.recs);
    SweepKeepsSettledWork(LeaveScope, w0, order, inp, seen.recs, id);
    SweepKeepsSettledWork(ExpireRecent, w1, order, inp, seen.recs, id);
    SweepKeepsSettledWork(AnswerActive, w2, order, inp, seen.recs, id);
    SweepKeepsSettledWork(SeePresent, w3, seen.bands, inp, seen.recs, id);
    SweepKeepsSettledWork(SeeAbsent, w4, order, inp, seen.recs, id);
    SweepKeepsSettledWork(GateUnspoken, w5, order, inp, seen.recs, id);
  }

  // ── speaking a dare ──

  /** `c` is the earned next rung of an episode in `s`. */
  ghost predicate IsCandidate(s: State, c: Candidate, now: int) {
    var b := c.ep.band;
    b in s.episodes && s.episodes[b] == c.ep && Earned(c.ep, now) && c.rung == c.ep.rung + 1
  }

  lemma {:induction false} ChosenIsCandidate(s: State, order: seq<Band>, now: int)
    requires EpsOk(s, now) && Chosen(s, order, now).Some?
    ensures IsCandidate(s, Chosen(s, order, now).value, now) && MaySpeak(s, Chosen(s, order, now).value, now)
  {
    ChosenIsBest(s, order, now);
    var c := Chosen(s, order, now).value;
    var b :| b in order && b in s.episodes && Earned(s.episodes[b], now)
             && c == Candidate(s.episodes[b], s.episodes[b].rung + 1);
    assert EpOk(b, s.episodes[b], now);
  }

  lemma {:induction false} SpeakKeepsEps(s: State, c: Candidate, now: int)
    requires EpsOk(s, now) && IsCandidate(s, c, now)
    ensures EpsOk(SpeakDare(s, c, now), now)
  {
    var b := c.ep.band;
    var t := SpeakDare(s, c, now);
    assert EpOk(b, s.episodes[b], now) && EpOk(b, t.episodes[b], now);
    forall x | x != b && x in t.episodes ensures EpOk(x, t.episodes[x], now) {
      assert EpOk(x, s.episodes[x], now);
    }
    forall x | x in t.recent ensures RecentOk(x, t.recent[x], now) {
      assert RecentOk(x, s.recent[x], now);
    }
  }

  lemma {:induction false} SpeakClimbs(s: State, c: Candidate, now: int, lines: seq<Spoken>, l: Spoken)
    requires EpsOk(s, now) && IsCandidate(s, c, now) && LadderedLive(s, lines) && l.line == DareSpeech(c)
    ensures LadderedLive(SpeakDare(s, c, now), lines + [l])
  {
    var t, b := SpeakDare(s, c, now), c.ep.band;
    assert (lines + [l])[..|lines|] == lines;
    assert LiveAt(s, b) == Some(c.ep);
    forall x | LiveAt(t, x).Some?
      ensures var e := LiveAt(t, x).value;
        -1 <= e.rung <= MAX_LIVE_RUNG && RungsOf(lines + [l], EpId(x, e.firstSeenAt)) == Ladder(e.rung)
    {
      if x != b {
        assert LiveAt(t, x) == LiveAt(s, x);
      } else {
        assert Ladder(c.rung) == Ladder(c.rung - 1) + [c.rung];
      }
    }
  }

  /** Nothing said before the new line about a grudged episode is lost. */
  lemma {:induction false} RungsGrow(lines: seq<Spoken>, more: seq<Spoken>, id: EpId)
    ensures RungsOf(lines, id) <= RungsOf(lines + more, id)
  {
    if more != [] {
      var n := |more| - 1;
      RungsGrow(lines, more[..n], id);
      assert (lines + more)[..|lines + more| - 1] == lines + more[..n];
    } else {
      assert lines + more == lines;
    }
  }

  lemma {:induction false} SpeakKeepsGrudges(gs: seq<Grudge>, s: State, t: State, lines: seq<Spoken>, more: seq<Spoken>)
    requires GrudgesOk(gs, s, lines)
    requires forall b :: LiveAt(t, b).Some? ==>
      LiveAt(s, b).Some? && LiveAt(t, b).value.firstSeenAt == LiveAt(s, b).value.firstSeenAt
      && LiveAt(t, b).value.grudged == LiveAt(s, b).value.grudged
    ensures GrudgesOk(gs, t, lines + more)
  {
    forall i | 0 <= i < |gs| ensures 1 in RungsOf(lines + more, GrudgeId(gs[i])) {
      RungsGrow(lines, more, GrudgeId(gs[i]));
    }
  }

  lemma {:induction false} RecordKeepsCalls(calls: seq<Call>, ep: Episode, before: int, now: int)
    requires CallsOk(calls, before) && 0 <= before < now && !ep.band.OtherBand?
    ensures CallsOk(RecordCall(calls, ep, now), now)
    ensures var r := RecordCall(calls, ep, now);
      && |r| > 0 && r[|r| - 1] == Call(CallId(now, ep.band), ep.band, 0, ep.kind, ep.peakRate, now, Pending)
      && r[..|r| - 1] == calls[|calls| + 1 - |r|..]
  {
    var c := Call(CallId(now, ep.band), ep.band, 0, ep.kind, ep.peakRate, now, Pending);
    var r := RecordCall(calls, ep, now);
    var d := |calls| + 1 - |r|;
    assert r == (calls + [c])[d..];
    forall i | 0 <= i < |r| - 1 ensures r[i] == calls[i + d] {
    }
  }
}
