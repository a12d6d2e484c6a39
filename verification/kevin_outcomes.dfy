/** What a poll does, written out: which episodes fade, what is held against the operator, what is said. */
module KevinOutcomes {
  import opened Basics
  import opened KevinState
  import opened KevinReduce
  import opened KevinSteps
  import opened KevinPending
  import opened KevinPolls
  import opened KevinRuns
  import opened KevinBands

  // ── the fades of the absence sweep ──

  lemma {:induction false} NothingFades(phase: Phase, w: Work, order: seq<Band>, inp: Input, recs: map<Band, Rec>)
    requires phase != SeeAbsent
    ensures var v := Sweep(phase, w, order, inp, recs); v.added == w.added && v.faded == w.faded
  {
    hide LeaveScopeStep;
    hide ExpireRecentStep;
    hide AnswerActiveStep;
    hide SeePresentStep;
    hide GateUnspokenStep;
    if order != [] {
      NothingFades(phase, w, order[..|order| - 1], inp, recs);
    }
  }

  /** The step fades the episode of its band. */
  predicate StepFades(v: View, b: Band, rec: Option<Rec>, inp: Input) {
    && v.ep.Some? && rec.None?
    && var e := v.ep.value;
       && !(e.answered && b in inp.answered) && e.confirmed
       && !(b in inp.holding && IsHoldingOpen(inp.holding[b], e.peakRate))
       && inp.now - e.lastSeenAt >= FADE_GRACE_MS
  }

  function GrudgesOf(faded: seq<Episode>, now: int): seq<Grudge> {
    if faded == [] then []
    else
      var e := faded[|faded| - 1];
      var rest := GrudgesOf(faded[..|faded| - 1], now);
      if EarnsGrudge(e) then rest + [GrudgeFor(e, now)] else rest
  }

  function EndedAs(e: Episode): Episode { if EarnsGrudge(e) then e.(grudged := true) else e }

  /** The faded episodes a fade line may mention: spoken and unanswered. */
  function RegretsOf(faded: seq<Episode>): seq<Episode> {
    if faded == [] then []
    else
      var e := faded[|faded| - 1];
      var rest := RegretsOf(faded[..|faded| - 1]);
      if !e.answered && e.spoken then rest + [EndedAs(e)] else rest
  }

  /** The episodes of `s` that a step of the absence sweep fades, in the order of the sweep. */
  function StepFadesIn(s: State, order: seq<Band>, inp: Input, recs: map<Band, Rec>): seq<Episode> {
    if order == [] then []
    else
      var b := order[|order| - 1];
      var rest := StepFadesIn(s, order[..|order| - 1], inp, recs);
      if StepFades(ViewOf(s, b, -1), b, RecOf(recs, b), inp) then rest + [s.episodes[b]] else rest
  }

  lemma {:induction false} AbsentStepAdds(w: Work, b: Band, inp: Input, recs: map<Band, Rec>)
    ensures var v := Step(SeeAbsent, w, b, inp, recs);
      if StepFades(ViewOf(w.s, b, -1), b, RecOf(recs, b), inp) then
        var e := w.s.episodes[b];
        && v.added == (if EarnsGrudge(e) then w.added + [GrudgeFor(e, inp.now)] else w.added)
        && v.faded == (if !e.answered && e.spoken then w.faded + [EndedAs(e)] else w.faded)
      else v.added == w.added && v.faded == w.faded
  {
    hide EarnsGrudge;
    hide GrudgeFor;
    hide IsHoldingOpen;
    hide Accrue;
    hide CountSighting;
    hide SetCooldown;
    hide AddGrudge;
  }

  lemma {:induction false} SameEpisode(s: State, t: State, b: Band)
    requires ViewOf(s, b, -1) == ViewOf(t, b, -1)
    ensures b in s.episodes <==> b in t.episodes
    ensures b in s.episodes ==> s.episodes[b] == t.episodes[b]
  {
  }

  lemma {:induction false} AbsentSweepAdds(w: Work, order: seq<Band>, inp: Input, recs: map<Band, Rec>)
    requires Sound(w.s, inp.now) && RecsInScope(recs) && Distinct(order)
    ensures var v, faded := Sweep(SeeAbsent, w, order, inp, recs), StepFadesIn(w.s, order, inp, recs);
      v.added == w.added + GrudgesOf(faded, inp.now) && v.faded == w.faded + RegretsOf(faded)
  {
    hide Sound;
    hide RecsInScope;
    hide IsHoldingOpen;
    hide Step;
    hide StepView;
    hide EarnsGrudge;
    hide GrudgeFor;
    hide EndedAs;
    if order != [] {
      var n := |order| - 1;
      var b := order[n];
      AbsentSweepAdds(w, order[..n], inp, recs);
      var mid := Sweep(SeeAbsent, w, order[..n], inp, recs);
      SweepSeen(SeeAbsent, w, order[..n], b, inp, recs, -1);
      assert b !in order[..n];
      SameEpisode(mid.s, w.s, b);
      AbsentStepAdds(mid, b, inp, recs);
      var rest := StepFadesIn(w.s, order[..n], inp, recs);
      if StepFades(ViewOf(w.s, b, -1), b, RecOf(recs, b), inp) {
        var e := w.s.episodes[b];
        assert (rest + [e])[..|rest|] == rest;
      }
    }
  }

  // ── the fades of a poll ──

  function AfterFour(s: State, order: seq<Band>, inp: Input): Work {
    var seen := PresentBands(inp.recs, inp);
    var w := Sweep(LeaveScope, Work(s, [], []), order, inp, seen.recs);
    var w := Sweep(ExpireRecent, w, order, inp, seen.recs);
    var w := Sweep(AnswerActive, w, order, inp, seen.recs);
    Sweep(SeePresent, w, seen.bands, inp, seen.recs)
  }

  function FourViews(v: View, b: Band, rec: Option<Rec>, inp: Input): View {
    var v := StepView(LeaveScope, v, b, rec, inp);
    var v := StepView(ExpireRecent, v, b, rec, inp);
    var v := StepView(AnswerActive, v, b, rec, inp);
    StepView(SeePresent, v, b, rec, inp)
  }

  lemma {:induction false} AfterFourSeen(s: State, order: seq<Band>, inp: Input, b: Band)
    requires Sound(s, inp.now) && Distinct(order) && b in order
    ensures var w, rec := AfterFour(s, order, inp), if Allowed(b, inp) then FirstRec(inp.recs, b) else None;
      && Sound(w.s, inp.now) && w.added == [] && w.faded == []
      && RecOf(PresentBands(inp.recs, inp).recs, b) == rec
      && ViewOf(w.s, b, -1) == FourViews(ViewOf(s, b, -1), b, rec, inp)
  {
    hide Sound;
    hide RecsInScope;
    hide Distinct;
    hide ViewOf;
    hide Sweep;
    hide StepView;
    hide PresentBands;
    hide FirstRec;
    hide RecOf;
    hide Allowed;
    hide InScope;
    var seen := PresentBands(inp.recs, inp);
    SeenInScope(inp);
    KeptRecIsFirst(inp.recs, inp, b);
    PresentHasRec(inp, b);
    var w0 := Work(s, [], []);
    var w1 := Sweep(LeaveScope, w0, order, inp, seen.recs);
    FullSweepSeen(LeaveScope, w0, order, b, inp, seen.recs, -1);
    NothingFades(LeaveScope, w0, order, inp, seen.recs);
    var w2 := Sweep(ExpireRecent, w1, order, inp, seen.recs);
    FullSweepSeen(ExpireRecent, w1, order, b, inp, seen.recs, -1);
    NothingFades(ExpireRecent, w1, order, inp, seen.recs);
    var w3 := Sweep(AnswerActive, w2, order, inp, seen.recs);
    FullSweepSeen(AnswerActive, w2, order, b, inp, seen.recs, -1);
    NothingFades(AnswerActive, w2, order, inp, seen.recs);
    FullSweepSeen(SeePresent, w3, seen.bands, b, inp, seen.recs, -1);
    NothingFades(SeePresent, w3, seen.bands, inp, seen.recs);
  }

  /** After four sweeps an episode is ripe for fading exactly when it was at the start, and unchanged. */
  lemma {:induction false} RipeFromStart(v: View, b: Band, rec: Option<Rec>, inp: Input)
    requires ViewOk(v, b, inp.now)
    ensures var r := if Allowed(b, inp) then rec else None;
      var u := FourViews(v, b, r, inp);
      && (StepFades(u, b, r, inp) <==> v.ep.Some? && Fading(v.ep.value, rec, inp))
      && (StepFades(u, b, r, inp) ==> u.ep == v.ep)
  {
    hide Accrue;
    hide SightedEp;
    hide SightedCall;
    hide NewEpisode;
    hide Gated;
    hide Allowed;
    hide InScope;
    hide RecentOk;
    hide IsHoldingOpen;
    hide StillHolds;
    if v.ep.Some? {
      FadingIs(b, v.ep.value, inp);
    }
  }

  /** The episodes of `s` that fade in the poll `inp`, in the order of the keys. */
  function FadingIn(s: State, order: seq<Band>, inp: Input): seq<Episode> {
    if order == [] then []
    else
      var b := order[|order| - 1];
      var rest := FadingIn(s, order[..|order| - 1], inp);
      if b in s.episodes && Fading(s.episodes[b], FirstRec(inp.recs, b), inp) then rest + [s.episodes[b]] else rest
  }

  lemma {:induction false} RipeAt(s: State, w: State, b: Band, rec: Option<Rec>, recs: map<Band, Rec>, inp: Input)
    requires Sound(s, inp.now)
    requires RecOf(recs, b) == if Allowed(b, inp) then rec else None
    requires ViewOf(w, b, -1) == FourViews(ViewOf(s, b, -1), b, RecOf(recs, b), inp)
    ensures StepFades(ViewOf(w, b, -1), b, RecOf(recs, b), inp)
      <==> b in s.episodes && Fading(s.episodes[b], rec, inp)
    ensures StepFades(ViewOf(w, b, -1), b, RecOf(recs, b), inp) ==> b in w.episodes && w.episodes[b] == s.episodes[b]
  {
    hide FourViews;
    hide Allowed;
    hide InScope;
    hide RecOf;
    hide Fading;
    hide EpsOk;
    hide CallsOk;
    SoundView(s, b, inp.now, -1);
    RipeFromStart(ViewOf(s, b, -1), b, rec, inp);
  }

  lemma {:induction false} FadesFromStart(s: State, w: State, order: seq<Band>, inp: Input, recs: map<Band, Rec>)
    requires Sound(s, inp.now)
    requires forall b :: b in order ==>
      && RecOf(recs, b) == (if Allowed(b, inp) then FirstRec(inp.recs, b) else None)
      && ViewOf(w, b, -1) == FourViews(ViewOf(s, b, -1), b, RecOf(recs, b), inp)
    ensures StepFadesIn(w, order, inp, recs) == FadingIn(s, order, inp)
  {
    hide Sound;
    hide FourViews;
    hide ViewOf;
    hide RecOf;
    hide FirstRec;
    hide Fading;
    hide StepFades;
    hide Allowed;
    hide InScope;
    if order != [] {
      var n := |order| - 1;
      assert forall b :: b in order[..n] ==> b in order;
      FadesFromStart(s, w, order[..n], inp, recs);
      RipeAt(s, w, order[n], FirstRec(inp.recs, order[n]), recs, inp);
    }
  }

  lemma {:induction false} EmptyObserveAdds(s: State, inp: Input)
    ensures Observe(s, [], inp).added == [] && Observe(s, [], inp).faded == []
    ensures GrudgesOf(FadingIn(s, [], inp), inp.now) == [] && RegretsOf(FadingIn(s, [], inp)) == []
  {
    var seen := PresentBands(inp.recs, inp);
    var w3 := Work(s, [], []);
    NothingFades(SeePresent, w3, seen.bands, inp, seen.recs);
  }

  lemma {:induction false} ObserveAdds(s: State, order: seq<Band>, inp: Input)
    requires Sound(s, inp.now) && Distinct(order)
    ensures var w, faded := Observe(s, order, inp), FadingIn(s, order, inp);
      w.added == GrudgesOf(faded, inp.now) && w.faded == RegretsOf(faded)
  {
    hide Sound;
    hide RecsInScope;
    hide Distinct;
    hide ViewOf;
    hide Sweep;
    hide PresentBands;
    hide FirstRec;
    hide RecOf;
    hide Allowed;
    hide InScope;
    hide GrudgesOf;
    hide RegretsOf;
    hide FourViews;
    if order == [] {
      EmptyObserveAdds(s, inp);
    } else {
      var seen, w4 := PresentBands(inp.recs, inp), AfterFour(s, order, inp);
      SeenInScope(inp);
      forall b | b in order
        ensures RecOf(seen.recs, b) == (if Allowed(b, inp) then FirstRec(inp.recs, b) else None)
        ensures ViewOf(w4.s, b, -1) == FourViews(ViewOf(s, b, -1), b, RecOf(seen.recs, b), inp)
      {
        AfterFourSeen(s, order, inp, b);
      }
      AfterFourSeen(s, order, inp, order[0]);
      FadesFromStart(s, w4.s, order, inp, seen.recs);
      AbsentSweepAdds(w4, order, inp, seen.recs);
      NothingFades(GateUnspoken, Sweep(SeeAbsent, w4, order, inp, seen.recs), order, inp, seen.recs);
    }
  }

  lemma {:induction false} FadingInIs(s: State, order: seq<Band>, inp: Input)
    ensures forall e :: e in FadingIn(s, order, inp) <==>
      exists b :: b in order && b in s.episodes && e == s.episodes[b] && Fading(e, FirstRec(inp.recs, b), inp)
  {
    hide Fading;
    hide FirstRec;
    if order != [] {
      var n := |order| - 1;
      FadingInIs(s, order[..n], inp);
      assert forall x :: x in order <==> x in order[..n] || x == order[n];
    }
  }

  lemma {:induction false} GrudgesOfIs(faded: seq<Episode>, now: int)
    ensures forall g :: g in GrudgesOf(faded, now)
                        <==> exists e :: e in faded && EarnsGrudge(e) && g == GrudgeFor(e, now)
  {
    hide EarnsGrudge;
    hide GrudgeFor;
    if faded != [] {
      var n := |faded| - 1;
      GrudgesOfIs(faded[..n], now);
      assert forall x :: x in faded <==> x in faded[..n] || x == faded[n];
    }
  }

  lemma {:induction false} RegretsOfIs(faded: seq<Episode>)
    ensures forall x :: x in RegretsOf(faded) <==> exists e :: e in faded && e.spoken && !e.answered && x == EndedAs(e)
  {
    hide EndedAs;
    if faded != [] {
      var n := |faded| - 1;
      RegretsOfIs(faded[..n]);
      assert forall x :: x in faded <==> x in faded[..n] || x == faded[n];
    }
  }

  ghost predicate DistinctBands(eps: seq<Episode>) {
    forall i, j :: 0 <= i < j < |eps| ==> eps[i].band != eps[j].band
  }

  lemma {:induction false} FadingInDistinct(s: State, order: seq<Band>, inp: Input)
    requires Distinct(order) && forall b :: b in s.episodes ==> s.episodes[b].band == b
    ensures DistinctBands(FadingIn(s, order, inp))
    ensures forall e :: e in FadingIn(s, order, inp) ==> e.band in order
  {
    hide Fading;
    hide FirstRec;
    if order != [] {
      var n := |order| - 1;
      FadingInDistinct(s, order[..n], inp);
      assert forall x :: x in order <==> x in order[..n] || x == order[n];
    }
  }

  ghost predicate OncePerBand(gs: seq<Grudge>) {
    forall i, j :: 0 <= i < j < |gs| ==> gs[i].band != gs[j].band
  }

  lemma {:induction false} GrudgesOfDistinct(faded: seq<Episode>, now: int)
    requires DistinctBands(faded)
    ensures OncePerBand(GrudgesOf(faded, now))
    ensures forall g :: g in GrudgesOf(faded, now) ==> exists e :: e in faded && e.band == g.band
  {
    hide EarnsGrudge;
    if faded != [] {
      var n := |faded| - 1;
      GrudgesOfDistinct(faded[..n], now);
      assert forall x :: x in faded <==> x in faded[..n] || x == faded[n];
    }
  }

  // ── grudges ──

  /** The episode of `b` fades in this poll and is held against the operator as `g`. */
  ghost predicate Begrudged(s: State, inp: Input, b: Band, g: Grudge) {
    && b in s.episodes
    && var e := s.episodes[b];
       && Fading(e, FirstRec(inp.recs, b), inp) && Resented(e)
       && g == Grudge(b, e.kind, e.reason, RoundRate(e.peakRate), e.firstSeenAt, inp.now)
  }

  /** A stored rate is the nearest hundredth, halves upward. */
  lemma {:induction false} RateToHundredths(r: real)
    ensures (RoundRate(r) * 100.0).Floor as real == RoundRate(r) * 100.0
    ensures -0.005 < RoundRate(r) - r <= 0.005
  {
    var n := (r * 100.0 + 0.5).Floor;
    assert RoundRate(r) * 100.0 == n as real;
  }

  lemma {:induction false} GrudgesFromFades(s: State, order: seq<Band>, inp: Input, now: int)
    requires Sound(s, inp.now) && Distinct(order) && forall b :: b in s.episodes ==> b in order
    ensures var gs := GrudgesOf(FadingIn(s, order, inp), inp.now);
      OncePerBand(gs) && forall g :: g in gs <==> exists b :: Begrudged(s, inp, b, g)
  {
    hide FirstRec;
    hide Fading;
    hide GrudgesOf;
    hide FadingIn;
    hide RoundRate;
    var faded := FadingIn(s, order, inp);
    var gs := GrudgesOf(faded, inp.now);
    forall b | b in s.episodes ensures s.episodes[b].band == b && EpOk(b, s.episodes[b], inp.now) {
      assert EpOk(b, s.episodes[b], inp.now);
    }
    FadingInDistinct(s, order, inp);
    GrudgesOfDistinct(faded, inp.now);
    FadingInIs(s, order, inp);
    GrudgesOfIs(faded, inp.now);
    forall g ensures g in gs <==> exists b :: Begrudged(s, inp, b, g) {
      if g in gs {
        var e :| e in faded && EarnsGrudge(e) && g == GrudgeFor(e, inp.now);
        assert Begrudged(s, inp, e.band, g);
      }
      if b :| Begrudged(s, inp, b, g) {
        assert s.episodes[b] in faded && EarnsGrudge(s.episodes[b]);
      }
    }
  }

  lemma {:induction false} SameBegrudged(s: State, begun: State, inp: Input)
    requires begun.episodes == if GoesOn(s, inp) then s.episodes else map[]
    ensures forall b, g :: Begrudged(begun, inp, b, g) <==> GoesOn(s, inp) && Begrudged(s, inp, b, g)
  {
    hide Fading;
    hide Resented;
    hide FirstRec;
    hide GoesOn;
  }

  lemma {:induction false} BegunEpisodes(s: State, inp: Input, order: seq<Band>)
    ensures Begin(s, inp, order).episodes == if GoesOn(s, inp) then s.episodes else map[]
  {
    hide EndingCooldowns;
    hide VoidPending;
    hide DaresOn;
  }

  /**
   Exactly the episodes that fade resented in a poll are held against the operator, each with one
   entry of that poll; after a gap or in a new area nothing is.
   */
  lemma {:induction false} GrudgesOfPoll(s: State, inp: Input, order: seq<Band>, before: int)
    requires EpsOk(s, before) && CallsOk(s.calls, before) && 0 <= before < inp.now && Enumerates(order, s, inp.recs)
    ensures var added := Poll(s, inp, order).added;
      && OncePerBand(added)
      && forall g :: g in added <==> GoesOn(s, inp) && exists b :: Begrudged(s, inp, b, g)
  {
    hide EpsOk;
    hide CallsOk;
    hide Observe;
    hide Begin;
    hide Sound;
    hide Talk;
    hide FadingIn;
    hide GrudgesOf;
    hide LogPoll;
    hide GradeAll;
    hide NewDuds;
    hide Begrudged;
    hide OncePerBand;
    var begun := Begin(s, inp, order);
    BegunSound(s, inp, order, before);
    BegunEpisodes(s, inp, order);
    ObserveAdds(begun, order, inp);
    GrudgesFromFades(begun, order, inp, inp.now);
    SameBegrudged(s, begun, inp);
    assert Poll(s, inp, order).added == GrudgesOf(FadingIn(begun, order, inp), inp.now);
  }

  // ── speech ──

  /** A quiet tick: the first poll, a poll after a gap, or one in a new area. */
  predicate Hushed(s: State, inp: Input) {
    || s.lastPollAt == 0 || inp.now - s.lastPollAt > 150_000
    || (inp.ctxKey != None && s.ctxKey != None && inp.ctxKey != s.ctxKey)
  }

  /** The band's episode and cooldown when the poll has observed: the table's entries. */
  function Now(s: State, inp: Input, b: Band): View {
    ViewNext(ViewBegun(ViewOf(s, b, -1), b, GoesOn(s, inp)), b, FirstRec(inp.recs, b), inp)
  }

  /** The next dare of the episode is due: confirmed, unanswered, seen now, its rung's time observed. */
  predicate Due(e: Episode, now: int) {
    && e.confirmed && !e.answered && e.lastSeenAt == now
    && 0 <= e.rung + 1 <= 2 && RungsMs(e.band)[e.rung + 1] <= e.observedMs
  }

  predicate Gap(s: State, now: int) { s.lastSpokeAt == 0 || now - s.lastSpokeAt >= 300_000 }

  /** Nothing holds the dare back: the gap or the band's own climb; for a first dare the cooldown and the day's cap. */
  predicate Free(v: View, e: Episode, s: State, today: int, now: int) {
    && (Gap(s, now) || (e.rung >= 0 && s.lastSpokeBand == Some(e.band)))
    && (e.rung == -1 ==>
          && (v.cool.Some? ==> v.cool.value <= now)
          && today < (if e.kind == Surprise then 10 else 6))
  }

  /** A dare on `b` is due and free in this poll; `today` first dares were spoken on this day before. */
  predicate Ready(s: State, inp: Input, today: int, b: Band) {
    var v := Now(s, inp, b);
    v.ep.Some? && Due(v.ep.value, inp.now) && Free(v, v.ep.value, s, today, inp.now)
  }

  /** `e` speaks before `f`: a higher rung, then a surprise, then the higher peak rate. */
  predicate Ahead(e: Episode, f: Episode) {
    || e.rung > f.rung
    || (e.rung == f.rung && e.kind == Surprise && f.kind != Surprise)
    || (e.rung == f.rung && (e.kind == Surprise <==> f.kind == Surprise) && e.peakRate > f.peakRate)
  }

  /** The dare spoken for an episode. */
  function DareFor(e: Episode): Speech {
    Speech(DareLine, e.band, e.rung + 1, e.kind, e.rung + 1 >= 1 || e.kind == Surprise, e.firstSeenAt, e.observedMs)
  }

  ghost predicate DareSpoken(s: State, inp: Input, today: int, speech: seq<Speech>) {
    exists b :: Ready(s, inp, today, b) && speech == [DareFor(Now(s, inp, b).ep.value)]
                && forall x :: Ready(s, inp, today, x) ==> !Ahead(Now(s, inp, x).ep.value, Now(s, inp, b).ep.value)
  }

  lemma {:induction false} HushedIsSilent(s: State, inp: Input)
    ensures Hushed(s, inp) <==> Silent(s, inp)
    ensures !Hushed(s, inp) ==> GoesOn(s, inp)
  {
  }

  lemma {:induction false} DueIsEarned(b: Band, e: Episode, now: int)
    requires EpOk(b, e, now)
    ensures Due(e, now) <==> Earned(e, now)
  {
  }

  lemma {:induction false} FreeIsMaySpeak(mid: State, s: State, b: Band, today: int, now: int)
    requires b in mid.episodes && EpOk(b, mid.episodes[b], now) && now > 0
    requires mid.lastSpokeAt == s.lastSpokeAt && mid.lastSpokeBand == s.lastSpokeBand && mid.dareCount == today
    ensures var e := mid.episodes[b];
      Free(ViewOf(mid, b, -1), e, s, today, now) <==> MaySpeak(mid, Candidate(e, e.rung + 1), now)
  {
  }

  lemma {:induction false} AheadIsOutranks(e: Episode, f: Episode)
    ensures Ahead(e, f) <==> Outranks(Candidate(e, e.rung + 1), Candidate(f, f.rung + 1))
  {
  }

  /** `mid` is the state when the poll has observed. */
  ghost predicate Observed(s: State, inp: Input, order: seq<Band>, today: int, mid: State) {
    && inp.now > 0 && EpsOk(mid, inp.now)
    && mid.lastSpokeAt == s.lastSpokeAt && mid.lastSpokeBand == s.lastSpokeBand && mid.dareCount == today
    && (forall b :: ViewOf(mid, b, -1) == Now(s, inp, b))
    && (forall b :: b in mid.episodes ==> b in order)
  }

  lemma {:induction false} ReadyIs(s: State, inp: Input, order: seq<Band>, today: int, mid: State, b: Band)
    requires Observed(s, inp, order, today, mid)
    ensures Ready(s, inp, today, b)
      <==> b in mid.episodes && Earned(mid.episodes[b], inp.now)
           && MaySpeak(mid, Candidate(mid.episodes[b], mid.episodes[b].rung + 1), inp.now)
    ensures Ready(s, inp, today, b) ==> Now(s, inp, b).ep == Some(mid.episodes[b]) && mid.episodes[b].band == b
  {
    hide Due;
    hide Free;
    hide Earned;
    hide MaySpeak;
    hide Now;
    assert ViewOf(mid, b, -1) == Now(s, inp, b);
    if b in mid.episodes {
      assert EpOk(b, mid.episodes[b], inp.now);
      DueIsEarned(b, mid.episodes[b], inp.now);
      FreeIsMaySpeak(mid, s, b, today, inp.now);
    }
  }

  lemma {:induction false} ReadyIsCandidate(s: State, inp: Input, order: seq<Band>, today: int, mid: State, b: Band)
    requires Observed(s, inp, order, today, mid) && Ready(s, inp, today, b)
    ensures b in mid.episodes && Now(s, inp, b).ep == Some(mid.episodes[b])
    ensures var c := Candidate(mid.episodes[b], mid.episodes[b].rung + 1);
      c in Candidates(mid, order, inp.now) && MaySpeak(mid, c, inp.now)
  {
    hide Candidates;
    hide Earned;
    hide MaySpeak;
    hide Ready;
    ReadyIs(s, inp, order, today, mid, b);
  }

  /** The choice of the poll, in terms of the table. */
  lemma {:induction false} ChoiceIs(s: State, inp: Input, order: seq<Band>, today: int, mid: State)
    requires Observed(s, inp, order, today, mid)
    ensures var c := Chosen(mid, order, inp.now);
      && (c.None? ==> forall b :: !Ready(s, inp, today, b))
      && (c.Some? ==> DareSpoken(s, inp, today, [DareSpeech(c.value)]))
  {
    hide EpsOk;
    hide Candidates;
    hide Chosen;
    hide Earned;
    hide MaySpeak;
    hide Outranks;
    hide Due;
    hide Free;
    hide Now;
    hide ViewOf;
    hide Ahead;
    ChosenIsBest(mid, order, inp.now);
    var c := Chosen(mid, order, inp.now);
    if c.None? {
      forall b ensures !Ready(s, inp, today, b) {
        if Ready(s, inp, today, b) {
          ReadyIsCandidate(s, inp, order, today, mid, b);
        }
      }
    } else {
      var b :| b in order && b in mid.episodes && Earned(mid.episodes[b], inp.now)
               && c.value == Candidate(mid.episodes[b], mid.episodes[b].rung + 1);
      ReadyIs(s, inp, order, today, mid, b);
      forall x | Ready(s, inp, today, x) ensures !Ahead(Now(s, inp, x).ep.value, Now(s, inp, b).ep.value) {
        ReadyIsCandidate(s, inp, order, today, mid, x);
        ReadyIs(s, inp, order, today, mid, x);
        AheadIsOutranks(mid.episodes[x], mid.episodes[b]);
      }
      assert Ready(s, inp, today, b);
    }
  }

  /** The episode of `b` fades in this poll, spoken for and never answered. */
  ghost predicate Regretted(s: State, inp: Input, b: Band) {
    && b in s.episodes && Fading(s.episodes[b], FirstRec(inp.recs, b), inp)
    && s.episodes[b].spoken && !s.episodes[b].answered
  }

  /** The fade line: about a regretted episode of the highest rung. */
  ghost predicate FadeSpoken(s: State, inp: Input, speech: seq<Speech>) {
    exists b :: Regretted(s, inp, b)
      && (var e := s.episodes[b];
          speech == [Speech(FadeLine, b, e.rung, e.kind, false, e.firstSeenAt, e.observedMs)])
      && forall x :: Regretted(s, inp, x) ==> s.episodes[x].rung <= s.episodes[b].rung
  }

  lemma {:induction false} EpisodeBand(s: State, b: Band, now: int)
    requires Sound(s, now) && b in s.episodes
    ensures s.episodes[b].band == b
  {
    assert EpOk(b, s.episodes[b], now);
  }

  lemma {:induction false} RegretsFromFades(s: State, order: seq<Band>, inp: Input)
    requires Sound(s, inp.now) && Distinct(order) && forall b :: b in s.episodes ==> b in order
    ensures var faded := RegretsOf(FadingIn(s, order, inp));
      if exists b :: Regretted(s, inp, b) then faded != [] && FadeSpoken(s, inp, [FadeSpeech(TopFaded(faded))])
      else faded == []
  {
    hide FirstRec;
    hide Fading;
    hide EarnsGrudge;
    hide FadingIn;
    hide RegretsOf;
    hide Sound;
    var faded := FadingIn(s, order, inp);
    FadingInIs(s, order, inp);
    RegretsOfIs(faded);
    forall b | Regretted(s, inp, b) ensures EndedAs(s.episodes[b]) in RegretsOf(faded) {
      assert s.episodes[b] in faded;
    }
    if RegretsOf(faded) != [] {
      var top := TopFaded(RegretsOf(faded));
      var e :| e in faded && e.spoken && !e.answered && top == EndedAs(e);
      var b :| b in order && b in s.episodes && e == s.episodes[b] && Fading(e, FirstRec(inp.recs, b), inp);
      EpisodeBand(s, b, inp.now);
      assert Regretted(s, inp, b);
      forall x | Regretted(s, inp, x) ensures s.episodes[x].rung <= e.rung {
        assert EndedAs(s.episodes[x]) in RegretsOf(faded);
      }
    }
  }

  /** Call `k` fell from pending to dud in this poll. */
  ghost predicate NewDud(calls: seq<Call>, after: seq<Call>, k: int) {
    0 <= k < |calls| && |after| == |calls| && calls[k].verdict == Pending && after[k].verdict == Dud
  }

  /** The dud line: about the first of them. */
  ghost predicate DudSpoken(calls: seq<Call>, after: seq<Call>, speech: seq<Speech>) {
    exists k :: NewDud(calls, after, k)
      && (forall j :: NewDud(calls, after, j) ==> k <= j)
      && speech == [Speech(DudLine, calls[k].band, -1, NoKind, false, 0, 0)]
  }

  /** Grading makes a dud of the pending call at `k`. */
  ghost predicate FallsDud(calls: seq<Call>, s: State, now: int, k: int) {
    0 <= k < |calls| && calls[k].verdict == Pending && Grade(calls[k], s, now).verdict == Dud
  }

  lemma {:induction false} FirstOfDuds(calls: seq<Call>, s: State, now: int)
    ensures var duds := NewDuds(calls, s, now);
      && (duds == [] <==> forall k :: !FallsDud(calls, s, now, k))
      && (duds != [] ==> exists k :: FallsDud(calls, s, now, k) && duds[0] == calls[k].band
                                     && forall j :: 0 <= j < k ==> !FallsDud(calls, s, now, j))
  {
    hide Grade;
    if calls != [] {
      var n := |calls| - 1;
      FirstOfDuds(calls[..n], s, now);
      forall k ensures FallsDud(calls, s, now, k)
                       <==> FallsDud(calls[..n], s, now, k) || (k == n && FallsDud(calls, s, now, n)) {
      }
      if FallsDud(calls, s, now, n) {
        assert NewDuds(calls, s, now) == NewDuds(calls[..n], s, now) + [calls[n].band];
      } else {
        assert NewDuds(calls, s, now) == NewDuds(calls[..n], s, now);
      }
    }
  }

  lemma {:induction false} DudsSpoken(s: State, now: int)
    ensures var duds, after := NewDuds(s.calls, s, now), GradeAll(s.calls, s, now);
      if exists k :: NewDud(s.calls, after, k) then
        duds != [] && DudSpoken(s.calls, after, [Speech(DudLine, duds[0], -1, NoKind, false, 0, 0)])
      else duds == []
  {
    hide Grade;
    hide NewDuds;
    var duds, after := NewDuds(s.calls, s, now), GradeAll(s.calls, s, now);
    FirstOfDuds(s.calls, s, now);
    forall k ensures NewDud(s.calls, after, k) <==> FallsDud(s.calls, s, now, k) {
    }
    if duds != [] {
      var k :| FallsDud(s.calls, s, now, k) && duds[0] == s.calls[k].band
               && forall j :: 0 <= j < k ==> !FallsDud(s.calls, s, now, j);
      assert NewDud(s.calls, after, k);
    }
  }

  // ── the whole poll ──

  /** First dares spoken on the day of `now` before this poll, by the state's own count. */
  function Today(s: State, now: int): int {
    if s.day == Some(UtcDay(now)) then s.dareCount else DaresOn(s.calls, UtcDay(now))
  }

  /** The call `k` when the poll has observed: the table's entry. */
  function CallNow(s: State, inp: Input, k: nat): Option<Call>
    requires k < |s.calls|
  {
    var b := s.calls[k].band;
    ViewNext(ViewBegun(ViewOf(s, b, k), b, GoesOn(s, inp)), b, FirstRec(inp.recs, b), inp).call
  }

  lemma {:induction false} UntouchedNow(s: State, inp: Input, b: Band)
    requires Untouched(ViewOf(s, b, -1), FirstRec(inp.recs, b))
    ensures Now(s, inp, b).ep.None?
  {
  }

  lemma {:induction false} SoundIs(s: State, now: int)
    ensures Sound(s, now) <==> EpsOk(s, now) && CallsOk(s.calls, now) && now > 0
  {
    hide EpsOk;
    hide CallsOk;
  }

  lemma {:induction false} SameLength(a: seq<Call>, b: seq<Call>)
    requires Evolved(a, b)
    ensures |a| == |b|
  {
  }

  lemma {:induction false} PollObserves(s: State, inp: Input, order: seq<Band>, before: int)
    requires EpsOk(s, before) && CallsOk(s.calls, before) && 0 <= before < inp.now && Enumerates(order, s, inp.recs)
    ensures var mid := InsidePoll(s, inp, order).w.s;
      && Observed(s, inp, order, Today(s, inp.now), mid) && Evolved(s.calls, mid.calls)
      && (forall k :: 0 <= k < |s.calls| ==> Some(mid.calls[k]) == CallNow(s, inp, k))
  {
    hide EpsOk;
    hide CallsOk;
    hide Enumerates;
    hide Begin;
    hide Observe;
    hide Evolved;
    hide Sound;
    hide ViewNext;
    hide ViewBegun;
    hide GoesOn;
    hide UtcDay;
    hide DaresOn;
    var begun := Begin(s, inp, order);
    var mid := Observe(begun, order, inp).s;
    BegunSound(s, inp, order, before);
    BeginShape(s, inp, order);
    SoundIs(begun, inp.now);
    ObserveKeeps(begun, order, inp);
    EvolvedTrans(s.calls, begun.calls, mid.calls);
    forall b ensures ViewOf(mid, b, -1) == Now(s, inp, b) && (b in mid.episodes ==> b in order) {
      PollOnBand(s, inp, order, before, b, -1);
      KeysListed(s, order, inp, b, -1);
      if b !in order {
        UntouchedNow(s, inp, b);
      }
    }
    SameLength(s.calls, mid.calls);
    forall k | 0 <= k < |s.calls| ensures Some(mid.calls[k]) == CallNow(s, inp, k) {
      PollOnBand(s, inp, order, before, s.calls[k].band, k);
    }
  }

  lemma {:induction false} CallNowKeeps(s: State, inp: Input, k: nat)
    requires k < |s.calls|
    ensures var c := CallNow(s, inp, k);
      c.Some? && (c == Some(s.calls[k])
                  || (s.calls[k].verdict == Pending && c.value.verdict in {Void, Answered}
                      && c.value == s.calls[k].(verdict := c.value.verdict)))
  {
  }

  /** The duds of the poll are the calls that were pending before it and are duds after it. */
  lemma {:induction false} SameDuds(s: State, inp: Input, mid: seq<Call>, after: seq<Call>)
    requires |mid| == |s.calls| == |after|
    requires forall k :: 0 <= k < |mid| ==> Some(mid[k]) == CallNow(s, inp, k)
    requires forall k :: 0 <= k < |mid| ==> mid[k].verdict != Pending ==> after[k] == mid[k]
    ensures forall k :: NewDud(mid, after, k) <==> NewDud(s.calls, after, k)
    ensures forall speech :: DudSpoken(mid, after, speech) <==> DudSpoken(s.calls, after, speech)
  {
    hide CallNow;
    forall k | 0 <= k < |mid|
      ensures NewDud(mid, after, k) <==> NewDud(s.calls, after, k)
      ensures mid[k].band == s.calls[k].band
    {
      CallNowKeeps(s, inp, k);
    }
    forall speech ensures DudSpoken(mid, after, speech) <==> DudSpoken(s.calls, after, speech) {
      if DudSpoken(mid, after, speech) {
        var k :| NewDud(mid, after, k) && (forall j :: NewDud(mid, after, j) ==> k <= j)
                 && speech == [Speech(DudLine, mid[k].band, -1, NoKind, false, 0, 0)];
        assert NewDud(s.calls, after, k);
      }
      if DudSpoken(s.calls, after, speech) {
        var k :| NewDud(s.calls, after, k) && (forall j :: NewDud(s.calls, after, j) ==> k <= j)
                 && speech == [Speech(DudLine, s.calls[k].band, -1, NoKind, false, 0, 0)];
        assert NewDud(mid, after, k);
      }
    }
  }

  /** What a poll says, by cases. */
  ghost predicate SpeaksAs(s: State, inp: Input, today: int, after: seq<Call>, speech: seq<Speech>) {
    if Hushed(s, inp) then speech == []
    else if exists b :: Ready(s, inp, today, b) then DareSpoken(s, inp, today, speech)
    else if Gap(s, inp.now) && exists b :: Regretted(s, inp, b) then FadeSpoken(s, inp, speech)
    else if Gap(s, inp.now) && inp.panelOpen && exists k :: NewDud(s.calls, after, k) then
      DudSpoken(s.calls, after, speech)
    else speech == []
  }

  lemma {:induction false} DareOrNot(s: State, inp: Input, order: seq<Band>, mid: State)
    requires Observed(s, inp, order, Today(s, inp.now), mid)
    ensures Chosen(mid, order, inp.now).Some? <==> exists b :: Ready(s, inp, Today(s, inp.now), b)
    ensures Chosen(mid, order, inp.now).Some?
      ==> DareSpoken(s, inp, Today(s, inp.now), [DareSpeech(Chosen(mid, order, inp.now).value)])
  {
    hide Observed;
    hide Ready;
    hide Chosen;
    hide Today;
    hide Now;
    hide Ahead;
    hide DareFor;
    hide DareSpeech;
    ChoiceIs(s, inp, order, Today(s, inp.now), mid);
  }

  lemma {:induction false} FadeOrNot(s: State, inp: Input, order: seq<Band>, before: int)
    requires EpsOk(s, before) && CallsOk(s.calls, before) && 0 <= before < inp.now && Enumerates(order, s, inp.recs)
    requires GoesOn(s, inp)
    ensures var faded := InsidePoll(s, inp, order).w.faded;
      if exists b :: Regretted(s, inp, b) then faded != [] && FadeSpoken(s, inp, [FadeSpeech(TopFaded(faded))])
      else faded == []
  {
    hide EpsOk;
    hide CallsOk;
    hide Observe;
    hide Begin;
    hide Sound;
    hide FadingIn;
    hide RegretsOf;
    hide Fading;
    hide FirstRec;
    hide FadeSpeech;
    hide TopFaded;
    hide GoesOn;
    hide Evolved;
    var begun := Begin(s, inp, order);
    BegunSound(s, inp, order, before);
    BegunEpisodes(s, inp, order);
    ObserveAdds(begun, order, inp);
    RegretsFromFades(begun, order, inp);
    forall b ensures Regretted(s, inp, b) <==> Regretted(begun, inp, b) {
    }
  }

  lemma {:induction false} DecidedStays(c: Call, s: State, now: int)
    requires c.verdict != Pending
    ensures Grade(c, s, now) == c
  {
  }

  lemma {:induction false} DudOrNot(s: State, inp: Input, order: seq<Band>, before: int)
    requires EpsOk(s, before) && CallsOk(s.calls, before) && 0 <= before < inp.now && Enumerates(order, s, inp.recs)
    requires InsidePoll(s, inp, order).said.s == InsidePoll(s, inp, order).w.s
    ensures var p := InsidePoll(s, inp, order);
      var duds := NewDuds(p.w.s.calls, LogPoll(p.w.s, inp.now), inp.now);
      if exists k :: NewDud(s.calls, p.r.s.calls, k) then
        duds != [] && DudSpoken(s.calls, p.r.s.calls, [Speech(DudLine, duds[0], -1, NoKind, false, 0, 0)])
      else duds == []
  {
    hide EpsOk;
    hide CallsOk;
    hide Enumerates;
    hide Observed;
    hide NewDud;
    hide DudSpoken;
    hide NewDuds;
    hide Grade;
    hide Observe;
    hide Begin;
    hide Talk;
    hide CallNow;
    hide Silent;
    var p := InsidePoll(s, inp, order);
    var logged := LogPoll(p.w.s, inp.now);
    PollObserves(s, inp, order, before);
    DudsSpoken(logged, inp.now);
    assert logged.calls == p.w.s.calls && p.r.s.calls == GradeAll(logged.calls, logged, inp.now) by {
      hide KeepPolls;
    }
    forall k | 0 <= k < |p.w.s.calls| && p.w.s.calls[k].verdict != Pending
      ensures p.r.s.calls[k] == p.w.s.calls[k]
    {
      DecidedStays(p.w.s.calls[k], logged, inp.now);
    }
    SameDuds(s, inp, p.w.s.calls, p.r.s.calls);
  }

  /**
   What a poll says: nothing in a quiet tick; else the best of the dares that are due and free; else,
   when the gap has passed, the fade of highest rung that was spoken and never answered; else, with the
   panel open, the first call that became a dud in this poll; else nothing.
   */
  lemma {:induction false} SpeechOfPoll(s: State, inp: Input, order: seq<Band>, before: int)
    requires EpsOk(s, before) && CallsOk(s.calls, before) && 0 <= before < inp.now && Enumerates(order, s, inp.recs)
    ensures var r := Poll(s, inp, order); SpeaksAs(s, inp, Today(s, inp.now), r.s.calls, r.speech)
  {
    hide EpsOk;
    hide CallsOk;
    hide Enumerates;
    hide Poll;
    hide InsidePoll;
    hide Hushed;
    hide Silent;
    hide GoesOn;
    hide Ready;
    hide Regretted;
    hide NewDud;
    hide DareSpoken;
    hide FadeSpoken;
    hide DudSpoken;
    hide NewDuds;
    hide TopFaded;
    hide FadeSpeech;
    hide DareSpeech;
    hide SpeakDare;
    hide Chosen;
    hide Today;
    hide LogPoll;
    hide Evolved;
    var mid := InsidePoll(s, inp, order).w.s;
    HushedIsSilent(s, inp);
    WhatIsSaid(s, inp, order);
    PollObserves(s, inp, order, before);
    DareOrNot(s, inp, order, mid);
    if !Hushed(s, inp) {
      assert Gap(s, inp.now) == GapOk(mid, inp.now);
      FadeOrNot(s, inp, order, before);
      if Chosen(mid, order, inp.now).None? {
        DudOrNot(s, inp, order, before);
      }
    }
  }
}
