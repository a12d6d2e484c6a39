/** Every event of a run, written out: what a poll, an answer, a quiet reset and a reload make of the state. */
module KevinHistory {
  import opened Basics
  import opened KevinState
  import opened KevinReduce
  import opened KevinSteps
  import opened KevinPending
  import opened KevinPolls
  import opened KevinRuns
  import opened KevinTheorems
  import opened KevinBands
  import opened KevinOutcomes
  import opened KevinVerdicts

  // ── polls ──

  lemma {:induction false} PollStep(ws: seq<World>, es: seq<Event>, i: nat)
    requires IsRun(ws, es) && i < |es| && es[i].PollEvent?
    ensures |ws| == |es| + 1
    ensures var w, inp, order := ws[i], es[i].inp, es[i].order;
      && Inv(w) && 0 <= w.now < inp.now && EpsOk(w.s, w.now) && CallsOk(w.s.calls, w.now)
      && Enumerates(order, w.s, inp.recs) && ws[i + 1] == AfterPoll(w, Poll(w.s, inp, order), inp.now)
  {
    hide Enumerates;
    hide EpsOk;
    hide CallsOk;
    hide Poll;
    RunInv(ws, es, i);
    RunStep(ws, es, i);
  }

  lemma {:induction false} TodayIsSpoken(w: World, inp: Input, order: seq<Band>)
    requires Inv(w) && inp.now > w.now && Enumerates(order, w.s, inp.recs)
    ensures Today(w.s, inp.now) == DaresSpoken(w.lines, UtcDay(inp.now))
  {
    hide Enumerates;
    hide Begin;
    hide Observe;
    hide Talk;
    hide Finish;
    hide Today;
    hide CallNow;
    BeforeTalk(w, inp, order);
    PollObserves(w.s, inp, order, w.now);
  }

  lemma {:induction false} AfterPollIs(w: World, r: PollResult, now: int)
    ensures var v := AfterPoll(w, r, now);
      v.s == r.s && v.lines == w.lines + Tag(r.speech, now, w.session) && v.grudges == w.grudges + r.added
  {
  }

  /**
   What each poll of a run says, by cases; the day's cap counts the first dares the run really spoke
   that day, reloads included.
   */
  lemma {:induction false} SpeechInRun(ws: seq<World>, es: seq<Event>, i: nat)
    requires IsRun(ws, es) && i < |es| && es[i].PollEvent?
    ensures |ws| == |es| + 1
    ensures var w, v, inp := ws[i], ws[i + 1], es[i].inp;
      exists speech :: v.lines == w.lines + Tag(speech, inp.now, w.session)
                       && SpeaksAs(w.s, inp, DaresSpoken(w.lines, UtcDay(inp.now)), v.s.calls, speech)
  {
    hide *;
    PollStep(ws, es, i);
    var w, inp, order := ws[i], es[i].inp, es[i].order;
    TodayIsSpoken(w, inp, order);
    SpeechOfPoll(w.s, inp, order, w.now);
    AfterPollIs(w, Poll(w.s, inp, order), inp.now);
  }

  /** What each poll of a run leaves of every band and of the speech budget. */
  lemma {:induction false} StateInRun(ws: seq<World>, es: seq<Event>, i: nat)
    requires IsRun(ws, es) && i < |es| && es[i].PollEvent?
    ensures |ws| == |es| + 1
    ensures var w, v, inp := ws[i], ws[i + 1], es[i].inp;
      exists speech :: v.lines == w.lines + Tag(speech, inp.now, w.session)
                       && StateAfter(w.s, inp, v.s, speech) && CallsAfter(w.s, inp, v.s, speech)
  {
    hide *;
    PollStep(ws, es, i);
    var w, inp, order := ws[i], es[i].inp, es[i].order;
    StateOfPoll(w.s, inp, order, w.now);
    CallsOfPoll(w.s, inp, order, w.now);
    AfterPollIs(w, Poll(w.s, inp, order), inp.now);
  }

  lemma {:induction false} EventKeepsLog(w: World, e: Event)
    requires PollsDated(w.s.polls, w.now) && CanHappen(w, e)
    ensures PollsDated(Apply(w, e).s.polls, Apply(w, e).now)
  {
    hide PollsDated;
    hide Poll;
    hide Enumerates;
    NoPolls(w.s.polls, w.now);
    match e
    case PollEvent(inp, order) => LogOfPoll(w.s, inp, order, w.now);
    case AnswerEvent(b) =>
    case ResyncEvent(order) =>
    case ReloadEvent =>
  }

  lemma {:induction false} FirstLog()
    ensures PollsDated(FIRST_LOAD.s.polls, FIRST_LOAD.now)
  {
  }

  /** In every run the logged polls are 24 seconds apart: extra polls do not inflate a call's coverage. */
  lemma {:induction false} LogInRun(ws: seq<World>, es: seq<Event>, i: nat)
    requires IsRun(ws, es) && i < |ws|
    ensures PollsDated(ws[i].s.polls, ws[i].now)
  {
    hide *;
    if i == 0 {
      RunStarts(ws, es);
      FirstLog();
    } else {
      LogInRun(ws, es, i - 1);
      RunStep(ws, es, i - 1);
      EventKeepsLog(ws[i - 1], es[i - 1]);
    }
  }

  /** The log by which a poll of a run judges its calls. */
  lemma {:induction false} LoggedInRun(ws: seq<World>, es: seq<Event>, i: nat)
    requires IsRun(ws, es) && i < |es| && es[i].PollEvent?
    ensures |ws| == |es| + 1
    ensures var w, v, inp := ws[i], ws[i + 1], es[i].inp;
      LoggedAfter(if GoesOn(w.s, inp) then w.s.polls else [], v.s.polls, v.s.episodes, inp.now)
  {
    hide *;
    PollStep(ws, es, i);
    LogInRun(ws, es, i);
    LogOfPoll(ws[i].s, es[i].inp, es[i].order, ws[i].now);
    AfterPollIs(ws[i], Poll(ws[i].s, es[i].inp, es[i].order), es[i].inp.now);
  }

  // ── grudges ──

  /** Exactly the episodes that fade resented are held against the operator, each once in the poll it fades in. */
  lemma {:induction false} GrudgesInRun(ws: seq<World>, es: seq<Event>, i: nat)
    requires IsRun(ws, es) && i < |es| && es[i].PollEvent?
    ensures |ws| == |es| + 1
    ensures var w, v, inp := ws[i], ws[i + 1], es[i].inp;
      exists added :: v.grudges == w.grudges + added && OncePerBand(added)
                      && forall g :: g in added <==> GoesOn(w.s, inp) && exists b :: Begrudged(w.s, inp, b, g)
  {
    hide *;
    PollStep(ws, es, i);
    var w, inp, order := ws[i], es[i].inp, es[i].order;
    GrudgesOfPoll(w.s, inp, order, w.now);
    AfterPollIs(w, Poll(w.s, inp, order), inp.now);
  }

  /**
   The grudges a page holds, and stores, are the last at most sixty of those of the run that were under
   seven days old when the last one was added, reloads included.
   */
  lemma {:induction false} HeldInRun(ws: seq<World>, es: seq<Event>, i: nat)
    requires IsRun(ws, es) && i < |ws|
    ensures HeldOf(ws[i].s.grudges, ws[i].grudges)
    ensures forall j, k :: 0 <= j < k < |ws[i].grudges| ==> ws[i].grudges[j].fadedAt <= ws[i].grudges[k].fadedAt
  {
    RunInv(ws, es, i);
    hide HeldOf;
  }

  // ── answers, quiet resets, reloads ──

  lemma {:induction false} AnswerElsewhere(s: State, x: Band, b: Band, k: int)
    requires x != b
    ensures SameBand(ViewOf(MarkAnswered(s, x), b, k), ViewOf(s, b, k))
  {
    hide CallAt;
    hide Decide;
  }

  lemma {:induction false} ViewParts(s: State, b: Band, k: int)
    ensures ViewOf(s, b, k).call == CallAt(s.calls, k)
  {
  }

  lemma {:induction false} AnswerIsStep(s: State, x: Band, inp: Input)
    requires x in inp.answered
    ensures AnswerActiveStep(s, x, inp) == MarkAnswered(s, x)
    ensures var t := MarkAnswered(s, x);
      t == s.(episodes := t.episodes, calls := t.calls) && |t.calls| == |s.calls|
  {
  }

  lemma {:induction false} AnswerOnBand(s: State, x: Band, b: Band, now: int, k: int)
    requires EpsOk(s, now) && CallsOk(s.calls, now) && CallOn(s.calls, b, k)
    ensures var t, v := MarkAnswered(s, x), ViewOf(s, b, k);
      && t == s.(episodes := t.episodes, calls := t.calls) && |t.calls| == |s.calls|
      && ViewOf(t, b, k) ==
         if b == x && v.ep.Some? && !v.ep.value.answered then
           v.(ep := Some(v.ep.value.(answered := true)), call := Ruling(v.call, v.ep.value.callId, Answered))
         else v
  {
    hide EpsOk;
    hide CallsOk;
    hide Ruling;
    hide CallOn;
    hide LinkOk;
    hide CallAt;
    hide Linked;
    hide ViewOf;
    hide AnswerActiveStep;
    var inp := Input(now, [], None, {x}, None, map[], {}, false, false);
    AnswerIsStep(s, x, inp);
    EpsLinked(s, x, now);
    AnswerCall(s, x, b, inp, k);
    ViewParts(s, b, k);
    ViewParts(MarkAnswered(s, x), b, k);
    if x == b {
      AnswerSeen(s, b, inp, k);
    } else {
      AnswerElsewhere(s, x, b, k);
    }
  }

  lemma {:induction false} ApplyAnswer(w: World, e: Event)
    requires e.AnswerEvent?
    ensures Apply(w, e) == w.(s := MarkAnswered(w.s, e.band))
  {
  }

  lemma {:induction false} InvSound(w: World)
    requires Inv(w)
    ensures EpsOk(w.s, w.now) && CallsOk(w.s.calls, w.now)
  {
  }

  /** An answer marks the band's episode, decides the call it is linked to, and changes nothing else. */
  lemma {:induction false} AnswerInRun(ws: seq<World>, es: seq<Event>, i: nat, b: Band, k: int)
    requires IsRun(ws, es) && i < |es| && es[i].AnswerEvent? && CallOn(ws[i].s.calls, b, k)
    ensures |ws| == |es| + 1
    ensures var v, u := ViewOf(ws[i].s, b, k), ViewOf(ws[i + 1].s, b, k);
      u == if b == es[i].band && v.ep.Some? && !v.ep.value.answered then
             v.(ep := Some(v.ep.value.(answered := true)), call := Ruling(v.call, v.ep.value.callId, Answered))
           else v
    ensures ws[i + 1] == ws[i].(s := ws[i].s.(episodes := ws[i + 1].s.episodes, calls := ws[i + 1].s.calls))
    ensures |ws[i + 1].s.calls| == |ws[i].s.calls|
  {
    hide Inv;
    hide Apply;
    RunInv(ws, es, i);
    RunStep(ws, es, i);
    InvSound(ws[i]);
    ApplyAnswer(ws[i], es[i]);
    AnswerOnBand(ws[i].s, es[i].band, b, ws[i].now, k);
  }

  lemma {:induction false} ResyncOnBand(s: State, order: seq<Band>, b: Band, k: int)
    requires Enumerates(order, s, [])
    ensures var t := Resync(s, order);
      && ViewOf(t, b, k) == ViewBegun(ViewOf(s, b, k), b, false)
      && t == s.(episodes := map[], recent := map[], cooldownUntil := t.cooldownUntil, calls := t.calls,
                 polls := [], lastPollAt := 0, ctxKey := None)
      && |t.calls| == |s.calls|
  {
    hide EndingCooldowns;
    hide ViewBegun;
    EndingCooldownsOnlyCools(s, order);
    ResyncSeen(s, order, b, k);
  }

  /**
   A quiet reset ends every episode, cools down the bands that spoke from when they were last seen, voids
   what is pending, and makes the next poll a first one.
   */
  lemma {:induction false} ResyncInRun(ws: seq<World>, es: seq<Event>, i: nat, b: Band, k: int)
    requires IsRun(ws, es) && i < |es| && es[i].ResyncEvent?
    ensures |ws| == |es| + 1
    ensures var t, s := ws[i + 1].s, ws[i].s;
      && ViewOf(t, b, k) == ViewBegun(ViewOf(s, b, k), b, false)
      && t == s.(episodes := map[], recent := map[], cooldownUntil := t.cooldownUntil, calls := t.calls,
                 polls := [], lastPollAt := 0, ctxKey := None)
      && |t.calls| == |s.calls|
  {
    hide Inv;
    hide ViewBegun;
    RunStep(ws, es, i);
    ResyncOnBand(ws[i].s, es[i].order, b, k);
  }

  /** The time of the last call on a band. */
  function LastCallTs(calls: seq<Call>, b: Band): (t: Option<int>)
    ensures t.None? <==> forall i :: 0 <= i < |calls| ==> calls[i].band != b
    ensures t.Some? ==> exists i :: 0 <= i < |calls| && calls[i].band == b && calls[i].ts == t.value
  {
    if calls == [] then None
    else if calls[|calls| - 1].band == b then Some(calls[|calls| - 1].ts)
    else LastCallTs(calls[..|calls| - 1], b)
  }

  lemma {:induction false} CooldownFloorGrows(calls: seq<Call>, now: int, b: Band)
    requires CallsOk(calls, now) && calls != []
    ensures var n := |calls| - 1;
      var m, rest := CooldownFloor(calls), CooldownFloor(calls[..n]);
      if calls[n].band == b then
        b in m && m[b] == Max(if b in rest then rest[b] else 0, calls[n].ts + CooldownMs(b))
      else (b in m <==> b in rest) && (b in m ==> m[b] == rest[b])
  {
    hide CooldownMs;
  }

  lemma {:induction false} EarlierOnBand(calls: seq<Call>, now: int, b: Band)
    requires CallsOk(calls, now) && calls != []
    ensures var t := LastCallTs(calls[..|calls| - 1], b); t.Some? ==> t.value < calls[|calls| - 1].ts
    ensures CallsOk(calls[..|calls| - 1], now) && calls[|calls| - 1].ts > 0
  {
    hide LastCallTs;
  }

  /** The cooldowns a page is loaded with: per band, the profile's cooldown after its last stored call. */
  lemma {:induction false} RestoredCooldowns(calls: seq<Call>, now: int, b: Band)
    requires CallsOk(calls, now)
    ensures var m, t := CooldownFloor(calls), LastCallTs(calls, b);
      (b in m <==> t.Some?) && (b in m ==> m[b] == t.value + CooldownMs(b))
  {
    hide CallsOk;
    hide CooldownMs;
    if calls == [] {
    } else {
      var n := |calls| - 1;
      EarlierOnBand(calls, now, b);
      RestoredCooldowns(calls[..n], now, b);
      CooldownFloorGrows(calls, now, b);
      hide CooldownFloor;
    }
  }

  lemma {:induction false} StoredFit(w: World)
    requires Inv(w)
    ensures |w.s.calls| <= 60 && |w.s.grudges| <= 60
  {
    HeldIsSuffix(w.s.grudges, w.grudges);
  }

  lemma {:induction false} ReloadIs(w: World, e: Event, b: Band)
    requires e.ReloadEvent? && |w.s.calls| <= 60 && |w.s.grudges| <= 60
    ensures var s, t, m := w.s, Apply(w, e).s, CooldownFloor(w.s.calls);
      && t.calls == s.calls && t.grudges == s.grudges
      && t.episodes == map[] && t.recent == map[] && t.polls == [] && t.lastPollAt == 0
      && t.ctxKey == None && t.day == None && t.lastSpokeBand == None
      && t.lastSpokeAt == LatestTs(s.calls) && CoolAt(t, b) == (if b in m then Some(m[b]) else None)
  {
    hide CooldownFloor;
    hide LatestTs;
  }

  /**
   A reload keeps the stored calls and grudges and forgets the rest; the bands cool down from their last
   stored call, and the gap counts from the last one of all.
   */
  lemma {:induction false} ReloadInRun(ws: seq<World>, es: seq<Event>, i: nat, b: Band)
    requires IsRun(ws, es) && i < |es| && es[i].ReloadEvent?
    ensures |ws| == |es| + 1
    ensures var s, t := ws[i].s, ws[i + 1].s;
      && t.calls == s.calls && t.grudges == s.grudges
      && t.episodes == map[] && t.recent == map[] && t.polls == [] && t.lastPollAt == 0
      && t.ctxKey == None && t.day == None && t.lastSpokeBand == None
      && t.lastSpokeAt == (if s.calls == [] then 0 else s.calls[|s.calls| - 1].ts)
      && CoolAt(t, b) == (if LastCallTs(s.calls, b).Some? then Some(LastCallTs(s.calls, b).value + CooldownMs(b))
                          else None)
  {
    hide Inv;
    hide Apply;
    hide CanHappen;
    hide CallsOk;
    hide CooldownMs;
    hide LastCallTs;
    hide CoolAt;
    hide LatestTs;
    hide CooldownFloor;
    RunInv(ws, es, i);
    RunStep(ws, es, i);
    InvSound(ws[i]);
    StoredFit(ws[i]);
    ReloadIs(ws[i], es[i], b);
    LatestTsIsLast(ws[i].s.calls, ws[i].now);
    RestoredCooldowns(ws[i].s.calls, ws[i].now, b);
  }

  // ── a resented fade is stored ──

  function BandsOf(gs: seq<Grudge>): set<Band> { set i | 0 <= i < |gs| :: gs[i].band }

  lemma {:induction false} BandsDistinct(gs: seq<Grudge>)
    requires OncePerBand(gs)
    ensures |BandsOf(gs)| == |gs|
  {
    if gs == [] {
      assert BandsOf(gs) == {};
    } else {
      var n := |gs| - 1;
      BandsDistinct(gs[..n]);
      assert BandsOf(gs) == BandsOf(gs[..n]) + {gs[n].band};
    }
  }

  lemma {:induction false} NineBands(a: set<Band>)
    requires forall b :: b in a ==> !b.OtherBand?
    ensures |a| <= 9
  {
    var all := {M80, M40, M30, M20, M17, M15, M12, M10, M6};
    assert a <= all;
    assert all == a + (all - a);
    assert |all| == 9;
  }

  lemma {:induction false} FewAdded(s: State, inp: Input, added: seq<Grudge>, before: int)
    requires EpsOk(s, before)
    requires OncePerBand(added) && forall g :: g in added ==> exists b :: Begrudged(s, inp, b, g)
    ensures |added| <= 9 && forall g :: g in added ==> g.fadedAt == inp.now
  {
    forall g | g in added ensures g.fadedAt == inp.now && !g.band.OtherBand? {
      var b :| Begrudged(s, inp, b, g);
      assert EpOk(b, s.episodes[b], before);
    }
    BandsDistinct(added);
    NineBands(BandsOf(added));
  }

  lemma {:induction false} HeldFrom(held: seq<Grudge>, all: seq<Grudge>, from: nat, now: int)
    requires HeldOf(held, all) && from <= |all| <= from + 9
    requires forall j :: from <= j < |all| ==> all[j].fadedAt == now
    ensures |all| - |held| <= from
  {
  }

  /** Grudges of the last poll, nine at most, are all held. */
  lemma {:induction false} NewOnesHeld(held: seq<Grudge>, old_: seq<Grudge>, added: seq<Grudge>, now: int)
    requires HeldOf(held, old_ + added) && |added| <= 9
    requires forall g :: g in added ==> g.fadedAt == now
    ensures forall g :: g in added ==> g in held
  {
    var all := old_ + added;
    var d := |all| - |held|;
    HeldFrom(held, all, |old_|, now);
    forall g | g in added ensures g in held {
      var j :| 0 <= j < |added| && added[j] == g;
      assert held[j + |old_| - d] == all[j + |old_|] == g;
    }
  }

  /** One entry of `added` is `g`, and no other is about its band. */
  ghost predicate OnceIn(added: seq<Grudge>, g: Grudge) {
    exists j :: 0 <= j < |added| && added[j] == g
                && forall k :: 0 <= k < |added| && added[k].band == g.band ==> k == j
  }

  lemma {:induction false} InOnce(added: seq<Grudge>, g: Grudge)
    requires OncePerBand(added) && g in added
    ensures OnceIn(added, g)
  {
    var j :| 0 <= j < |added| && added[j] == g;
    forall k | 0 <= k < |added| && added[k].band == g.band ensures k == j {
    }
  }

  /**
   An episode spoken up to rung 1, observed for five minutes, never answered and not yet held against the
   operator gets exactly one entry in the poll in which it fades, and the page stores it.
   */
  lemma {:induction false} ResentedFadeIsHeld(ws: seq<World>, es: seq<Event>, i: nat, b: Band)
    requires IsRun(ws, es) && i < |es| && es[i].PollEvent? && |ws| == |es| + 1
    requires var s, inp := ws[i].s, es[i].inp;
      && GoesOn(s, inp) && b in s.episodes
      && Fading(s.episodes[b], FirstRec(inp.recs, b), inp) && Resented(s.episodes[b])
    ensures var w, v, e := ws[i], ws[i + 1], ws[i].s.episodes[b];
      var g := Grudge(b, e.kind, e.reason, RoundRate(e.peakRate), e.firstSeenAt, es[i].inp.now);
      && g in v.s.grudges
      && exists added :: v.grudges == w.grudges + added && OnceIn(added, g)
  {
    hide IsRun;
    hide Fading;
    hide FirstRec;
    hide Resented;
    hide RoundRate;
    hide Inv;
    hide GoesOn;
    hide HeldOf;
    hide OnceIn;
    hide OncePerBand;
    hide Enumerates;
    hide EpsOk;
    hide CallsOk;
    hide Poll;
    hide AfterPoll;
    var w, v, inp, e := ws[i], ws[i + 1], es[i].inp, ws[i].s.episodes[b];
    var g := Grudge(b, e.kind, e.reason, RoundRate(e.peakRate), e.firstSeenAt, inp.now);
    GrudgesInRun(ws, es, i);
    PollStep(ws, es, i);
    HeldInRun(ws, es, i + 1);
    var added :| v.grudges == w.grudges + added && OncePerBand(added)
                 && forall x :: x in added <==> GoesOn(w.s, inp) && exists y :: Begrudged(w.s, inp, y, x);
    assert Begrudged(w.s, inp, b, g);
    InOnce(added, g);
    FewAdded(w.s, inp, added, w.now);
    NewOnesHeld(v.s.grudges, w.grudges, added, inp.now);
  }
}
