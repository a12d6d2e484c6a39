/**
 What every band-by-band step of a poll keeps: the facts about episodes, the link between pending
 calls and the episodes they were spoken for, and the identity of episodes through fades and merges.
 */
module KevinSteps {
  import opened Basics
  import opened KevinState
  import opened KevinReduce

  // ── episodes ──

  ghost predicate EpOk(b: Band, ep: Episode, now: int) {
    && ep.band == b && !b.OtherBand?
    && 0 < ep.firstSeenAt <= ep.lastCountedAt <= ep.lastSeenAt <= now
    && 0 <= ep.observedMs <= ep.lastSeenAt - ep.firstSeenAt
    && 1 <= ep.seenPolls
    && (ep.seenPolls - 1) * MIN_SIGHTING_GAP_MS <= ep.lastCountedAt - ep.firstSeenAt
    && -1 <= ep.rung <= MAX_LIVE_RUNG
    && (ep.spoken <==> ep.rung >= 0)
    && (ep.callId.Some? <==> ep.rung >= 0)
    && (ep.rung >= 0 ==> ep.confirmed)
    && (ep.confirmed ==> ep.seenPolls >= ConfirmPolls(b))
    && (ep.callId.Some? ==> ep.callId.value.band == b && ep.firstSeenAt <= ep.callId.value.ts <= ep.lastSeenAt)
  }

  /** Recommendations only reach the steps for bands Kevin may dare at all. */
  ghost predicate RecsInScope(recs: map<Band, Rec>) {
    forall b :: b in recs ==> !b.OtherBand?
  }

  ghost predicate RecentOk(b: Band, r: Ended, now: int) {
    EpOk(b, r.episode, now) && r.episode.confirmed && r.episode.lastSeenAt + FADE_GRACE_MS <= r.endedAt <= now
  }

  ghost predicate EpsOk(s: State, now: int) {
    && (forall b :: b in s.episodes ==> EpOk(b, s.episodes[b], now))
    && (forall b :: b in s.recent ==> RecentOk(b, s.recent[b], now))
    && (forall b :: b in s.episodes ==> b !in s.recent)
  }

  // ── calls ──

  /** Calls are kept oldest first, at most one per millisecond, never more than the cap. */
  ghost predicate CallsOk(calls: seq<Call>, now: int) {
    && |calls| <= MAX_CALLS
    && (forall i :: 0 <= i < |calls| ==>
          0 < calls[i].ts <= now && calls[i].id == CallId(calls[i].ts, calls[i].band)
          && calls[i].rung == 0 && !calls[i].band.OtherBand?)
    && (forall i, j :: 0 <= i < j < |calls| ==> calls[i].ts < calls[j].ts)
  }

  /** The same call, with a verdict if it was still pending. */
  ghost predicate Ruled(c: Call, d: Call) {
    d == c || (c.verdict == Pending && d == c.(verdict := d.verdict))
  }

  ghost predicate Evolved(before: seq<Call>, after: seq<Call>) {
    |after| == |before| && forall i :: 0 <= i < |before| ==> Ruled(before[i], after[i])
  }

  lemma {:induction false} EvolvedTrans(a: seq<Call>, b: seq<Call>, c: seq<Call>)
    requires Evolved(a, b) && Evolved(b, c)
    ensures Evolved(a, c)
  {
    forall i | 0 <= i < |a| ensures Ruled(a[i], c[i]) {
      assert Ruled(a[i], b[i]) && Ruled(b[i], c[i]);
    }
  }

  lemma {:induction false} EvolvedKeepsCalls(a: seq<Call>, b: seq<Call>, now: int)
    requires Evolved(a, b) && CallsOk(a, now)
    ensures CallsOk(b, now)
  {
    forall i | 0 <= i < |b|
      ensures b[i].ts == a[i].ts && b[i].id == a[i].id && b[i].band == a[i].band && b[i].rung == a[i].rung
    {
      assert Ruled(a[i], b[i]);
    }
  }

  ghost predicate Overdue(c: Call, now: int) { now - c.ts >= VerdictMs(c.band) }

  /** The band's cooldown outlasts the verdict window of `c` by far. */
  ghost predicate CoolsPast(s: State, c: Call) {
    c.band in s.cooldownUntil && c.ts + FADE_GRACE_MS + CooldownMs(c.band) <= s.cooldownUntil[c.band]
  }

  /**
   Why no second call can become pending on the band of the pending call `c`: it is due, linked to its
   episode, or kept apart by a cooldown. Calls made up to `since` are exempt: a page restores them
   without their episodes.
   */
  ghost predicate Tracked(s: State, c: Call, now: int, since: int) {
    var b := c.band;
    || c.ts <= since
    || Overdue(c, now)
    || (b in s.episodes && s.episodes[b].callId == Some(c.id))
    || (CoolsPast(s, c) && c.ts + FADE_GRACE_MS <= now
        && if b in s.recent then s.recent[b].episode.callId == Some(c.id)
           else b in s.episodes ==> s.episodes[b].firstSeenAt >= c.ts + FADE_GRACE_MS)
  }

  ghost predicate PendingTracked(s: State, now: int, since: int) {
    forall i :: 0 <= i < |s.calls| && s.calls[i].verdict == Pending ==> Tracked(s, s.calls[i], now, since)
  }

  /** Of two pending calls on one band the older is due for its verdict, or as old as `since`. */
  ghost predicate OnePending(calls: seq<Call>, now: int, since: int) {
    forall i, j :: (0 <= i < j < |calls| && calls[i].verdict == Pending && calls[j].verdict == Pending
                    && calls[i].band == calls[j].band) ==> calls[i].ts <= since || Overdue(calls[i], now)
  }

  lemma {:induction false} EvolvedKeepsOnePending(a: seq<Call>, b: seq<Call>, now: int, since: int)
    requires Evolved(a, b) && OnePending(a, now, since)
    ensures OnePending(b, now, since)
  {
    forall i, j | 0 <= i < j < |b| && b[i].verdict == Pending && b[j].verdict == Pending && b[i].band == b[j].band
      ensures b[i].ts <= since || Overdue(b[i], now)
    {
      assert Ruled(a[i], b[i]) && Ruled(a[j], b[j]);
    }
  }

  // ── the episode of a band, active or recently ended ──

  function LiveAt(s: State, b: Band): Option<Episode> {
    if b in s.episodes then Some(s.episodes[b])
    else if b in s.recent then Some(s.recent[b].episode)
    else None
  }

  ghost predicate Continues(e: Episode, f: Episode) {
    && f.firstSeenAt == e.firstSeenAt && f.rung == e.rung && f.callId == e.callId
    && (e.answered ==> f.answered) && (e.grudged ==> f.grudged)
  }

  ghost predicate Fresh(e: Episode, now: int) { e.firstSeenAt == now && e.rung == -1 }

  /** Every live episode of `t` is one of `s` continued, or new. */
  ghost predicate LiveFrom(s: State, t: State, now: int) {
    forall b :: LiveAt(t, b).Some? ==>
      || Fresh(LiveAt(t, b).value, now)
      || (LiveAt(s, b).Some? && Continues(LiveAt(s, b).value, LiveAt(t, b).value))
  }

  // ── one step ──

  /** The episode, the ended episode and the cooldown of every other band are as before. */
  ghost predicate OthersKept(s: State, t: State, b: Band) {
    forall x :: x != b ==>
      && (x in t.episodes <==> x in s.episodes) && (x in t.episodes ==> t.episodes[x] == s.episodes[x])
      && (x in t.recent <==> x in s.recent) && (x in t.recent ==> t.recent[x] == s.recent[x])
      && (x in t.cooldownUntil <==> x in s.cooldownUntil)
      && (x in t.cooldownUntil ==> t.cooldownUntil[x] == s.cooldownUntil[x])
  }

  ghost predicate SlotOk(s: State, b: Band, now: int) {
    && (b in s.episodes ==> EpOk(b, s.episodes[b], now))
    && (b in s.recent ==> RecentOk(b, s.recent[b], now))
    && (b in s.episodes ==> b !in s.recent)
  }

  ghost predicate SlotFrom(s: State, t: State, b: Band, now: int) {
    LiveAt(t, b).Some? ==>
      || Fresh(LiveAt(t, b).value, now)
      || (LiveAt(s, b).Some? && Continues(LiveAt(s, b).value, LiveAt(t, b).value))
  }

  ghost predicate StepOk(s: State, t: State, b: Band, now: int) {
    && OthersKept(s, t, b) && SlotOk(t, b, now) && SlotFrom(s, t, b, now)
    && Evolved(s.calls, t.calls)
    && t.lastSpokeAt == s.lastSpokeAt && t.lastSpokeBand == s.lastSpokeBand
    && t.day == s.day && t.dareCount == s.dareCount && t.lastPollAt == s.lastPollAt
  }

  lemma {:induction false} SlotsOk(t: State, now: int)
    requires forall x :: SlotOk(t, x, now)
    ensures EpsOk(t, now)
  {
    forall x | x in t.episodes ensures EpOk(x, t.episodes[x], now) && x !in t.recent {
      assert SlotOk(t, x, now);
    }
    forall x | x in t.recent ensures RecentOk(x, t.recent[x], now) {
      assert SlotOk(t, x, now);
    }
  }

  lemma {:induction false} SlotsLive(s: State, t: State, now: int)
    requires forall x :: SlotFrom(s, t, x, now)
    ensures LiveFrom(s, t, now)
  {
    hide LiveAt;
    forall x | LiveAt(t, x).Some?
      ensures Fresh(LiveAt(t, x).value, now)
              || (LiveAt(s, x).Some? && Continues(LiveAt(s, x).value, LiveAt(t, x).value))
    {
      assert SlotFrom(s, t, x, now);
    }
  }

  lemma {:induction false} OtherSlotKept(s: State, t: State, b: Band, x: Band, now: int)
    requires OthersKept(s, t, b) && x != b && EpsOk(s, now)
    ensures SlotOk(t, x, now) && LiveAt(t, x) == LiveAt(s, x)
  {
    assert SlotOk(s, x, now);
  }

  lemma {:induction false} StepOkLifts(s: State, t: State, b: Band, now: int)
    requires StepOk(s, t, b, now) && EpsOk(s, now)
    ensures EpsOk(t, now) && LiveFrom(s, t, now)
  {
    hide EpOk;
    hide RecentOk;
    hide Evolved;
    hide OthersKept;
    forall x ensures SlotOk(t, x, now) && SlotFrom(s, t, x, now) {
      if x != b {
        OtherSlotKept(s, t, b, x, now);
      }
    }
    SlotsOk(t, now);
    SlotsLive(s, t, now);
  }

  lemma {:induction false} DecideEvolves(calls: seq<Call>, id: CallId, v: Verdict)
    ensures Evolved(calls, Decide(calls, id, v))
  {
  }

  /** Putting an episode at its band, in place of whatever the band had. */
  lemma {:induction false} PutOk(s: State, t: State, b: Band, ep: Episode, now: int)
    requires EpOk(b, ep, now)
    requires Fresh(ep, now) || (LiveAt(s, b).Some? && Continues(LiveAt(s, b).value, ep))
    requires b !in t.recent && Evolved(s.calls, t.calls)
    requires t.recent == s.recent - {b}
    requires t.cooldownUntil == s.cooldownUntil || t.cooldownUntil == s.cooldownUntil - {b}
    requires t == s.(episodes := s.episodes[b := ep], recent := t.recent, cooldownUntil := t.cooldownUntil,
                     calls := t.calls)
    ensures StepOk(s, t, b, now)
  {
  }

  lemma {:induction false} SameOk(s: State, b: Band, now: int)
    requires SlotOk(s, b, now)
    ensures StepOk(s, s, b, now)
  {
    hide EpOk;
  }

  /** Dropping the episode at its band. */
  lemma {:induction false} DropOk(s: State, b: Band, now: int)
    requires SlotOk(s, b, now) && b in s.episodes
    ensures StepOk(s, s.(episodes := s.episodes - {b}), b, now)
  {
    hide EpOk;
    hide RecentOk;
    var t := s.(episodes := s.episodes - {b});
    assert OthersKept(s, t, b);
    hide OthersKept;
    assert b !in t.episodes;
  }

  lemma {:induction false} AnsweredEpOk(b: Band, ep: Episode, now: int)
    requires EpOk(b, ep, now)
    ensures EpOk(b, ep.(answered := true), now)
  {
  }

  lemma {:induction false} AnswerOk(s: State, b: Band, now: int)
    requires b in s.episodes && SlotOk(s, b, now)
    ensures StepOk(s, AnswerEpisode(s, b), b, now)
    ensures b in AnswerEpisode(s, b).episodes && AnswerEpisode(s, b).episodes[b] == s.episodes[b].(answered := true)
  {
    hide EpOk;
    hide StepOk;
    var ep, t := s.episodes[b], AnswerEpisode(s, b);
    SameOk(s, b, now);
    if !ep.answered {
      AnsweredEpOk(b, ep, now);
      if ep.callId.Some? {
        DecideEvolves(s.calls, ep.callId.value, Answered);
      }
      assert t.recent == s.recent - {b};
      PutOk(s, t, b, ep.(answered := true), now);
    }
  }

  /** An episode about to be put at its band with the current time as its last sighting. */
  ghost predicate Sightable(ep: Episode, b: Band, now: int) {
    EpOk(b, ep.(lastSeenAt := now), now)
  }

  lemma {:induction false} CountingKeepsEp(b: Band, ep: Episode, now: int)
    requires EpOk(b, ep, now)
    ensures Sightable(Accrue(ep, now), b, now)
    ensures Sightable(CountSighting(Accrue(ep, now), now), b, now)
    ensures Continues(ep, CountSighting(Accrue(ep, now), now))
  {
  }

  lemma {:induction false} SightedOk(b: Band, ep: Episode, rec: Rec, taken: bool, now: int)
    requires Sightable(ep, b, now)
    ensures var sighted := Sight(ep, rec, now);
      var f := Confirm(if taken then sighted.(answered := true) else sighted);
      EpOk(b, f, now) && Continues(ep, f)
  {
  }

  lemma {:induction false} PutSightedOk(s: State, b: Band, ep: Episode, rec: Rec, inp: Input)
    requires Sightable(ep, b, inp.now)
    ensures var t := PutSighted(s, b, ep, rec, inp);
      && b in t.episodes && EpOk(b, t.episodes[b], inp.now) && Continues(ep, t.episodes[b])
      && Evolved(s.calls, t.calls)
      && t == s.(episodes := s.episodes[b := t.episodes[b]], calls := t.calls)
  {
    SightedOk(b, ep, rec, b in inp.answered && !ep.answered, inp.now);
    if ep.callId.Some? {
      DecideEvolves(s.calls, ep.callId.value, Answered);
    }
  }

  lemma {:induction false} LeaveScopeOk(s: State, b: Band, inp: Input)
    requires SlotOk(s, b, inp.now)
    ensures StepOk(s, LeaveScopeStep(s, b, inp), b, inp.now)
  {
    if b in s.episodes && s.episodes[b].callId.Some? {
      DecideEvolves(s.calls, s.episodes[b].callId.value, Void);
    }
  }

  lemma {:induction false} SeeAgainOk(s: State, b: Band, rec: Rec, inp: Input)
    requires SlotOk(s, b, inp.now) && b in s.episodes
    ensures StepOk(s, PutSighted(s, b, CountSighting(Accrue(s.episodes[b], inp.now), inp.now), rec, inp), b, inp.now)
  {
    var ep := CountSighting(Accrue(s.episodes[b], inp.now), inp.now);
    CountingKeepsEp(b, s.episodes[b], inp.now);
    PutSightedOk(s, b, ep, rec, inp);
    var t := PutSighted(s, b, ep, rec, inp);
    assert t.recent == s.recent - {b};
    PutOk(s, t, b, t.episodes[b], inp.now);
  }

  /** Back within the merge window: the ended episode goes on and the band's cooldown is lifted. */
  lemma {:induction false} MergeOk(s: State, b: Band, rec: Rec, inp: Input)
    requires SlotOk(s, b, inp.now) && b in s.recent
    ensures var s1 := s.(recent := s.recent - {b}, cooldownUntil := s.cooldownUntil - {b});
      StepOk(s, PutSighted(s1, b, CountSighting(Accrue(s.recent[b].episode, inp.now), inp.now), rec, inp), b, inp.now)
  {
    var s1 := s.(recent := s.recent - {b}, cooldownUntil := s.cooldownUntil - {b});
    var ep := CountSighting(Accrue(s.recent[b].episode, inp.now), inp.now);
    CountingKeepsEp(b, s.recent[b].episode, inp.now);
    PutSightedOk(s1, b, ep, rec, inp);
    var t := PutSighted(s1, b, ep, rec, inp);
    PutOk(s, t, b, t.episodes[b], inp.now);
  }

  lemma {:induction false} OpenOk(s: State, b: Band, rec: Rec, inp: Input)
    requires SlotOk(s, b, inp.now) && inp.now > 0 && b !in s.episodes && b !in s.recent && !b.OtherBand?
    ensures StepOk(s, PutSighted(s, b, NewEpisode(b, rec, inp.now), rec, inp), b, inp.now)
  {
    var ep := NewEpisode(b, rec, inp.now);
    PutSightedOk(s, b, ep, rec, inp);
    var t := PutSighted(s, b, ep, rec, inp);
    assert t.recent == s.recent - {b};
    PutOk(s, t, b, t.episodes[b], inp.now);
  }

  lemma {:induction false} SeePresentOk(s: State, b: Band, rec: Rec, inp: Input)
    requires SlotOk(s, b, inp.now) && inp.now > 0 && !b.OtherBand?
    ensures StepOk(s, SeePresentStep(s, b, rec, inp), b, inp.now)
  {
    hide EpOk;
    hide StepOk;
    SameOk(s, b, inp.now);
    if b in s.episodes {
      SeeAgainOk(s, b, rec, inp);
    } else if b in s.recent {
      MergeOk(s, b, rec, inp);
    } else {
      OpenOk(s, b, rec, inp);
    }
  }

  lemma {:induction false} FadeOk(w: Work, b: Band, now: int)
    requires SlotOk(w.s, b, now) && b in w.s.episodes
    requires w.s.episodes[b].confirmed && now - w.s.episodes[b].lastSeenAt >= FADE_GRACE_MS
    ensures StepOk(w.s, FadeStep(w, b, now).s, b, now)
  {
  }

  lemma {:induction false} SeeAbsentOk(w: Work, b: Band, inp: Input)
    requires SlotOk(w.s, b, inp.now) && b in w.s.episodes
    ensures StepOk(w.s, SeeAbsentStep(w, b, inp).s, b, inp.now)
  {
    hide StepOk;
    var s, now := w.s, inp.now;
    var ep := s.episodes[b];
    CountingKeepsEp(b, ep, now);
    SameOk(s, b, now);
    DropOk(s, b, now);
    hide EpOk;
    assert s.recent == s.recent - {b};
    if ep.answered && b in inp.answered {
      var f := Accrue(ep, now).(lastSeenAt := now);
      PutOk(s, s.(episodes := s.episodes[b := f]), b, f, now);
    } else if !ep.confirmed {
    } else if b in inp.holding && IsHoldingOpen(inp.holding[b], ep.peakRate) {
      var f := CountSighting(Accrue(ep, now), now).(lastSeenAt := now);
      PutOk(s, s.(episodes := s.episodes[b := f]), b, f, now);
    } else if now - ep.lastSeenAt >= FADE_GRACE_MS {
      FadeOk(w, b, now);
    }
  }

  lemma {:induction false} ExpireRecentOk(s: State, b: Band, inp: Input)
    requires SlotOk(s, b, inp.now)
    ensures StepOk(s, ExpireRecentStep(s, b, inp), b, inp.now)
  {
  }

  lemma {:induction false} AnswerActiveOk(s: State, b: Band, inp: Input)
    requires SlotOk(s, b, inp.now)
    ensures StepOk(s, AnswerActiveStep(s, b, inp), b, inp.now)
  {
    if b in s.episodes {
      AnswerOk(s, b, inp.now);
    }
  }

  lemma {:induction false} GateUnspokenOk(s: State, b: Band, inp: Input)
    requires SlotOk(s, b, inp.now)
    ensures StepOk(s, GateUnspokenStep(s, b, inp), b, inp.now)
  {
  }

  lemma {:induction false} StepIsOk(phase: Phase, w: Work, b: Band, inp: Input, recs: map<Band, Rec>)
    requires SlotOk(w.s, b, inp.now) && inp.now > 0 && RecsInScope(recs)
    ensures StepOk(w.s, Step(phase, w, b, inp, recs).s, b, inp.now)
  {
    match phase
    case LeaveScope => LeaveScopeOk(w.s, b, inp);
    case ExpireRecent => ExpireRecentOk(w.s, b, inp);
    case AnswerActive => AnswerActiveOk(w.s, b, inp);
    case SeePresent => if b in recs { SeePresentOk(w.s, b, recs[b], inp); }
    case SeeAbsent => if b in w.s.episodes && b !in recs { SeeAbsentOk(w, b, inp); }
    case GateUnspoken => GateUnspokenOk(w.s, b, inp);
  }
}
