/**
 A pending call and the episode it was spoken for. Through every step of a poll a pending call is
 linked to its band's episode, or its band is cooling down, or it is due for its verdict, unless the
 page was loaded with it.
 */
module KevinPending {
  import opened Basics
  import opened KevinState
  import opened KevinReduce
  import opened KevinSteps

  ghost predicate TrackedAt(s: State, b: Band, now: int, since: int) {
    forall i :: 0 <= i < |s.calls| && s.calls[i].verdict == Pending && s.calls[i].band == b
                ==> Tracked(s, s.calls[i], now, since)
  }

  lemma {:induction false} TrackedLifts(s: State, t: State, b: Band, now: int, since: int)
    requires OthersKept(s, t, b) && Evolved(s.calls, t.calls)
    requires PendingTracked(s, now, since) && TrackedAt(t, b, now, since)
    ensures PendingTracked(t, now, since)
  {
    forall i | 0 <= i < |t.calls| && t.calls[i].verdict == Pending ensures Tracked(t, t.calls[i], now, since) {
      assert Ruled(s.calls[i], t.calls[i]);
      assert Tracked(s, s.calls[i], now, since);
    }
  }

  /** The step leaves the band with an episode that continues its active one. */
  lemma {:induction false} ContinuedTracks(s: State, t: State, b: Band, now: int, since: int)
    requires TrackedAt(s, b, now, since) && Evolved(s.calls, t.calls)
    requires b in s.episodes && b in t.episodes && Continues(s.episodes[b], t.episodes[b])
    requires t.recent == s.recent && t.cooldownUntil == s.cooldownUntil
    ensures TrackedAt(t, b, now, since)
  {
    forall i | 0 <= i < |t.calls| && t.calls[i].verdict == Pending && t.calls[i].band == b
      ensures Tracked(t, t.calls[i], now, since)
    {
      assert Ruled(s.calls[i], t.calls[i]);
      assert Tracked(s, s.calls[i], now, since);
    }
  }

  /** The step drops the band's active episode, which no pending call is linked to. */
  lemma {:induction false} DroppedTracks(s: State, t: State, b: Band, now: int, since: int)
    requires TrackedAt(s, b, now, since) && Evolved(s.calls, t.calls) && SlotOk(s, b, now)
    requires b in s.episodes && b !in t.episodes
    requires forall i :: 0 <= i < |t.calls| && t.calls[i].verdict == Pending
                         ==> s.episodes[b].callId != Some(t.calls[i].id)
    requires t.recent == s.recent && t.cooldownUntil == s.cooldownUntil
    ensures TrackedAt(t, b, now, since)
  {
    forall i | 0 <= i < |t.calls| && t.calls[i].verdict == Pending && t.calls[i].band == b
      ensures Tracked(t, t.calls[i], now, since)
    {
      assert Ruled(s.calls[i], t.calls[i]);
      assert Tracked(s, s.calls[i], now, since);
    }
  }

  lemma {:induction false} DecideDecides(calls: seq<Call>, now: int, id: CallId, v: Verdict, i: int)
    requires CallsOk(calls, now) && 0 <= i < |calls| && calls[i].id == id && v != Pending
    ensures Decide(calls, id, v)[i].verdict != Pending
  {
    assert forall j :: 0 <= j < i ==> calls[j].id != id;
  }

  lemma {:induction false} LeaveScopeTracks(s: State, b: Band, inp: Input, since: int)
    requires EpsOk(s, inp.now) && CallsOk(s.calls, inp.now) && TrackedAt(s, b, inp.now, since)
    ensures TrackedAt(LeaveScopeStep(s, b, inp), b, inp.now, since)
  {
    if b in s.episodes && !Allowed(b, inp) {
      var t := LeaveScopeStep(s, b, inp);
      assert SlotOk(s, b, inp.now);
      LeaveScopeOk(s, b, inp);
      forall i | 0 <= i < |t.calls| && t.calls[i].verdict == Pending
        ensures s.episodes[b].callId != Some(t.calls[i].id)
      {
        assert Ruled(s.calls[i], t.calls[i]);
        if s.episodes[b].callId == Some(s.calls[i].id) {
          DecideDecides(s.calls, inp.now, s.calls[i].id, Void, i);
        }
      }
      DroppedTracks(s, t, b, inp.now, since);
    }
  }

  lemma {:induction false} ExpireRecentTracks(s: State, b: Band, inp: Input, since: int)
    requires SlotOk(s, b, inp.now) && TrackedAt(s, b, inp.now, since)
    ensures TrackedAt(ExpireRecentStep(s, b, inp), b, inp.now, since)
  {
    var t := ExpireRecentStep(s, b, inp);
    forall i | 0 <= i < |t.calls| && t.calls[i].verdict == Pending && t.calls[i].band == b
      ensures Tracked(t, t.calls[i], inp.now, since)
    {
      assert Tracked(s, s.calls[i], inp.now, since);
    }
  }

  lemma {:induction false} AnswerActiveTracks(s: State, b: Band, inp: Input, since: int)
    requires SlotOk(s, b, inp.now) && TrackedAt(s, b, inp.now, since)
    ensures TrackedAt(AnswerActiveStep(s, b, inp), b, inp.now, since)
  {
    if b in s.episodes {
      AnswerOk(s, b, inp.now);
      ContinuedTracks(s, AnswerActiveStep(s, b, inp), b, inp.now, since);
    }
  }

  lemma {:induction false} MergeTracks(s: State, b: Band, rec: Rec, inp: Input, since: int)
    requires SlotOk(s, b, inp.now) && TrackedAt(s, b, inp.now, since) && b in s.recent && b !in s.episodes
    ensures TrackedAt(SeePresentStep(s, b, rec, inp), b, inp.now, since)
  {
    var t := SeePresentStep(s, b, rec, inp);
    var s1 := s.(recent := s.recent - {b}, cooldownUntil := s.cooldownUntil - {b});
    CountingKeepsEp(b, s.recent[b].episode, inp.now);
    PutSightedOk(s1, b, CountSighting(Accrue(s.recent[b].episode, inp.now), inp.now), rec, inp);
    assert t.episodes[b].callId == s.recent[b].episode.callId;
    forall i | 0 <= i < |t.calls| && t.calls[i].verdict == Pending && t.calls[i].band == b
      ensures Tracked(t, t.calls[i], inp.now, since)
    {
      assert Ruled(s.calls[i], t.calls[i]);
      assert Tracked(s, s.calls[i], inp.now, since);
    }
  }

  lemma {:induction false} OpenTracks(s: State, b: Band, rec: Rec, inp: Input, since: int)
    requires SlotOk(s, b, inp.now) && TrackedAt(s, b, inp.now, since) && b !in s.recent && b !in s.episodes
    requires inp.now > 0 && !b.OtherBand?
    ensures TrackedAt(SeePresentStep(s, b, rec, inp), b, inp.now, since)
  {
    var t := SeePresentStep(s, b, rec, inp);
    if !Gated(b, rec.kind, inp) {
      PutSightedOk(s, b, NewEpisode(b, rec, inp.now), rec, inp);
      assert t.episodes[b].firstSeenAt == inp.now;
      forall i | 0 <= i < |t.calls| && t.calls[i].verdict == Pending && t.calls[i].band == b
        ensures Tracked(t, t.calls[i], inp.now, since)
      {
        assert Ruled(s.calls[i], t.calls[i]);
        assert Tracked(s, s.calls[i], inp.now, since);
      }
    }
  }

  lemma {:induction false} SeePresentTracks(s: State, b: Band, rec: Rec, inp: Input, since: int)
    requires SlotOk(s, b, inp.now) && TrackedAt(s, b, inp.now, since) && inp.now > 0 && !b.OtherBand?
    ensures TrackedAt(SeePresentStep(s, b, rec, inp), b, inp.now, since)
  {
    if b in s.episodes {
      var ep := CountSighting(Accrue(s.episodes[b], inp.now), inp.now);
      CountingKeepsEp(b, s.episodes[b], inp.now);
      PutSightedOk(s, b, ep, rec, inp);
      ContinuedTracks(s, PutSighted(s, b, ep, rec, inp), b, inp.now, since);
    } else if b in s.recent {
      MergeTracks(s, b, rec, inp, since);
    } else {
      OpenTracks(s, b, rec, inp, since);
    }
  }

  /**
   A fade: a linked call gets the band's cooldown; an unlinked one was spoken at least two grace
   periods ago, since its own episode and then this one both had to stay away that long.
   */
  lemma {:induction false} FadeTracks(w: Work, b: Band, now: int, since: int)
    requires SlotOk(w.s, b, now) && TrackedAt(w.s, b, now, since) && CallsOk(w.s.calls, now) && b in w.s.episodes
    requires w.s.episodes[b].confirmed && now - w.s.episodes[b].lastSeenAt >= FADE_GRACE_MS
    ensures TrackedAt(FadeStep(w, b, now).s, b, now, since)
  {
    var s, t := w.s, FadeStep(w, b, now).s;
    var ep := s.episodes[b];
    assert b in t.recent && t.recent[b].episode.callId == ep.callId && t.calls == s.calls;
    forall i | 0 <= i < |t.calls| && t.calls[i].verdict == Pending && t.calls[i].band == b
      ensures Tracked(t, t.calls[i], now, since)
    {
      var c := s.calls[i];
      assert Tracked(s, c, now, since);
      if ep.callId == Some(c.id) {
        assert ep.spoken && c.ts <= ep.lastSeenAt;
        assert now + CooldownMs(b) <= t.cooldownUntil[b];
        assert CoolsPast(t, c);
      } else {
        assert c.ts <= since || Overdue(c, now);
      }
    }
  }

  lemma {:induction false} SameCallsEvolve(calls: seq<Call>)
    ensures Evolved(calls, calls)
  {
  }

  /** The band's episode goes on as `f`. */
  lemma {:induction false} GoneOnTracks(s: State, b: Band, f: Episode, now: int, since: int)
    requires b in s.episodes && Continues(s.episodes[b], f) && TrackedAt(s, b, now, since)
    ensures TrackedAt(s.(episodes := s.episodes[b := f]), b, now, since)
  {
    hide Tracked;
    hide Continues;
    var t := s.(episodes := s.episodes[b := f]);
    SameCallsEvolve(s.calls);
    ContinuedTracks(s, t, b, now, since);
  }

  /** An unconfirmed episode has no call to lose. */
  lemma {:induction false} BlipTracks(s: State, b: Band, now: int, since: int)
    requires b in s.episodes && !s.episodes[b].confirmed && SlotOk(s, b, now) && TrackedAt(s, b, now, since)
    ensures TrackedAt(s.(episodes := s.episodes - {b}), b, now, since)
  {
    hide Tracked;
    SameCallsEvolve(s.calls);
    DroppedTracks(s, s.(episodes := s.episodes - {b}), b, now, since);
  }

  lemma {:induction false} SeeAbsentTracks(w: Work, b: Band, inp: Input, since: int)
    requires EpsOk(w.s, inp.now) && TrackedAt(w.s, b, inp.now, since) && CallsOk(w.s.calls, inp.now)
    requires b in w.s.episodes
    ensures TrackedAt(SeeAbsentStep(w, b, inp).s, b, inp.now, since)
  {
    hide FadeStep;
    hide TrackedAt;
    hide CallsOk;
    hide EpOk;
    hide RecentOk;
    hide IsHoldingOpen;
    var s, now := w.s, inp.now;
    var ep := s.episodes[b];
    assert SlotOk(s, b, now);
    hide SlotOk;
    if ep.answered && b in inp.answered {
      GoneOnTracks(s, b, Accrue(ep, now).(lastSeenAt := now), now, since);
    } else if !ep.confirmed {
      BlipTracks(s, b, now, since);
    } else if b in inp.holding && IsHoldingOpen(inp.holding[b], ep.peakRate) {
      GoneOnTracks(s, b, CountSighting(Accrue(ep, now), now).(lastSeenAt := now), now, since);
    } else if now - ep.lastSeenAt >= FADE_GRACE_MS {
      FadeTracks(w, b, now, since);
    }
  }

  lemma {:induction false} GateUnspokenTracks(s: State, b: Band, inp: Input, since: int)
    requires SlotOk(s, b, inp.now) && TrackedAt(s, b, inp.now, since)
    ensures TrackedAt(GateUnspokenStep(s, b, inp), b, inp.now, since)
  {
    var t := GateUnspokenStep(s, b, inp);
    if b in s.episodes && b !in t.episodes {
      DroppedTracks(s, t, b, inp.now, since);
    }
  }

  lemma {:induction false} StepTracks(phase: Phase, w: Work, b: Band, inp: Input, recs: map<Band, Rec>, since: int)
    requires EpsOk(w.s, inp.now) && CallsOk(w.s.calls, inp.now) && PendingTracked(w.s, inp.now, since) && inp.now > 0
    requires RecsInScope(recs)
    ensures PendingTracked(Step(phase, w, b, inp, recs).s, inp.now, since)
  {
    assert TrackedAt(w.s, b, inp.now, since) && SlotOk(w.s, b, inp.now);
    StepIsOk(phase, w, b, inp, recs);
    match phase {
      case LeaveScope => LeaveScopeTracks(w.s, b, inp, since);
      case ExpireRecent => ExpireRecentTracks(w.s, b, inp, since);
      case AnswerActive => AnswerActiveTracks(w.s, b, inp, since);
      case SeePresent => if b in recs { SeePresentTracks(w.s, b, recs[b], inp, since); }
      case SeeAbsent => if b in w.s.episodes && b !in recs { SeeAbsentTracks(w, b, inp, since); }
      case GateUnspoken => GateUnspokenTracks(w.s, b, inp, since);
    }
    assert TrackedAt(Step(phase, w, b, inp, recs).s, b, inp.now, since);
    TrackedLifts(w.s, Step(phase, w, b, inp, recs).s, b, inp.now, since);
  }
}
