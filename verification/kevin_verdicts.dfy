/** What becomes of a call: the log of polls it is judged by, the verdict, and both along a run. */
module KevinVerdicts {
  import opened Basics
  import opened KevinState
  import opened KevinReduce
  import opened KevinSteps
  import opened KevinPending
  import opened KevinPolls
  import opened KevinRuns
  import opened KevinTheorems
  import opened KevinBands
  import opened KevinOutcomes

  // ── the verdict ──

  /** The logged polls in the verdict window of a call. */
  function SeenIn(polls: seq<PollRec>, c: Call): set<int> {
    set i | 0 <= i < |polls| && c.ts <= polls[i].ts <= c.ts + VerdictMs(c.band)
  }

  /** ... in which its band was alive: present, or in a grace that was bridged since. */
  function AliveIn(polls: seq<PollRec>, c: Call, bridged: bool): set<int> {
    set i | i in SeenIn(polls, c) && (c.band in polls[i].present || (bridged && c.band in polls[i].grace))
  }

  predicate InWindow(p: PollRec, c: Call) { c.ts <= p.ts <= c.ts + VerdictMs(c.band) }

  predicate AliveAt(p: PollRec, c: Call, bridged: bool) {
    InWindow(p, c) && (c.band in p.present || (bridged && c.band in p.grace))
  }

  lemma {:induction false} SeenGrows(polls: seq<PollRec>, p: PollRec, c: Call)
    ensures SeenIn(polls + [p], c) == SeenIn(polls, c) + if InWindow(p, c) then {|polls|} else {}
  {
    hide VerdictMs;
    var more := polls + [p];
    forall i ensures i in SeenIn(more, c) <==> i in SeenIn(polls, c) || (i == |polls| && InWindow(p, c)) {
      if 0 <= i < |polls| {
        assert more[i] == polls[i];
      }
    }
  }

  lemma {:induction false} AliveGrows(polls: seq<PollRec>, p: PollRec, c: Call, bridged: bool)
    ensures AliveIn(polls + [p], c, bridged)
      == AliveIn(polls, c, bridged) + if AliveAt(p, c, bridged) then {|polls|} else {}
  {
    hide VerdictMs;
    var more := polls + [p];
    forall i
      ensures i in AliveIn(more, c, bridged)
        <==> i in AliveIn(polls, c, bridged) || (i == |polls| && AliveAt(p, c, bridged))
    {
      if 0 <= i < |polls| {
        assert more[i] == polls[i];
      }
    }
  }

  lemma {:induction false} TallyGrows(polls: seq<PollRec>, p: PollRec, c: Call, bridged: bool)
    ensures var t, more := Tally(polls, c, bridged), Tally(polls + [p], c, bridged);
      && more.0 == t.0 + (if InWindow(p, c) then 1 else 0)
      && more.1 == t.1 + (if AliveAt(p, c, bridged) then 1 else 0)
  {
    hide VerdictMs;
    assert (polls + [p])[..|polls|] == polls;
  }

  lemma {:induction false} IndicesIn(polls: seq<PollRec>, c: Call, bridged: bool)
    ensures |polls| !in SeenIn(polls, c) && |polls| !in AliveIn(polls, c, bridged)
  {
  }

  lemma {:induction false} CountsGrow(polls: seq<PollRec>, p: PollRec, c: Call, bridged: bool)
    ensures |SeenIn(polls + [p], c)| == |SeenIn(polls, c)| + (if InWindow(p, c) then 1 else 0)
    ensures |AliveIn(polls + [p], c, bridged)|
      == |AliveIn(polls, c, bridged)| + (if AliveAt(p, c, bridged) then 1 else 0)
  {
    hide SeenIn;
    hide AliveIn;
    hide InWindow;
    hide AliveAt;
    SeenGrows(polls, p, c);
    AliveGrows(polls, p, c, bridged);
    IndicesIn(polls, c, bridged);
  }

  lemma {:induction false} NoneIn(c: Call, bridged: bool)
    ensures SeenIn([], c) == {} && AliveIn([], c, bridged) == {}
  {
  }

  lemma {:induction false} TallyCounts(polls: seq<PollRec>, c: Call, bridged: bool)
    ensures Tally(polls, c, bridged) == (|SeenIn(polls, c)|, |AliveIn(polls, c, bridged)|)
  {
    if polls == [] {
      NoneIn(c, bridged);
    } else {
      hide *;
      var n := |polls| - 1;
      TallyCounts(polls[..n], c, bridged);
      assert polls[..n] + [polls[n]] == polls;
      TallyGrows(polls[..n], polls[n], c, bridged);
      CountsGrow(polls[..n], polls[n], c, bridged);
    }
  }

  /**
   The verdict on `c` in the state `t` at `now`: none before the window has passed, void 90 seconds after
   it or with under two fifths of the polls it should have had, else a banger when the band was alive in
   at least three fifths of them, else a dud.
   */
  ghost predicate Judged(c: Call, d: Call, t: State, now: int) {
    var win, age := VerdictMs(c.band), now - c.ts;
    var seen := SeenIn(t.polls, c);
    var alive := AliveIn(t.polls, c, c.band in t.episodes && t.episodes[c.band].lastSeenAt == now);
    && d == c.(verdict := d.verdict)
    && d.verdict ==
       if c.verdict != Pending || age < win then c.verdict
       else if age > win + 90_000 || 10 * |seen| < 4 * (win / 30_000) then Void
       else if 10 * |alive| >= 6 * |seen| then Banger
       else Dud
  }

  lemma {:induction false} GradeJudges(c: Call, s: State, now: int)
    ensures Judged(c, Grade(c, s, now), s, now)
  {
    hide SeenIn;
    hide AliveIn;
    hide Tally;
    hide VerdictMs;
    var bridged := c.band in s.episodes && s.episodes[c.band].lastSeenAt == now;
    TallyCounts(s.polls, c, bridged);
  }

  // ── the calls after a poll ──

  predicate Opens(speech: seq<Speech>) { speech != [] && speech[0].what == DareLine && speech[0].rung == 0 }

  /** How many of the oldest calls a poll drops: one when a first dare finds sixty of them. */
  function Dropped(calls: seq<Call>, speech: seq<Speech>): nat {
    if Opens(speech) && |calls| >= 60 then |calls| - 59 else 0
  }

  /** The new call is about the episode that was spoken for. */
  ghost predicate NewCall(c: Call, v: View, b: Band, now: int) {
    && v.ep.Some?
    && c == Call(CallId(now, b), b, 0, v.ep.value.kind, v.ep.value.peakRate, now, Pending)
  }

  /** The calls of `t` are those of `s`, but for the dropped ones, judged; and a new one for a first dare. */
  ghost predicate CallsAfter(s: State, inp: Input, t: State, speech: seq<Speech>) {
    var d := Dropped(s.calls, speech);
    && |t.calls| == |s.calls| - d + (if Opens(speech) then 1 else 0)
    && (forall k :: d <= k < |s.calls| ==>
          CallNow(s, inp, k).Some? && Judged(CallNow(s, inp, k).value, t.calls[k - d], t, inp.now))
    && (Opens(speech) ==> NewCall(t.calls[|t.calls| - 1], Now(s, inp, speech[0].band), speech[0].band, inp.now))
  }

  lemma {:induction false} FinishJudges(said: Said, added: seq<Grudge>, inp: Input, silent: bool)
    ensures var t := Finish(said, added, inp, silent).s;
      && |t.calls| == |said.s.calls|
      && forall i :: 0 <= i < |t.calls| ==> Judged(said.s.calls[i], t.calls[i], t, inp.now)
  {
    hide KeepPolls;
    hide Grade;
    hide NewDuds;
    hide VerdictMs;
    hide SeenIn;
    hide AliveIn;
    var s := LogPoll(said.s, inp.now);
    var t := Finish(said, added, inp, silent).s;
    assert t.calls == GradeAll(said.s.calls, s, inp.now) && t.polls == s.polls && t.episodes == s.episodes;
    forall i | 0 <= i < |t.calls| ensures Judged(said.s.calls[i], t.calls[i], t, inp.now) {
      GradeJudges(said.s.calls[i], s, inp.now);
    }
  }

  lemma {:induction false} NewIsPending(c: Call, d: Call, t: State)
    requires Judged(c, d, t, c.ts)
    ensures d == c
  {
  }

  lemma {:induction false} RecordedCalls(calls: seq<Call>, e: Episode, now: int)
    ensures var r, d := RecordCall(calls, e, now), if |calls| >= 60 then |calls| - 59 else 0;
      && |r| == |calls| - d + 1
      && (forall k :: d <= k < |calls| ==> r[k - d] == calls[k])
      && r[|r| - 1] == Call(CallId(now, e.band), e.band, 0, e.kind, e.peakRate, now, Pending)
  {
  }

  /** What speaking leaves: the state before it, or that with the candidate's dare spoken. */
  lemma {:induction false} Spoke(s: State, inp: Input, order: seq<Band>, before: int)
    requires EpsOk(s, before) && CallsOk(s.calls, before) && 0 <= before < inp.now && Enumerates(order, s, inp.recs)
    ensures var p := InsidePoll(s, inp, order);
      if p.r.speech != [] && p.r.speech[0].what == DareLine then
        exists c :: p.r.speech == [DareSpeech(c)] && p.said.s == SpeakDare(p.w.s, c, inp.now)
                    && IsCandidate(p.w.s, c, inp.now)
      else p.said.s == p.w.s
  {
    hide EpsOk;
    hide CallsOk;
    hide Enumerates;
    hide InsidePoll;
    hide Poll;
    hide Chosen;
    hide SpeakDare;
    hide NewDuds;
    hide LogPoll;
    hide TopFaded;
    hide Silent;
    hide Now;
    hide Today;
    hide Evolved;
    var p := InsidePoll(s, inp, order);
    WhatIsSaid(s, inp, order);
    PollObserves(s, inp, order, before);
    if !Silent(s, inp) && Chosen(p.w.s, order, inp.now).Some? {
      ChosenIsCandidate(p.w.s, order, inp.now);
    }
  }

  lemma {:induction false} OpeningCalls(mid: State, c: Candidate, now: int)
    requires IsCandidate(mid, c, now) && c.rung == 0
    ensures var calls, d := SpeakDare(mid, c, now).calls, Dropped(mid.calls, [DareSpeech(c)]);
      && Opens([DareSpeech(c)])
      && |calls| == |mid.calls| - d + 1
      && (forall k :: d <= k < |mid.calls| ==> calls[k - d] == mid.calls[k])
      && calls[|calls| - 1] == Call(CallId(now, c.ep.band), c.ep.band, 0, c.ep.kind, c.ep.peakRate, now, Pending)
      && ViewOf(mid, c.ep.band, -1).ep == Some(c.ep)
  {
    hide Earned;
    hide RecordCall;
    RecordedCalls(mid.calls, c.ep, now);
  }

  lemma {:induction false} OpeningRecords(s: State, inp: Input, mid: State, c: Candidate, said: State, t: State)
    requires IsCandidate(mid, c, inp.now) && c.rung == 0 && said == SpeakDare(mid, c, inp.now)
    requires |mid.calls| == |s.calls| && forall k :: 0 <= k < |s.calls| ==> Some(mid.calls[k]) == CallNow(s, inp, k)
    requires ViewOf(mid, c.ep.band, -1) == Now(s, inp, c.ep.band)
    requires |t.calls| == |said.calls|
    requires forall i :: 0 <= i < |t.calls| ==> Judged(said.calls[i], t.calls[i], t, inp.now)
    ensures CallsAfter(s, inp, t, [DareSpeech(c)])
  {
    hide Judged;
    hide CallNow;
    hide Now;
    hide ViewOf;
    hide IsCandidate;
    hide SpeakDare;
    hide Opens;
    OpeningCalls(mid, c, inp.now);
    var d := Dropped(s.calls, [DareSpeech(c)]);
    var n := |t.calls| - 1;
    assert Judged(said.calls[n], t.calls[n], t, inp.now);
    NewIsPending(said.calls[n], t.calls[n], t);
    assert NewCall(t.calls[n], Now(s, inp, c.ep.band), c.ep.band, inp.now);
    forall k | d <= k < |s.calls|
      ensures CallNow(s, inp, k).Some? && Judged(CallNow(s, inp, k).value, t.calls[k - d], t, inp.now)
    {
      assert Judged(said.calls[k - d], t.calls[k - d], t, inp.now);
      assert said.calls[k - d] == mid.calls[k];
    }
  }

  lemma {:induction false} NoOpeningKeeps(s: State, inp: Input, mid: State, t: State, speech: seq<Speech>)
    requires |mid.calls| == |s.calls| && forall k :: 0 <= k < |s.calls| ==> Some(mid.calls[k]) == CallNow(s, inp, k)
    requires |t.calls| == |mid.calls| && forall i :: 0 <= i < |t.calls| ==> Judged(mid.calls[i], t.calls[i], t, inp.now)
    requires !Opens(speech)
    ensures CallsAfter(s, inp, t, speech)
  {
    hide Judged;
    hide CallNow;
    hide Now;
    forall k | 0 <= k < |s.calls|
      ensures CallNow(s, inp, k).Some? && Judged(CallNow(s, inp, k).value, t.calls[k], t, inp.now)
    {
      assert Judged(mid.calls[k], t.calls[k], t, inp.now);
    }
  }

  lemma {:induction false} ClimbKeepsCalls(s: State, c: Candidate, now: int)
    requires c.rung != 0
    ensures SpeakDare(s, c, now).calls == s.calls
  {
  }

  /**
   The calls after a poll: each kept one is decided by its band (answered, out of scope, quiet reset), or
   judged by the log when its window has passed; a first dare appends its own and drops the oldest of sixty.
   */
  lemma {:induction false} CallsOfPoll(s: State, inp: Input, order: seq<Band>, before: int)
    requires EpsOk(s, before) && CallsOk(s.calls, before) && 0 <= before < inp.now && Enumerates(order, s, inp.recs)
    ensures var r := Poll(s, inp, order); CallsAfter(s, inp, r.s, r.speech)
  {
    hide EpsOk;
    hide CallsOk;
    hide Enumerates;
    hide Begin;
    hide Observe;
    hide Talk;
    hide Finish;
    hide Silent;
    hide SpeakDare;
    hide Judged;
    hide CallNow;
    hide Now;
    hide Today;
    hide IsCandidate;
    hide CallsAfter;
    var p := InsidePoll(s, inp, order);
    assert p.r == Poll(s, inp, order);
    PollObserves(s, inp, order, before);
    SameLength(s.calls, p.w.s.calls);
    Spoke(s, inp, order, before);
    FinishJudges(p.said, p.w.added, inp, Silent(s, inp));
    if p.r.speech != [] && p.r.speech[0].what == DareLine {
      var c :| p.r.speech == [DareSpeech(c)] && p.said.s == SpeakDare(p.w.s, c, inp.now)
               && IsCandidate(p.w.s, c, inp.now);
      if c.rung == 0 {
        OpeningRecords(s, inp, p.w.s, c, p.said.s, p.r.s);
      } else {
        ClimbKeepsCalls(p.w.s, c, inp.now);
        NoOpeningKeeps(s, inp, p.w.s, p.r.s, p.r.speech);
      }
    } else {
      NoOpeningKeeps(s, inp, p.w.s, p.r.s, p.r.speech);
    }
  }

  // ── the state after a poll ──

  /** The band's episode, having spoken the line if it is a dare on it. */
  function Climbed(v: View, b: Band, speech: seq<Speech>, now: int): View {
    if v.ep.Some? && speech != [] && speech[0].what == DareLine && speech[0].band == b then
      var link := if speech[0].rung == 0 then Some(CallId(now, b)) else v.ep.value.callId;
      v.(ep := Some(v.ep.value.(rung := speech[0].rung, spoken := true, callId := link)))
    else v
  }

  /** All the state holds after a poll but its calls, its log of polls and its grudges. */
  ghost predicate StateAfter(s: State, inp: Input, t: State, speech: seq<Speech>) {
    && (forall b :: ViewOf(t, b, -1) == Climbed(Now(s, inp, b), b, speech, inp.now))
    && t.lastPollAt == inp.now && t.ctxKey == (if inp.ctxKey.Some? then inp.ctxKey else s.ctxKey)
    && t.day == Some(UtcDay(inp.now)) && t.dareCount == Today(s, inp.now) + (if Opens(speech) then 1 else 0)
    && t.lastSpokeAt == (if speech == [] then s.lastSpokeAt else inp.now)
    && t.lastSpokeBand == (if speech == [] then s.lastSpokeBand else Some(speech[0].band))
  }

  ghost predicate SameLog(s: State, t: State) { t.polls == s.polls && t.ctxKey == s.ctxKey }

  lemma {:induction false} PresentKeepsLog(s: State, b: Band, rec: Rec, inp: Input)
    ensures SameLog(s, SeePresentStep(s, b, rec, inp))
  {
    hide Accrue;
    hide CountSighting;
    hide Sight;
    hide Confirm;
    hide Gated;
    hide Decide;
  }

  lemma {:induction false} FadeKeepsLog(w: Work, b: Band, now: int)
    ensures b in w.s.episodes ==> SameLog(w.s, FadeStep(w, b, now).s)
  {
  }

  lemma {:induction false} QuietKeepLog(w: Work, b: Band, inp: Input, recs: map<Band, Rec>)
    ensures SameLog(w.s, LeaveScopeStep(w.s, b, inp))
    ensures SameLog(w.s, ExpireRecentStep(w.s, b, inp)) && SameLog(w.s, GateUnspokenStep(w.s, b, inp))
    ensures SameLog(w.s, AnswerActiveStep(w.s, b, inp))
    ensures b in recs ==> SameLog(w.s, SeePresentStep(w.s, b, recs[b], inp))
    ensures b in w.s.episodes ==> SameLog(w.s, SeeAbsentStep(w, b, inp).s)
  {
    hide Accrue;
    hide CountSighting;
    hide Sight;
    hide Confirm;
    hide Gated;
    hide Allowed;
    hide IsHoldingOpen;
    hide EarnsGrudge;
    hide GrudgeFor;
    hide KeepRecent;
    hide CooldownMs;
    hide Decide;
    hide RecordCall;
    FadeKeepsLog(w, b, inp.now);
    hide FadeStep;
    hide SeePresentStep;
    if b in recs {
      PresentKeepsLog(w.s, b, recs[b], inp);
    }
  }

  lemma {:induction false} StepKeepsLog(phase: Phase, w: Work, b: Band, inp: Input, recs: map<Band, Rec>)
    ensures var t := Step(phase, w, b, inp, recs).s; t.polls == w.s.polls && t.ctxKey == w.s.ctxKey
  {
    hide Accrue;
    hide CountSighting;
    hide Sight;
    hide Confirm;
    hide Gated;
    hide Allowed;
    hide IsHoldingOpen;
    hide EarnsGrudge;
    hide GrudgeFor;
    hide KeepRecent;
    hide CooldownMs;
    hide Decide;
    hide LeaveScopeStep;
    hide SeePresentStep;
    hide SeeAbsentStep;
    hide ExpireRecentStep;
    hide GateUnspokenStep;
    hide AnswerActiveStep;
    QuietKeepLog(w, b, inp, recs);
  }

  lemma {:induction false} SweepKeepsLog(phase: Phase, w: Work, order: seq<Band>, inp: Input, recs: map<Band, Rec>)
    ensures var t := Sweep(phase, w, order, inp, recs).s; t.polls == w.s.polls && t.ctxKey == w.s.ctxKey
  {
    hide Step;
    if order != [] {
      var n := |order| - 1;
      SweepKeepsLog(phase, w, order[..n], inp, recs);
      StepKeepsLog(phase, Sweep(phase, w, order[..n], inp, recs), order[n], inp, recs);
    }
  }

  lemma {:induction false} ObserveKeepsLog(s: State, order: seq<Band>, inp: Input)
    ensures var t := Observe(s, order, inp).s; t.polls == s.polls && t.ctxKey == s.ctxKey
  {
    hide Sweep;
    hide PresentBands;
    var seen := PresentBands(inp.recs, inp);
    var w0 := Work(s, [], []);
    var w1 := Sweep(LeaveScope, w0, order, inp, seen.recs);
    var w2 := Sweep(ExpireRecent, w1, order, inp, seen.recs);
    var w3 := Sweep(AnswerActive, w2, order, inp, seen.recs);
    var w4 := Sweep(SeePresent, w3, seen.bands, inp, seen.recs);
    var w5 := Sweep(SeeAbsent, w4, order, inp, seen.recs);
    SweepKeepsLog(LeaveScope, w0, order, inp, seen.recs);
    SweepKeepsLog(ExpireRecent, w1, order, inp, seen.recs);
    SweepKeepsLog(AnswerActive, w2, order, inp, seen.recs);
    SweepKeepsLog(SeePresent, w3, seen.bands, inp, seen.recs);
    SweepKeepsLog(SeeAbsent, w4, order, inp, seen.recs);
    SweepKeepsLog(GateUnspoken, w5, order, inp, seen.recs);
  }

  lemma {:induction false} BeginLog(s: State, inp: Input, order: seq<Band>)
    ensures var t := Begin(s, inp, order);
      && t.polls == (if GoesOn(s, inp) then s.polls else [])
      && t.ctxKey == (if inp.ctxKey.Some? then inp.ctxKey else s.ctxKey) && t.lastPollAt == inp.now
  {
    hide DaresOn;
    hide UtcDay;
    hide VoidPending;
    EndingCooldownsOnlyCools(RollDay(s, inp.now), order);
    hide EndingCooldowns;
  }

  lemma {:induction false} ClimbSeen(mid: State, c: Candidate, now: int, b: Band)
    requires IsCandidate(mid, c, now)
    ensures ViewOf(SpeakDare(mid, c, now), b, -1) == Climbed(ViewOf(mid, b, -1), b, [DareSpeech(c)], now)
    ensures SpeakDare(mid, c, now).dareCount == mid.dareCount + (if c.rung == 0 then 1 else 0)
    ensures Opens([DareSpeech(c)]) <==> c.rung == 0
    ensures var t := SpeakDare(mid, c, now);
      t == mid.(episodes := t.episodes, dareCount := t.dareCount, calls := t.calls)
  {
    hide Earned;
    hide RecordCall;
  }

  lemma {:induction false} ObserveBudget(s: State, inp: Input, order: seq<Band>, before: int)
    requires EpsOk(s, before) && 0 <= before < inp.now
    ensures var begun := Begin(s, inp, order);
      SameBudget(begun, Observe(begun, order, inp).s)
      && begun.lastSpokeAt == s.lastSpokeAt && begun.lastSpokeBand == s.lastSpokeBand
  {
    hide EpsOk;
    hide Begin;
    hide Observe;
    hide Evolved;
    hide LiveFrom;
    BeginKeeps(s, inp, order, before);
    BeginShape(s, inp, order);
    ObserveKeeps(Begin(s, inp, order), order, inp);
  }

  lemma {:induction false} FinishSeen(said: Said, added: seq<Grudge>, inp: Input, silent: bool)
    ensures var r := Finish(said, added, inp, silent);
      && (forall b :: ViewOf(r.s, b, -1) == ViewOf(said.s, b, -1))
      && r.s.lastPollAt == said.s.lastPollAt && r.s.ctxKey == said.s.ctxKey
  {
    FinishShape(said, added, inp, silent);
    hide KeepPolls;
    hide GradeAll;
    hide NewDuds;
  }

  lemma {:induction false} StateOfPoll(s: State, inp: Input, order: seq<Band>, before: int)
    requires EpsOk(s, before) && CallsOk(s.calls, before) && 0 <= before < inp.now && Enumerates(order, s, inp.recs)
    ensures var r := Poll(s, inp, order); StateAfter(s, inp, r.s, r.speech)
  {
    hide EpsOk;
    hide CallsOk;
    hide Enumerates;
    hide Begin;
    hide Observe;
    hide Talk;
    hide Silent;
    hide SpeakDare;
    hide DareSpeech;
    hide Now;
    hide Today;
    hide IsCandidate;
    hide Evolved;
    hide Finish;
    hide ViewOf;
    hide GoesOn;
    hide UtcDay;
    hide DaresOn;
    var p := InsidePoll(s, inp, order);
    FinishShape(p.said, p.w.added, inp, Silent(s, inp));
    FinishSeen(p.said, p.w.added, inp, Silent(s, inp));
    assert p.r == Poll(s, inp, order);
    PollObserves(s, inp, order, before);
    BeginLog(s, inp, order);
    BeginShape(s, inp, order);
    ObserveBudget(s, inp, order, before);
    ObserveKeepsLog(p.b, order, inp);
    Spoke(s, inp, order, before);
    if p.r.speech != [] && p.r.speech[0].what == DareLine {
      var c :| p.r.speech == [DareSpeech(c)] && p.said.s == SpeakDare(p.w.s, c, inp.now)
               && IsCandidate(p.w.s, c, inp.now);
      ClimbSeen(p.w.s, c, inp.now, c.ep.band);
      forall b ensures ViewOf(p.r.s, b, -1) == Climbed(Now(s, inp, b), b, p.r.speech, inp.now) {
        ClimbSeen(p.w.s, c, inp.now, b);
      }
    } else {
      forall b ensures ViewOf(p.r.s, b, -1) == Climbed(Now(s, inp, b), b, p.r.speech, inp.now) {
      }
    }
  }

  // ── the log of polls ──

  /** Logged polls are at least 24 seconds apart. */
  ghost predicate PollsDated(polls: seq<PollRec>, now: int) {
    && (forall i :: 0 <= i < |polls| ==> polls[i].ts <= now)
    && (forall i, j :: 0 <= i < j < |polls| ==> polls[j].ts - polls[i].ts >= 24_000)
  }

  /** What a new record joins: the log without a last record of under 24 seconds ago. */
  function Earlier(polls: seq<PollRec>, now: int): seq<PollRec> {
    if polls != [] && now - polls[|polls| - 1].ts < 24_000 then polls[..|polls| - 1] else polls
  }

  /** `kept` is the part of the log of the last twelve and a half minutes. */
  ghost predicate RecentPart(polls: seq<PollRec>, kept: seq<PollRec>, now: int) {
    && |kept| <= |polls| && kept == polls[|polls| - |kept|..]
    && (forall i :: |polls| - |kept| <= i < |polls| ==> now - polls[i].ts <= 750_000)
    && (|kept| < |polls| ==> now - polls[|polls| - |kept| - 1].ts > 750_000)
  }

  /** The record says which episodes were seen now and which were not. */
  ghost predicate RecordsNow(p: PollRec, episodes: map<Band, Episode>, now: int) {
    && p.ts == now
    && (forall b :: b in p.present <==> b in episodes && episodes[b].lastSeenAt == now)
    && (forall b :: b in p.grace <==> b in episodes && episodes[b].lastSeenAt != now)
  }

  /** The log after a poll: the recent part of the earlier one, and a record of this poll. */
  ghost predicate LoggedAfter(polls: seq<PollRec>, after: seq<PollRec>, episodes: map<Band, Episode>, now: int) {
    && after != []
    && RecentPart(Earlier(polls, now), after[..|after| - 1], now)
    && RecordsNow(after[|after| - 1], episodes, now)
  }

  /** With the last record too old, all are. */
  lemma {:induction false} OldLast(polls: seq<PollRec>, rest: seq<PollRec>, now: int)
    requires polls != [] && PollsDated(polls, now)
    requires RecentPart(polls[..|polls| - 1], rest, now) && now - polls[|polls| - 1].ts > 750_000
    ensures rest == [] && RecentPart(polls, [], now)
  {
    var n := |polls| - 1;
    assert n > 0 ==> polls[n].ts - polls[n - 1].ts >= 24_000;
    assert n > 0 ==> polls[..n][n - 1] == polls[n - 1];
  }

  lemma {:induction false} RecentLast(polls: seq<PollRec>, rest: seq<PollRec>, now: int)
    requires polls != [] && RecentPart(polls[..|polls| - 1], rest, now) && now - polls[|polls| - 1].ts <= 750_000
    ensures RecentPart(polls, rest + [polls[|polls| - 1]], now)
  {
    var n := |polls| - 1;
    var d := n - |rest|;
    assert rest + [polls[n]] == polls[d..] by {
      assert polls[..n][d..] + [polls[n]] == polls[d..];
    }
    forall i | d <= i < |polls| ensures now - polls[i].ts <= 750_000 {
      if i < n {
        assert polls[..n][i] == polls[i];
      }
    }
  }

  lemma {:induction false} DatedPrefix(polls: seq<PollRec>, now: int)
    requires polls != [] && PollsDated(polls, now)
    ensures PollsDated(polls[..|polls| - 1], now)
  {
  }

  lemma {:induction false} NoneRecent(polls: seq<PollRec>, now: int)
    requires polls == []
    ensures RecentPart(polls, [], now)
  {
  }

  lemma {:induction false} KeptPolls(polls: seq<PollRec>, now: int)
    requires PollsDated(polls, now)
    ensures RecentPart(polls, KeepPolls(polls, now), now)
  {
    hide RecentPart;
    hide PollsDated;
    if polls == [] {
      NoneRecent(polls, now);
    } else {
      var n := |polls| - 1;
      var rest := KeepPolls(polls[..n], now);
      DatedPrefix(polls, now);
      KeptPolls(polls[..n], now);
      if now - polls[n].ts <= 750_000 {
        RecentLast(polls, rest, now);
      } else {
        OldLast(polls, rest, now);
      }
    }
  }

  lemma {:induction false} KeptWithLast(polls: seq<PollRec>, p: PollRec)
    ensures KeepPolls(polls + [p], p.ts) == KeepPolls(polls, p.ts) + [p]
  {
    assert (polls + [p])[..|polls|] == polls;
  }

  lemma {:induction false} EarlierDated(polls: seq<PollRec>, before: int, now: int)
    requires PollsDated(polls, before) && before < now
    ensures var earlier := Earlier(polls, now);
      PollsDated(earlier, now) && forall i :: 0 <= i < |earlier| ==> now - earlier[i].ts >= 24_000
  {
  }

  lemma {:induction false} RecentDated(polls: seq<PollRec>, kept: seq<PollRec>, p: PollRec)
    requires PollsDated(polls, p.ts) && RecentPart(polls, kept, p.ts)
    requires forall i :: 0 <= i < |polls| ==> p.ts - polls[i].ts >= 24_000
    ensures PollsDated(kept + [p], p.ts)
  {
    var d, after := |polls| - |kept|, kept + [p];
    forall i | 0 <= i < |after| ensures after[i].ts <= p.ts {
      if i < |kept| {
        assert after[i] == polls[i + d];
      }
    }
    forall i, j | 0 <= i < j < |after| ensures after[j].ts - after[i].ts >= 24_000 {
      assert after[i] == polls[i + d];
      if j < |kept| {
        assert after[j] == polls[j + d];
      }
    }
  }

  function RecordOf(episodes: map<Band, Episode>, now: int): PollRec {
    PollRec(now, set b | b in episodes && episodes[b].lastSeenAt == now,
                 set b | b in episodes && episodes[b].lastSeenAt != now)
  }

  lemma {:induction false} LogPollIs(s: State, now: int)
    ensures LogPoll(s, now) == s.(polls := KeepPolls(Earlier(s.polls, now) + [RecordOf(s.episodes, now)], now))
  {
    hide KeepPolls;
  }

  lemma {:induction false} LogIs(s: State, before: int, now: int)
    requires PollsDated(s.polls, before) && before < now
    ensures var t := LogPoll(s, now);
      && LoggedAfter(s.polls, t.polls, s.episodes, now) && PollsDated(t.polls, now)
      && t.episodes == s.episodes
  {
    hide LogPoll;
    hide KeepPolls;
    hide PollsDated;
    hide RecentPart;
    hide Earlier;
    var p, earlier := RecordOf(s.episodes, now), Earlier(s.polls, now);
    LogPollIs(s, now);
    EarlierDated(s.polls, before, now);
    KeptWithLast(earlier, p);
    KeptPolls(earlier, now);
    RecentDated(earlier, KeepPolls(earlier, now), p);
    assert (KeepPolls(earlier, now) + [p])[..|KeepPolls(earlier, now)|] == KeepPolls(earlier, now);
  }

  lemma {:induction false} NoPolls(polls: seq<PollRec>, now: int)
    requires PollsDated(polls, now)
    ensures PollsDated([], now)
  {
  }

  lemma {:induction false} TalkKeepsLog(w: Work, order: seq<Band>, now: int, silent: bool)
    ensures Talk(w, order, now, silent).s.polls == w.s.polls
  {
    hide Chosen;
    hide RecordCall;
  }

  lemma {:induction false} FinishLogs(said: Said, added: seq<Grudge>, inp: Input, silent: bool)
    ensures var t := Finish(said, added, inp, silent).s;
      t.polls == LogPoll(said.s, inp.now).polls && t.episodes == said.s.episodes
  {
    hide KeepPolls;
    hide GradeAll;
    hide NewDuds;
  }

  lemma {:induction false} LogOfPoll(s: State, inp: Input, order: seq<Band>, before: int)
    requires PollsDated(s.polls, before) && before < inp.now
    ensures var t := Poll(s, inp, order).s;
      && LoggedAfter(if GoesOn(s, inp) then s.polls else [], t.polls, t.episodes, inp.now)
      && PollsDated(t.polls, inp.now)
  {
    hide Begin;
    hide Observe;
    hide Talk;
    hide Finish;
    hide Silent;
    hide GoesOn;
    hide LogPoll;
    hide PollsDated;
    hide LoggedAfter;
    var p := InsidePoll(s, inp, order);
    BeginLog(s, inp, order);
    ObserveKeepsLog(p.b, order, inp);
    TalkKeepsLog(p.w, order, inp.now, Silent(s, inp));
    NoPolls(s.polls, before);
    LogIs(p.said.s, before, inp.now);
    FinishLogs(p.said, p.w.added, inp, Silent(s, inp));
  }
}
