# Verified models of the HorstReporter client and agent

Dafny models of the parts of the repository that are state machines, indexes and round trips, with proofs
of what they promise over every input and every run. `dafny verify dfyconfig.toml` checks the project. All
lemmas turn automatic induction off, so that every induction is the one written.

- **The heckler** (`kevin_*.dfy`): the poll reducer of Horst-Kevin as a state machine over episodes, ended
  episodes, cooldowns, logged polls, graded calls, grudges and a daily budget. `KevinReduce.Reduce` is the
  imperative poll, proved equal to `KevinReduce.Poll`; every loop over bands is one `Step` per band. A world
  adds a log of everything spoken and held against the operator. A run is a sequence of worlds that polls,
  answers, quiet resyncs and page reloads lead through, in any order, from an empty store; the theorems in
  `kevin_promises.dfy` hold in every world of every run. Beside these promises stands the whole effect of an
  event, written out without the steps of the reducer: `kevin_bands.dfy` is a poll as a table for one band,
  whatever the order of the keys; `kevin_outcomes.dfy` says which line is spoken and what is held against the
  operator; `kevin_verdicts.dfy` what becomes of the calls; `kevin_history.dfy` puts them on runs.
- **The session ring** (`spots.dfy`, `session_ring.dfy`, `ring_laws.dfy`): a class with the t-sorted list, the
  receive list with its dead prefix, the key index and the cached coverage intervals. It refines one plain
  receive-ordered list; the laws are about that list.
- **Stream filter and timeline** (`stream_filter.dfy`, `timeline.dfy`): when the ring may answer for the
  server and what its answer is worth; chunk arithmetic; the moment slice; the bundle cache.
- **The .env file** (`env_*.dfy`): the settings writer and the two readers; `env_lines.dfy` says what a raw
  line means by its spelling.
- **Geometry** (`density.dfy`, `strip.dfy`, `locator.dfy`): the bucketed density field, label placement,
  Maidenhead locators.

Some promises do not hold as one might read them. Each is proved with its condition and has a concrete
input for which it fails:

- A chunk contains the playhead it was made for exactly outside the last 2.5 minutes of an hour, from where
  the playhead snaps forward (`Timeline.ChunkHoldsPlayhead`, `Timeline.PlayheadMissed`). For the same reason
  the chunk walk from the start of a range holds the whole range exactly when the range does not start in the
  last 2.5 minutes of an hour; else its first 150 seconds or less are left out (`Timeline.WalkFromStart`,
  `Timeline.StartMissed`). Between its chunks the walk never leaves a hole (`Timeline.WalkReachesEnd`).
- What the Settings page posts, trimmed as it is, reads back after a save exactly when no value has a line
  break in it, and is loaded exactly when it has no NUL either (`EnvRoundTrip.SettingsReadBack`,
  `EnvRoundTrip.SettingsLoad`, `EnvRoundTrip.BreakIsLost`, `EnvRoundTrip.NulIsNotLoaded`). Of the writer alone
  one also has to ask that a value triggers quoting or has no outer white space (`EnvRoundTrip.SaveThenParse`,
  `EnvRoundTrip.SaveThenLoad`, `EnvRoundTrip.OuterSpaceIsLost`).
- With every band switched off, "no reconnect needed" still means that the stream may have withheld spots
  which the slice filter, reading an empty set as all bands, admits (`StreamFilters.NoReconnectEmptyBands`,
  `StreamExamples.EmptyBandsWithhold`).
- A moment served from the ring holds exactly what the whole feed brought for it, however long the feed and
  whatever was evicted, if the chunk starts after the receipt of the oldest spot that the ring still holds
  (`Timeline.ServesTheWholeFeed`, from `RingLaws.Forgotten`). That the ring covers the chunk does not ensure
  this: a spot of a covered window may have been received and forgotten (`StreamExamples.CoveredYetForgotten`).
- A ring of the full feed would show nothing that the ring of the filtered stream does not, if receive times
  are in order and, as long as the stream's history reaches back an hour at most, fewer spots than the ring
  holds arrive within an hour (`StreamFilters.UncrowdedShowsAtLeast`); neither can be dropped
  (`StreamExamples.UnorderedStampsLose`, `StreamExamples.CrowdedOutRepeatIsLost`).
- Two calls can be pending on one band, but the older of them is one that the page was loaded with and has
  been pending ever since (`KevinPromises.AtMostOnePending`, `KevinPromises.OlderPendingSinceLoad`). So from
  any moment of the page at which a band has no pending call, it never has more than one
  (`KevinPromises.OnePendingOnceQuiet`). A reload restores a pending call without its episode, and a merge
  lifts the cooldown that would keep a second dare off the band: `KevinExample.TwoPendingAfterReload` is such
  a run, nine polls and a reload long.

## Model

| member | source | states |
|---|---|---|
| KevinState.Profiles | static/horst-kevin.js:61-65 | the confirming polls, rung times, verdict window and cooldown of each band's profile; a band in no profile has the middle one |
| KevinState.DesiredRung | static/horst-kevin.js:101-108 | the result is the highest rung whose observed time has been reached, and no higher one has |
| KevinState.CreateState | static/horst-kevin.js:387-412 | the loop over stored calls yields the fresh state whose last-spoken time and cooldown floors cover every usable call |
| KevinState.CooldownFloor | static/horst-kevin.js:390-397 | every usable stored call keeps its band cooling down for the profile's cooldown after it |
| KevinState.LatestTs | static/horst-kevin.js:390-396 | no usable stored call is later than the restored last-spoken time |
| KevinState.Decide | static/horst-kevin.js:432-444 | only a pending call with the id gets the verdict, the first such call does, all other calls are untouched |
| KevinState.ResyncState | static/horst-kevin.js:449-459 | the imperative resync equals its specification: no episodes, no poll log, every pending call void |
| KevinPolls.ResyncEmpties | static/horst-kevin.js:449-459 | after a quiet resync nothing is live or pending and the speech budget is untouched |
| KevinReduce.GatherPresent | static/horst-kevin.js:638-643 | the loop keeps the first in-scope recommendation per band |
| KevinReduce.PresentBands | static/horst-kevin.js:638-643 | present bands are in scope, distinct, and each maps to a recommendation for it |
| KevinReduce.RunSweep | static/horst-kevin.js:645-751 | each loop over bands equals its step applied band after band |
| KevinReduce.GradeCalls | static/horst-kevin.js:547-574 | the in-place loop grades every call and lists the new duds in order; what the grades and duds mean is stated by KevinVerdicts.GradeJudges and KevinOutcomes.SpeechOfPoll |
| KevinReduce.PickDare | static/horst-kevin.js:753-802 | collecting, ranking and scanning the candidates yields the specified choice |
| KevinReduce.ChosenIsBest | static/horst-kevin.js:576-582 | the chosen dare may be spoken and no candidate that may be spoken outranks it; none is chosen only if none may speak |
| KevinReduce.TopFaded | static/horst-kevin.js:805-807 | the fade line is about a faded episode of the highest rung; by KevinReduce.EarliestTop the earliest of equals |
| KevinReduce.Reduce | static/horst-kevin.js:599-850 | the imperative poll returns exactly the specified state, lines and grudges; what they are, written out, is stated by KevinBands.PollOnBand, KevinOutcomes.SpeechOfPoll, KevinOutcomes.GrudgesOfPoll and KevinVerdicts.CallsOfPoll |
| KevinSteps.StepIsOk | static/horst-kevin.js:645-751 | any step on a band keeps its episode's counters consistent, touches no other band, changes only pending verdicts, and leaves a live episode either new or the old one continued |
| KevinPending.FadeTracks | static/horst-kevin.js:723-730 | a fade keeps every pending call made since the load linked to its episode, cooling down, or due for its verdict |
| KevinPending.MergeTracks | static/horst-kevin.js:667-674 | a merge, though it lifts the cooldown, keeps every pending call made since the load linked or due |
| KevinPending.StepTracks | static/horst-kevin.js:645-751 | every step of a poll keeps the link between the pending calls made since the load and the episodes |
| KevinRuns.FirstDareFindsNone | static/horst-kevin.js:777-793 | a rung-0 dare that passes the cooldown finds no other pending call on its band, unless due or restored at load |
| KevinRuns.WhatIsSaid | static/horst-kevin.js:753-837 | what a poll says: the chosen dare, else a fade line in the gap, else a dud line in the gap with the panel open, else nothing |
| KevinRuns.RecordCounts | static/horst-kevin.js:494-499 | recording a call adds one to its day's count although the list is cut to 60, because the dropped call is of an earlier day |
| KevinRuns.FinishShape | static/horst-kevin.js:816-838 | grading leaves no pending call past its window and changes only pending verdicts |
| KevinRuns.FirstLoadIsFresh | static/horst-kevin.js:387-412 | the world every run starts from is a fresh state of an empty store |
| KevinTheorems.ReloadKeepsInv | static/horst-kevin.js:387-412 | a page reload keeps the invariant: the budget is re-derived from the persisted calls |
| KevinTheorems.RunInv | static/horst-kevin.js:387-850 | the joint invariant holds after every run of polls, answers, resyncs and reloads |
| KevinPromises.DailyBudget | static/horst-kevin.js:777-793 | over any run at most 10 rung-0 dares are spoken per UTC day, and once 6 were spoken only surprises follow |
| KevinPromises.BudgetSurvivesReload | static/horst-kevin.js:607-613 | after a reload the stored calls count exactly the dares spoken today |
| KevinPromises.AtMostOnePending | static/horst-kevin.js:547-574 | in every world of every run, of two calls pending on one band the older was made before the page was loaded; and no pending call is past its verdict window after a poll |
| KevinPromises.LoadOf | static/horst-kevin.js:387-412 | the load time is the time of the world right after the last reload, or of the first one |
| KevinPromises.OlderPendingSinceLoad | static/horst-kevin.js:664-675 | the older of two calls pending on one band was stored and pending in every world since the page was loaded |
| KevinPromises.OnePendingOnceQuiet | static/horst-kevin.js:547-574 | from a moment of the page with nothing pending on a band on, at most one call is pending on it |
| KevinExample.TwoPendingAfterReload | static/horst-kevin.js:667-672 | a concrete run with a reload ends with two pending calls on one band, because coming back within the merge window deletes the cooldown; the older was restored by the reload |
| KevinPromises.VerdictsAreFinal | static/horst-kevin.js:432-459 | however a run goes on, a call that left pending keeps its verdict, and a kept call is otherwise unchanged |
| KevinPromises.OneLadderPerEpisode | static/horst-kevin.js:755-792 | the dares of one episode are a prefix of rungs 0, 1, 2, each once, through fades and merges |
| KevinPromises.NoDareIsEarly | static/horst-kevin.js:501-511 | a rung is spoken only after its observed time, which never exceeds the time since first sight, nor before the confirming polls' 24 s each |
| KevinPromises.OneLinePerPoll | static/horst-kevin.js:763-837 | a poll speaks at most one line, none on a silent tick |
| KevinPromises.LinesAreSpaced | static/horst-kevin.js:763-765 | consecutive lines of a page are 5 minutes apart unless the later is the next rung of the band that spoke last; other lines keep 5 minutes from every earlier rung-0 dare across reloads |
| KevinPromises.OneGrudgePerEpisode | static/horst-kevin.js:731-736 | no episode adds two grudges, and only one whose rung-1 dare was spoken adds any |
| KevinPromises.GrudgesWithinRungOneDares | static/horst-kevin.js:488-492 | the grudges added in any run never exceed the rung-1 dares spoken |
| KevinPromises.AnsweredMeansForgiven | static/horst-kevin.js:438-444 | an episode answered while no grudge is held for it never adds one, however the run goes on |
| KevinBands.PollOnBand | static/horst-kevin.js:599-751 | before anything is said, a poll leaves a band's episode, ended episode, cooldown and any of its calls as one table says, from what it held, its first recommendation and the input alone, whatever the order of the keys |
| KevinBands.OrderDoesNotMatter | static/horst-kevin.js:645-751 | two enumerations of the keys give the same episode, ended episode and cooldown on every band |
| KevinBands.ResyncSeen | static/horst-kevin.js:449-459 | a quiet reset ends the band's episode, starts the cooldown of one that spoke from when it was last seen, and voids a pending call |
| KevinOutcomes.RateToHundredths | static/horst-kevin.js:734 | a stored rate is a whole number of hundredths, the nearest one, halves upward |
| KevinOutcomes.GrudgesOfPoll | static/horst-kevin.js:700-739 | a poll holds against the operator exactly the episodes that fade in it confirmed, spoken up to rung 1, observed for five minutes, unanswered and not yet held, one entry per band with its opening and this poll's time; none after a gap or in a new area |
| KevinOutcomes.SpeechOfPoll | static/horst-kevin.js:753-837 | a poll says nothing in a quiet tick; else the dare of highest rank among those due and not held back; else in the gap the fade of highest rung that was spoken and never answered; else in the gap with the panel open the first call that became a dud; else nothing |
| KevinVerdicts.TallyCounts | static/horst-kevin.js:559-568 | the tally counts the logged polls of the call's window and those with the band present, or in a grace since bridged |
| KevinVerdicts.GradeJudges | static/horst-kevin.js:547-574 | a pending call whose window has passed is void 90 s later or with under two fifths of the expected polls, else a banger with the band alive in three fifths of them, else a dud; any other call is unchanged |
| KevinVerdicts.CallsOfPoll | static/horst-kevin.js:599-829 | after a poll each kept call is first decided by its band (answered, out of scope, quiet reset) and then judged by the final log and episodes; a first dare appends its own pending call and drops the oldest of sixty |
| KevinVerdicts.StateOfPoll | static/horst-kevin.js:599-838 | all else a poll leaves: every band's table entry with the spoken rung, the day and its count, the last line's time and band |
| KevinVerdicts.LogOfPoll | static/horst-kevin.js:816-828 | the log after a poll is the part of the last 12.5 minutes of the earlier log, less a record of under 24 s ago, and a record of the bands seen now and of those in grace |
| KevinHistory.SpeechInRun | static/horst-kevin.js:599-850 | in every run each poll speaks as SpeechOfPoll says, the cap counting the first dares the run really spoke that UTC day, reloads included |
| KevinHistory.StateInRun | static/horst-kevin.js:599-850 | in every run each poll leaves the state and the calls of StateOfPoll and CallsOfPoll |
| KevinHistory.LogInRun | static/horst-kevin.js:820-825 | in every run logged polls are at least 24 s apart, so extra polls do not inflate a call's coverage |
| KevinHistory.LoggedInRun | static/horst-kevin.js:816-828 | in every run each poll logs itself as LogOfPoll says |
| KevinHistory.GrudgesInRun | static/horst-kevin.js:731-736 | in every run the grudges a poll adds are exactly those of GrudgesOfPoll |
| KevinHistory.HeldInRun | static/horst-kevin.js:488-492 | in every world of every run the stored grudges are the last at most sixty of all ever added that were under seven days old when the last one was |
| KevinHistory.ResentedFadeIsHeld | static/horst-kevin.js:723-736 | an episode due a grudge gets exactly one entry in the poll in which it fades, and the page stores it |
| KevinHistory.AnswerInRun | static/horst-kevin.js:438-476 | an answer marks the band's episode, decides the pending call it is linked to, and changes nothing else |
| KevinHistory.ResyncInRun | static/horst-kevin.js:449-468 | a quiet reset between polls leaves each band as ResyncSeen says, empties the log, and makes the next poll a first one |
| KevinHistory.RestoredCooldowns | static/horst-kevin.js:387-397 | restored cooldowns are per band the profile's cooldown after its last stored call, and none elsewhere |
| KevinHistory.ReloadInRun | static/horst-kevin.js:387-412 | a reload keeps exactly the stored calls and grudges, the gap counts from the last call, and every band cools down from its own last call |
| Spots.SpotTimes | static/session-ring.js:57-61 | a spot is received at its stamp or when pushed, and heard its receive age, else the feed's age, before that, in whole seconds |
| Spots.SameSpot | static/session-ring.js:63-82 | two spots share an identity exactly when they agree in time, source, band, snr and the other identity fields, spelling aside |
| SessionRings.LowerBound | static/session-ring.js:110-119 | the index splits a sorted list into strictly earlier and not earlier entries |
| SessionRings.SessionRing.InsertByT | static/session-ring.js:141-150 | the entry is inserted where the order stays sorted; appended exactly when it is not earlier than the last |
| SessionRings.SessionRing.RemoveFromByT | static/session-ring.js:152-163 | exactly the given entry leaves the sorted list |
| SessionRings.SessionRing.Evict | static/session-ring.js:173-199 | a receive-order prefix of the specified length goes, and list, index and sorted list still agree, whichever unlinking path ran |
| SessionRings.SessionRing.Push | static/session-ring.js:220-268 | the ring stays valid, including cached coverage equal to a rebuild, and its plain list is the specified one |
| SessionRings.SessionRing.Covers | static/session-ring.js:274-290 | true exactly when the window is covered, in terms of the sorted list and of the plain list |
| SessionRings.SessionRing.Slice | static/session-ring.js:294-301 | the raw copies of the window, in order |
| SessionRings.SessionRing.SliceFiltered | static/session-ring.js:306-308 | the slice with the filter applied |
| SessionRings.SessionRing.Clear | static/session-ring.js:310-317 | the ring is empty and valid |
| SessionRings.SessionRing.BuildCoverageIntervals | static/session-ring.js:203-213 | the loop builds the specified intervals |
| SessionRings.IntervalsFaithful | static/session-ring.js:203-213 | the intervals start and end where the list does, are ordered and apart, and break exactly at its gaps |
| SessionRings.Reaches | static/session-ring.js:282-289 | the walk over the intervals answers whether no gap lies between the two times |
| SessionRings.CoveredIsCovered | static/session-ring.js:269-273 | coverage of the sorted list is the quantified statement about the unordered plain list |
| RingLaws.OverwrittenCount | static/session-ring.js:177-181 | the overwritten eviction count meets both bounds exactly when nothing had expired or few enough remained |
| RingLaws.AdmitKeeps | static/session-ring.js:173-199 | within the size invariant an admission keeps at most 50 000 entries, the new one, and a suffix of the rest |
| RingLaws.AdmitEvictsTheOld | static/session-ring.js:173-181 | with receive times in order all that stays is at most 6 h old, and a younger entry goes only when the ring was full |
| RingLaws.FeedBounds | static/session-ring.js:220-268 | after any feed at most 50 000 distinct spots remain; with stamps in order none older than 6 h |
| RingLaws.Forgotten | static/session-ring.js:173-268 | after any feed with stamps in order a spot no longer held is from no later than the receipt of the oldest spot still held |
| RingLaws.HeldFor | static/session-ring.js:173-199 | a spot is held while fewer than 50 000 spots follow it within six hours |
| RingLaws.SubWindowCovered | static/session-ring.js:269-290 | coverage passes to sub-windows that start no later than the last spot |
| RingLaws.DumpKeepsCovered | static/session-ring.js:269-290 | a spot no later than the last one never uncovers a covered window |
| RingLaws.SliceMeaning | static/session-ring.js:292-301 | a slice holds exactly the retained spots of the window, each once, in time order |
| StreamFilters.CohortIsNarrower | static/timeline.js:327-347 | with the cohort check passed the stream had let through every shown spot the filter admits |
| StreamFilters.CohortExact | static/timeline.js:327-347 | the cohort check passes exactly when a stream is open for the location and mode, bands are named on both sides, and every spot but WSPR that the controls admit and show was let through |
| StreamFilters.ReconnectExact | static/app.js:109-128 | with bands named on both sides a reconnect is asked for exactly when mode or threshold changed or a shown spot on an enabled band was withheld |
| StreamFilters.ReplicaAgrees | cmd/horstreporter/server.go:369-429 | the client's replica of the stream filter lets a spot through exactly when the server's checks do |
| StreamFilters.DeliveredKeepsUp | static/session-ring.js:173-268 | for a feed of any length with stamps in order, whose let-through repeats come while the full ring holds the spot: what the full ring holds of the delivered spots is the newest part of the delivered ring |
| StreamFilters.DeliveredShowsAtLeast | static/timeline.js:300-315 | for such a feed, with the cohort check passed, what a full ring would show is the newest part of what the delivered ring shows |
| StreamFilters.UncrowdedHolds | static/session-ring.js:247-248 | with ages of at most an hour and fewer spots than the ring holds arriving within an hour, every repeat finds its spot held |
| StreamFilters.UncrowdedShowsAtLeast | static/timeline.js:300-315 | under those two conditions on the feed alone, what a full ring would show is the newest part of what the delivered ring shows |
| StreamFilters.ShortFeedsHold | static/session-ring.js:247-248 | while nothing is evicted every repeat finds its spot held |
| StreamExamples.CrowdedOutRepeatIsLost | static/session-ring.js:177-181 | a concrete feed in which 50 000 withheld spots crowd a spot out of the full ring, which takes its repeat anew; the delivered ring refuses the repeat and then shows less |
| StreamExamples.CoveredYetForgotten | static/session-ring.js:269-290 | a concrete feed after which the ring covers a window although it has forgotten a visible spot of it |
| StreamExamples.EmptyBandsWithhold | static/app.js:109-128 | with no band enabled against a stream of 20m no reconnect is needed and a 40m spot was withheld |
| StreamExamples.UnorderedStampsLose | static/session-ring.js:173-181 | a concrete feed with a receive time out of order, in which the full ring keeps an expired spot behind a withheld one |
| StreamFilters.DeliveredShowsTheSame | static/timeline.js:300-315 | while nothing is evicted the two rings show the same visible spots, in order |
| StreamFilters.NoReconnectNothingWithheld | static/app.js:109-128 | no reconnect needed means nothing visible on an enabled band was withheld |
| StreamFilters.NoReconnectEmptyBands | static/app.js:109-128 | under the slice filter's reading of an empty band set that holds exactly when a band is enabled or the stream has no band filter |
| Timeline.SnapToScrub | static/timeline.js:91-94 | a 5-minute boundary within 2.5 minutes of the time, halves up |
| Timeline.ChunkHoldsSnapped | static/timeline.js:375-383 | every chunk has positive width, an hour at most, starts in the snapped time's hour or with the range, ends with the range at the latest unless a single second long, and contains the snapped time when that lies in the range |
| Timeline.ChunkHoldsPlayhead | static/timeline.js:375-383 | a chunk contains the playhead it was made for exactly outside the last 2.5 minutes of an hour |
| Timeline.PlayheadMissed | static/timeline.js:375-383 | the chunk made for 3500 s of the range 0 to 7200 s starts at 3600 s |
| Timeline.WalkStep | static/timeline.js:505-509 | the next chunk starts and ends later, and starts on or before the end of the one before |
| Timeline.WalkReachesEnd | static/timeline.js:493-509 | the walk from any chunk is finite, its ends strictly increase to the range end, and it has no hole |
| Timeline.WalkHolds | static/timeline.js:493-509 | every time from the start of the first chunk to the range end lies in a chunk of the walk |
| Timeline.WalkFromStart | static/timeline.js:375-383 | the walk from the range start holds the whole range exactly when that start is in the first 57.5 minutes of an hour; else it starts at most 150 s late |
| Timeline.StartMissed | static/timeline.js:375-383 | the walk from the start of the range 3500 to 7200 s does not hold 3599 s |
| Timeline.SliceMoment | static/timeline.js:106-119 | the binary search and scan return exactly the trailing 15 minutes |
| Timeline.RingMoment | static/timeline.js:357-371 | a moment of a ring-served bundle is exactly the filtered retained spots in chunk and window, sorted and distinct |
| Timeline.ServesTheWholeFeed | static/timeline.js:327-371 | for a feed of any length and whatever was evicted, when the chunk starts after the oldest receipt still held, the served moment holds exactly the spots of the whole feed that pass the filter and lie in chunk and window |
| Timeline.RingServesTheFullFeed | static/timeline.js:300-371 | the corollary for feeds from which nothing is evicted, with no condition on the chunk: the served moment is that of the full feed |
| Timeline.RingServesAtLeastTheFullRing | static/timeline.js:300-371 | under the conditions of DeliveredShowsAtLeast every visible spot of a moment of the full ring is in the moment served from the delivered ring |
| Timeline.ServedIsHeld | static/timeline.js:357-371 | for any feed, what is served for a moment is exactly what the ring holds for it |
| Timeline.TryRingBundle | static/timeline.js:357-371 | a bundle is served exactly when the cohort check passes (what that means is StreamFilters.CohortExact) and the window is covered; it holds the filtered slice and is cached as the most recently used |
| Timeline.BundleCache.Get | static/timeline.js:202-211 | a hit returns the cached bundle and moves its key to the recent end; a miss changes nothing |
| Timeline.BundleCache.Put | static/timeline.js:213-224 | the four most recently used keys remain, with their bundles, the new one among them |
| Timeline.OthersKeepOrder | static/timeline.js:202-224 | touching a key moves it to the recent end, or adds it there, and leaves the other keys in order |
| EnvText.SplitJoin | cmd/horstoperator-agent/config.go:408-411 | splitting a joined file gives its lines back |
| EnvText.AssignmentReadsBack | cmd/horstoperator-agent/config.go:453-467 | a written line reads back as its key and value exactly when the value needs quotes or has no outer white space |
| EnvLines.BlankCharacters | cmd/horstoperator-agent/config.go:378-390 | the blanks that trimming strips are Unicode's 25 white-space characters |
| EnvLines.TrimTakesBlanks | cmd/horstoperator-agent/config.go:378-390 | trimming takes off exactly the blanks around a text without blank ends |
| EnvLines.CommentAssignsNothing | cmd/horstoperator-agent/config.go:379-382 | a blank line, and a line whose first character that is not blank is #, assign nothing |
| EnvLines.KeylessAssignsNothing | cmd/horstoperator-agent/config.go:383-387 | a line without =, or with nothing but blanks or export before it, assigns nothing |
| EnvLines.KeyAssigned | cmd/horstoperator-agent/config.go:383-394 | KEY=value assigns the trimmed and unquoted value to KEY, whatever blanks surround key and line |
| EnvLines.ExportIgnored | cmd/horstoperator-agent/config.go:383 | export KEY=value reads like KEY=value |
| EnvLines.ValueSpelt | cmd/horstoperator-agent/config.go:389-392 | one pair of like quotes around a value goes with the blanks around them; an unmatched quote stays |
| EnvLines.LastLineCounts | cmd/horstoperator-agent/config.go:372-396 | the display reader has a key exactly when some line assigns it, with the value of the last such line |
| EnvLines.FirstLineCounts | internal/dotenv/dotenv.go:16-41 | the loader keeps what is set, else sets a key exactly when some line can, to the value of the first such line |
| EnvLines.WrittenValue | cmd/horstoperator-agent/config.go:453-467 | a value is written bare, or in double quotes when a blank, a tab, # or a quote occurs in it |
| EnvLines.KeyOrder | cmd/horstoperator-agent/config.go:431-437 | the order of appended keys puts a prefix first and else decides by the first character that differs |
| EnvLines.SavedLines | cmd/horstoperator-agent/config.go:402-440 | a saved file keeps every line at its place, but for those that assign an updated key, and ends with a line break |
| EnvLines.CommentsSurvive | cmd/horstoperator-agent/config.go:398-401 | a comment stays where it was when settings are saved, whatever it comments out |
| EnvFiles.ParseEnvFile | cmd/horstoperator-agent/config.go:372-396 | the loop reads what the lines assign, the last one counting (EnvLines.LastLineCounts; what a raw line assigns is stated in EnvLines) |
| EnvFiles.Load | internal/dotenv/dotenv.go:16-41 | the loop sets what the lines assign, the first settable one counting and what is set staying (EnvLines.FirstLineCounts) |
| EnvFiles.UpsertEnvFile | cmd/horstoperator-agent/config.go:402-440 | assigned keys are rewritten in place and the missing ones appended in key order; comments and other lines stay at their place (EnvLines.SavedLines, EnvLines.CommentsSurvive) |
| EnvFiles.SortStrings | cmd/horstoperator-agent/config.go:431-437 | the missing keys come out in order and none is lost |
| EnvRoundTrip.SaveThenParse | cmd/horstoperator-agent/config.go:372-440 | the saved file reads as the old settings overridden by the updates exactly when every value is newline-free and representable |
| EnvRoundTrip.SettingsReadBack | cmd/horstoperator-agent/config.go:157-187 | what the Settings page posts, trimmed and without blank secrets, reads back over the old settings exactly when no value has a line break |
| EnvRoundTrip.SettingsTake | cmd/horstoperator-agent/config.go:163-187 | key by key, with no line break posted: a managed key reads as typed, trimmed; a blank secret, an unmanaged key and one not posted read as before |
| EnvRoundTrip.BreakIsLost | cmd/horstoperator-agent/config.go:161-187 | a posted station name with a line break reads back cut at the break |
| EnvRoundTrip.OuterSpaceIsLost | cmd/horstoperator-agent/config.go:459-467 | of the writer alone: a no-break space and a letter, written to a new file, read back as the letter |
| EnvRoundTrip.SaveKeepsOthers | cmd/horstoperator-agent/config.go:398-401 | lines that assign no updated key survive in order, and nothing but blank lines joins them |
| EnvRoundTrip.SaveThenLoad | internal/dotenv/dotenv.go:16-41 | loading a saved file into an empty environment sets each updated key to its new value, duplicates notwithstanding, exactly when it is representable and NUL-free |
| EnvRoundTrip.SettingsLoad | internal/dotenv/dotenv.go:16-41 | a posted value, none having a line break, is loaded exactly when it has no NUL |
| EnvRoundTrip.NulIsNotLoaded | internal/dotenv/dotenv.go:36-38 | a posted station name with a NUL is not loaded |
| EnvRoundTrip.EnvironmentWins | internal/dotenv/dotenv.go:36-38 | a variable already set keeps its value |
| Densities.AggregationFaithful | static/azimuth-runtime.js:1537-1567 | aggregating per pixel and band changes no kernel sum |
| Densities.PointsAreReports | static/azimuth-runtime.js:1537-1567 | there is one point per pixel and band that has a report, with the number of its reports and their snr sum |
| Densities.BuildBuckets | static/azimuth-runtime.js:1569-1580 | each bucket lists exactly the points that fall into it |
| Densities.NineBucketsSuffice | static/azimuth-runtime.js:1605-1619 | the kernel sum over the 3x3 buckets is the sum over all points within the radius, for every vertex and kernel |
| Densities.KernelSum | static/azimuth-runtime.js:1604-1620 | the nested loops compute that sum |
| Densities.BuildAzimuthDensityField | static/azimuth-runtime.js:1529-1626 | null comes back exactly for no points; else the points of the reports, their bounding box, and for every active band an array with the kernel sum of each vertex (FieldIsEstimate says where and of what) |
| Densities.FieldIsEstimate | static/azimuth-runtime.js:1517-1626 | the value in column i of row j is the sum of the kernel weights of all single reports of the band within the radius of the pixel i steps right of and j steps below the corner |
| Densities.DotPassInside | static/azimuth-runtime.js:1783-1790 | the dot pass indexes a vertex inside the grid and the array |
| Densities.DotReadsNearest | static/azimuth-runtime.js:1783-1790 | the density read for a dot is the estimate at the vertex nearest to it, at most half a step away each way |
| Densities.GridHoldsAll | static/azimuth-runtime.js:1582-1590 | outside the grid the estimate is zero for every band |
| Strips.PlaceStrip | static/wspr-matrix-looks.js:200-228 | of what is returned: between two shown labels a pixel is free, none covers another dot or leaves the strip by more than 8 px, each is in the first place with room of a pixel above its dot, a pixel below, and two pixels and its own height further above or below, hidden only if none has any, and each dot is at the first offset not taken, or on the axis |
| Strips.PlacementUnique | static/wspr-matrix-looks.js:200-228 | those rules determine the placement |
| Strips.LabelsDoNotCollide | static/wspr-matrix-looks.js:220 | no two shown labels come within a pixel of each other |
| Strips.LabelsKeepClear | static/wspr-matrix-looks.js:219-221 | no shown label overlaps another dot, and all stay within 8 px of the strip |
| Strips.HiddenOnlyIfBlocked | static/wspr-matrix-looks.js:216-226 | a label is hidden only if all four slots were blocked, and takes the first that was not |
| Strips.DotsKeepApart | static/wspr-matrix-looks.js:202-206 | dots of one lane keep their separation unless the later one fell back |
| Locators.EncodeThenBounds | static/utils.js:131-150 | any point, brought into range, lies in the box of its locator |
| Locators.DecodeThenEncode | static/utils.js:526-547 | encoding the decoded centre of a valid 4- or 6-character locator gives it back |
| Locators.BoundsOfSpell | static/utils.js:239-253 | the box of a spelled cell in degrees |
| Locators.CentreOfBounds | static/utils.js:526-547 | the centre of a locator of four or more characters is the middle of its box, whatever its letters |
| Locators.FieldCentreEncodes | static/utils.js:526-547 | a field of two or three characters decodes to a point in its middle square |
| Locators.WhenDecoded | static/utils.js:526-547 | null comes back exactly for under two characters, NaN exactly for a square that is neither digit nor blank, and a blank reads as zero |

## Left out

- Kevin's texts, languages, meanness and random picks, the almanac fetch, timers and the panel: only line type, band, rung and kind are kept; the almanac is the set of bands it calls usual.
- The month in which 6m is in scope: the calendar is an arbitrary input of each poll.
- Object key order in the reducer: it is an arbitrary enumeration per poll, and the theorems hold for each.
- The localStorage text format: a reload gets back the calls and grudges last held.
- String formats of spot identities, bundle keys and call ids: injective on the fields they join.
- Fetching, aborting and retrying of history bundles, and the late fetch that overwrites a bundle after a ring hit.
- The map projection and rounding of floating-point numbers: reports arrive with their pixel, arithmetic is exact.
- The order of bands and of points in the density field: points come in first-seen order of pixel and band, bands in any order.
- White space around a locator and non-ASCII letters in it: locators arrive trimmed.
- Reading, writing and renaming the .env file, and the error for an unset path: a file is its text.
- The checks of posted settings other than trimming, unknown keys and blank secrets: they only refuse values.
- KevinOutcomes.SpeechOfPoll: of dares that rank alike, or fades of one rung, any may be the one spoken; the code takes the first in key order, and that order is arbitrary here.
- Timeline.ServesTheWholeFeed: asks for receive times in order and for ages that are not negative, which the server sees to (cmd/horstreporter/spot.go:142), and tells spots apart by identity, as the ring does. A chunk that starts before the oldest receipt still held may lack spots; `StreamExamples.CoveredYetForgotten` is one.
- StreamFilters.DeliveredShowsAtLeast: compares with a ring that nobody has, and its condition on repeats is about that ring; `StreamFilters.UncrowdedShowsAtLeast` has a condition on the feed instead.
- StreamFilters.DeliveredShowsTheSame: the two rings show the same only while neither evicts; the delivered ring, which is crowded later, may hold more.
