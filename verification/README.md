# NE-PULSE detection pipeline: a verified model

NE-PULSE decides whether many phones felt one earthquake. This project models the deterministic part of its server, from
one accelerometer sample to one published event, and proves what the pipeline relies on. Every method of the original
takes the current time as an argument, and so does every method here; times are positive and never go back.

| file | what it models |
|---|---|
| `Basics`, `Sorting`, `Medians` | options and extremes; a stable sort standing for the library's, order-free sums and maps; medians |
| `Complex`, `Fft` | the in-place FFT: bit reversal, butterflies, the DFT they compute |
| `Filter`, `Detect` | biquad cascades as linear state machines, the STA/LTA averages, the AIC onset picker |
| `Resample` | resampling onto the absolute time grid, with gaps and anti-aliasing; a turned phone emits turned samples |
| `Features` | a trigger's features, among them the significant duration, and the gates that classify it |
| `Ring`, `Processor` | one phone: ring buffers, segments, the trigger state machine, picks and their ends |
| `Geo` | the equal-size grid and its packed cell keys |
| `Votes`, `Units`, `Roster`, `Registry` | stations, units, sorted pick lists, runs and votes, one tick over all units |
| `TravelTimes`, `Sweep`, `Locator` | the interval sweep, the weighted refinement, the grid search, classification |
| `Linking`, `Selection`, `Association` | union-find groups, extraction of point-source clusters, the cache of solved groups |
| `Decimals`, `Pairs`, `Rereading` | the three decimals that the cache distinguishes; association of two votes at one place; a vote whose reading changes under its key |
| `PoissonBinomial`, `PlaneFit`, `Evidence` | the exact significance test, the plane-wave fit, the metrics of a cluster |
| `Levels`, `Events`, `Book`, `Judging`, `Scenes` | criteria, hold timers, decisions, counters, and the course a cluster takes |
| `NetworkRules`, `Arrivals`, `Network` | consumed evidence; stations and picks coming and going; the engine itself |
| `FastForward`, `History` | skipping quiet stretches; exporting and importing unit history |
| `RateLimit` | the token-bucket limiter with eviction |

Numbers are exact reals. Square roots, logarithms, exponentials, trigonometry, distances, map projections and the filter
designs are given functions or coefficients; what is assumed of them is written as preconditions (for example that a
square root of a positive number is positive, or that a filter has a gain at zero frequency). The inequalities of the
default configuration that the code relies on are preconditions too: a vote gap of at least one second, an association
window of at least 18 s, buffers long enough for the windows read from them.

## Findings

Seven things do not hold without a condition. The code is modelled as it is; for each, a lemma gives inputs that fail and
another the exact condition.

* A unit counts once per vote, not once per unit. `internal/network/engine.go:680` counts the cluster's votes as
  independent units, while the footprint at `internal/network/engine.go:757-787` holds each unit once. The footprint
  fraction is a fraction in every surrounding network exactly when no unit votes twice in the cluster
  (`Evidence.FractionExactly`). A unit can: whatever the tuning, a vote at the P arrival and one at the S arrival of the
  same unit make a fitted cluster (`Evidence.BothPhases`), and from every node of the first grid around the unit whose
  phases are more than two tolerances apart the two are always extracted as one cluster
  (`Evidence.BothPhasesExtracted`). When the fraction exceeds one, the chance probability is zero,
  as if the coincidence were impossible (`Evidence.FractionOfFootprint`).
* A cached solution may be that of an earlier reading of the votes. The cache at `internal/network/engine.go:610-617`
  reuses a group's clusters until a vote is changed, but what it compares are the vote keys and the times and deviations
  with three decimals (`internal/network/engine.go:663-674`), and a vote keeps its key when another phone joins its run.
  Re-reading a vote leaves every group's cached solution right exactly if the reading is the same or prints differently
  (`Pairs.CacheExactly`, for readings whose P wave the unit could tell from an S wave of some source on its grid). If it
  prints alike, one more phone is enough for a wrong solution. Take any unit, two such picks of one run, and a source on
  the unit's grid, far enough for its phases to be told apart and near enough for them to be linked: there is a later
  pick, of the S wave, with which no extraction of the present votes has the place and origin time of the cached cluster
  (`Pairs.StaleSolution`, `Rereading.OneMorePhone`), and two consecutive associations return that cluster
  (`Rereading.TwoTicks`). With times on a grid of whole milliseconds (`Decimals.WholeToldApart`) this comes from the
  deviations, which are square roots: all those within half a thousandth of 0.2 s print as 0.200
  (`Decimals.PrintedAround`, `Rereading.SuchUnit`). In a run that never read one key in two ways that print alike, every
  tick's clusters are exact (`Network.TracedExactly`). In every case the cached times are within a thousandth of the
  present ones (`Decimals.PrintedNear`).
* Skipping a quiet stretch is not the same as ticking through it at the edges. Fast-forwarding refines ticking exactly
  when the clock has started (`FastForward.RefinesExactly`): with a zero last tick the first tick credits nothing, but so
  does the advance that stands for it and for all the ticks after it (`FastForward.ClockMustHaveStarted`). And a registry
  found idle ticks idly exactly at times later than the check (`FastForward.IdleExactly`): a pick exactly at the cut
  counts as past in the check, and is still kept by a tick at that same time (`FastForward.EdgeTick`).
* A device that moves leaves its picks behind. `internal/network/engine.go:253-266` changes the unit of the station but
  not of its picks, and the removal of a station and the end of a pick look in the current unit only. After removing a
  station no pick of it is left exactly when its own unit held them all (`Arrivals.RemovedExactly`), a withdrawn pick is
  gone exactly when no other unit holds it (`Arrivals.WithdrawnExactly`), and a move keeps a device's picks together
  exactly if it changes no unit or there are none (`Arrivals.MovedExactly`). Otherwise the pick stays as evidence, its
  withdrawal finds nothing, and it is accepted a second time (`Arrivals.LeftBehind`).
* Evicting buckets changes answers unless the burst is at least one and a bucket refills within the eviction time
  (`RateLimit.InvisibleExactly`); with a burst of zero a new key is still let through once, so the quota needs a burst of
  at least one (`RateLimit.QuotaExactly`).
* A cell is restored from its own centre on the whole grid exactly when the last row's centre lies below the pole or the
  row starts at 89.999999 degrees or below (`Geo.CenterRoundTripExactly`). For every number of rows up to a hundred
  million there is a cell height that breaks it (`Geo.LastRowLost`).
* The bit test at the head of the FFT lets length zero through, besides the powers of two: in two's complement the bits
  of 0 - 1 are all ones, and 0 has none of them (`FastFourier.BitTest`).

## Model

| member | source | states |
|---|---|---|
| FastFourier.FFT | internal/dsp/detect.go:101-129 | after the call every entry k is the DFT sum over the old entries at w^k; other lengths are reported and left alone |
| FastFourier.BitTest | internal/dsp/detect.go:103-105 | over wrapped 64-bit integers the length test lets through zero and exactly the powers of two |
| FastFourier.BitReverse | internal/dsp/detect.go:106-115 | the swap loop puts every value at its bit-reversed index, and nothing else; on no values it does nothing |
| FastFourier.RevInvolution | internal/dsp/detect.go:106-115 | bit reversal is its own inverse |
| FastFourier.RevSucc | internal/dsp/detect.go:107-111 | the carry loop's step is the reversal of adding one |
| FastFourier.PermutedTransformIsDft | internal/dsp/detect.go:116-128 | the butterfly rounds over permuted input give the DFT for every power-of-two length, from w(n)^(n/2) = -1 and w(n)^2 = w(n/2) |
| FastFourier.ButterfliesEvaluate | internal/dsp/detect.go:116-128 | each output of the butterfly tree is the input polynomial at a power of the root |
| Filter.Process | internal/dsp/filter.go:24-30 | a cascade in place: every section sees the one before it, state and output are those of the specification |
| Filter.ResetTo | internal/dsp/filter.go:34-39 | a cascade reset in place passes each section's steady level to the next |
| Filter.Clone | internal/dsp/filter.go:82-90 | a fresh cascade with the same coefficients and no memory |
| Filter.CascadeResetIsSteady | internal/dsp/filter.go:34-70 | after a reset to v a constant input v leaves the state alone and gives the steady level |
| Filter.CascadeIsLinear | internal/dsp/filter.go:24-61 | a combination of three aligned cascades processes the combined sample to the combined output and state |
| Filter.CascadeResetIsLinear | internal/dsp/filter.go:34-70 | the reset state depends linearly on the level |
| Filter.OrientationInvariance | internal/station/processor.go:318-328 | turning every sample of a segment by a constant orthogonal matrix leaves the band-passed energy series identical |
| Filter.TurnedOutputs | internal/dsp/filter.go:24-30 | a turned bank filters turned samples to the turned outputs |
| Detect.RatioInvariance | internal/dsp/detect.go:33-47 | and therefore every STA/LTA ratio |
| Detect.StaLta.Update | internal/dsp/detect.go:33-47 | the averages follow the recursion, frozen long-term average and warm-up included |
| Detect.AveragesInRange | internal/dsp/detect.go:33-47 | over windows of at least one sample both averages stay within the range of the energies, and a frozen long-term average stays what it was |
| Detect.PrefixVariance | internal/dsp/detect.go:69-95 | the prefix-sum form of a segment's variance is the mean squared deviation from its mean |
| Detect.AicPick | internal/dsp/detect.go:69-95 | the first index that minimises the AIC function over its whole range, or -1 for fewer than eight samples |
| Resample.Resampler.Push | internal/dsp/resample.go:95-162 | everything one sample does: what is emitted, anti-aliased values included, which gap is reported and what is remembered; the emitted samples interpolate the accepted ones and continue the grid without a hole |
| Resample.EveryInstantOnce | internal/dsp/resample.go:95-173 | in a gap-free segment of two or more accepted samples exactly the instants from ceil(first * fs) to floor(last * fs) are emitted, once, in order |
| Resample.FactorInRange | internal/dsp/resample.go:144-160 | the interpolation factor is in [0, 1] |
| Resample.TurnedPush | internal/dsp/resample.go:95-162 | pushing a turned sample into a turned memory emits the turned samples, reports the same gap and leaves the turned memory, whatever the anti-alias filter does |
| Resample.TurnedStream | internal/dsp/resample.go:95-173 | over a whole stream, gaps and dropped samples included, a turned phone emits the turned samples |
| Rings.Ring.Span | internal/station/processor.go:110-121 | a span of readable indices is that slice of the unbounded history |
| Rings.Ring.Set | internal/station/processor.go:110-121 | writing appends to the history and keeps the last n entries readable |
| Features.SignificantDuration | internal/dsp/detect.go:184-206 | one pass finds the first samples by which 5 % and 95 % of the energy have arrived |
| Features.DurationMeans | internal/dsp/detect.go:182-206 | the duration lies between two samples of the window, each the first to reach its share of the energy |
| Features.DurationScales | internal/dsp/detect.go:182-206 | how strong the motion is does not matter to its duration |
| Features.Judge | internal/station/processor.go:619-750 | the class is that of the first gate the features do not pass |
| Features.TurnedClass | internal/station/processor.go:737-751 | tonality is the only feature that can tell how the phone lies; without its gate the class is the same, with it only tonal and seismic can be confused |
| Station.Processor.Push | internal/station/processor.go:227-232 | keeps the invariant: the segment's history is exactly what the resampler emitted since its last gap, filtered, and the rings mirror it; triggered exactly when a trigger record exists; the log is unbroken |
| Station.PromiseExactly | internal/station/processor.go:297-617 | a log is unbroken exactly when every pick has its number and is followed by one end, its own, before the next pick, only the last pick still waiting for it |
| Station.Processor.PicksAnswered | internal/station/processor.go:227-617 | so, whatever has been pushed, every pick was answered, in time and taken back exactly when the measured tilt is too large; only the open trigger's pick still waits, for no longer than the longest trigger and its settling |
| Station.Processor.OnSample | internal/station/processor.go:309-371 | a resampled sample has the expected index, so a running segment is never cut short |
| Station.Processor.Detector | internal/station/processor.go:330-371 | on every sample a listening phone triggers exactly when the ratio with this sample and the short-term level call for it; where the sample closes a second, who listens is decided first and a new listener's level is that of its settled background, while the ratio is still the one before |
| Station.Processor.OnSecond | internal/station/processor.go:412-495 | a listening phone stays so exactly while still; another starts listening exactly when still long enough on a fast enough stream; its averages then being those of the settled background; a trigger is left alone; each second is remembered, and a quiet one enters the noise floor over the oldest |
| Station.Processor.Seed | internal/station/processor.go:462-480 | the averages are seeded with the mean square of the still part of the last readable samples |
| Station.Processor.StartSegment | internal/station/processor.go:375-391 | a segment starts with no trigger open, so no emitted pick is left without its end |
| Station.Processor.OnGap | internal/station/processor.go:297-305 | an emitted pick ends now, truncated, with its class as it was; a trigger not yet judged is forgotten; nothing else is told but the new state |
| Station.Processor.UpdateTrigger | internal/station/processor.go:555-583 | the record stays on time: judged at its sample, detriggered by the ratio or the maximum duration, ended after settling, and otherwise silent |
| Station.Processor.Evaluate | internal/station/processor.go:619-733 | the pick is the one the unbounded history determines: the AIC onset, features of slices of the history, and the first gate they do not pass |
| Station.Processor.Gather | internal/station/processor.go:619-699 | every ring read of the evaluation falls within the last readable samples |
| Station.Processor.AbortMoved | internal/station/processor.go:585-596 | a moved device's pick is closed at once, refused, and the phone leaves the listening set |
| Station.Processor.Finish | internal/station/processor.go:598-617 | the pick ends with the measured tilt and is taken back exactly if that is too large; the phone resumes exactly if still in place |
| Station.Processor.Snippet | internal/station/processor.go:755-778 | exactly the history slice for the clipped window |
| Station.TurnedMagnitudes | internal/station/processor.go:318-328 | two segments with turned raw samples have turned filtered histories and the same magnitudes |
| Station.TurnedPhones | internal/station/processor.go:227-371 | end to end: two phones pushed the same samples but for a constant rotation hold the same segment, turned, with the same magnitudes |
| Station.TurnedPick | internal/station/processor.go:619-751 | a trigger judged at the same sample of the two gets the same onset and number and turned evidence, and the same class, unless the tonality gate makes one of them tonal and leaves the other seismic |
| Station.MaxDuration | internal/station/processor.go:566-570 | the time test of the forced detrigger is a sample count |
| Geo.KeyRoundTrip | internal/geo/geo.go:162-168 | keys and cells are in bijection over all 32-bit pairs and all 64-bit keys |
| Geo.KeyInjective | internal/geo/geo.go:162 | two cells never share a key |
| Geo.CellOf | internal/geo/geo.go:119-140 | every latitude and longitude lands in a valid cell |
| Geo.CenterRoundTrip | internal/geo/geo.go:119-154 | a valid cell is found again from its centre |
| Geo.CenterRoundTripExactly | internal/geo/geo.go:119-154 | for the whole grid exactly when the last row keeps its own centre |
| Geo.LastRowLost | internal/geo/geo.go:119-154 | for any number of rows a valid grid and a valid cell that is not found again from its centre |
| RateLimit.Limiter.Allow | internal/ratelimit/ratelimit.go:54-79 | the answer and the new buckets, refill, cap and creation included |
| RateLimit.Limiter.Sweep | internal/ratelimit/ratelimit.go:83-91 | exactly the stale buckets go |
| RateLimit.Quota | internal/ratelimit/ratelimit.go:54-79 | over every run of operations a key whose bucket lives is allowed at most burst + rate * elapsed requests |
| RateLimit.QuotaExactly | internal/ratelimit/ratelimit.go:54-79 | the quota holds for every run exactly when the burst is at least one |
| RateLimit.EvictionsUnseen | internal/ratelimit/ratelimit.go:83-91 | two-run simulation: with rate * TTL >= burst, interleaved sweeps change no answer |
| RateLimit.InvisibleExactly | internal/ratelimit/ratelimit.go:83-91 | sweeps are invisible in every run exactly when burst >= 1 and rate * TTL >= burst |
| Votes.InsertPick | internal/network/engine.go:313-326 | a new pick is filed in time order, keeping the list sorted and unrepeated, unless it duplicates one |
| Votes.FirstAfter | internal/network/engine.go:323 | the binary search finds the first later pick |
| Votes.DropDevice | internal/network/engine.go:283-289 | exactly the device's picks go, the others stay in order |
| Votes.TrimPicks | internal/network/engine.go:477-482 | exactly the picks before the cut go |
| Votes.UnitVotes | internal/network/engine.go:378-441 | the picks are split into maximal runs, and the votes are those of the runs that reach a quorum, in order |
| Votes.RunsUnique | internal/network/engine.go:433-440 | a pick list splits into maximal runs in one way only |
| Votes.Flush | internal/network/engine.go:384-432 | a run's vote, from each device's first pick, or none |
| Votes.LeadsAreDevices | internal/network/engine.go:385-395 | the picks a vote is made of are one for each device of the run |
| Votes.VoteFacts | internal/network/engine.go:395-430 | devices are counted once and never exceed the eligible; the quorum is met; the vote's time lies in its run |
| Votes.VoteKeysRise | internal/network/engine.go:430-438 | two runs never share a key: a unit's votes have strictly rising seconds |
| Votes.VotesAnchored | internal/network/engine.go:430 | every key is the whole second of a pick the unit holds |
| Medians.MedianPermutation | internal/dsp/detect.go:231-249 | medians do not depend on the order in which devices are visited |
| Units.TickUnit | internal/network/engine.go:469-500 | one unit's tick: forget, credit, form votes from maximal runs, count, offer |
| Units.CountFacts | internal/network/engine.go:488-496 | every vote ends up remembered, exactly the unknown ones are new, and the count rises by at most one for each |
| Units.CountOnce | internal/network/engine.go:488-496 | a remembered vote is never counted again |
| Units.OfferedWhich | internal/network/engine.go:497-499 | offered are exactly the votes not consumed and not older than the window |
| Units.TickedQuiet | internal/network/engine.go:476-500 | a unit whose picks are all behind the horizon forms and offers nothing, and only ages |
| Units.FinishPick | internal/network/engine.go:337-349 | the end of a pick withdraws it or raises its amplitude, and keeps the list in order |
| Roster.Survey | internal/network/engine.go:352-367 | how many members listen, and the medians over them |
| Roster.SummaryUnique | internal/network/engine.go:352-367 | the survey does not depend on the order in which the members are visited |
| Registry.TickUnits | internal/network/engine.go:466-504 | every unit has its turn once; the offered votes are the units' offers, no key twice; spent units are dropped |
| Registry.TickKeeps | internal/network/engine.go:466-504 | the registry stays in order, and every offered vote is anchored within the horizon and five seconds of the future |
| Registry.OffersPlaced | internal/network/engine.go:410-432 | every vote a tick offers stands at the centre of the cell that its unit key names |
| Registry.ExplainKeeps | internal/network/engine.go:1151-1158 | taking explained votes off changes nothing but vote counts |
| IntervalSweep.Sweep | internal/network/locate.go:61-94 | at the returned time exactly the counted observations are consistent, and no real origin time has more |
| IntervalSweep.SweepBound | internal/network/locate.go:61-94 | no real origin time is consistent with more observations than some event prefix covers, closed intervals and overlapping P and S included |
| IntervalSweep.MidKeepsCover | internal/network/locate.go:61-94 | the recorded midpoint keeps every observation covered there |
| Locator.EvalNode | internal/network/locate.go:45-132 | the count and score of the refined origin time, which scores no lower than a best-covered one and explains something |
| Locator.RefinementImproves | internal/network/locate.go:95-132 | the weighted least-squares step never lowers the Epanechnikov score and never empties the inlier set |
| Locator.Locate | internal/network/locate.go:138-196 | both grids cover exactly their squares, the second round the best node of the first; the fit is the first best-scoring of the 2 g^2 evaluated nodes; the uncertainty reaches every admissible node |
| Locator.Classify | internal/network/locate.go:200-221 | the arrays classify every observation against the hypothesis, and their count is evalNode's |
| Locator.LocateLarge | internal/network/locate.go:230-258 | large sets take the epicentre located for their 250 earliest arrivals, and a re-estimated origin time over all of them |
| Linking.Find | internal/network/engine.go:568-575 | path halving returns the root and changes no root |
| Linking.UnionAll | internal/network/engine.go:580-596 | roots are exactly the connected components of the link relation, each named by its smallest index |
| Linking.NamedBySmallest | internal/network/engine.go:587-593 | no vote of a component has a smaller index than its name |
| Association.GroupVotes | internal/network/engine.go:597-605 | one group per component, each with its votes in order |
| Association.GroupsMakeUp | internal/network/engine.go:597-605 | the groups make up the votes: none lost, none twice |
| Association.Extract | internal/network/engine.go:618-651 | terminates; each cluster is exactly what the source located for the votes left, seen from their mean position, explains of them, in order, with aligned arrays, until too little is left or that source explains too little |
| Association.CutDownClassified | internal/network/engine.go:636-648 | the cut-down arrays classify exactly the cluster's votes, all of them inliers |
| Association.PeeledConserves | internal/network/engine.go:618-651 | clusters and remainder make up the group |
| Association.Associate | internal/network/engine.go:559-661 | every component of the votes gets a solution: clusters with the votes and sources of an extraction of it, but for times and deviations that print alike; a known signature is answered from the cache, an unknown one by an extraction of the very component, and exactly the entries used stay cached |
| Association.SolveGroup | internal/network/engine.go:610-653 | a known signature returns the cached clusters, an unknown one an extraction of the very group, which is then cached |
| Association.AlikeExtraction | internal/network/engine.go:618-651 | extraction looks at keys, places, times and deviations only: groups equal in these have the same extractions |
| Association.SolvesExactly | internal/network/engine.go:610-617 | while no vote key has been read in two ways that print alike, a group's solution, cached or not, reproduces an extraction of that group |
| Association.AssociationExactly | internal/network/engine.go:559-661 | and then all clusters are those of the present components: the cache changes nothing |
| Decimals.PrintedNear | internal/network/engine.go:663-674 | numbers that print alike with three decimals are at most a thousandth apart |
| Decimals.WholeToldApart | internal/network/engine.go:663-674 | three decimals tell any two whole thousandths apart, negative ones and zero included |
| Decimals.PrintedAround | internal/network/engine.go:663-674 | all numbers less than half a thousandth from a whole number of thousandths print as that one |
| Pairs.CacheExactly | internal/network/engine.go:610-674 | reading a vote's time and deviation anew leaves every group's cached solution with the sources of an extraction of the present group exactly if the reading is the same or prints differently |
| Pairs.StaleSolution | internal/network/engine.go:610-674 | for two readings that print alike but differ in time or tolerance there is an S-wave vote of the same unit with which the signature stays, the earlier group is one cluster of both votes, and no extraction of the present group has its place and origin time |
| Pairs.PhasesExtracted | internal/network/engine.go:618-651 | a P and an S vote of one place, nearly from a node of the first grid and too far apart for one phase, have an extraction, and every one is a single cluster of both |
| Rereading.OneMorePhone | internal/network/engine.go:384-440 | such votes are cast: a second phone's pick joins the run of the first one's, and with a later pick of the first phone the unit's linked votes before and after are such groups |
| Rereading.SuchUnit | internal/network/engine.go:384-440 | two phones picking at the same time with deviations of 0.2001 s and 0.2003 s are an instance |
| Rereading.TwoTicks | internal/network/engine.go:559-661 | run in turn on the votes before and after, association returns the same cluster twice, and no extraction of the later votes has its source |
| Association.AssociationConserves | internal/network/engine.go:559-661 | no vote key is used more often than offered, and every cluster is a fitted source of at least two votes |
| PoissonBinomial.PoissonBinomialTail | internal/network/stats.go:10-34 | the in-place programme computes the exact tail, in [0, 1] |
| PoissonBinomial.AddTrial | internal/network/stats.go:21-32 | one trial, in place and downwards, turns the bins of n trials into those of n + 1 |
| PoissonBinomial.BinsSumToOne | internal/network/stats.go:18-32 | after every trial the bins sum to one |
| PoissonBinomial.TailPermutation | internal/network/stats.go:10-34 | the tail does not depend on the order of the probabilities |
| PoissonBinomial.TailMonotone | internal/network/stats.go:10-34 | raising a probability never lowers the tail |
| PoissonBinomial.TailAntitone | internal/network/stats.go:10-34 | asking for more successes never raises it |
| PlaneFit.Solve3 | internal/network/engine.go:886-903 | Cramer's rule solves the system, or reports a determinant below 1e-9 |
| PlaneFit.LeastSquares | internal/network/engine.go:857-868 | a solution of the normal equations has the smallest residual sum of all planes |
| PlaneFit.PlaneWave | internal/network/engine.go:843-884 | share and velocity are those of the least-squares plane, or of none where the points determine none; the share lies in [0, 1] on every path, the velocity in (0, 99] |
| Evidence.Evaluate | internal/network/engine.go:676-838 | every metric from its meaning: footprint, unexplained votes, contradictions, exact tail in any order of the units, reach and aperture as maxima, the plane wave of the nearby votes |
| Evidence.TailAnyOrder | internal/network/engine.go:757-795 | the chance probability does not depend on the order in which units are visited |
| Evidence.FractionOfFootprint | internal/network/engine.go:738-795 | consistency and contradictions are fractions; the footprint fraction exceeds one exactly when votes outnumber footprint units, and then the probability is zero |
| Evidence.FractionExactly | internal/network/engine.go:678-680 | the footprint fraction stays a fraction in every surrounding network exactly when no unit votes twice in the cluster |
| Evidence.BothPhases | internal/network/engine.go:678-680 | whatever the tuning, unit, source and origin time, a unit's votes at the P and at the S arrival make a fitted cluster whose fraction exceeds one in some network |
| Evidence.BothPhasesExtracted | internal/network/engine.go:618-680 | the search does find it: from every node of the first grid around the unit whose phases are more than two tolerances apart, the two votes have an extraction, and every one is a single cluster in which the unit votes twice |
| Levels.ChecksDecide | internal/network/engine.go:921-967 | the listed checks pass exactly when the metrics meet every criterion that is switched on |
| Levels.Grant | internal/network/engine.go:984-1009 | the hold timers mark the unbroken streaks, and the level returned is the highest due one |
| Levels.StreakIsMaximal | internal/network/engine.go:984-1009 | the timed streak is unbroken and cannot be extended back |
| Events.Assess | internal/network/engine.go:1128-1148 | the level never falls, a rise is logged with its passing checks, and each counted level is counted once |
| Events.RiseHeld | internal/network/engine.go:984-1009 | every rise but the initial candidacy ended an unbroken passing streak at least as long as the hold time |
| Events.LevelIsHighestDue | internal/network/engine.go:1128-1148 | the level is the highest that was ever due, or the candidacy of creation |
| Book.BookOpened | internal/network/engine.go:1091-1105 | opening an event keeps every record and the true counts |
| Book.BookReplaced | internal/network/engine.go:1106-1150 | judging an event again keeps them |
| Book.BookClosed | internal/network/engine.go:526-543 | and so does closing one, candidates being dismissed |
| Judging.Match | internal/network/engine.go:1027-1047 | the first open event sharing a vote, else the first one near in space and time |
| Judging.Absorber | internal/network/engine.go:1072-1077 | the first open or recent event the cluster is a fragment of |
| Judging.Judge | internal/network/engine.go:1128-1165 | the evaluated event, its explained votes, its counters and its one update |
| Scenes.UpdateKeeps | internal/network/engine.go:1106-1165 | judging an open event keeps the book, revises no decision and changes only vote counts |
| Scenes.OpenKeeps | internal/network/engine.go:1091-1165 | and so does opening one |
| Scenes.AbsorbKeeps | internal/network/engine.go:1072-1089 | and taking a fragment in |
| Scenes.CloseAll | internal/network/engine.go:524-546 | exactly the quiet events close, their votes are consumed, and the counters stay true |
| Scenes.LivelyOrClosed | internal/network/engine.go:524-546 | an event stays open exactly when it is not quiet, and none is lost |
| NetworkRules.ExpiryIsSafe | internal/network/engine.go:505-509 | a mark that expires belongs to a key that no pick still held, or still acceptable, can produce |
| NetworkRules.ConsumeOk | internal/network/engine.go:537-539 | consuming keys from at most five seconds ahead keeps every mark young enough |
| NetworkRules.NoRecentPicks | internal/network/engine.go:1288-1292 | looking at the last pick of each list decides for every pick |
| Network.Engine.UpdateStation | internal/network/engine.go:253-266 | the device ends up a member of its new unit and of no other |
| Network.Engine.Touch | internal/network/engine.go:269-273 | only a known device's last-seen time changes |
| Network.Engine.RemoveStation | internal/network/engine.go:276-292 | the device leaves, with the picks of it that its current unit holds; no other unit changes, and no pick of it is left exactly when no other unit held one |
| Network.Engine.AddPick | internal/network/engine.go:299-327 | five verdicts, each counted once; only an accepted pick changes its unit's list; the unit always exists |
| Network.Engine.EndPick | internal/network/engine.go:331-350 | the pick, if the device's current unit holds it, is withdrawn and counted, or gets its final amplitude; a withdrawn one is gone exactly when no other unit held it |
| Arrivals.RemovedExactly | internal/network/engine.go:276-292 | removing a device leaves no pick of it exactly when only its own unit held any |
| Arrivals.WithdrawnExactly | internal/network/engine.go:331-350 | the same for the end of one pick |
| Arrivals.MovedExactly | internal/network/engine.go:253-266 | a move keeps a device's picks in its unit exactly if it changes no unit or there are none |
| Arrivals.FiledTogether | internal/network/engine.go:299-327 | filing a pick keeps a device's picks together in one unit |
| Arrivals.LeftBehind | internal/network/engine.go:253-350 | after a pick, a move and a removal or withdrawal the pick is still held where it was filed, and may be accepted again |
| Network.Engine.Clusters | internal/network/engine.go:510-519 | the votes in time order, and the clusters of the association of exactly these, largest first, no key in two clusters; what a cached solution may differ in is only times and deviations that print alike |
| Network.Engine.Apply | internal/network/engine.go:1023-1166 | the cluster takes its course: second view, further evidence, too weak, fragment, or a new event; at most one update |
| Network.Engine.CloseQuiet | internal/network/engine.go:524-546 | exactly the quiet events close, their keys are consumed now, the dismissed are counted |
| Network.Engine.Tick | internal/network/engine.go:457-555 | every unit has its turn; exactly the votes they offer are associated, in time order; the clusters are those of their association, as under Clusters, and each has its turn on its evaluation, from one scene to the next; no key ever consumed is offered again, none is offered or clustered twice; no event is lost, lowered or revised; a resting engine only ages |
| Network.TracedExactly | internal/network/engine.go:510-519 | in a run that offered no vote key with two readings that print alike, every tick's clusters have the votes and sources of extractions of its own components, cached or not |
| Network.NeverAgain | internal/network/engine.go:476-499 | a vote a tick offers has a key that was never consumed |
| Network.Engine.WhatIsKept | internal/network/engine.go:214-226 | between any two calls: membership both ways, ordered pick lists, counters equal to the true counts, justified records, consumed keys marked or out of reach |
| Network.Engine.Advance | internal/network/engine.go:1270-1280 | exposure is credited in one go to the units with a listening station |
| Network.Engine.Idle | internal/network/engine.go:1284-1294 | idle exactly when no event is open and every pick is behind the horizon |
| Network.Engine.TickThrough | internal/network/engine.go:457-555 | ticking an idle engine any number of times reports nothing and gives the iterated idle tick |
| FastForward.AdvanceThenTick | internal/network/engine.go:1267-1294 | advancing to the last of the tick times and ticking gives the same state as all the ticks and that one |
| FastForward.TicksAreOneAdvance | internal/network/engine.go:1267-1280 | any number of idle ticks is one advance, then forgetting what is too old |
| FastForward.ClockMustHaveStarted | internal/network/engine.go:1271 | with a zero last tick a schedule on which the two differ |
| FastForward.RefinesExactly | internal/network/engine.go:1267-1294 | over all states with a given last tick and all schedules, fast-forwarding refines ticking exactly when that tick is later than zero |
| FastForward.IdleExactly | internal/network/engine.go:1282-1294 | a registry found idle ticks idly, whatever it holds, exactly at every time later than the check |
| FastForward.EdgeTick | internal/network/engine.go:1288-1292 | at the time of the check itself a unit whose pick lies exactly at the cut keeps it |
| History.ExportStates | internal/network/engine.go:1242-1251 | one state for each unit with a history, and no other |
| History.ImportStates | internal/network/engine.go:1254-1261 | the states are restored one by one, and the registry stays in order |
| Network.Engine.ExportUnitStates | internal/network/engine.go:1242-1251 | the engine exports its units' histories |
| Network.Engine.ImportUnitStates | internal/network/engine.go:1254-1261 | importing keeps every invariant of the engine |
| History.Restored | internal/network/engine.go:1241-1261 | a fresh engine holds the same votes and exposure under the same keys, and exports them again |

## Left out

- Floating-point rounding, the float32 storage of the rings, NaN and infinities: all numbers are exact reals; a vanishing denominator is excluded by a precondition or guarded as the code guards it.
- Filter design from sines and cosines: coefficients are given, with a gain at zero frequency.
- Physical content of distances, travel times, intensities, rates and chance probabilities: given functions; what is proved holds for any of them.
- Records shared by reference (stations, units, events) are values in maps and sequences that the methods reassign: aliasing between two names of one record is not modelled.
- Votes.Flush: visits devices in the order of their first picks, not in name order; medians, counts and source sets do not depend on it.
- Registry.TickUnits: visits units in any order, not by key; the offered votes are sorted afterwards, and nothing else depends on it.
- Evidence.Evaluate: per-unit evidence rows, intensities, medians of amplitude and the apparent velocity of the inliers, which decide nothing.
- Station.TurnedPhones: of two turned phones the segments, the magnitudes and the pick of each trigger are compared, not their whole logs.
- Association.Associate: the votes of a cached solution may be older in what association does not look at (amplitudes, device counts, sources, arrivals, eligible counts), as in the code; its times and deviations are known only to print like the present ones, with the exact condition under Findings.
- Features.Judge: the spectral flatness is a given function of the band-passed window; the dominant and centroid frequencies, the signal-to-noise and vertical-to-horizontal ratios are not modelled, as they decide nothing.
- The 8-sample input-resolution and clipping tracking of the processor: their result is an argument of each sample.
- The stillness window is a whole number of seconds, as in the default configuration.
- Next-level checks kept for display, event identifiers as text (a number stands for them), copies made for other goroutines.
- Judging.Judge: first-pick time and location and origin uncertainties of an event are not kept.
- HTTP, WebSocket, storage, notifications, the simulator, replay and benchmarks, the web client and the firmware.
- RateLimit.Limiter.Allow: locking; the clock is an argument.
