# HLS-Video adaptive-bitrate core in Dafny

This project models the client-side adaptive-bitrate (ABR) logic of the
HLS-Video player and the small pure helpers around it, and proves what that
code promises. It covers these parts:

- **Hysteresis quality selector** (`QualitySelection`, quality_selector.dfy).
  It applies these gates in order: stability lock, trend-window update, rate
  limit, ideal level, up/down switch tests, and an anti-flap counter that
  starts a stability lock.
  - `Select` is the specification of one `selectQuality` call.
  - The class `QualitySelector` holds the mutable `state` object. Its
    `SelectQuality` method is proved to follow `Select`.
- **Bandwidth estimator** (`BandwidthEstimation`, bandwidth_calculator.dfy).
  It keeps a sliding time window of throughput samples plus a fast and a slow
  EWMA (exponentially weighted moving average). From these it computes a
  conservative estimate, then shrinks that by the window's variability.
- **Playback monitor** (`PlaybackMonitoring`, video_monitoring.dfy). This is
  the ABR path the player actually calls. It has:
  - a three-sample moving average;
  - the "highest level under 80% of the average" rule;
  - a once-per-second rate gate;
  - start/end bookkeeping for buffering, seeking and playback;
  - counters and histories.
- **Tile geometry of the super-resolution preprocessor** (`TileGeometry`,
  enhance_processor.dfy):
  - the frame size guard;
  - the overlapping 256-pixel tile grid with stride 248;
  - the planar tensor index of the pixel fill;
  - `padTensor`, which does clamp-to-edge padding in place on a
    `3 * 256 * 256` array.
- **Enhanced-segment cache** (`EnhancementCache`, video_enhancement.dfy).
  `enhanceSegment` has a busy guard and a cache lookup by sequence number. It
  inserts into an insertion-ordered map that keeps the five most recent
  entries, and clears its busy flag on both exits. The awaited processors
  are an abstract result: `Produced` or `Threw`.
- **HLS master-playlist builder and level store** (`MasterPlaylist`,
  hls_service.dfy). The playlist follows RFC 8216:
  - `#EXTM3U` (section 4.3.1.1);
  - `#EXT-X-VERSION:3` (section 4.3.1.2);
  - one `#EXT-X-STREAM-INF` tag with BANDWIDTH and RESOLUTION per variant,
    followed by its URI (section 4.3.4.2).
- **Segment helpers** (`SegmentUtils`, segment_utils.dfy): the ordered
  validator and the rounded segment bitrate.

Shared modules:
- `Wrappers`: `Option`/`Result` and JavaScript's `x || default`.
- `MediaTypes`: hls.js levels and segments.
- `BoundedHistory`: the push-then-shift windows and their means.

Time (`Date.now()`) is always an explicit parameter `now` (or `timestamp`).
Numbers are mathematical `real`s and `int`s, not IEEE doubles. The player
constants are fixed:
- 3-sample average, 1000 ms check interval, 0.8 safety factor;
- quality table 480p/720p/1080p (js/constants/player.js:5-13);
- tile size 256 and overlap 8.

Behaviour of the code worth knowing:

- **Alternating switches never lock.** A switch in the other direction resets
  the consecutive-switch counter to 1, so up/down/up/down flapping never
  reaches `maxConsecutiveSwitches`. Only repeated same-direction switches
  start the stability lock (`AntiFlap`, `LockEntry`).
- **The lock suppresses the switch that triggers it.** The same-direction
  switch that completes `maxConsecutiveSwitches` is not performed.
- **`calculateIdealLevel` returns a `level` property.** It returns
  `suitableLevels[k].level || 0`, not a catalogue index, so hls.js level
  objects without a `level` property always give 0 (`IdealLevel`).
- **The window prunes samples but not the EWMAs.** Pruning removes samples
  from the window, but both EWMAs keep the influence of pruned samples. Only
  the `minSamples` test and the variance see the window.
- **`getEffectiveBandwidth` applies `safetyFactor` twice.** The estimate it
  starts from is already scaled by `safetyFactor`, and it multiplies by
  `safetyFactor` again (`Damped`).
- **A negative `windowSize` drops every sample stamped at or before the new
  one,** the new one included; only samples carrying a later caller-supplied
  timestamp survive.
- **The trend divides by the first sample.** With a first sample of 0 the
  change is +Infinity, -Infinity or NaN, depending on the sign of the last
  sample. `AnalyzeTrend` gives the comparisons those values produce.

## Model

| member | source | states |
|---|---|---|
| Wrappers.IntOr | js/utils/quality-selector.js:5-21 | an absent option and a configured 0 both give the default; any other value is kept |
| Wrappers.RealOr | js/utils/bandwidth-calculator.js:5-9 | the same `||` defaulting for real-valued options |
| QualitySelection.ResolveConfig | js/utils/quality-selector.js:2-22 | no options give the defaults 5000 ms, 1.5, 0.8, 10 s, 5 s, 2, 30000 ms, 5, 0.1; no resolved value is 0 |
| QualitySelection.BandwidthMultiplier | js/utils/quality-selector.js:146-161 | below the critical buffer it is `downSwitchThreshold`; above `minBufferForUpswitch` it is `upSwitchThreshold`; otherwise 1.0; with the defaults it is one of 0.8, 1.0, 1.5 |
| QualitySelection.MultiplierMonotoneInBuffer | js/utils/quality-selector.js:146-161 | with down <= 1 <= up thresholds, a longer buffer never lowers the multiplier |
| QualitySelection.Suitable | js/utils/quality-selector.js:122-125 | the filter keeps only catalogue levels with a numeric bitrate within the scaled bandwidth; it is empty iff no level qualifies |
| QualitySelection.SuitableHead | js/utils/quality-selector.js:122-136 | the first filtered level is the lowest qualifying catalogue entry |
| QualitySelection.SuitableLast | js/utils/quality-selector.js:122-143 | the last filtered level is the highest qualifying catalogue entry |
| QualitySelection.IdealLevel | js/utils/quality-selector.js:114-144 | 0 when nothing qualifies; otherwise the `level` property of the highest qualifying level; within 30 s of the end, min(lowest qualifying's property, currentLevel + 1), so at most currentLevel + 1; 0 when no level carries the property |
| QualitySelection.AnalyzeTrend | js/utils/quality-selector.js:222-237 | 'stable' below `trendWindowSize` samples; for a positive first sample, 'increasing' iff last - first > threshold * first and 'decreasing' iff last - first < -threshold * first |
| QualitySelection.CanUpSwitch | js/utils/quality-selector.js:163-187 | false without a numeric bitrate, above bandwidth * upSwitchThreshold, below minBufferForUpswitch or on a decreasing trend; true otherwise |
| QualitySelection.ShouldDownSwitch | js/utils/quality-selector.js:189-213 | with a numeric bitrate, true on a critical buffer, on a bitrate above bandwidth * downSwitchThreshold or on a decreasing trend, and only then |
| QualitySelection.UpdateTrend | js/utils/quality-selector.js:215-220 | only the trend window changes: the bandwidth is appended and the oldest sample dropped beyond `trendWindowSize` (`PushBounded`), so the window stays within that size |
| QualitySelection.RecordSwitch | js/utils/quality-selector.js:239-255 | currentLevel and lastSwitchTime are set; the direction is up iff new > old; the history gains the event as its last entry, stays within 10 entries and drops at most the oldest |
| QualitySelection.ValidAfterSwitch | js/utils/quality-selector.js:239-255 | a switch made at least minSwitchInterval after the last one keeps the switch log spaced by minSwitchInterval and capped at 10 |
| QualitySelection.AntiFlap | js/utils/quality-selector.js:96-111 | the level stays put iff the lock is due (the last direction repeats and the incremented counter reaches maxConsecutiveSwitches); then only stabilityEndTime = now + stabilityPeriod and the counter 0 change; otherwise the switch to `ideal` is recorded at `now` with its direction, and the counter is the old one + 1 for a repeated direction, else 1 |
| QualitySelection.Decide | js/utils/quality-selector.js:58-111 | a failed gate (rate limit, ideal equal to current, index out of range, up or down test) changes nothing; once every gate passes, the level becomes the ideal one iff the lock is not due, and a due lock is entered; a switch is logged at `now` with the counter rule of `AntiFlap`; spacing is preserved |
| QualitySelection.Select | js/utils/quality-selector.js:35-111 | an empty catalogue or a running stability lock returns currentLevel with the state, trend included, unchanged; otherwise the bandwidth enters the trend window, within minSwitchInterval only the trend changes, and the level changes iff every gate passes on the updated window and the lock is not due; the returned level is the remembered one |
| QualitySelection.SwitchPassedGates | js/utils/quality-selector.js:58-111 | a call that changes level returns a catalogue index, after the lock and rate limit, equal to the ideal level, allowed by canUpSwitch or shouldDownSwitch, logged at `now` with its direction; the counter is the old one + 1 for a repeated direction, else 1 |
| QualitySelection.LockEntry | js/utils/quality-selector.js:96-106 | entering the lock keeps the level and the switch log, sets stabilityEndTime = now + stabilityPeriod and the counter to 0, and happens only when the last switch direction equals the direction to the ideal level and the incremented counter reaches maxConsecutiveSwitches; conversely a due lock past every gate is entered |
| QualitySelection.SelectKeepsValidState | js/utils/quality-selector.js:35-112 | every call keeps the switch log spaced by minSwitchInterval and both logs within their caps |
| QualitySelection.LockedRunChangesNothing | js/utils/quality-selector.js:50-53 | any run of calls made before stabilityEndTime returns currentLevel every time and leaves the state unchanged |
| QualitySelection.RunKeepsValidState | js/utils/quality-selector.js:35-112 | over any run of calls, logged switches stay minSwitchInterval apart and the logs stay capped |
| QualitySelection.QualitySelector.constructor | js/utils/quality-selector.js:2-33 | the configuration is resolved from the options and the state is the initial one (level -1, no direction, empty logs) |
| QualitySelection.QualitySelector.SelectQuality | js/utils/quality-selector.js:35-112 | the in-place updates of `state` produce exactly `Select`'s new state and level, and keep the state valid |
| QualitySelection.QualitySelector.UpdateBandwidthTrend | js/utils/quality-selector.js:215-220 | push then shift leaves the state `UpdateTrend` describes |
| QualitySelection.QualitySelector.RecordQualitySwitch | js/utils/quality-selector.js:239-255 | the in-place update leaves the state `RecordSwitch` describes |
| QualitySelection.QualitySelector.Reset | js/utils/quality-selector.js:257-267 | the state is the initial one again |
| QualitySelection.QualitySelector.GetDebugInfo | js/utils/quality-selector.js:269-277 | the snapshot is exactly the state's current level, counter, last direction and own switch log, with the analysed trend; the log holds at most 10 entries |
| BoundedHistory.PushBounded | js/utils/quality-selector.js:215-220 | push then one shift: the new value is last, the length grows by one up to the cap, and at most the oldest value is dropped |
| BoundedHistory.PushAllKeepsMostRecent | js/utils/video-monitoring.js:40-44 | after any sequence of pushes the window is exactly the most recent `cap` values in arrival order |
| BoundedHistory.MeanBetween | js/utils/video-monitoring.js:51-54 | the mean of a non-empty window lies between any bounds on its values |
| BoundedHistory.MeanOfConstant | js/utils/video-monitoring.js:51-54 | a window of equal values averages to that value |
| BandwidthEstimation.ResolveEstimatorConfig | js/utils/bandwidth-calculator.js:2-10 | no options give 3000 ms, 3, 0.3, 0.1, 0.7; no resolved value is 0 |
| BandwidthEstimation.Throughput | js/utils/bandwidth-calculator.js:21 | bits per second times milliseconds is bytes * 8000; non-negative for non-negative bytes |
| BandwidthEstimation.Ewma | js/utils/bandwidth-calculator.js:54-56 | the average moves from the old value by alpha times the difference to the new value |
| BandwidthEstimation.EwmaBetween | js/utils/bandwidth-calculator.js:54-56 | for alpha in [0, 1] the result lies between the old value and the new value |
| BandwidthEstimation.FasterAlphaTracksCloser | js/utils/bandwidth-calculator.js:33-48 | from the same old value, the larger alpha lands between the smaller one's result and the new sample |
| BandwidthEstimation.Prune | js/utils/bandwidth-calculator.js:58-63 | keeps exactly the samples stamped at or after the window start |
| BandwidthEstimation.PruneAppend | js/utils/bandwidth-calculator.js:24-30 | pruning after a push keeps the older survivors in order, followed by the new sample if it is in the window |
| BandwidthEstimation.SampleVariance | js/utils/bandwidth-calculator.js:97-104 | 0 for fewer than two values; non-negative |
| BandwidthEstimation.DifferentSamplesHaveVariance | js/utils/bandwidth-calculator.js:97-104 | a window holding two different values has a positive variance |
| BandwidthEstimation.ConstantSamplesHaveNoVariance | js/utils/bandwidth-calculator.js:97-104 | identical samples have variance 0 |
| BandwidthEstimation.VariabilityFactor | js/utils/bandwidth-calculator.js:87-92 | in [0.5, 1]; 1 up to variability 0.2; 0.5 from variability 0.5 |
| BandwidthEstimation.VariabilityFactorMonotone | js/utils/bandwidth-calculator.js:87-92 | more variability never gives a larger factor |
| BandwidthEstimation.BandwidthCalculator.constructor | js/utils/bandwidth-calculator.js:2-17 | the configuration is resolved from the options; no samples, both EWMAs and lastSampleTime 0; valid when the alphas and safetyFactor are in [0, 1] |
| BandwidthEstimation.BandwidthCalculator.AddSample | js/utils/bandwidth-calculator.js:19-52 | the window becomes the pruned old window plus the new sample (bytes * 8 / seconds, stamped `timestamp`), which a negative windowSize prunes at once; every retained sample is inside the window; the first sample seeds both EWMAs, later ones update each with its own alpha; a valid calculator stays valid for a non-negative byte count; returns the current estimate |
| BandwidthEstimation.BandwidthCalculator.CleanupOldSamples | js/utils/bandwidth-calculator.js:58-63 | the window is pruned at currentTime - windowSize and nothing else changes |
| BandwidthEstimation.BandwidthCalculator.CurrentEstimate | js/utils/bandwidth-calculator.js:65-76 | 0 below minSamples; otherwise one of the two EWMAs times safetyFactor, and for safetyFactor >= 0 not above either EWMA times safetyFactor |
| BandwidthEstimation.BandwidthCalculator.EffectiveBandwidth | js/utils/bandwidth-calculator.js:78-95 | 0 for a zero estimate; for a non-negative estimate it lies in [0.5 * estimate * safetyFactor, estimate * safetyFactor] |
| BandwidthEstimation.BandwidthCalculator.Reset | js/utils/bandwidth-calculator.js:106-111 | samples, both EWMAs and lastSampleTime are back to their initial values, valid again under an in-range configuration |
| BandwidthEstimation.SteadyDownloadsScenario | js/utils/bandwidth-calculator.js:19-76 | three 5,000,000 bit/s downloads half a second apart under the default configuration give an estimate of 3,500,000 bit/s |
| BandwidthEstimation.Damped | js/utils/bandwidth-calculator.js:80-94 | 0 for a zero estimate; for non-negative estimate and factor it lies in [0.5 * estimate * safetyFactor, estimate * safetyFactor]; a spread up to 20% of a positive estimate leaves it undamped, a spread of half the estimate or more halves it |
| BandwidthEstimation.MoreSpreadMoreDamping | js/utils/bandwidth-calculator.js:80-94 | for a positive estimate, a larger standard deviation never gives a larger effective bandwidth |
| BandwidthEstimation.EstimateBelowAverages | js/utils/bandwidth-calculator.js:65-76 | for a valid calculator (configuration in [0, 1], non-negative EWMAs), 0 <= estimate <= min(ewmaFast, ewmaSlow) |
| BandwidthEstimation.Conservative | js/utils/bandwidth-calculator.js:78-95 | for a valid calculator the effective bandwidth never exceeds the estimate |
| BandwidthEstimation.DampedBelowEstimate | js/utils/bandwidth-calculator.js:88-94 | with a factor in [0, 1] the damped value of a non-negative estimate does not exceed it |
| PlaybackMonitoring.VideoMonitoring.constructor | js/utils/video-monitoring.js:4-37 | every metric starts empty or 0 and the quality clock starts at `now` |
| PlaybackMonitoring.VideoMonitoring.AddBandwidthSample | js/utils/video-monitoring.js:40-49 | the window is the pushed window capped at 3, ending with the sample; `current` is the sample; the returned and stored average is the window's mean; nothing else changes |
| PlaybackMonitoring.VideoMonitoring.GetAverageBandwidth | js/utils/video-monitoring.js:51-54 | 0 for an empty window; otherwise the arithmetic mean, between the smallest and largest sample |
| PlaybackMonitoring.VideoMonitoring.StartBuffering | js/utils/video-monitoring.js:57-62 | opens and counts an episode only when none is open; otherwise nothing changes |
| PlaybackMonitoring.VideoMonitoring.EndBuffering | js/utils/video-monitoring.js:64-70 | adds the elapsed time to totalDuration and clears the start; without a start nothing changes |
| PlaybackMonitoring.VideoMonitoring.StartPlayback | js/utils/video-monitoring.js:73-77 | the first truthy start time is kept |
| PlaybackMonitoring.VideoMonitoring.PausePlayback | js/utils/video-monitoring.js:79-82 | pauseCount grows by 1 and totalPlayTime becomes the span since the start, if any |
| PlaybackMonitoring.VideoMonitoring.UpdateTotalPlayTime | js/utils/video-monitoring.js:84-88 | with a start, totalPlayTime is now - startTime; otherwise nothing changes |
| PlaybackMonitoring.VideoMonitoring.StartSeeking | js/utils/video-monitoring.js:91-96 | counts a seek once until it ends |
| PlaybackMonitoring.VideoMonitoring.EndSeeking | js/utils/video-monitoring.js:98-104 | adds the seek's length to seekTime and clears the start; an unmatched end changes nothing |
| PlaybackMonitoring.VideoMonitoring.RecordQualitySwitch | js/utils/video-monitoring.js:107-115 | switches grows by exactly 1, currentQuality is set and one entry is appended; a quality is a height, `'auto'` or `undefined` as the player passes it |
| PlaybackMonitoring.VideoMonitoring.RecordError | js/utils/video-monitoring.js:118-125 | count grows by 1, lastError is set and one entry is appended; an error is an hls.js `details` string or a thrown `Error`, stored as passed |
| PlaybackMonitoring.VideoMonitoring.CalculateIdealLevel | js/utils/video-monitoring.js:128-139 | the last index whose bitrate is below 0.8 * average, or 0 when there is none; a valid index for a non-empty list |
| PlaybackMonitoring.VideoMonitoring.ShouldCheckQuality | js/utils/video-monitoring.js:141-148 | true iff now - lastQualityCheck >= 1000; the clock advances only when it answers true |
| PlaybackMonitoring.VideoMonitoring.Reset | js/utils/video-monitoring.js:184-216 | every counter 0, every list empty, the quality clock at `now` |
| PlaybackMonitoring.RateGateScenario | js/utils/video-monitoring.js:141-148 | its body asserts that after a true answer any check less than a second later answers false; the clock stays at the first check |
| PlaybackMonitoring.BufferingEpisodeScenario | js/utils/video-monitoring.js:57-70 | an episode signalled twice before it ends is counted once, its length added once, and it is closed afterwards |
| TileGeometry.IdxInjective | js/processors/enhance-processor.js:125-126 | the planar index of an in-tile cell is inside the 3 * 256 * 256 tensor, and distinct cells have distinct indices |
| TileGeometry.PadRowTail | js/processors/enhance-processor.js:124-128 | columns aW .. 255 of the row take the value at column aW - 1; nothing outside them changes |
| TileGeometry.PadWidth | js/processors/enhance-processor.js:123-129 | cells with h < aH and w >= aW equal the pre-call value at (c, h, aW - 1); valid cells and other channels are unchanged |
| TileGeometry.CopyRow | js/processors/enhance-processor.js:132-136 | a row below aH becomes a copy of row aH - 1; nothing else changes |
| TileGeometry.PadHeight | js/processors/enhance-processor.js:131-137 | every row h >= aH becomes a copy of row aH - 1 as it stood before the call; the rest of the tensor is unchanged |
| TileGeometry.PadChannel | js/processors/enhance-processor.js:121-138 | one channel is padded as `ChannelPadded` describes and the other channels are untouched |
| TileGeometry.PadChannels | js/processors/enhance-processor.js:121-138 | all three channels are padded from the original contents |
| TileGeometry.PaddedTile | js/processors/enhance-processor.js:120-139 | three padded channels are the clamp-to-edge image of the original: cell (c, h, w) holds the original (c, min(h, aH - 1), min(w, aW - 1)) |
| TileGeometry.PadTensor | js/processors/enhance-processor.js:120-139 | afterwards every cell holds the original value of the nearest valid cell; the valid region is unchanged and every access is in bounds for 1 <= aW, aH <= 256 |
| TileGeometry.OriginsInRange | js/processors/enhance-processor.js:73-74 | the loop's origins are start + i * 248, all below the extent |
| TileGeometry.OriginsCover | js/processors/enhance-processor.js:73-74 | every position in [start, extent) is within 248 of some origin |
| TileGeometry.CutRow | js/processors/enhance-processor.js:74-114 | the inner loop pushes the row's tiles left to right |
| TileGeometry.ComputeTiles | js/processors/enhance-processor.js:56-118 | a frame with width * height > 2048 * 2048 is rejected before any tile is cut; otherwise the tiles are the grid, row by row |
| TileGeometry.TileBounds | js/processors/enhance-processor.js:73-76 | every tile starts inside the frame at a multiple of 248, is 1 to 256 pixels wide and high, and ends inside the frame |
| TileGeometry.TilesCover | js/processors/enhance-processor.js:73-76 | every pixel of the frame lies inside some tile's valid extent |
| TileGeometry.FillIndexInValidRegion | js/processors/enhance-processor.js:94-101 | for i < tileWidth * tileHeight and c < 3 the fill writes cell (c, i / tileWidth, i % tileWidth) of the valid region, inside the tensor |
| EnhancementCache.EnhancedCopy | js/processors/enhance-processor.js:321-324 | the segment with only its data replaced |
| EnhancementCache.VideoEnhancement.constructor | js/enhancement/videoEnhancement.js:6-15 | not busy, not enabled, no current segment, empty cache |
| EnhancementCache.VideoEnhancement.Begin | js/enhancement/videoEnhancement.js:226-242 | a missing segment or a busy call returns null and changes nothing; a cached sequence number returns the cached segment and changes nothing; otherwise the call becomes busy with this segment |
| EnhancementCache.VideoEnhancement.Store | js/enhancement/videoEnhancement.js:263 | `Map.set`: the key maps to the value; a new key goes last in insertion order, an existing key keeps its place |
| EnhancementCache.VideoEnhancement.EvictOldest | js/enhancement/videoEnhancement.js:265-269 | beyond five keys the earliest inserted is deleted; otherwise nothing changes |
| EnhancementCache.VideoEnhancement.Complete | js/enhancement/videoEnhancement.js:244-284 | both exits clear the busy flag and current segment; a failure rethrows and leaves the cache alone; a success caches the enhanced copy under its sequence number, evicting the earliest insertion beyond five, and returns it |
| EnhancementCache.VideoEnhancement.EnhanceSegment | js/enhancement/videoEnhancement.js:226-285 | the whole call without interleaving: null with nothing changed, the cached value, or, for a new segment, the error with cache and order unchanged, or the enhanced copy cached under its sequence number with the other entries kept, appended to the insertion order and the earliest entry evicted beyond five |
| EnhancementCache.VideoEnhancement.GetEnhancedSegment | js/enhancement/videoEnhancement.js:287-289 | defined exactly for cached sequence numbers, with the cached value |
| EnhancementCache.VideoEnhancement.HasEnhancedSegment | js/enhancement/videoEnhancement.js:291-293 | true iff getEnhancedSegment is defined |
| EnhancementCache.VideoEnhancement.EnableEnhancement | js/enhancement/videoEnhancement.js:299-302 | sets the flag and nothing else |
| EnhancementCache.VideoEnhancement.Reset | js/enhancement/videoEnhancement.js:304-311 | empties the cache and clears isEnhancing, enhanceEnabled and currentSegment |
| EnhancementCache.CacheBounded | js/enhancement/videoEnhancement.js:265-269 | the cache never holds more than five segments |
| EnhancementCache.OverlappingCallsScenario | js/enhancement/videoEnhancement.js:227-242 | its body asserts that while one enhancement awaits, a second call is refused; the first then caches its result and the busy flag is clear |
| MasterPlaylist.NatToString | js/services/hls-service.js:44 | an interpolated number is a non-empty run of decimal digits without a leading zero |
| MasterPlaylist.DecimalRoundTrip | js/services/hls-service.js:44 | the digits written for BANDWIDTH, width and height read back as the table's numbers |
| MasterPlaylist.Resolve | js/services/hls-service.js:42-43 | each entry, in order, paired with its quality table row |
| MasterPlaylist.VariantLinesAt | js/services/hls-service.js:44-45 | variant i contributes the STREAM-INF line at 2i and its URI at 2i + 1 |
| MasterPlaylist.PlaylistLinesAt | js/services/hls-service.js:38-46 | line 0 is `#EXTM3U`, line 1 `#EXT-X-VERSION:3`, and entry i gives lines 2 + 2i (STREAM-INF from its table row) and 3 + 2i (its URL) |
| MasterPlaylist.PlaylistIsItsLines | js/services/hls-service.js:37-49 | the playlist text is exactly its lines, each followed by a newline |
| MasterPlaylist.StartsWithHeader | js/services/hls-service.js:38-39 | the text starts with `#EXTM3U\n#EXT-X-VERSION:3\n` |
| MasterPlaylist.LineCount | js/services/hls-service.js:38-48 | for n entries whose URLs hold no newline, the text holds exactly 2 + 2n newline characters, one per line |
| MasterPlaylist.HlsService.constructor | js/services/hls-service.js:6-9 | no levels |
| MasterPlaylist.HlsService.CreateMasterPlaylist | js/services/hls-service.js:37-49 | the loop of `+=` appends produces exactly the master playlist text |
| MasterPlaylist.HlsService.SetLevels | js/services/hls-service.js:90-96 | getLevels afterwards returns the levels set |
| SegmentUtils.ValidateSegment | js/enhancement/utils.js:23-29 | succeeds with true iff the segment, its data, a non-zero duration and a numeric sn are present; otherwise fails with the message of the first failed check, in the order null, data, duration, sequence number |
| SegmentUtils.Round | js/enhancement/utils.js:7 | `Math.round`: the integer within half a unit, halves rounded up |
| SegmentUtils.RoundUnique | js/enhancement/utils.js:7 | that integer is unique |
| SegmentUtils.CalculateSegmentBitrate | js/enhancement/utils.js:3-8 | 0 without a segment or data; otherwise round(bytes * 8 / duration), non-negative |
| SegmentUtils.ValidatedBitrate | js/enhancement/utils.js:3-29 | for a validated segment with positive duration, bitrate * duration is within half a duration of its size in bits |

## Left out

- UI, DOM, canvas, ONNX inference, Web Audio, MediaRecorder and hls.js calls
  are left out. This includes the rest of enhance-processor.js (tile
  inference, `mergeTiles`, the float pixel conversion of the fill) and the
  rest of videoEnhancement.js (buttons, status messages, `frameToSegment`,
  `extractFrameFromSegment`).
- The first `enhanceSegment` of videoEnhancement.js (line 44) is left out.
  The second definition at line 226 replaces it in the class body.
- `fetchAllPlaylists`, `initializeHls`, `destroy`, `setCurrentLevel` and
  `setNextLevel` of hls-service.js are left out: they are network and hls.js
  calls.
- `getFormattedMetrics`, `toFixed`, `logSegmentInfo` and
  `createSegmentStatusMessage` are left out: they only format floats and
  strings.
- `Math.sqrt` is not modelled. `EffectiveBandwidth` takes the standard
  deviation as a parameter and requires it to be the square root of
  `SampleVariance` of the window (`IsSqrt`).
- IEEE floating point is not modelled: rounding, NaN and the infinities are
  out. The one exception is the first-sample-zero case of `AnalyzeTrend`,
  whose comparisons the model reproduces.
- BandwidthEstimation.BandwidthCalculator.AddSample: requires
  `durationMs > 0`, because the source divides by it unchecked.
- SegmentUtils.CalculateSegmentBitrate: requires a positive duration
  whenever data is present, because the source divides by it unchecked.
- MasterPlaylist.HlsService.CreateMasterPlaylist: requires every quality to
  be in the table, because an unknown one makes the source read a property
  of `undefined`. `Object.entries` is given as an ordered sequence of
  entries.
- TileGeometry.PadTensor: requires 1 <= aW, aH <= 256, because with 0 the
  source reads index -1. `TileBounds` shows every tile of the grid meets
  this.
- `enhanceSegment` is split at its awaits into `Begin` and `Complete`. The
  processors' outcome is a parameter. Other interleavings than the one in
  `OverlappingCallsScenario` are not modelled. A `reset` during the awaits is
  allowed by `Complete`'s contract, which does not depend on the flags.
- The `metrics` argument of `selectQuality` and the levels array are assumed
  well-formed. A non-array `levels` is modelled as the empty sequence, and a
  level without a numeric bitrate as `bitrate == None`.
- `recordError` stores the `Error` object it is given; the model keeps only
  its message (`ThrownError`), not its stack or other properties.
- The modules' exported singleton instances (`export default new ...`) are
  not modelled: each class is an ordinary object.
