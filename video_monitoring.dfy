/**
 * The playback monitor of js/utils/video-monitoring.js, the adaptive-bitrate
 * path the player actually uses: a three-sample moving average of measured
 * bandwidth, the ideal-level rule built on it, a rate gate for quality
 * checks, and start/end bookkeeping for buffering, seeking and playback.
 * `Date.now()` is the explicit parameter `now`.
 */
module PlaybackMonitoring {
  import opened Wrappers
  import opened MediaTypes
  import opened BoundedHistory

  const MovingAveragePeriod: nat := 3
  const QualityCheckInterval: int := 1000
  const BandwidthSafetyFactor: real := 0.8

  /**
   * A timestamp field is truthy when it is set and not 0: the source tests
   * `if (this.metrics.buffering.lastBufferStart)`, for which `null` and 0 are alike.
   */
  predicate Truthy(stamp: Option<int>) {
    stamp.Some? && stamp.value != 0
  }

  datatype BandwidthMetrics = BandwidthMetrics(samples: seq<real>, current: real, average: real)

  datatype BufferingMetrics = BufferingMetrics(count: int, totalDuration: int, lastBufferStart: Option<int>)

  datatype PlaybackMetrics = PlaybackMetrics(
    startTime: Option<int>,
    totalPlayTime: int,
    pauseCount: int,
    seekCount: int,
    seekTime: int,
    lastSeekStart: Option<int>)

  /**
   * What the player passes as a quality: a level's `height`, the string
   * `'auto'`, or `undefined` when `levels[i]?.height` finds no level.
   */
  datatype QualityLabel = Height(height: int) | Auto | Missing

  /** One `{timestamp, from, to}` entry. */
  datatype QualitySwitch = QualitySwitch(timestamp: int, from: QualityLabel, to: QualityLabel)

  datatype QualityMetrics = QualityMetrics(switches: int, currentQuality: Option<QualityLabel>, switchHistory: seq<QualitySwitch>)

  /**
   * What the player passes as an error: the `details` string of an hls.js
   * error event, or an `Error` object caught while evaluating quality.
   */
  datatype ErrorValue = ErrorDetails(details: string) | ThrownError(message: string)

  datatype ErrorEntry = ErrorEntry(timestamp: int, error: ErrorValue)

  datatype ErrorMetrics = ErrorMetrics(count: int, lastError: Option<ErrorValue>, errorHistory: seq<ErrorEntry>)

  const EmptyBandwidth := BandwidthMetrics([], 0.0, 0.0)
  const EmptyBuffering := BufferingMetrics(0, 0, None)
  const EmptyPlayback := PlaybackMetrics(None, 0, 0, 0, 0, None)
  const EmptyQuality := QualityMetrics(0, None, [])
  const EmptyErrors := ErrorMetrics(0, None, [])

  /** `levels[i].bitrate < threshold`; an absent bitrate compares false. */
  predicate Affordable(level: Level, threshold: real) {
    level.bitrate.Some? && level.bitrate.value < threshold
  }

  class VideoMonitoring {
    var bandwidth: BandwidthMetrics
    var buffering: BufferingMetrics
    var playback: PlaybackMetrics
    var quality: QualityMetrics
    var errors: ErrorMetrics
    var lastQualityCheck: int

    /**
     * The window never exceeds the averaging period, every counter is
     * non-negative, and each history has one entry per counted event.
     */
    predicate Valid()
      reads this
    {
      && |bandwidth.samples| <= MovingAveragePeriod
      && buffering.count >= 0
      && playback.pauseCount >= 0
      && playback.seekCount >= 0
      && |quality.switchHistory| == quality.switches
      && |errors.errorHistory| == errors.count
    }

    constructor (now: int)
      ensures Valid()
      ensures bandwidth == EmptyBandwidth && buffering == EmptyBuffering && playback == EmptyPlayback
      ensures quality == EmptyQuality && errors == EmptyErrors && lastQualityCheck == now
    {
      bandwidth := EmptyBandwidth;
      buffering := EmptyBuffering;
      playback := EmptyPlayback;
      quality := EmptyQuality;
      errors := EmptyErrors;
      lastQualityCheck := now;
    }

    /**
     * addBandwidthSample: push the sample, drop the oldest beyond three,
     * record it as `current` and return the refreshed moving average.
     */
    method AddBandwidthSample(bandwidthBps: real) returns (average: real)
      requires Valid()
      modifies this
      ensures Valid()
      ensures bandwidth.samples == PushBounded(old(bandwidth.samples), bandwidthBps, MovingAveragePeriod)
      ensures bandwidth.samples[|bandwidth.samples| - 1] == bandwidthBps
      ensures |bandwidth.samples| == if |old(bandwidth.samples)| < MovingAveragePeriod
                                     then |old(bandwidth.samples)| + 1 else MovingAveragePeriod
      ensures bandwidth.current == bandwidthBps
      ensures average == bandwidth.average == Mean(bandwidth.samples)
      ensures buffering == old(buffering) && playback == old(playback)
      ensures quality == old(quality) && errors == old(errors) && lastQualityCheck == old(lastQualityCheck)
    {
      var samples := bandwidth.samples + [bandwidthBps];
      if |samples| > MovingAveragePeriod {
        samples := samples[1..];
      }
      bandwidth := bandwidth.(samples := samples, current := bandwidthBps);
      average := GetAverageBandwidth();
      bandwidth := bandwidth.(average := average);
    }

    /** getAverageBandwidth: the mean of the window, 0 when it is empty. */
    function GetAverageBandwidth(): (r: real)
      reads this
      ensures bandwidth.samples == [] ==> r == 0.0
      ensures bandwidth.samples != [] ==> MinOf(bandwidth.samples) <= r <= MaxOf(bandwidth.samples)
      ensures r == Mean(bandwidth.samples)
    {
      if bandwidth.samples != [] then
        MeanBetween(bandwidth.samples, MinOf(bandwidth.samples), MaxOf(bandwidth.samples));
        Mean(bandwidth.samples)
      else 0.0
    }

    /** startBuffering: opens an episode and counts it, unless one is already open. */
    method StartBuffering(now: int)
      requires Valid()
      modifies this
      ensures Valid()
      ensures Truthy(old(buffering.lastBufferStart)) ==> buffering == old(buffering)
      ensures !Truthy(old(buffering.lastBufferStart)) ==>
                buffering == old(buffering).(lastBufferStart := Some(now), count := old(buffering.count) + 1)
      ensures bandwidth == old(bandwidth) && playback == old(playback)
      ensures quality == old(quality) && errors == old(errors) && lastQualityCheck == old(lastQualityCheck)
    {
      if !Truthy(buffering.lastBufferStart) {
        buffering := buffering.(lastBufferStart := Some(now), count := buffering.count + 1);
      }
    }

    /** endBuffering: closes the open episode, adding its length; without one it does nothing. */
    method EndBuffering(now: int)
      requires Valid()
      modifies this
      ensures Valid()
      ensures Truthy(old(buffering.lastBufferStart)) ==>
                buffering == old(buffering).(
                  totalDuration := old(buffering.totalDuration) + (now - old(buffering.lastBufferStart.value)),
                  lastBufferStart := None)
      ensures !Truthy(old(buffering.lastBufferStart)) ==> buffering == old(buffering)
      ensures bandwidth == old(bandwidth) && playback == old(playback)
      ensures quality == old(quality) && errors == old(errors) && lastQualityCheck == old(lastQualityCheck)
    {
      if Truthy(buffering.lastBufferStart) {
        var duration := now - buffering.lastBufferStart.value;
        buffering := buffering.(totalDuration := buffering.totalDuration + duration, lastBufferStart := None);
      }
    }

    /** startPlayback: the first truthy start time is kept. */
    method StartPlayback(now: int)
      requires Valid()
      modifies this
      ensures Valid()
      ensures playback == if Truthy(old(playback.startTime)) then old(playback)
                          else old(playback).(startTime := Some(now))
      ensures bandwidth == old(bandwidth) && buffering == old(buffering)
      ensures quality == old(quality) && errors == old(errors) && lastQualityCheck == old(lastQualityCheck)
    {
      if !Truthy(playback.startTime) {
        playback := playback.(startTime := Some(now));
      }
    }

    /** pausePlayback: counts the pause and refreshes the play time. */
    method PausePlayback(now: int)
      requires Valid()
      modifies this
      ensures Valid()
      ensures playback.pauseCount == old(playback.pauseCount) + 1
      ensures Truthy(old(playback.startTime)) ==> playback.totalPlayTime == now - old(playback.startTime.value)
      ensures !Truthy(old(playback.startTime)) ==> playback.totalPlayTime == old(playback.totalPlayTime)
      ensures playback == old(playback).(pauseCount := playback.pauseCount, totalPlayTime := playback.totalPlayTime)
      ensures bandwidth == old(bandwidth) && buffering == old(buffering)
      ensures quality == old(quality) && errors == old(errors) && lastQualityCheck == old(lastQualityCheck)
    {
      playback := playback.(pauseCount := playback.pauseCount + 1);
      UpdateTotalPlayTime(now);
    }

    /**
     * updateTotalPlayTime: the play time is the whole span since the start,
     * not a running sum.
     */
    method UpdateTotalPlayTime(now: int)
      requires Valid()
      modifies this
      ensures Valid()
      ensures playback == if Truthy(old(playback.startTime))
                          then old(playback).(totalPlayTime := now - old(playback.startTime.value))
                          else old(playback)
      ensures bandwidth == old(bandwidth) && buffering == old(buffering)
      ensures quality == old(quality) && errors == old(errors) && lastQualityCheck == old(lastQualityCheck)
    {
      if Truthy(playback.startTime) {
        playback := playback.(totalPlayTime := now - playback.startTime.value);
      }
    }

    /** startSeeking: counts a seek once, however often it is signalled before it ends. */
    method StartSeeking(now: int)
      requires Valid()
      modifies this
      ensures Valid()
      ensures Truthy(old(playback.lastSeekStart)) ==> playback == old(playback)
      ensures !Truthy(old(playback.lastSeekStart)) ==>
                playback == old(playback).(lastSeekStart := Some(now), seekCount := old(playback.seekCount) + 1)
      ensures bandwidth == old(bandwidth) && buffering == old(buffering)
      ensures quality == old(quality) && errors == old(errors) && lastQualityCheck == old(lastQualityCheck)
    {
      if !Truthy(playback.lastSeekStart) {
        playback := playback.(lastSeekStart := Some(now), seekCount := playback.seekCount + 1);
      }
    }

    /** endSeeking: adds the seek's length to `seekTime`; an unmatched end does nothing. */
    method EndSeeking(now: int)
      requires Valid()
      modifies this
      ensures Valid()
      ensures Truthy(old(playback.lastSeekStart)) ==>
                playback == old(playback).(
                  seekTime := old(playback.seekTime) + (now - old(playback.lastSeekStart.value)),
                  lastSeekStart := None)
      ensures !Truthy(old(playback.lastSeekStart)) ==> playback == old(playback)
      ensures bandwidth == old(bandwidth) && buffering == old(buffering)
      ensures quality == old(quality) && errors == old(errors) && lastQualityCheck == old(lastQualityCheck)
    {
      if Truthy(playback.lastSeekStart) {
        var seekDuration := now - playback.lastSeekStart.value;
        playback := playback.(seekTime := playback.seekTime + seekDuration, lastSeekStart := None);
      }
    }

    /** recordQualitySwitch: one more switch, the new current quality, one more history entry. */
    method RecordQualitySwitch(oldQuality: QualityLabel, newQuality: QualityLabel, now: int)
      requires Valid()
      modifies this
      ensures Valid()
      ensures quality.switches == old(quality.switches) + 1
      ensures quality.currentQuality == Some(newQuality)
      ensures quality.switchHistory == old(quality.switchHistory) + [QualitySwitch(now, oldQuality, newQuality)]
      ensures bandwidth == old(bandwidth) && buffering == old(buffering) && playback == old(playback)
      ensures errors == old(errors) && lastQualityCheck == old(lastQualityCheck)
    {
      quality := QualityMetrics(
        quality.switches + 1,
        Some(newQuality),
        quality.switchHistory + [QualitySwitch(now, oldQuality, newQuality)]);
    }

    /** recordError: one more error, remembered as the last one and appended to the history. */
    method RecordError(error: ErrorValue, now: int)
      requires Valid()
      modifies this
      ensures Valid()
      ensures errors.count == old(errors.count) + 1
      ensures errors.lastError == Some(error)
      ensures errors.errorHistory == old(errors.errorHistory) + [ErrorEntry(now, error)]
      ensures bandwidth == old(bandwidth) && buffering == old(buffering) && playback == old(playback)
      ensures quality == old(quality) && lastQualityCheck == old(lastQualityCheck)
    {
      errors := ErrorMetrics(errors.count + 1, Some(error), errors.errorHistory + [ErrorEntry(now, error)]);
    }

    /**
     * calculateIdealLevel: the highest index whose bitrate is below 80% of
     * the average bandwidth, or 0 when there is none.
     */
    method CalculateIdealLevel(levels: seq<Level>) returns (idealLevel: int)
      ensures var threshold := GetAverageBandwidth() * BandwidthSafetyFactor;
              && (levels == [] ==> idealLevel == 0)
              && (levels != [] ==> 0 <= idealLevel < |levels|)
              && (forall j :: idealLevel < j < |levels| ==> !Affordable(levels[j], threshold))
              && ((exists j :: 0 <= j < |levels| && Affordable(levels[j], threshold)) ==>
                    Affordable(levels[idealLevel], threshold))
              && ((forall j :: 0 <= j < |levels| ==> !Affordable(levels[j], threshold)) ==> idealLevel == 0)
    {
      var averageBandwidth := GetAverageBandwidth();
      var threshold := averageBandwidth * BandwidthSafetyFactor;
      idealLevel := 0;
      var found := false;
      for i := 0 to |levels|
        invariant 0 <= idealLevel && (i > 0 ==> idealLevel < i)
        invariant found <==> exists j :: 0 <= j < i && Affordable(levels[j], threshold)
        invariant found ==> Affordable(levels[idealLevel], threshold)
        invariant !found ==> idealLevel == 0
        invariant forall j :: idealLevel < j < i ==> !Affordable(levels[j], threshold)
      {
        if levels[i].bitrate.Some? && levels[i].bitrate.value < threshold {
          idealLevel := i;
          found := true;
        }
      }
    }

    /**
     * shouldCheckQuality: true at most once per second; the clock is
     * advanced only when it answers true.
     */
    method ShouldCheckQuality(now: int) returns (due: bool)
      requires Valid()
      modifies this
      ensures Valid()
      ensures due <==> now - old(lastQualityCheck) >= QualityCheckInterval
      ensures lastQualityCheck == if due then now else old(lastQualityCheck)
      ensures bandwidth == old(bandwidth) && buffering == old(buffering) && playback == old(playback)
      ensures quality == old(quality) && errors == old(errors)
    {
      if now - lastQualityCheck >= QualityCheckInterval {
        lastQualityCheck := now;
        return true;
      }
      return false;
    }

    /** reset: every metric back to empty, the quality clock restarted at `now`. */
    method Reset(now: int)
      modifies this
      ensures Valid()
      ensures bandwidth == EmptyBandwidth && buffering == EmptyBuffering && playback == EmptyPlayback
      ensures quality == EmptyQuality && errors == EmptyErrors && lastQualityCheck == now
    {
      bandwidth := EmptyBandwidth;
      buffering := EmptyBuffering;
      playback := EmptyPlayback;
      quality := EmptyQuality;
      errors := EmptyErrors;
      lastQualityCheck := now;
    }
  }

  /**
   * Two quality checks that both answer true are at least a second apart:
   * after a true answer, any `now` less than a second later answers false.
   */
  method RateGateScenario(m: VideoMonitoring, t: int, later: int)
    requires m.Valid()
    requires t - m.lastQualityCheck >= QualityCheckInterval
    requires t <= later < t + QualityCheckInterval
    modifies m
    ensures m.lastQualityCheck == t
  {
    var first := m.ShouldCheckQuality(t);
    assert first;
    var second := m.ShouldCheckQuality(later);
    assert !second;
  }

  /**
   * A buffering episode signalled twice before it ends is counted once,
   * and its length is added once.
   */
  method BufferingEpisodeScenario(m: VideoMonitoring, start: int, again: int, stop: int)
    requires m.Valid() && !Truthy(m.buffering.lastBufferStart)
    requires start != 0
    modifies m
    ensures m.buffering.count == old(m.buffering.count) + 1
    ensures m.buffering.totalDuration == old(m.buffering.totalDuration) + (stop - start)
    ensures m.buffering.lastBufferStart == None
  {
    m.StartBuffering(start);
    m.StartBuffering(again);
    m.EndBuffering(stop);
  }
}
