/**
 * The hysteresis quality selector of js/utils/quality-selector.js: ordered
 * gates (stability lock, trend update, rate limit, ideal level, up/down
 * gates, anti-flap counter) deciding which level index to use next.
 *
 * The read-only helpers are functions over the configuration and a state
 * value; `Select` is the specification of one `selectQuality` call and the
 * class `QualitySelector` holds the mutable `state` object and is proved to
 * follow it.
 */
module QualitySelection {
  import opened Wrappers
  import opened MediaTypes
  import opened BoundedHistory

  datatype Direction = Up | Down

  datatype Trend = Increasing | Decreasing | Stable

  /** The options object passed to the constructor; `None` is an absent key. */
  datatype SelectorOptions = SelectorOptions(
    minSwitchInterval: Option<int>,
    upSwitchThreshold: Option<real>,
    downSwitchThreshold: Option<real>,
    minBufferForUpswitch: Option<real>,
    criticalBufferLevel: Option<real>,
    maxConsecutiveSwitches: Option<int>,
    stabilityPeriod: Option<int>,
    trendWindowSize: Option<int>,
    trendThreshold: Option<real>)

  /** Times are in milliseconds, buffer levels in seconds. */
  datatype SelectorConfig = SelectorConfig(
    minSwitchInterval: int,
    upSwitchThreshold: real,
    downSwitchThreshold: real,
    minBufferForUpswitch: real,
    criticalBufferLevel: real,
    maxConsecutiveSwitches: int,
    stabilityPeriod: int,
    trendWindowSize: int,
    trendThreshold: real)

  const NoOptions := SelectorOptions(None, None, None, None, None, None, None, None, None)

  const DefaultConfig := SelectorConfig(5000, 1.5, 0.8, 10.0, 5.0, 2, 30000, 5, 0.1)

  /** The playback snapshot handed to `selectQuality`. */
  datatype Metrics = Metrics(effectiveBandwidth: real, bufferLength: real, currentTime: real, duration: real)

  datatype SwitchEvent = SwitchEvent(timestamp: int, from: int, to: int, direction: Direction)

  /** `lastSwitchDirection` is `None` for JavaScript's `null`; `currentLevel == -1` means unset. */
  datatype SelectorState = SelectorState(
    lastSwitchTime: int,
    currentLevel: int,
    consecutiveSwitches: int,
    lastSwitchDirection: Option<Direction>,
    stabilityEndTime: int,
    recentBandwidthTrend: seq<real>,
    switchHistory: seq<SwitchEvent>)

  const InitialState := SelectorState(0, -1, 0, None, 0, [], [])

  const MaxSwitchHistory := 10

  /** The state after one call together with the level index it returned. */
  datatype Selection = Selection(state: SelectorState, level: int)

  /** The configuration built by the constructor. */
  function ResolveConfig(options: SelectorOptions): (c: SelectorConfig)
    ensures options == NoOptions ==> c == DefaultConfig
    ensures c.minSwitchInterval != 0 && c.maxConsecutiveSwitches != 0 && c.stabilityPeriod != 0
    ensures c.trendWindowSize != 0 && c.trendThreshold != 0.0
    ensures c.upSwitchThreshold != 0.0 && c.downSwitchThreshold != 0.0
    ensures c.minBufferForUpswitch != 0.0 && c.criticalBufferLevel != 0.0
  {
    SelectorConfig(
      IntOr(options.minSwitchInterval, DefaultConfig.minSwitchInterval),
      RealOr(options.upSwitchThreshold, DefaultConfig.upSwitchThreshold),
      RealOr(options.downSwitchThreshold, DefaultConfig.downSwitchThreshold),
      RealOr(options.minBufferForUpswitch, DefaultConfig.minBufferForUpswitch),
      RealOr(options.criticalBufferLevel, DefaultConfig.criticalBufferLevel),
      IntOr(options.maxConsecutiveSwitches, DefaultConfig.maxConsecutiveSwitches),
      IntOr(options.stabilityPeriod, DefaultConfig.stabilityPeriod),
      IntOr(options.trendWindowSize, DefaultConfig.trendWindowSize),
      RealOr(options.trendThreshold, DefaultConfig.trendThreshold))
  }

  function Min(a: int, b: int): int {
    if a <= b then a else b
  }

  /** getBandwidthMultiplier: conservative below the critical buffer, generous above the up-switch buffer. */
  function BandwidthMultiplier(cfg: SelectorConfig, m: Metrics): (r: real)
    ensures m.bufferLength < cfg.criticalBufferLevel ==> r == cfg.downSwitchThreshold
    ensures cfg.criticalBufferLevel <= m.bufferLength && cfg.minBufferForUpswitch < m.bufferLength ==> r == cfg.upSwitchThreshold
    ensures cfg.criticalBufferLevel <= m.bufferLength <= cfg.minBufferForUpswitch ==> r == 1.0
    ensures cfg == DefaultConfig ==> r == 0.8 || r == 1.0 || r == 1.5
  {
    if m.bufferLength < cfg.criticalBufferLevel then cfg.downSwitchThreshold
    else if m.bufferLength > cfg.minBufferForUpswitch then cfg.upSwitchThreshold
    else 1.0
  }

  /**
   * With the usual ordering of thresholds, a longer buffer never lowers the
   * multiplier.
   */
  lemma MultiplierMonotoneInBuffer(cfg: SelectorConfig, m1: Metrics, m2: Metrics)
    requires cfg.downSwitchThreshold <= 1.0 <= cfg.upSwitchThreshold
    requires m1.bufferLength <= m2.bufferLength
    ensures BandwidthMultiplier(cfg, m1) <= BandwidthMultiplier(cfg, m2)
  {
  }

  /** The filter of calculateIdealLevel: a numeric bitrate within the scaled bandwidth. */
  predicate Qualifies(cfg: SelectorConfig, m: Metrics, l: Level) {
    l.bitrate.Some? && l.bitrate.value <= m.effectiveBandwidth * BandwidthMultiplier(cfg, m)
  }

  /** `levels.filter(...)`: the qualifying levels in catalogue order. */
  function Suitable(cfg: SelectorConfig, m: Metrics, levels: seq<Level>): (r: seq<Level>)
    ensures |r| <= |levels|
    ensures forall l :: l in r ==> l in levels && Qualifies(cfg, m, l)
    ensures r == [] <==> forall i :: 0 <= i < |levels| ==> !Qualifies(cfg, m, levels[i])
  {
    if levels == [] then []
    else
      var rest := Suitable(cfg, m, levels[1..]);
      assert forall i :: 1 <= i < |levels| ==> levels[i] == levels[1..][i - 1];
      if Qualifies(cfg, m, levels[0]) then [levels[0]] + rest else rest
  }

  /** Index `i` holds the lowest qualifying level of the catalogue. */
  predicate IsFirstSuitable(cfg: SelectorConfig, m: Metrics, levels: seq<Level>, i: int) {
    0 <= i < |levels| && Qualifies(cfg, m, levels[i]) &&
    forall j :: 0 <= j < i ==> !Qualifies(cfg, m, levels[j])
  }

  /** Index `i` holds the highest qualifying level of the catalogue. */
  predicate IsLastSuitable(cfg: SelectorConfig, m: Metrics, levels: seq<Level>, i: int) {
    0 <= i < |levels| && Qualifies(cfg, m, levels[i]) &&
    forall j :: i < j < |levels| ==> !Qualifies(cfg, m, levels[j])
  }

  lemma {:induction false} SuitableHead(cfg: SelectorConfig, m: Metrics, levels: seq<Level>, i: int)
    requires IsFirstSuitable(cfg, m, levels, i)
    ensures Suitable(cfg, m, levels) != [] && Suitable(cfg, m, levels)[0] == levels[i]
  {
    if i > 0 {
      assert !Qualifies(cfg, m, levels[0]);
      assert forall j :: 0 <= j < i - 1 ==> levels[1..][j] == levels[j + 1];
      SuitableHead(cfg, m, levels[1..], i - 1);
    }
  }

  lemma {:induction false} SuitableLast(cfg: SelectorConfig, m: Metrics, levels: seq<Level>, i: int)
    requires IsLastSuitable(cfg, m, levels, i)
    ensures var r := Suitable(cfg, m, levels); r != [] && r[|r| - 1] == levels[i]
  {
    var tail := levels[1..];
    assert forall j :: 0 <= j < |tail| ==> tail[j] == levels[j + 1];
    if i == 0 {
      assert Suitable(cfg, m, tail) == [];
    } else {
      SuitableLast(cfg, m, tail, i - 1);
    }
  }

  /** `level.level || 0`: the level object's own `level` property, 0 when absent. */
  function TagOrZero(l: Level): int {
    l.tag.GetOr(0)
  }

  /**
   * calculateIdealLevel. It returns the `level` property of a chosen level
   * object, not its position: the highest qualifying level, or near the end of
   * the media the lowest qualifying one capped at `currentLevel + 1`.
   */
  function IdealLevel(cfg: SelectorConfig, currentLevel: int, levels: seq<Level>, m: Metrics): (r: int)
    ensures (forall i :: 0 <= i < |levels| ==> !Qualifies(cfg, m, levels[i])) ==> r == 0
    ensures forall i :: IsLastSuitable(cfg, m, levels, i) && m.duration - m.currentTime >= 30.0 ==>
              r == TagOrZero(levels[i])
    ensures forall i :: IsFirstSuitable(cfg, m, levels, i) && m.duration - m.currentTime < 30.0 ==>
              r == Min(TagOrZero(levels[i]), currentLevel + 1)
    ensures m.duration - m.currentTime < 30.0 && currentLevel >= -1 ==> r <= currentLevel + 1
    ensures (forall i :: 0 <= i < |levels| ==> levels[i].tag.None?) && currentLevel >= -1 ==> r == 0
  {
    if |levels| == 0 then 0
    else
      var suitable := Suitable(cfg, m, levels);
      if |suitable| == 0 then 0
      else
        assert forall i :: IsFirstSuitable(cfg, m, levels, i) ==> suitable[0] == levels[i] by {
          forall i | IsFirstSuitable(cfg, m, levels, i) { SuitableHead(cfg, m, levels, i); }
        }
        assert forall i :: IsLastSuitable(cfg, m, levels, i) ==> suitable[|suitable| - 1] == levels[i] by {
          forall i | IsLastSuitable(cfg, m, levels, i) { SuitableLast(cfg, m, levels, i); }
        }
        assert suitable[0] in suitable && suitable[|suitable| - 1] in suitable;
        if m.duration - m.currentTime < 30.0 then
          Min(TagOrZero(suitable[0]), currentLevel + 1)
        else
          TagOrZero(suitable[|suitable| - 1])
  }

  /**
   * analyzeBandwidthTrend: compares the newest sample with the oldest once the
   * window is full. A zero first sample divides by zero: the change is then
   * +Infinity, -Infinity or NaN according to the sign of the last sample, and
   * an empty window (possible only when `trendWindowSize <= 0`) gives NaN.
   */
  function AnalyzeTrend(cfg: SelectorConfig, trend: seq<real>): (r: Trend)
    ensures |trend| < cfg.trendWindowSize ==> r == Stable
    ensures |trend| >= cfg.trendWindowSize && |trend| > 0 && trend[0] > 0.0 ==>
              (r == Increasing <==> trend[|trend| - 1] - trend[0] > cfg.trendThreshold * trend[0])
    ensures |trend| >= cfg.trendWindowSize && |trend| > 0 && trend[0] > 0.0 && cfg.trendThreshold >= 0.0 ==>
              (r == Decreasing <==> trend[|trend| - 1] - trend[0] < -cfg.trendThreshold * trend[0])
  {
    if |trend| < cfg.trendWindowSize || |trend| == 0 then Stable
    else
      var first := trend[0];
      var last := trend[|trend| - 1];
      if first == 0.0 then
        if last > 0.0 then Increasing else if last < 0.0 then Decreasing else Stable
      else
        var change := (last - first) / first;
        assert first > 0.0 ==> (change > cfg.trendThreshold <==> last - first > cfg.trendThreshold * first) by {
          if first > 0.0 { DivideByPositive(last - first, first, cfg.trendThreshold); }
        }
        assert first > 0.0 ==> (change < -cfg.trendThreshold <==> last - first < -cfg.trendThreshold * first) by {
          if first > 0.0 { DivideByPositive(last - first, first, -cfg.trendThreshold); }
        }
        if change > cfg.trendThreshold then Increasing
        else if change < -cfg.trendThreshold then Decreasing
        else Stable
  }

  lemma DivideByPositive(d: real, f: real, t: real)
    requires f > 0.0
    ensures d / f > t <==> d > t * f
    ensures d / f < t <==> d < t * f
  {
    assert d / f * f == d;
  }

  /** canUpSwitch: the target needs a numeric bitrate, enough bandwidth, enough buffer and no falling trend. */
  function CanUpSwitch(cfg: SelectorConfig, trend: seq<real>, m: Metrics, target: Level): (r: bool)
    ensures target.bitrate.None? ==> !r
    ensures m.bufferLength < cfg.minBufferForUpswitch ==> !r
    ensures target.bitrate.Some? && target.bitrate.value > m.effectiveBandwidth * cfg.upSwitchThreshold ==> !r
    ensures AnalyzeTrend(cfg, trend) == Decreasing ==> !r
    ensures r <== target.bitrate.Some? && target.bitrate.value <= m.effectiveBandwidth * cfg.upSwitchThreshold &&
                  m.bufferLength >= cfg.minBufferForUpswitch && AnalyzeTrend(cfg, trend) != Decreasing
  {
    if target.bitrate.None? then false
    else if target.bitrate.value > m.effectiveBandwidth * cfg.upSwitchThreshold then false
    else if m.bufferLength < cfg.minBufferForUpswitch then false
    else AnalyzeTrend(cfg, trend) != Decreasing
  }

  /** shouldDownSwitch: a critical buffer forces it; otherwise too little bandwidth or a falling trend. */
  function ShouldDownSwitch(cfg: SelectorConfig, trend: seq<real>, m: Metrics, target: Level): (r: bool)
    ensures target.bitrate.None? ==> !r
    ensures target.bitrate.Some? && m.bufferLength < cfg.criticalBufferLevel ==> r
    ensures target.bitrate.Some? && target.bitrate.value > m.effectiveBandwidth * cfg.downSwitchThreshold ==> r
    ensures target.bitrate.Some? && AnalyzeTrend(cfg, trend) == Decreasing ==> r
    ensures r ==> target.bitrate.Some? &&
                  (m.bufferLength < cfg.criticalBufferLevel ||
                   target.bitrate.value > m.effectiveBandwidth * cfg.downSwitchThreshold ||
                   AnalyzeTrend(cfg, trend) == Decreasing)
  {
    if target.bitrate.None? then false
    else if m.bufferLength < cfg.criticalBufferLevel then true
    else if target.bitrate.value > m.effectiveBandwidth * cfg.downSwitchThreshold then true
    else AnalyzeTrend(cfg, trend) == Decreasing
  }

  /** updateBandwidthTrend: push the sample, drop the oldest when over `trendWindowSize`. */
  function UpdateTrend(cfg: SelectorConfig, st: SelectorState, bandwidth: real): (r: SelectorState)
    ensures r.(recentBandwidthTrend := st.recentBandwidthTrend) == st
    ensures r.recentBandwidthTrend == PushBounded(st.recentBandwidthTrend, bandwidth, cfg.trendWindowSize)
    ensures 0 <= cfg.trendWindowSize && |st.recentBandwidthTrend| <= cfg.trendWindowSize ==>
              |r.recentBandwidthTrend| <= cfg.trendWindowSize
  {
    st.(recentBandwidthTrend := PushBounded(st.recentBandwidthTrend, bandwidth, cfg.trendWindowSize))
  }

  /** The direction of a switch from `oldLevel` to `newLevel`: `Up` only for a higher index. */
  function DirectionOf(oldLevel: int, newLevel: int): Direction {
    if newLevel > oldLevel then Up else Down
  }

  /** recordQualitySwitch: remember the switch and log it in the capped history. */
  function RecordSwitch(st: SelectorState, oldLevel: int, newLevel: int, timestamp: int): (r: SelectorState)
    ensures r.currentLevel == newLevel && r.lastSwitchTime == timestamp
    ensures r.lastSwitchDirection == Some(DirectionOf(oldLevel, newLevel))
    ensures r.consecutiveSwitches == st.consecutiveSwitches && r.stabilityEndTime == st.stabilityEndTime
    ensures r.recentBandwidthTrend == st.recentBandwidthTrend
    ensures |r.switchHistory| >= 1
    ensures |st.switchHistory| <= MaxSwitchHistory ==> |r.switchHistory| <= MaxSwitchHistory
    ensures r.switchHistory[|r.switchHistory| - 1] == SwitchEvent(timestamp, oldLevel, newLevel, r.lastSwitchDirection.value)
    ensures var logged := st.switchHistory + [r.switchHistory[|r.switchHistory| - 1]];
            r.switchHistory == logged || r.switchHistory == logged[1..]
  {
    var direction := DirectionOf(oldLevel, newLevel);
    st.(lastSwitchTime := timestamp,
        currentLevel := newLevel,
        lastSwitchDirection := Some(direction),
        switchHistory := PushBounded(st.switchHistory, SwitchEvent(timestamp, oldLevel, newLevel, direction), MaxSwitchHistory))
  }

  /**
   * Anti-flap invariant: consecutive logged switches are at least
   * `minSwitchInterval` apart, and the newest one is `lastSwitchTime`.
   */
  ghost predicate SpacedHistory(cfg: SelectorConfig, st: SelectorState) {
    var h := st.switchHistory;
    (forall i :: 1 <= i < |h| ==> h[i].timestamp - h[i - 1].timestamp >= cfg.minSwitchInterval) &&
    (|h| > 0 ==> h[|h| - 1].timestamp == st.lastSwitchTime)
  }

  /** The state the selector keeps between calls. */
  ghost predicate ValidState(cfg: SelectorConfig, st: SelectorState) {
    |st.switchHistory| <= MaxSwitchHistory &&
    (0 <= cfg.trendWindowSize ==> |st.recentBandwidthTrend| <= cfg.trendWindowSize) &&
    SpacedHistory(cfg, st)
  }

  lemma {:induction false} ValidAfterSwitch(cfg: SelectorConfig, st: SelectorState, oldLevel: int, newLevel: int, now: int)
    requires ValidState(cfg, st)
    requires now - st.lastSwitchTime >= cfg.minSwitchInterval
    ensures ValidState(cfg, RecordSwitch(st, oldLevel, newLevel, now))
  {
    var r := RecordSwitch(st, oldLevel, newLevel, now);
    var h := st.switchHistory;
    var full := h + [r.switchHistory[|r.switchHistory| - 1]];
    assert forall i :: 1 <= i < |full| ==> full[i].timestamp - full[i - 1].timestamp >= cfg.minSwitchInterval by {
      forall i | 1 <= i < |full|
        ensures full[i].timestamp - full[i - 1].timestamp >= cfg.minSwitchInterval
      {
        if i < |h| {
          assert full[i] == h[i] && full[i - 1] == h[i - 1];
        }
      }
    }
    if r.switchHistory != full {
      assert forall i :: 0 <= i < |r.switchHistory| ==> r.switchHistory[i] == full[i + 1];
    }
  }

  /**
   * The stability lock is due: a switch from the current level to `ideal`
   * repeats the last direction and completes `maxConsecutiveSwitches`.
   */
  predicate LockDue(cfg: SelectorConfig, st: SelectorState, ideal: int) {
    st.lastSwitchDirection == Some(DirectionOf(st.currentLevel, ideal)) &&
    st.consecutiveSwitches + 1 >= cfg.maxConsecutiveSwitches
  }

  /**
   * The anti-flap step of selectQuality, reached once a switch from
   * `st.currentLevel` to `ideal` has passed its gate: a repeat of the last
   * direction that completes `maxConsecutiveSwitches` enters the stability
   * lock instead of switching; otherwise the switch is recorded.
   */
  function AntiFlap(cfg: SelectorConfig, st: SelectorState, ideal: int, now: int): (res: Selection)
    requires ideal != st.currentLevel
    ensures res.state.currentLevel == res.level
    ensures res.level == ideal || res.level == st.currentLevel
    // the switch is suppressed exactly when the lock is due
    ensures res.level == st.currentLevel <==> LockDue(cfg, st, ideal)
    ensures res.level == ideal ==>
              && res.state.lastSwitchTime == now
              && res.state.stabilityEndTime == st.stabilityEndTime
              && res.state.lastSwitchDirection == Some(DirectionOf(st.currentLevel, ideal))
              && |res.state.switchHistory| >= 1
              && res.state.switchHistory[|res.state.switchHistory| - 1] ==
                   SwitchEvent(now, st.currentLevel, ideal, DirectionOf(st.currentLevel, ideal))
    // a repeat of the last direction extends the run, a new direction restarts it at 1
    ensures res.level == ideal ==>
              res.state.consecutiveSwitches ==
                (if st.lastSwitchDirection == Some(DirectionOf(st.currentLevel, ideal)) then st.consecutiveSwitches + 1 else 1)
    ensures res.level == st.currentLevel ==>
              res.state == st.(stabilityEndTime := now + cfg.stabilityPeriod, consecutiveSwitches := 0)
    ensures res.state.recentBandwidthTrend == st.recentBandwidthTrend
    ensures ValidState(cfg, st) && now - st.lastSwitchTime >= cfg.minSwitchInterval ==> ValidState(cfg, res.state)
  {
    var current := st.currentLevel;
    var direction := DirectionOf(current, ideal);
    if st.lastSwitchDirection == Some(direction) && st.consecutiveSwitches + 1 >= cfg.maxConsecutiveSwitches then
      Selection(st.(stabilityEndTime := now + cfg.stabilityPeriod, consecutiveSwitches := 0), current)
    else
      var st2 :=
        if st.lastSwitchDirection == Some(direction) then st.(consecutiveSwitches := st.consecutiveSwitches + 1)
        else st.(consecutiveSwitches := 1);
      assert ValidState(cfg, st) && now - st.lastSwitchTime >= cfg.minSwitchInterval ==>
             ValidState(cfg, RecordSwitch(st2, current, ideal, now)) by {
        if ValidState(cfg, st) && now - st.lastSwitchTime >= cfg.minSwitchInterval {
          ValidAfterSwitch(cfg, st2, current, ideal, now);
        }
      }
      Selection(RecordSwitch(st2, current, ideal, now), ideal)
  }

  /**
   * The gates of selectQuality between the trend update and the anti-flap
   * step all let a switch to the ideal level through: the rate limit has
   * passed, the ideal level differs from the current one and is a catalogue
   * index, and the up-switch or down-switch test accepts its level.
   */
  predicate PassesGates(cfg: SelectorConfig, st: SelectorState, m: Metrics, levels: seq<Level>, now: int) {
    var ideal := IdealLevel(cfg, st.currentLevel, levels, m);
    && now - st.lastSwitchTime >= cfg.minSwitchInterval
    && ideal != st.currentLevel
    && 0 <= ideal < |levels|
    && (ideal > st.currentLevel ==> CanUpSwitch(cfg, st.recentBandwidthTrend, m, levels[ideal]))
    && (ideal < st.currentLevel ==> ShouldDownSwitch(cfg, st.recentBandwidthTrend, m, levels[ideal]))
  }

  /**
   * The part of selectQuality after the trend update: rate limit, ideal
   * level, index check, up/down gate, then the anti-flap step.
   */
  function Decide(cfg: SelectorConfig, st: SelectorState, m: Metrics, levels: seq<Level>, now: int): (res: Selection)
    ensures now - st.lastSwitchTime < cfg.minSwitchInterval ==> res == Selection(st, st.currentLevel)
    // a gate that holds the switch back leaves the state as it was
    ensures !PassesGates(cfg, st, m, levels, now) ==> res == Selection(st, st.currentLevel)
    // once every gate passes, the level moves to the ideal one unless the lock is due
    ensures PassesGates(cfg, st, m, levels, now) ==>
              (res.level == IdealLevel(cfg, st.currentLevel, levels, m) <==>
               !LockDue(cfg, st, IdealLevel(cfg, st.currentLevel, levels, m)))
    ensures res.state.currentLevel == res.level
    ensures res.state.recentBandwidthTrend == st.recentBandwidthTrend
    ensures res.level != st.currentLevel ==>
              && 0 <= res.level < |levels|
              && now - st.lastSwitchTime >= cfg.minSwitchInterval
              && res.level == IdealLevel(cfg, st.currentLevel, levels, m)
              && res.state.lastSwitchTime == now
              && |res.state.switchHistory| >= 1
              && res.state.switchHistory[|res.state.switchHistory| - 1] ==
                   SwitchEvent(now, st.currentLevel, res.level, DirectionOf(st.currentLevel, res.level))
    ensures res.level > st.currentLevel ==> CanUpSwitch(cfg, st.recentBandwidthTrend, m, levels[res.level])
    ensures res.level < st.currentLevel ==> ShouldDownSwitch(cfg, st.recentBandwidthTrend, m, levels[res.level])
    ensures res.level != st.currentLevel ==>
              && res.state.lastSwitchDirection == Some(DirectionOf(st.currentLevel, res.level))
              && res.state.consecutiveSwitches ==
                   (if st.lastSwitchDirection == Some(DirectionOf(st.currentLevel, res.level)) then st.consecutiveSwitches + 1 else 1)
    ensures res.state.stabilityEndTime != st.stabilityEndTime ==>
              && res.level == st.currentLevel
              && PassesGates(cfg, st, m, levels, now)
              && LockDue(cfg, st, IdealLevel(cfg, st.currentLevel, levels, m))
              && res.state == st.(stabilityEndTime := now + cfg.stabilityPeriod, consecutiveSwitches := 0)
    ensures PassesGates(cfg, st, m, levels, now) && LockDue(cfg, st, IdealLevel(cfg, st.currentLevel, levels, m)) ==>
              res == Selection(st.(stabilityEndTime := now + cfg.stabilityPeriod, consecutiveSwitches := 0), st.currentLevel)
    ensures ValidState(cfg, st) ==> ValidState(cfg, res.state)
  {
    var current := st.currentLevel;
    if now - st.lastSwitchTime < cfg.minSwitchInterval then Selection(st, current)
    else
      var ideal := IdealLevel(cfg, current, levels, m);
      if ideal == current then Selection(st, current)
      else if !(0 <= ideal < |levels|) then Selection(st, current)
      else if ideal > current && !CanUpSwitch(cfg, st.recentBandwidthTrend, m, levels[ideal]) then Selection(st, current)
      else if ideal < current && !ShouldDownSwitch(cfg, st.recentBandwidthTrend, m, levels[ideal]) then Selection(st, current)
      else AntiFlap(cfg, st, ideal, now)
  }

  /**
   * One selectQuality call at clock reading `now`: the empty-catalogue and
   * stability-lock checks, the trend update, then `Decide`.
   */
  function Select(cfg: SelectorConfig, st: SelectorState, m: Metrics, levels: seq<Level>, now: int): (res: Selection)
    // no catalogue or a running stability lock: nothing happens, not even the trend update
    ensures |levels| == 0 || now < st.stabilityEndTime ==> res == Selection(st, st.currentLevel)
    // otherwise the bandwidth always enters the trend window
    ensures |levels| > 0 && now >= st.stabilityEndTime ==>
              res.state.recentBandwidthTrend == UpdateTrend(cfg, st, m.effectiveBandwidth).recentBandwidthTrend
    // the rate limit: no switch and no other change within minSwitchInterval of the last switch
    ensures |levels| > 0 && now >= st.stabilityEndTime && now - st.lastSwitchTime < cfg.minSwitchInterval ==>
              res == Selection(UpdateTrend(cfg, st, m.effectiveBandwidth), st.currentLevel)
    // past those checks the level changes exactly when every gate passes on
    // the updated trend window and the stability lock is not due
    ensures |levels| > 0 && now >= st.stabilityEndTime ==>
              (res.level != st.currentLevel <==>
               && PassesGates(cfg, UpdateTrend(cfg, st, m.effectiveBandwidth), m, levels, now)
               && !LockDue(cfg, st, IdealLevel(cfg, st.currentLevel, levels, m)))
    // the returned level is the one remembered as current
    ensures res.state.currentLevel == res.level
  {
    if |levels| == 0 || now < st.stabilityEndTime then Selection(st, st.currentLevel)
    else Decide(cfg, UpdateTrend(cfg, st, m.effectiveBandwidth), m, levels, now)
  }

  /**
   * A selectQuality call that switches lands on a catalogue index chosen as
   * the ideal level after the stability lock and the rate limit, allowed by
   * the up-switch or down-switch test, and logged at `now`.
   */
  lemma SwitchPassedGates(cfg: SelectorConfig, st: SelectorState, m: Metrics, levels: seq<Level>, now: int, res: Selection)
    requires res == Select(cfg, st, m, levels, now)
    ensures res.level != st.currentLevel ==>
              && 0 <= res.level < |levels|
              && now >= st.stabilityEndTime
              && now - st.lastSwitchTime >= cfg.minSwitchInterval
              && res.level == IdealLevel(cfg, st.currentLevel, levels, m)
              && res.state.lastSwitchTime == now
              && |res.state.switchHistory| >= 1
              && res.state.switchHistory[|res.state.switchHistory| - 1] ==
                   SwitchEvent(now, st.currentLevel, res.level, DirectionOf(st.currentLevel, res.level))
    ensures res.level > st.currentLevel ==>
              CanUpSwitch(cfg, res.state.recentBandwidthTrend, m, levels[res.level])
    ensures res.level < st.currentLevel ==>
              ShouldDownSwitch(cfg, res.state.recentBandwidthTrend, m, levels[res.level])
    // a switch repeating the last direction extends the run, a new direction restarts it at 1
    ensures res.level != st.currentLevel ==>
              && res.state.lastSwitchDirection == Some(DirectionOf(st.currentLevel, res.level))
              && res.state.consecutiveSwitches ==
                   (if st.lastSwitchDirection == Some(DirectionOf(st.currentLevel, res.level)) then st.consecutiveSwitches + 1 else 1)
  {
    if |levels| > 0 && now >= st.stabilityEndTime {
      assert res == Decide(cfg, UpdateTrend(cfg, st, m.effectiveBandwidth), m, levels, now);
    }
  }

  /**
   * Entering the stability lock: the same-direction switch that completes
   * `maxConsecutiveSwitches` is itself suppressed and the run restarts at 0.
   */
  lemma LockEntry(cfg: SelectorConfig, st: SelectorState, m: Metrics, levels: seq<Level>, now: int, res: Selection)
    requires res == Select(cfg, st, m, levels, now)
    ensures res.state.stabilityEndTime != st.stabilityEndTime ==>
              && res.level == st.currentLevel
              && res.state.stabilityEndTime == now + cfg.stabilityPeriod
              && res.state.consecutiveSwitches == 0
              && st.lastSwitchDirection == Some(DirectionOf(st.currentLevel, IdealLevel(cfg, st.currentLevel, levels, m)))
              && st.consecutiveSwitches + 1 >= cfg.maxConsecutiveSwitches
              && res.state.switchHistory == st.switchHistory
    // conversely, a due lock past every gate is always entered
    ensures && |levels| > 0 && now >= st.stabilityEndTime
            && PassesGates(cfg, UpdateTrend(cfg, st, m.effectiveBandwidth), m, levels, now)
            && LockDue(cfg, st, IdealLevel(cfg, st.currentLevel, levels, m)) ==>
              && res.level == st.currentLevel
              && res.state.stabilityEndTime == now + cfg.stabilityPeriod
              && res.state.consecutiveSwitches == 0
  {
    if |levels| > 0 && now >= st.stabilityEndTime {
      assert res == Decide(cfg, UpdateTrend(cfg, st, m.effectiveBandwidth), m, levels, now);
    }
  }

  /** Every selectQuality call keeps the spacing of the switch log and the caps of both logs. */
  lemma SelectKeepsValidState(cfg: SelectorConfig, st: SelectorState, m: Metrics, levels: seq<Level>, now: int, res: Selection)
    requires res == Select(cfg, st, m, levels, now)
    requires ValidState(cfg, st)
    ensures ValidState(cfg, res.state)
  {
    if |levels| > 0 && now >= st.stabilityEndTime {
      var updated := UpdateTrend(cfg, st, m.effectiveBandwidth);
      assert SpacedHistory(cfg, updated);
      assert res == Decide(cfg, updated, m, levels, now);
    }
  }

  /** One selectQuality call as the caller sees it. */
  datatype Call = Call(metrics: Metrics, levels: seq<Level>, now: int)

  /** A sequence of selectQuality calls: the final state and every returned level. */
  function Run(cfg: SelectorConfig, st: SelectorState, calls: seq<Call>): (res: (SelectorState, seq<int>))
    ensures |res.1| == |calls|
    decreases |calls|
  {
    if calls == [] then (st, [])
    else
      var step := Select(cfg, st, calls[0].metrics, calls[0].levels, calls[0].now);
      var rest := Run(cfg, step.state, calls[1..]);
      (rest.0, [step.level] + rest.1)
  }

  /**
   * No flapping during a stability lock: every call made before
   * `stabilityEndTime` returns the current level and leaves the whole state,
   * trend window included, untouched.
   */
  lemma {:induction false} LockedRunChangesNothing(cfg: SelectorConfig, st: SelectorState, calls: seq<Call>)
    requires forall k :: 0 <= k < |calls| ==> calls[k].now < st.stabilityEndTime
    ensures Run(cfg, st, calls).0 == st
    ensures forall k :: 0 <= k < |calls| ==> Run(cfg, st, calls).1[k] == st.currentLevel
    decreases |calls|
  {
    if calls != [] {
      assert forall k :: 0 <= k < |calls[1..]| ==> calls[1..][k] == calls[k + 1];
      LockedRunChangesNothing(cfg, st, calls[1..]);
    }
  }

  /**
   * Over any run of calls the logged switches stay at least
   * `minSwitchInterval` apart and the logs stay within their caps.
   */
  lemma {:induction false} RunKeepsValidState(cfg: SelectorConfig, st: SelectorState, calls: seq<Call>)
    requires ValidState(cfg, st)
    ensures ValidState(cfg, Run(cfg, st, calls).0)
    decreases |calls|
  {
    if calls != [] {
      var step := Select(cfg, st, calls[0].metrics, calls[0].levels, calls[0].now);
      SelectKeepsValidState(cfg, st, calls[0].metrics, calls[0].levels, calls[0].now, step);
      RunKeepsValidState(cfg, step.state, calls[1..]);
    }
  }

  /** getDebugInfo's snapshot. */
  datatype DebugInfo = DebugInfo(
    currentLevel: int,
    consecutiveSwitches: int,
    lastSwitchDirection: Option<Direction>,
    bandwidthTrend: Trend,
    switchHistory: seq<SwitchEvent>)

  class QualitySelector {
    const config: SelectorConfig
    var state: SelectorState

    ghost predicate Valid()
      reads this
    {
      ValidState(config, state)
    }

    constructor (options: SelectorOptions)
      ensures config == ResolveConfig(options) && state == InitialState
      ensures Valid()
    {
      config := ResolveConfig(options);
      state := InitialState;
    }

    /** selectQuality(metrics, levels) at clock reading `now`. */
    method SelectQuality(metrics: Metrics, levels: seq<Level>, now: int) returns (level: int)
      modifies this
      ensures state == Select(config, old(state), metrics, levels, now).state
      ensures level == Select(config, old(state), metrics, levels, now).level
      ensures old(Valid()) ==> Valid()
    {
      ghost var chosen := Select(config, state, metrics, levels, now);
      if Valid() {
        SelectKeepsValidState(config, state, metrics, levels, now, chosen);
      }
      if |levels| == 0 {
        return state.currentLevel;
      }
      if now < state.stabilityEndTime {
        return state.currentLevel;
      }
      UpdateBandwidthTrend(metrics.effectiveBandwidth);
      assert chosen == Decide(config, state, metrics, levels, now);
      if now - state.lastSwitchTime < config.minSwitchInterval {
        return state.currentLevel;
      }
      var idealLevel := IdealLevel(config, state.currentLevel, levels, metrics);
      if idealLevel == state.currentLevel {
        return state.currentLevel;
      }
      var isUpSwitch := idealLevel > state.currentLevel;
      if !(0 <= idealLevel < |levels|) {
        return state.currentLevel;
      }
      var targetLevel := levels[idealLevel];
      if isUpSwitch {
        if !CanUpSwitch(config, state.recentBandwidthTrend, metrics, targetLevel) {
          return state.currentLevel;
        }
      } else {
        if !ShouldDownSwitch(config, state.recentBandwidthTrend, metrics, targetLevel) {
          return state.currentLevel;
        }
      }
      assert chosen == AntiFlap(config, state, idealLevel, now);
      var direction := if isUpSwitch then Up else Down;
      if state.lastSwitchDirection == Some(direction) {
        state := state.(consecutiveSwitches := state.consecutiveSwitches + 1);
        if state.consecutiveSwitches >= config.maxConsecutiveSwitches {
          state := state.(stabilityEndTime := now + config.stabilityPeriod, consecutiveSwitches := 0);
          return state.currentLevel;
        }
      } else {
        state := state.(consecutiveSwitches := 1);
      }
      RecordQualitySwitch(state.currentLevel, idealLevel, now);
      return idealLevel;
    }

    method UpdateBandwidthTrend(bandwidth: real)
      modifies this
      ensures state == UpdateTrend(config, old(state), bandwidth)
    {
      var trend := state.recentBandwidthTrend + [bandwidth];
      if |trend| > config.trendWindowSize {
        trend := trend[1..];
      }
      state := state.(recentBandwidthTrend := trend);
    }

    method RecordQualitySwitch(oldLevel: int, newLevel: int, timestamp: int)
      modifies this
      ensures state == RecordSwitch(old(state), oldLevel, newLevel, timestamp)
    {
      var direction := if newLevel > oldLevel then Up else Down;
      var history := state.switchHistory + [SwitchEvent(timestamp, oldLevel, newLevel, direction)];
      if |history| > MaxSwitchHistory {
        history := history[1..];
      }
      state := state.(lastSwitchTime := timestamp, currentLevel := newLevel,
                      lastSwitchDirection := Some(direction), switchHistory := history);
    }

    method Reset()
      modifies this
      ensures state == InitialState && Valid()
    {
      state := InitialState;
    }

    function GetDebugInfo(): (info: DebugInfo)
      reads this
      ensures info == DebugInfo(state.currentLevel, state.consecutiveSwitches, state.lastSwitchDirection,
                                AnalyzeTrend(config, state.recentBandwidthTrend), state.switchHistory)
      ensures Valid() ==> |info.switchHistory| <= MaxSwitchHistory
    {
      DebugInfo(state.currentLevel, state.consecutiveSwitches, state.lastSwitchDirection,
                AnalyzeTrend(config, state.recentBandwidthTrend), state.switchHistory)
    }
  }
}
