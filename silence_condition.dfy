/**
 * Voice activity estimation and the silence accumulator: the RMS of a
 * time-domain byte buffer, and one step of the state
 * `{noiseFloor, voiceHoldMs, silenceMs}` per check tick, in an adaptive
 * (moving noise floor) or a fixed-threshold mode.
 */
module SilenceCondition {
  import opened Wrappers
  import opened Media

  /** Every field may be omitted; `stepSilence` then falls back to its own defaults. */
  datatype SilenceConfig = SilenceConfig(
    useAdaptiveVad: Option<bool>,
    noiseFloorAlpha: Option<real>,
    voiceMarginRms: Option<real>,
    noiseFloorInit: Option<real>,
    silenceThresholdRms: Option<real>,
    voiceDebounceMs: Option<int>)

  datatype SilenceState = SilenceState(noiseFloor: real, voiceHoldMs: int, silenceMs: int)

  datatype StepResult = StepResult(isSilent: bool, rms: real, state: SilenceState)

  /** Fallbacks used by `createSilenceState` and `stepSilence` when a field is omitted. */
  const DefaultNoiseFloorInit: real := 0.01
  const DefaultNoiseFloorAlpha: real := 0.95
  const DefaultVoiceMarginRms: real := 0.015
  const DefaultSilenceThresholdRms: real := 0.02
  const DefaultVoiceDebounceMs: int := 0

  /** The application-wide `silenceConfig`; its numbers differ from the fallbacks above. */
  const AppSilenceConfig: SilenceConfig :=
    SilenceConfig(Some(true), Some(0.9), Some(0.03), Some(0.01), Some(0.02), Some(400))
  const CheckIntervalMs: int := 200

  // ---------------------------------------------------------------------------
  // Creation

  /** `Math.max(0, Math.min(1, x))`. */
  function Clamp01(x: real): (r: real)
    ensures 0.0 <= r <= 1.0
    ensures 0.0 <= x <= 1.0 ==> r == x
    ensures x < 0.0 ==> r == 0.0
    ensures x > 1.0 ==> r == 1.0
  {
    if x < 0.0 then 0.0 else if x > 1.0 then 1.0 else x
  }

  function NoiseFloorInitOf(cfg: Option<SilenceConfig>): real {
    if cfg.Some? then cfg.value.noiseFloorInit.GetOr(DefaultNoiseFloorInit) else DefaultNoiseFloorInit
  }

  /** A fresh state: the configured initial noise floor clamped into [0,1], both counters zero. */
  function CreateSilenceState(cfg: Option<SilenceConfig>): (s: SilenceState)
    ensures 0.0 <= s.noiseFloor <= 1.0 && s.voiceHoldMs == 0 && s.silenceMs == 0
    ensures 0.0 <= NoiseFloorInitOf(cfg) <= 1.0 ==> s.noiseFloor == NoiseFloorInitOf(cfg)
    ensures cfg.None? ==> s.noiseFloor == DefaultNoiseFloorInit
  {
    SilenceState(Clamp01(NoiseFloorInitOf(cfg)), 0, 0)
  }

  // ---------------------------------------------------------------------------
  // RMS of a buffer

  /** `(b - 128) / 128`. */
  function Normalized(b: Byte): (v: real)
    ensures -1.0 <= v <= 1.0
  {
    (b - 128) as real / 128.0
  }

  function Square(v: real): real {
    v * v
  }

  lemma SquareOfUnit(v: real)
    requires -1.0 <= v <= 1.0
    ensures 0.0 <= Square(v) <= 1.0
  {
    if v >= 0.0 {
      assert v * v <= v * 1.0;
    } else {
      assert v * v <= (-v) * 1.0;
    }
  }

  /** The sum of the squared normalised samples, accumulated front to back. */
  function SumSquares(s: seq<Byte>): real
    decreases |s|
  {
    if s == [] then 0.0 else SumSquares(s[..|s| - 1]) + Square(Normalized(s[|s| - 1]))
  }

  lemma {:induction false} SumSquaresBounds(s: seq<Byte>)
    ensures 0.0 <= SumSquares(s) <= |s| as real
    decreases |s|
  {
    if s != [] {
      SumSquaresBounds(s[..|s| - 1]);
      SquareOfUnit(Normalized(s[|s| - 1]));
    }
  }

  /** The mean of the squared samples of a non-empty buffer; it lies in [0,1]. */
  function MeanSquare(s: seq<Byte>): (m: real)
    requires |s| > 0
    ensures 0.0 <= m <= 1.0
  {
    SumSquaresBounds(s);
    SumSquares(s) / |s| as real
  }

  /** A buffer of centre values (128), such as a silent input, has no energy. */
  lemma {:induction false} CentredBufferIsSilent(s: seq<Byte>)
    requires forall i :: 0 <= i < |s| ==> s[i] == 128
    ensures SumSquares(s) == 0.0
    ensures |s| > 0 ==> MeanSquare(s) == 0.0
    decreases |s|
  {
    if s != [] {
      CentredBufferIsSilent(s[..|s| - 1]);
    }
  }

  /**
   * `computeRmsFromAnalyser` on the buffer the analyser filled. `sqrt` stands
   * for `Math.sqrt`. An empty buffer divides 0 by 0, which is NaN (`None`).
   */
  method ComputeRms(arr: array<Byte>, sqrt: real -> real) returns (rms: Option<real>)
    ensures arr.Length == 0 ==> rms.None?
    ensures arr.Length > 0 ==> rms == Some(sqrt(MeanSquare(arr[..])))
  {
    var sumSq := 0.0;
    var i := 0;
    while i < arr.Length
      invariant 0 <= i <= arr.Length
      invariant sumSq == SumSquares(arr[..i])
    {
      var v := (arr[i] as int - 128) as real / 128.0;
      assert v == Normalized(arr[i]);
      assert arr[..i + 1][..i] == arr[..i];
      sumSq := sumSq + v * v;
      i := i + 1;
    }
    assert arr[..arr.Length] == arr[..];
    if arr.Length == 0 {
      rms := None;
    } else {
      rms := Some(sqrt(sumSq / arr.Length as real));
    }
  }

  // ---------------------------------------------------------------------------
  // One step of the accumulator

  /** Adaptive unless `useAdaptiveVad` is exactly `false`: an omitted flag means adaptive. */
  predicate UseAdaptive(cfg: SilenceConfig): (b: bool)
    ensures b <==> cfg.useAdaptiveVad.None? || cfg.useAdaptiveVad.value
  {
    cfg.useAdaptiveVad != Some(false)
  }

  function AlphaOf(cfg: SilenceConfig): real { cfg.noiseFloorAlpha.GetOr(DefaultNoiseFloorAlpha) }
  function MarginOf(cfg: SilenceConfig): real { cfg.voiceMarginRms.GetOr(DefaultVoiceMarginRms) }
  function ThresholdOf(cfg: SilenceConfig): real { cfg.silenceThresholdRms.GetOr(DefaultSilenceThresholdRms) }
  function DebounceOf(cfg: SilenceConfig): int { cfg.voiceDebounceMs.GetOr(DefaultVoiceDebounceMs) }

  /** Adaptive classification: voice when the level clears the noise floor by the margin. */
  predicate IsVoiceAdaptive(noiseFloor: real, cfg: SilenceConfig, rms: real) {
    rms > noiseFloor + MarginOf(cfg)
  }

  /**
   * The noise floor's moving average: during voice it closes a thousandth of
   * the gap to the level, otherwise the fraction `1 - alpha` of it. With
   * `alpha` in [0,1] it moves towards the level and never past it.
   */
  function NextNoiseFloor(noiseFloor: real, cfg: SilenceConfig, rms: real): (f: real)
    ensures IsVoiceAdaptive(noiseFloor, cfg, rms) ==> f - noiseFloor == 0.001 * (rms - noiseFloor)
    ensures !IsVoiceAdaptive(noiseFloor, cfg, rms) ==> f - noiseFloor == (1.0 - AlphaOf(cfg)) * (rms - noiseFloor)
    ensures 0.0 <= AlphaOf(cfg) <= 1.0 && noiseFloor <= rms ==> noiseFloor <= f <= rms
    ensures 0.0 <= AlphaOf(cfg) <= 1.0 && rms <= noiseFloor ==> rms <= f <= noiseFloor
  {
    var a := if IsVoiceAdaptive(noiseFloor, cfg, rms) then 0.999 else AlphaOf(cfg);
    var f := noiseFloor * a + rms * (1.0 - a);
    assert f - noiseFloor == (1.0 - a) * (rms - noiseFloor);
    assert rms - f == a * (rms - noiseFloor);
    assert 0.0 <= a <= 1.0 && noiseFloor <= rms ==>
      (1.0 - a) * (rms - noiseFloor) >= 0.0 && a * (rms - noiseFloor) >= 0.0 by {
      if 0.0 <= a <= 1.0 && noiseFloor <= rms {
        ProductNonNegative(1.0 - a, rms - noiseFloor);
        ProductNonNegative(a, rms - noiseFloor);
      }
    }
    assert 0.0 <= a <= 1.0 && rms <= noiseFloor ==>
      (1.0 - a) * (noiseFloor - rms) >= 0.0 && a * (noiseFloor - rms) >= 0.0 by {
      if 0.0 <= a <= 1.0 && rms <= noiseFloor {
        ProductNonNegative(1.0 - a, noiseFloor - rms);
        ProductNonNegative(a, noiseFloor - rms);
      }
    }
    f
  }

  /**
   * `stepSilence` with the analyser's level given as `rms`. The previous state
   * is a value and is not changed; a fresh state is returned.
   */
  function StepSilence(prev: SilenceState, cfg: SilenceConfig, dtMs: int, rms: real): (r: StepResult)
    ensures r.rms == rms
    // classification
    ensures UseAdaptive(cfg) ==> (r.isSilent <==> !IsVoiceAdaptive(prev.noiseFloor, cfg, rms))
    ensures !UseAdaptive(cfg) ==> (r.isSilent <==> rms < ThresholdOf(cfg))
    // noise floor
    ensures UseAdaptive(cfg) ==> 0.0 <= r.state.noiseFloor <= 1.0
    ensures !UseAdaptive(cfg) ==> r.state.noiseFloor == prev.noiseFloor
    // counters on a silent tick
    ensures r.isSilent ==> r.state.silenceMs == prev.silenceMs + dtMs && r.state.voiceHoldMs == 0
    // counters on a voice tick: the silence count survives until the voice has lasted long enough
    ensures !r.isSilent ==> r.state.voiceHoldMs == prev.voiceHoldMs + dtMs
    ensures !r.isSilent ==>
      r.state.silenceMs == (if prev.voiceHoldMs + dtMs >= DebounceOf(cfg) then 0 else prev.silenceMs)
  {
    var (isSilent, noiseFloor, voiceHoldMs) :=
      if UseAdaptive(cfg) then
        var isVoice := IsVoiceAdaptive(prev.noiseFloor, cfg, rms);
        (!isVoice, Clamp01(NextNoiseFloor(prev.noiseFloor, cfg, rms)),
         if isVoice then prev.voiceHoldMs + dtMs else 0)
      else
        var silent := rms < ThresholdOf(cfg);
        (silent, prev.noiseFloor, if silent then 0 else prev.voiceHoldMs + dtMs);
    var silenceMs :=
      if isSilent then prev.silenceMs + dtMs
      else if voiceHoldMs >= DebounceOf(cfg) then 0
      else prev.silenceMs;
    StepResult(isSilent, rms, SilenceState(noiseFloor, voiceHoldMs, silenceMs))
  }

  /** The state invariant: a noise floor in [0,1] and non-negative counters. */
  predicate ValidState(s: SilenceState) {
    0.0 <= s.noiseFloor <= 1.0 && s.voiceHoldMs >= 0 && s.silenceMs >= 0
  }

  lemma CreatedStateValid(cfg: Option<SilenceConfig>)
    ensures ValidState(CreateSilenceState(cfg))
  {
  }

  /** Every step with a non-negative tick keeps the state invariant, in both modes. */
  lemma StepPreservesValid(prev: SilenceState, cfg: SilenceConfig, dtMs: int, rms: real)
    requires ValidState(prev) && dtMs >= 0
    ensures ValidState(StepSilence(prev, cfg, dtMs, rms).state)
  {
  }

  /**
   * With a smoothing factor in [0,1] and a level in [0,1], the adaptive floor
   * moves towards the level and never past it.
   */
  lemma NoiseFloorBetween(prev: SilenceState, cfg: SilenceConfig, dtMs: int, rms: real)
    requires UseAdaptive(cfg) && 0.0 <= AlphaOf(cfg) <= 1.0
    requires 0.0 <= prev.noiseFloor <= 1.0 && 0.0 <= rms <= 1.0
    ensures var f := StepSilence(prev, cfg, dtMs, rms).state.noiseFloor;
      (prev.noiseFloor <= rms ==> prev.noiseFloor <= f <= rms) &&
      (rms <= prev.noiseFloor ==> rms <= f <= prev.noiseFloor)
  {
    var x := NextNoiseFloor(prev.noiseFloor, cfg, rms);
    assert Clamp01(x) == x;
  }

  /** The product of two non-negative reals, a step the solver's linear arithmetic does not take. */
  lemma ProductNonNegative(x: real, y: real)
    requires x >= 0.0 && y >= 0.0
    ensures x * y >= 0.0
  {
  }

  // ---------------------------------------------------------------------------
  // Runs of ticks

  /** The state after stepping through the levels `levels`, one tick of `dtMs` each. */
  function Run(s: SilenceState, cfg: SilenceConfig, dtMs: int, levels: seq<real>): SilenceState
    decreases |levels|
  {
    if levels == [] then s
    else StepSilence(Run(s, cfg, dtMs, levels[..|levels| - 1]), cfg, dtMs, levels[|levels| - 1]).state
  }

  /** Tick `k` of the run is classified as voice. */
  predicate VoiceAt(s: SilenceState, cfg: SilenceConfig, dtMs: int, levels: seq<real>, k: int)
    requires 0 <= k < |levels|
  {
    !StepSilence(Run(s, cfg, dtMs, levels[..k]), cfg, dtMs, levels[k]).isSilent
  }

  /** Every tick of the run is classified as voice. */
  predicate AllVoice(s: SilenceState, cfg: SilenceConfig, dtMs: int, levels: seq<real>) {
    forall k :: 0 <= k < |levels| ==> VoiceAt(s, cfg, dtMs, levels, k)
  }

  lemma AllVoicePrefix(s: SilenceState, cfg: SilenceConfig, dtMs: int, levels: seq<real>)
    requires |levels| > 0 && AllVoice(s, cfg, dtMs, levels)
    ensures AllVoice(s, cfg, dtMs, levels[..|levels| - 1])
  {
    var p := levels[..|levels| - 1];
    forall k | 0 <= k < |p|
      ensures VoiceAt(s, cfg, dtMs, p, k)
    {
      assert VoiceAt(s, cfg, dtMs, levels, k);
      assert p[..k] == levels[..k];
      assert p[k] == levels[k];
    }
  }

  /** The last step of a non-empty run. */
  lemma RunLast(s: SilenceState, cfg: SilenceConfig, dtMs: int, levels: seq<real>)
    requires |levels| > 0 && AllVoice(s, cfg, dtMs, levels)
    ensures var before := Run(s, cfg, dtMs, levels[..|levels| - 1]);
      var r := StepSilence(before, cfg, dtMs, levels[|levels| - 1]);
      !r.isSilent && Run(s, cfg, dtMs, levels) == r.state
  {
    var k := |levels| - 1;
    assert VoiceAt(s, cfg, dtMs, levels, k);
  }

  /** Through a run of voice ticks the hold time grows by one tick each. */
  lemma {:induction false} VoiceRunHold(s: SilenceState, cfg: SilenceConfig, dtMs: int, levels: seq<real>)
    requires AllVoice(s, cfg, dtMs, levels)
    ensures Run(s, cfg, dtMs, levels).voiceHoldMs == s.voiceHoldMs + |levels| * dtMs
    decreases |levels|
  {
    if levels != [] {
      var n := |levels|;
      var p := levels[..n - 1];
      AllVoicePrefix(s, cfg, dtMs, levels);
      VoiceRunHold(s, cfg, dtMs, p);
      RunLast(s, cfg, dtMs, levels);
      assert s.voiceHoldMs + (n - 1) * dtMs + dtMs == s.voiceHoldMs + n * dtMs;
    }
  }

  /**
   * Sustained voice ends the silence: once a run of voice ticks has held for
   * the debounce time, the silence count is zero.
   */
  lemma SustainedVoiceResetsSilence(s: SilenceState, cfg: SilenceConfig, dtMs: int, levels: seq<real>)
    requires |levels| > 0 && AllVoice(s, cfg, dtMs, levels)
    requires s.voiceHoldMs + |levels| * dtMs >= DebounceOf(cfg)
    ensures Run(s, cfg, dtMs, levels).silenceMs == 0
  {
    var n := |levels|;
    AllVoicePrefix(s, cfg, dtMs, levels);
    VoiceRunHold(s, cfg, dtMs, levels[..n - 1]);
    RunLast(s, cfg, dtMs, levels);
    assert s.voiceHoldMs + (n - 1) * dtMs + dtMs == s.voiceHoldMs + n * dtMs;
  }

  /**
   * A transient: with the application's configuration (400 ms debounce, 200 ms
   * ticks), one loud tick after silence keeps the silence count.
   */
  lemma TransientKeepsSilence(prev: SilenceState, rms: real)
    requires prev.voiceHoldMs == 0
    requires IsVoiceAdaptive(prev.noiseFloor, AppSilenceConfig, rms)
    ensures var r := StepSilence(prev, AppSilenceConfig, CheckIntervalMs, rms);
      !r.isSilent && r.state.silenceMs == prev.silenceMs && r.state.voiceHoldMs == 200
  {
  }

  /** ... and a second loud tick (400 ms of voice) resets it. */
  lemma SecondVoiceTickResetsSilence(prev: SilenceState, rms1: real, rms2: real)
    requires prev.voiceHoldMs == 0
    requires IsVoiceAdaptive(prev.noiseFloor, AppSilenceConfig, rms1)
    requires IsVoiceAdaptive(StepSilence(prev, AppSilenceConfig, CheckIntervalMs, rms1).state.noiseFloor, AppSilenceConfig, rms2)
    ensures Run(prev, AppSilenceConfig, CheckIntervalMs, [rms1, rms2]).silenceMs == 0
  {
    var first := StepSilence(prev, AppSilenceConfig, CheckIntervalMs, rms1);
    assert [rms1, rms2][..1] == [rms1];
    assert [rms1][..0] == [];
    assert Run(prev, AppSilenceConfig, CheckIntervalMs, [rms1]) == first.state;
    assert first.state.voiceHoldMs == 200;
  }
}
