/** The tick state of chart-fx's SimplePerformanceMeter.

    The Java class samples, on a java.util.Timer thread, the JavaFX pulse rate,
    the frame rate and the process and system CPU loads, smooths each with an
    IIR filter and hands the new values to the FX thread, which publishes them
    into JavaFX properties. Here the timer, the FX thread and the foreign
    readings are gone: the readings are parameters of Tick, the hand-over is a
    call of UpdateProperties after Tick, and the properties are plain fields. */
module PerformanceMeter {
  import opened Wrappers

  /** Bounds on the update period, in milliseconds. */
  const MinUpdatePeriod: int := 40
  const MaxUpdatePeriod: int := 10_000

  /** Initial IIR factor: alpha ~ Ts / (Ts + T), Ts = 100 ms, T ~ 10 s. */
  const DefaultAverageFactor: real := 0.01

  /** The value the meter uses for "no history yet"; every test for it is `< 0`. */
  const NoHistory: real := -1.0

  function Min(a: int, b: int): int { if a <= b then a else b }
  function Max(a: int, b: int): int { if a >= b then a else b }

  /** The update period the constructor keeps for a requested one. */
  function EffectiveUpdatePeriod(requested: int): (period: int)
    ensures MinUpdatePeriod <= period <= MaxUpdatePeriod
    ensures MinUpdatePeriod <= requested <= MaxUpdatePeriod ==> period == requested
    ensures requested < MinUpdatePeriod ==> period == MinUpdatePeriod
    ensures requested > MaxUpdatePeriod ==> period == MaxUpdatePeriod
  {
    Max(MinUpdatePeriod, Min(requested, MaxUpdatePeriod))
  }

  /** x lies in the closed interval spanned by a and b, in either order. */
  predicate Between(x: real, a: real, b: real)
  {
    (a <= x <= b) || (b <= x <= a)
  }

  /** A point that moves a fraction t in [0, 1] of the way from a to b stays
      between a and b. */
  lemma FractionOfGapIsBetween(a: real, b: real, t: real, x: real)
    requires 0.0 <= t <= 1.0
    requires x - a == t * (b - a)
    ensures Between(x, a, b)
  {
    var g := if a <= b then b - a else a - b;
    ProductOfNonNegatives(t, g);
    ProductOfNonNegatives(1.0 - t, g);
    assert t * g + (1.0 - t) * g == g;
  }

  lemma ProductOfNonNegatives(x: real, y: real)
    requires x >= 0.0 && y >= 0.0
    ensures x * y >= 0.0
  {
  }

  /** computeAverage: one step of the IIR filter
      y(n) = alpha * x(n) + (1 - alpha) * y(n-1), where a negative previous
      value means "no history" and the new value is taken as it is. */
  function ComputeAverage(newValue: real, oldValue: real, alpha: real): (r: real)
    ensures oldValue < 0.0 ==> r == newValue
    ensures oldValue >= 0.0 ==> r - oldValue == alpha * (newValue - oldValue)
    ensures alpha == 1.0 ==> r == newValue
  {
    if oldValue < 0.0 then newValue else (1.0 - alpha) * oldValue + alpha * newValue
  }

  /** With history, alpha = 0 freezes the average and any alpha in [0, 1]
      keeps it between the old average and the new value. */
  lemma AverageIsConvex(newValue: real, oldValue: real, alpha: real)
    requires oldValue >= 0.0
    ensures alpha == 0.0 ==> ComputeAverage(newValue, oldValue, alpha) == oldValue
    ensures 0.0 <= alpha <= 1.0 ==> Between(ComputeAverage(newValue, oldValue, alpha), oldValue, newValue)
  {
    if 0.0 <= alpha <= 1.0 {
      FractionOfGapIsBetween(oldValue, newValue, alpha, ComputeAverage(newValue, oldValue, alpha));
    }
  }

  /** Seconds between two millisecond timestamps, `(this - last) * 1e-3`. */
  function ElapsedSeconds(nowMillis: int, lastMillis: int): (seconds: real)
    ensures seconds * 1000.0 == (nowMillis - lastMillis) as real
    ensures seconds > 0.0 <==> nowMillis > lastMillis
  {
    (nowMillis - lastMillis) as real / 1000.0
  }

  /** Events per second over a window of `elapsed` seconds, or -1 when the
      window is empty or negative (the clock did not advance). */
  function CountRate(count: nat, elapsed: real): (rate: real)
    ensures elapsed > 0.0 ==> rate * elapsed == count as real && rate >= 0.0
    ensures elapsed > 0.0 && count == 0 ==> rate == 0.0
    ensures elapsed <= 0.0 ==> rate == -1.0
  {
    if elapsed > 0.0 then count as real / elapsed else -1.0
  }

  /** A CPU load as the meter stores it: the reading in [0, 1] times 100 times
      the number of cores, so that one fully loaded core reads 100. */
  function ScaledLoad(reading: real, nCores: nat): (load: real)
    ensures nCores == 0 ==> load == 0.0
    ensures load == reading * (100 * nCores) as real
    ensures 0.0 <= reading <= 1.0 ==> 0.0 <= load <= (100 * nCores) as real
  {
    var load := reading * 100.0 * nCores as real;
    assert load == reading * (100 * nCores) as real;
    if 0.0 <= reading <= 1.0 then
      ProductOfNonNegatives(reading, (100 * nCores) as real);
      ProductOfNonNegatives(1.0 - reading, (100 * nCores) as real);
      load
    else load
  }

  /** The published minimum after publishing load v: v when there is no
      minimum yet, else the smaller of the two. */
  function WidenMin(current: real, v: real): (m: real)
    ensures m <= v
    ensures current >= 0.0 ==> m <= current && (m == current || m == v)
    ensures current < 0.0 ==> m == v
  {
    if current < 0.0 then v else if current <= v then current else v
  }

  /** The published maximum after publishing load v, symmetric to WidenMin. */
  function WidenMax(current: real, v: real): (m: real)
    ensures m >= v
    ensures current >= 0.0 ==> m >= current && (m == current || m == v)
    ensures current < 0.0 ==> m == v
  {
    if current < 0.0 then v else if current >= v then current else v
  }

  /** The JavaFX scene the meter observes; only its presence matters here. */
  class Scene {
    constructor () {}
  }

  class SimplePerformanceMeter {
    const scene: Scene
    /** The clamped update period in milliseconds. */
    const updateDuration: int

    /** The IIR factor alpha (the averageFactor property). */
    var averageFactor: real

    // Published values (the JavaFX properties), written only by UpdateProperties.
    var pulseRate: real
    var pulseRateAvg: real
    var trackerFrameRate: real
    var avgTrackerFrameRate: real
    var processCpuLoad: real
    var minProcessCpuLoad: real
    var avgProcessCpuLoad: real
    var maxProcessCpuLoad: real
    var systemCpuLoad: real
    var avgSystemCpuLoad: real

    // Values computed by the timer tick before they are published.
    var pulseRateInternal: real
    var pulseRateAvgInternal: real
    var frameRateInternal: real
    var frameRateAvgInternal: real
    var cpuLoadProcessInternal: real
    var cpuLoadProcessAvgInternal: real
    var cpuLoadSystemInternal: real
    var cpuLoadSystemAvgInternal: real

    /** Timestamp (ms) of the previous tick. */
    var timerIterationLast: int
    /** Pulses and frames counted since the previous tick. */
    var pulseCounter: nat
    var frameCounter: nat

    /** Whether the animation timer that counts pulses is started. */
    var animationTimerActive: bool
    /** Whether the timer held in the `timer` field is scheduled. */
    var timerActive: bool
    /** Timers that were replaced in the `timer` field while still scheduled:
        nothing can cancel them any more. */
    var abandonedTimers: nat

    /** The state right after construction. */
    ghost predicate Initial()
      reads this
    {
      && averageFactor == DefaultAverageFactor
      && pulseRate == 0.0 && pulseRateAvg == 0.0
      && trackerFrameRate == 0.0 && avgTrackerFrameRate == 0.0
      && processCpuLoad == 0.0 && minProcessCpuLoad == NoHistory
      && avgProcessCpuLoad == NoHistory && maxProcessCpuLoad == NoHistory
      && systemCpuLoad == 0.0 && avgSystemCpuLoad == NoHistory
      && pulseRateInternal == 0.0 && pulseRateAvgInternal == NoHistory
      && frameRateInternal == 0.0 && frameRateAvgInternal == NoHistory
      && cpuLoadProcessInternal == 0.0 && cpuLoadProcessAvgInternal == 0.0
      && cpuLoadSystemInternal == 0.0 && cpuLoadSystemAvgInternal == NoHistory
      && pulseCounter == 0 && frameCounter == 0
      && animationTimerActive && timerActive && abandonedTimers == 0
    }

    /** The number of timers still scheduled. */
    function ScheduledTimers(): nat
      reads this
    {
      abandonedTimers + if timerActive then 1 else 0
    }

    /** The constructor for a scene that is present; it clamps the period and
        ends by registering the listeners (one animation timer, one timer). */
    constructor (scene: Scene, updateDuration: int, nowMillis: int)
      ensures this.scene == scene
      ensures this.updateDuration == EffectiveUpdatePeriod(updateDuration)
      ensures timerIterationLast == nowMillis
      ensures Initial() && ScheduledTimers() == 1
    {
      this.scene := scene;
      this.updateDuration := Max(MinUpdatePeriod, Min(updateDuration, MaxUpdatePeriod));
      averageFactor := DefaultAverageFactor;
      pulseRate, pulseRateAvg := 0.0, 0.0;
      trackerFrameRate, avgTrackerFrameRate := 0.0, 0.0;
      processCpuLoad, minProcessCpuLoad := 0.0, -1.0;
      avgProcessCpuLoad, maxProcessCpuLoad := -1.0, -1.0;
      systemCpuLoad, avgSystemCpuLoad := 0.0, -1.0;
      pulseRateInternal, pulseRateAvgInternal := 0.0, -1.0;
      frameRateInternal, frameRateAvgInternal := 0.0, -1.0;
      cpuLoadProcessInternal, cpuLoadProcessAvgInternal := 0.0, 0.0;
      cpuLoadSystemInternal, cpuLoadSystemAvgInternal := 0.0, -1.0;
      timerIterationLast := nowMillis;
      pulseCounter, frameCounter := 0, 0;
      animationTimerActive, timerActive, abandonedTimers := true, true, 0;
    }

    /** `new SimplePerformanceMeter(scene, updateDuration)`: a null scene is
        rejected with an IllegalArgumentException before anything is built. */
    static method Create(scene: Scene?, updateDuration: int, nowMillis: int)
      returns (r: Result<SimplePerformanceMeter, IllegalArgumentException>)
      ensures r.Failure? <==> scene == null
      ensures r.Failure? ==> r.error == IllegalArgumentException("scene must not be null")
      ensures r.Success? ==> fresh(r.value) && r.value.scene == scene && r.value.Initial()
      ensures r.Success? ==> r.value.updateDuration == EffectiveUpdatePeriod(updateDuration)
      ensures r.Success? ==> r.value.timerIterationLast == nowMillis
    {
      if scene == null {
        return Failure(IllegalArgumentException("scene must not be null"));
      }
      var meter := new SimplePerformanceMeter(scene, updateDuration, nowMillis);
      r := Success(meter);
    }

    /** The animation timer's handle(now): one more pulse. */
    method HandlePulse()
      modifies this`pulseCounter
      ensures pulseCounter == old(pulseCounter) + 1
    {
      pulseCounter := pulseCounter + 1;
    }

    /** Setting the averageFactor property. */
    method SetAverageFactor(alpha: real)
      modifies this`averageFactor
      ensures averageFactor == alpha
    {
      averageFactor := alpha;
    }

    /** The body of the timer task. The foreign readings are parameters:
        the clock, the tracker's instant pulses and FPS, the OS bean's process
        and system CPU loads and the number of cores. The rates computed from
        the drained counters are overwritten at once by the tracker readings,
        as in the source. */
    method Tick(nowMillis: int, trackerPulses: real, trackerFps: real,
                processLoad: real, systemLoad: real, nCores: nat)
      modifies this`timerIterationLast, this`pulseCounter, this`frameCounter
      modifies this`pulseRateInternal, this`pulseRateAvgInternal
      modifies this`frameRateInternal, this`frameRateAvgInternal
      modifies this`cpuLoadProcessInternal, this`cpuLoadProcessAvgInternal
      modifies this`cpuLoadSystemInternal, this`cpuLoadSystemAvgInternal
      ensures pulseCounter == 0 && frameCounter == 0
      ensures timerIterationLast == nowMillis
      ensures pulseRateInternal == trackerPulses && frameRateInternal == trackerFps
      ensures cpuLoadProcessInternal == ScaledLoad(processLoad, nCores)
      ensures cpuLoadSystemInternal == ScaledLoad(systemLoad, nCores)
      ensures pulseRateAvgInternal == ComputeAverage(pulseRateInternal, old(pulseRateAvgInternal), averageFactor)
      ensures frameRateAvgInternal == ComputeAverage(frameRateInternal, old(frameRateAvgInternal), averageFactor)
      ensures cpuLoadProcessAvgInternal
           == ComputeAverage(cpuLoadProcessInternal, old(cpuLoadProcessAvgInternal), averageFactor)
      ensures cpuLoadSystemAvgInternal
           == ComputeAverage(cpuLoadSystemInternal, old(cpuLoadSystemAvgInternal), averageFactor)
      // after a reset (or on the first tick) an average is bootstrapped to its raw value
      ensures old(pulseRateAvgInternal) < 0.0 ==> pulseRateAvgInternal == pulseRateInternal
      ensures old(frameRateAvgInternal) < 0.0 ==> frameRateAvgInternal == frameRateInternal
      ensures old(cpuLoadProcessAvgInternal) < 0.0 ==> cpuLoadProcessAvgInternal == cpuLoadProcessInternal
      ensures old(cpuLoadSystemAvgInternal) < 0.0 ==> cpuLoadSystemAvgInternal == cpuLoadSystemInternal
    {
      var timerIterationThis := nowMillis;
      var pulseCount := pulseCounter;
      pulseCounter := 0;
      var frameCount := frameCounter;
      frameCounter := 0;
      var diff := ElapsedSeconds(timerIterationThis, timerIterationLast);
      timerIterationLast := timerIterationThis;
      pulseRateInternal := CountRate(pulseCount, diff);
      frameRateInternal := CountRate(frameCount, diff);
      pulseRateInternal := trackerPulses;
      frameRateInternal := trackerFps;

      cpuLoadProcessInternal := processLoad * 100.0 * nCores as real;
      cpuLoadSystemInternal := systemLoad * 100.0 * nCores as real;

      var alpha := averageFactor;
      pulseRateAvgInternal := ComputeAverage(pulseRateInternal, pulseRateAvgInternal, alpha);
      frameRateAvgInternal := ComputeAverage(frameRateInternal, frameRateAvgInternal, alpha);
      cpuLoadProcessAvgInternal := ComputeAverage(cpuLoadProcessInternal, cpuLoadProcessAvgInternal, alpha);
      cpuLoadSystemAvgInternal := ComputeAverage(cpuLoadSystemInternal, cpuLoadSystemAvgInternal, alpha);
    }

    /** resetAverages: every tick-side value back to "no history". */
    method ResetAverages()
      modifies this`pulseRateInternal, this`pulseRateAvgInternal
      modifies this`frameRateInternal, this`frameRateAvgInternal
      modifies this`cpuLoadProcessInternal, this`cpuLoadProcessAvgInternal
      modifies this`cpuLoadSystemInternal, this`cpuLoadSystemAvgInternal
      ensures pulseRateInternal == NoHistory && pulseRateAvgInternal == NoHistory
      ensures frameRateInternal == NoHistory && frameRateAvgInternal == NoHistory
      ensures cpuLoadProcessInternal == NoHistory && cpuLoadProcessAvgInternal == NoHistory
      ensures cpuLoadSystemInternal == NoHistory && cpuLoadSystemAvgInternal == NoHistory
    {
      pulseRateInternal := -1.0;
      pulseRateAvgInternal := -1.0;
      frameRateInternal := -1.0;
      frameRateAvgInternal := -1.0;
      cpuLoadProcessInternal := -1.0;
      cpuLoadProcessAvgInternal := -1.0;
      cpuLoadSystemInternal := -1.0;
      cpuLoadSystemAvgInternal := -1.0;
    }

    /** updateProperties: publish the tick-side values unchanged and widen
        the published minimum and maximum of the process CPU load. */
    method UpdateProperties()
      modifies this`pulseRate, this`pulseRateAvg, this`trackerFrameRate, this`avgTrackerFrameRate
      modifies this`processCpuLoad, this`avgProcessCpuLoad, this`systemCpuLoad, this`avgSystemCpuLoad
      modifies this`minProcessCpuLoad, this`maxProcessCpuLoad
      ensures pulseRate == pulseRateInternal && pulseRateAvg == pulseRateAvgInternal
      ensures trackerFrameRate == frameRateInternal && avgTrackerFrameRate == frameRateAvgInternal
      ensures processCpuLoad == cpuLoadProcessInternal && avgProcessCpuLoad == cpuLoadProcessAvgInternal
      ensures systemCpuLoad == cpuLoadSystemInternal && avgSystemCpuLoad == cpuLoadSystemAvgInternal
      ensures minProcessCpuLoad == WidenMin(old(minProcessCpuLoad), processCpuLoad)
      ensures maxProcessCpuLoad == WidenMax(old(maxProcessCpuLoad), processCpuLoad)
      ensures minProcessCpuLoad <= processCpuLoad <= maxProcessCpuLoad
      ensures old(minProcessCpuLoad) >= 0.0 ==> minProcessCpuLoad <= old(minProcessCpuLoad)
      ensures old(maxProcessCpuLoad) >= 0.0 ==> maxProcessCpuLoad >= old(maxProcessCpuLoad)
    {
      pulseRate := pulseRateInternal;
      pulseRateAvg := pulseRateAvgInternal;
      trackerFrameRate := frameRateInternal;
      avgTrackerFrameRate := frameRateAvgInternal;
      processCpuLoad := cpuLoadProcessInternal;
      avgProcessCpuLoad := cpuLoadProcessAvgInternal;
      systemCpuLoad := cpuLoadSystemInternal;
      avgSystemCpuLoad := cpuLoadSystemAvgInternal;

      if minProcessCpuLoad < 0.0 {
        minProcessCpuLoad := processCpuLoad;
      } else {
        minProcessCpuLoad := if minProcessCpuLoad <= processCpuLoad then minProcessCpuLoad else processCpuLoad;
      }
      if maxProcessCpuLoad < 0.0 {
        maxProcessCpuLoad := processCpuLoad;
      } else {
        maxProcessCpuLoad := if maxProcessCpuLoad >= processCpuLoad then maxProcessCpuLoad else processCpuLoad;
      }
    }

    /** registerListener: start the animation timer and schedule a new
        timer. The previous timer, if still scheduled, is not cancelled. */
    method RegisterListener()
      modifies this`animationTimerActive, this`timerActive, this`abandonedTimers
      ensures animationTimerActive && timerActive
      ensures abandonedTimers == old(abandonedTimers) + (if old(timerActive) then 1 else 0)
      ensures ScheduledTimers() == old(ScheduledTimers()) + 1
    {
      animationTimerActive := true;
      if timerActive {
        abandonedTimers := abandonedTimers + 1;
      }
      timerActive := true;
    }

    /** deregisterListener: stop the animation timer and cancel the timer
        last scheduled; abandoned timers keep running. */
    method DeregisterListener()
      modifies this`animationTimerActive, this`timerActive
      ensures !animationTimerActive && !timerActive
      ensures ScheduledTimers() == abandonedTimers
    {
      animationTimerActive := false;
      timerActive := false;
    }

    // Getters: each reads one published value.

    function GetActualFrameRate(): (v: real)
      reads this
      ensures v == trackerFrameRate
    { trackerFrameRate }

    function GetAverageFrameRate(): (v: real)
      reads this
      ensures v == avgTrackerFrameRate
    { avgTrackerFrameRate }

    function GetAverageFxFrameRate(): (v: real)
      reads this
      ensures v == pulseRateAvg
    { pulseRateAvg }

    function GetAverageProcessCpuLoad(): (v: real)
      reads this
      ensures v == avgProcessCpuLoad
    { avgProcessCpuLoad }

    function GetAverageSystemCpuLoad(): (v: real)
      reads this
      ensures v == avgSystemCpuLoad
    { avgSystemCpuLoad }

    function GetFxFrameRate(): (v: real)
      reads this
      ensures v == pulseRate
    { pulseRate }

    /** The deprecated getter that reads the MINIMUM, not the maximum. */
    function GetMaxProcessCpuLoad(): (v: real)
      reads this
      ensures v == minProcessCpuLoad
      ensures v == GetMinProcessCpuLoad()
    { minProcessCpuLoad }

    function GetMinProcessCpuLoad(): (v: real)
      reads this
      ensures v == minProcessCpuLoad
    { minProcessCpuLoad }

    function GetProcessCpuLoad(): (v: real)
      reads this
      ensures v == processCpuLoad
    { processCpuLoad }

    function GetSystemCpuLoad(): (v: real)
      reads this
      ensures v == systemCpuLoad
    { systemCpuLoad }

    /** The value of maxProcessCpuLoadProperty(), the only way to read the
        published maximum. */
    function MaxProcessCpuLoadProperty(): (v: real)
      reads this
      ensures v == maxProcessCpuLoad
    { maxProcessCpuLoad }
  }
}
