/** What the performance meter does over many ticks: the smoothed series it
    produces and the extrema it publishes, as functions of the readings, the
    lemmas about them, and runs of the meter that pin concrete values down. */
module MeterTraces {
  import opened Wrappers
  import opened PerformanceMeter

  /** The average after the readings vs, in order, were each fed through
      ComputeAverage, starting from avg0. */
  ghost function Smoothed(avg0: real, vs: seq<real>, alpha: real): real
  {
    if vs == [] then avg0
    else ComputeAverage(vs[|vs| - 1], Smoothed(avg0, vs[..|vs| - 1], alpha), alpha)
  }

  /** The published minimum after the loads vs were published, in order. */
  ghost function PublishedMin(min0: real, vs: seq<real>): real
  {
    if vs == [] then min0 else WidenMin(PublishedMin(min0, vs[..|vs| - 1]), vs[|vs| - 1])
  }

  /** The published maximum after the loads vs were published, in order. */
  ghost function PublishedMax(max0: real, vs: seq<real>): real
  {
    if vs == [] then max0 else WidenMax(PublishedMax(max0, vs[..|vs| - 1]), vs[|vs| - 1])
  }

  /** With 0 <= alpha <= 1 the smoothed series never leaves an interval that
      holds every reading and the starting average (unless that is the
      "no history" sentinel, which the first reading replaces). */
  lemma {:induction false} SmoothedWithinBounds(avg0: real, vs: seq<real>, alpha: real, lo: real, hi: real)
    requires 0.0 <= alpha <= 1.0
    requires forall i :: 0 <= i < |vs| ==> lo <= vs[i] <= hi
    requires lo <= avg0 <= hi || (avg0 < 0.0 && vs != [])
    ensures lo <= Smoothed(avg0, vs, alpha) <= hi
  {
    if vs != [] {
      var prefix := vs[..|vs| - 1];
      if prefix != [] || lo <= avg0 <= hi {
        SmoothedWithinBounds(avg0, prefix, alpha, lo, hi);
      }
      var prev := Smoothed(avg0, prefix, alpha);
      if prev >= 0.0 {
        AverageIsConvex(vs[|vs| - 1], prev, alpha);
      }
    }
  }

  /** Non-negative readings give a non-negative smoothed series once it has
      left the sentinel. */
  lemma {:induction false} SmoothedNonNegative(avg0: real, vs: seq<real>, alpha: real)
    requires 0.0 <= alpha <= 1.0
    requires forall i :: 0 <= i < |vs| ==> vs[i] >= 0.0
    requires avg0 >= 0.0 || vs != []
    ensures Smoothed(avg0, vs, alpha) >= 0.0
  {
    if vs != [] {
      var prefix := vs[..|vs| - 1];
      if prefix != [] || avg0 >= 0.0 {
        SmoothedNonNegative(avg0, prefix, alpha);
      }
      var prev := Smoothed(avg0, prefix, alpha);
      if prev >= 0.0 {
        AverageIsConvex(vs[|vs| - 1], prev, alpha);
      }
    }
  }

  /** From "no history", the smoothed series of non-negative readings is
      s(1) = v(1) and s(k) = (1 - alpha) * s(k-1) + alpha * v(k). */
  lemma {:induction false} SmoothedRecurrence(avg0: real, vs: seq<real>, alpha: real)
    requires avg0 < 0.0 && vs != []
    requires 0.0 <= alpha <= 1.0
    requires forall i :: 0 <= i < |vs| ==> vs[i] >= 0.0
    ensures Smoothed(avg0, vs[..1], alpha) == vs[0]
    ensures forall k :: 1 <= k < |vs| ==> BlendsAt(avg0, vs, alpha, k)
  {
    SmoothedFirst(avg0, vs, alpha);
    forall k | 1 <= k < |vs|
      ensures BlendsAt(avg0, vs, alpha, k)
    {
      SmoothedStep(avg0, vs, alpha, k);
    }
  }

  /** The k-th average is (1 - alpha) times the one before plus alpha times
      the k-th reading. */
  ghost predicate BlendsAt(avg0: real, vs: seq<real>, alpha: real, k: nat)
    requires 1 <= k < |vs|
  {
    Smoothed(avg0, vs[..k + 1], alpha) == (1.0 - alpha) * Smoothed(avg0, vs[..k], alpha) + alpha * vs[k]
  }

  /** From "no history" the first average is the first reading. */
  lemma SmoothedFirst(avg0: real, vs: seq<real>, alpha: real)
    requires avg0 < 0.0 && vs != []
    ensures Smoothed(avg0, vs[..1], alpha) == vs[0]
  {
    assert vs[..1][..0] == [];
  }

  /** One step of SmoothedRecurrence: the k-th average blends the previous
      one, which is not the sentinel. */
  lemma {:induction false} SmoothedStep(avg0: real, vs: seq<real>, alpha: real, k: nat)
    requires 1 <= k < |vs|
    requires 0.0 <= alpha <= 1.0
    requires forall i :: 0 <= i < |vs| ==> vs[i] >= 0.0
    ensures Smoothed(avg0, vs[..k + 1], alpha) == (1.0 - alpha) * Smoothed(avg0, vs[..k], alpha) + alpha * vs[k]
  {
    assert vs[..k + 1][..k] == vs[..k];
    SmoothedNonNegative(avg0, vs[..k], alpha);
    var prev := Smoothed(avg0, vs[..k], alpha);
    BlendOfHistory(vs[k], prev, alpha);
  }

  /** With history, one filter step is the convex blend of the old average
      and the new reading. */
  lemma BlendOfHistory(newValue: real, oldValue: real, alpha: real)
    requires oldValue >= 0.0
    ensures ComputeAverage(newValue, oldValue, alpha) == (1.0 - alpha) * oldValue + alpha * newValue
  {
  }

  /** With alpha = 1 the filter is a pass-through: the average is the
      latest reading. */
  lemma SmoothedPassThrough(avg0: real, vs: seq<real>)
    requires vs != []
    ensures Smoothed(avg0, vs, 1.0) == vs[|vs| - 1]
  {
  }

  /** The smoothing scenario for the readings 0.2, 0.4, 0.6 with alpha 0.5:
      from the sentinel (pulse, frame and system averages) the series is
      0.2, 0.3, 0.45; from 0 (the process average's initial value) it is
      0.1, 0.25, 0.425. */
  lemma SmoothingScenario()
    ensures Smoothed(-1.0, [0.2, 0.4, 0.6], 0.5) == 0.45
    ensures Smoothed(0.0, [0.2, 0.4, 0.6], 0.5) == 0.425
  {
    var vs := [0.2, 0.4, 0.6];
    assert vs[..2] == [0.2, 0.4] && vs[..2][..1] == [0.2] && [0.2][..0] == [];
    assert Smoothed(-1.0, [0.2], 0.5) == 0.2;
    assert Smoothed(0.0, [0.2], 0.5) == 0.1;
  }

  /** When every published load is non-negative, the published minimum and
      maximum bracket every load published so far, and each equals either
      its starting value or one of the loads. */
  lemma {:induction false} MinMaxBracketHistory(min0: real, max0: real, vs: seq<real>)
    requires vs != []
    requires forall i :: 0 <= i < |vs| ==> vs[i] >= 0.0
    ensures PublishedMin(min0, vs) >= 0.0
    ensures forall i :: 0 <= i < |vs| ==> PublishedMin(min0, vs) <= vs[i] <= PublishedMax(max0, vs)
    ensures min0 >= 0.0 ==> PublishedMin(min0, vs) <= min0
    ensures max0 >= 0.0 ==> PublishedMax(max0, vs) >= max0
    ensures PublishedMin(min0, vs) == min0 || PublishedMin(min0, vs) in vs
    ensures PublishedMax(max0, vs) == max0 || PublishedMax(max0, vs) in vs
  {
    var prefix, v := vs[..|vs| - 1], vs[|vs| - 1];
    assert vs == prefix + [v];
    if prefix != [] {
      MinMaxBracketHistory(min0, max0, prefix);
      assert forall i :: 0 <= i < |prefix| ==> prefix[i] == vs[i];
    }
  }

  /** A negative load (the OS bean's "not available") ends the history the
      minimum kept: after 20, -100 and 30 the published minimum is 30,
      above the 20 that was published first. */
  lemma NegativeLoadRestartsMin()
    ensures PublishedMin(-1.0, [20.0, -100.0, 30.0]) == 30.0
  {
    var vs := [20.0, -100.0, 30.0];
    assert vs[..2] == [20.0, -100.0] && vs[..2][..1] == [20.0] && [20.0][..0] == [];
    assert PublishedMin(-1.0, [20.0]) == 20.0;
    assert PublishedMin(-1.0, [20.0, -100.0]) == -100.0;
  }

  /** A negative reading ends the history a smoothed average kept, as it
      does for the minimum: with alpha 0.5, the readings 10, -30 and 5 from
      no history give the averages 10, -10 and then 5, because -10 counts as
      "no history". The recurrence of SmoothedRecurrence would give
      0.5 * -10 + 0.5 * 5 = -2.5 instead. */
  lemma NegativeReadingRestartsAverage()
    ensures Smoothed(NoHistory, [10.0, -30.0], 0.5) == -10.0
    ensures Smoothed(NoHistory, [10.0, -30.0, 5.0], 0.5) == 5.0
    ensures Smoothed(NoHistory, [10.0, -30.0, 5.0], 0.5)
         != (1.0 - 0.5) * Smoothed(NoHistory, [10.0, -30.0], 0.5) + 0.5 * 5.0
  {
    var vs := [10.0, -30.0, 5.0];
    assert vs[..2] == [10.0, -30.0] && vs[..2][..1] == [10.0] && [10.0][..0] == [];
    assert Smoothed(NoHistory, [10.0], 0.5) == 10.0;
    assert Smoothed(NoHistory, [10.0, -30.0], 0.5) == -10.0;
  }

  /** Construction as the tests do it: a null scene is rejected, and a period
      of 20 ms is raised to 40 ms. */
  method ConstructionScenario() returns (nullRejected: bool, period: int)
    ensures nullRejected
    ensures period == 40
  {
    var rejected := SimplePerformanceMeter.Create(null, 20, 0);
    nullRejected := rejected.Failure?;
    var scene := new Scene();
    var created := SimplePerformanceMeter.Create(scene, 20, 0);
    period := created.value.updateDuration;
  }

  /** Three ticks 100 ms apart on one core, each followed by a publish, with
      alpha 0.5 and process and system loads 0.2, 0.4, 0.6: the published
      system average follows the sentinel-started series, the process average
      the series started from 0. */
  method ThreeTickAverages() returns (avgSystem: seq<real>, avgProcess: seq<real>)
    ensures avgSystem == [20.0, 30.0, 45.0]
    ensures avgProcess == [10.0, 25.0, 42.5]
  {
    var scene := new Scene();
    var meter := new SimplePerformanceMeter(scene, 100, 0);
    meter.SetAverageFactor(0.5);
    meter.Tick(100, 60.0, 60.0, 0.2, 0.2, 1);
    meter.UpdateProperties();
    var system1, process1 := meter.GetAverageSystemCpuLoad(), meter.GetAverageProcessCpuLoad();
    assert system1 == 20.0 && process1 == 10.0;
    meter.Tick(200, 59.0, 59.0, 0.4, 0.4, 1);
    meter.UpdateProperties();
    var system2, process2 := meter.GetAverageSystemCpuLoad(), meter.GetAverageProcessCpuLoad();
    assert system2 == 30.0 && process2 == 25.0;
    meter.Tick(300, 58.0, 58.0, 0.6, 0.6, 1);
    meter.UpdateProperties();
    var system3, process3 := meter.GetAverageSystemCpuLoad(), meter.GetAverageProcessCpuLoad();
    avgSystem, avgProcess := [system1, system2, system3], [process1, process2, process3];
  }

  /** The same three ticks seen through the extrema and the pulse counter:
      the published minimum and maximum are 20 and 60, the deprecated
      maximum getter reads the minimum, the pulses counted in between are
      drained, and the published pulse rate is the tracker's reading rather
      than the drained count over the elapsed time. */
  method ThreeTickExtrema()
    returns (minLoad: real, maxLoad: real, deprecatedMax: real, pulsesLeft: nat, fxRate: real)
    ensures minLoad == 20.0 && maxLoad == 60.0
    ensures deprecatedMax == 20.0
    ensures pulsesLeft == 0 && fxRate == 58.0
  {
    var scene := new Scene();
    var meter := new SimplePerformanceMeter(scene, 100, 0);
    meter.SetAverageFactor(0.5);
    meter.HandlePulse();
    meter.HandlePulse();
    meter.Tick(100, 60.0, 60.0, 0.2, 0.2, 1);
    meter.UpdateProperties();
    assert meter.minProcessCpuLoad == 20.0 && meter.maxProcessCpuLoad == 20.0;
    meter.Tick(200, 59.0, 59.0, 0.4, 0.4, 1);
    meter.UpdateProperties();
    assert meter.minProcessCpuLoad == 20.0 && meter.maxProcessCpuLoad == 40.0;
    meter.HandlePulse();
    meter.Tick(300, 58.0, 58.0, 0.6, 0.6, 1);
    meter.UpdateProperties();
    minLoad := meter.GetMinProcessCpuLoad();
    maxLoad := meter.MaxProcessCpuLoadProperty();
    deprecatedMax := meter.GetMaxProcessCpuLoad();
    pulsesLeft := meter.pulseCounter;
    fxRate := meter.GetFxFrameRate();
  }

  /** The process average of a new meter starts at 0, so its first tick
      publishes alpha times the load; after ResetAverages the next tick
      publishes the load itself, whatever alpha is. */
  method ResetScenario(alpha: real, reading: real, nCores: nat)
    returns (firstAverage: real, averageAfterReset: real)
    ensures firstAverage == alpha * ScaledLoad(reading, nCores)
    ensures averageAfterReset == ScaledLoad(reading, nCores)
  {
    var scene := new Scene();
    var meter := new SimplePerformanceMeter(scene, 1000, 0);
    meter.SetAverageFactor(alpha);
    meter.Tick(1000, 0.0, 0.0, reading, reading, nCores);
    meter.UpdateProperties();
    firstAverage := meter.GetAverageProcessCpuLoad();
    meter.ResetAverages();
    meter.Tick(2000, 0.0, 0.0, reading, reading, nCores);
    meter.UpdateProperties();
    averageAfterReset := meter.GetAverageProcessCpuLoad();
  }

  /** Registering the listeners of a running meter again leaves two timers
      scheduled, and deregistering cancels only one of them. */
  method ReregisterScenario() returns (afterTwoRegistrations: nat, afterDeregistration: nat)
    ensures afterTwoRegistrations == 2
    ensures afterDeregistration == 1
  {
    var scene := new Scene();
    var meter := new SimplePerformanceMeter(scene, 100, 0);
    meter.RegisterListener();
    afterTwoRegistrations := meter.ScheduledTimers();
    meter.DeregisterListener();
    afterDeregistration := meter.ScheduledTimers();
  }

  /** The foreign readings one timer tick takes: the tracker's instant pulses
      and FPS and the OS bean's process and system CPU loads. */
  datatype Reading = Reading(pulses: real, fps: real, processLoad: real, systemLoad: real)

  ghost function PulseReadings(rs: seq<Reading>): (vs: seq<real>)
  {
    seq(|rs|, i requires 0 <= i < |rs| => rs[i].pulses)
  }

  ghost function FpsReadings(rs: seq<Reading>): (vs: seq<real>)
  {
    seq(|rs|, i requires 0 <= i < |rs| => rs[i].fps)
  }

  /** The process loads as the tick stores them, scaled by 100 × cores. */
  ghost function ProcessLoads(rs: seq<Reading>, nCores: nat): (vs: seq<real>)
  {
    seq(|rs|, i requires 0 <= i < |rs| => ScaledLoad(rs[i].processLoad, nCores))
  }

  /** The system loads as the tick stores them, scaled by 100 × cores. */
  ghost function SystemLoads(rs: seq<Reading>, nCores: nat): (vs: seq<real>)
  {
    seq(|rs|, i requires 0 <= i < |rs| => ScaledLoad(rs[i].systemLoad, nCores))
  }

  /** Smoothed over one more reading is one more filter step. */
  lemma SmoothedExtend(avg0: real, vs: seq<real>, alpha: real, i: nat)
    requires i < |vs|
    ensures Smoothed(avg0, vs[..i + 1], alpha) == ComputeAverage(vs[i], Smoothed(avg0, vs[..i], alpha), alpha)
  {
    assert vs[..i + 1][..i] == vs[..i];
  }

  /** The published extrema over one more load are one more widening. */
  lemma ExtremaExtend(min0: real, max0: real, vs: seq<real>, i: nat)
    requires i < |vs|
    ensures PublishedMin(min0, vs[..i + 1]) == WidenMin(PublishedMin(min0, vs[..i]), vs[i])
    ensures PublishedMax(max0, vs[..i + 1]) == WidenMax(PublishedMax(max0, vs[..i]), vs[i])
  {
    assert vs[..i + 1][..i] == vs[..i];
  }

  /** One run of the timer task: the tick, then the publish it hands to the
      FX thread. */
  method TickAndPublish(meter: SimplePerformanceMeter, nowMillis: int, r: Reading, nCores: nat)
    modifies meter`timerIterationLast, meter`pulseCounter, meter`frameCounter
    modifies meter`pulseRateInternal, meter`pulseRateAvgInternal
    modifies meter`frameRateInternal, meter`frameRateAvgInternal
    modifies meter`cpuLoadProcessInternal, meter`cpuLoadProcessAvgInternal
    modifies meter`cpuLoadSystemInternal, meter`cpuLoadSystemAvgInternal
    modifies meter`pulseRate, meter`pulseRateAvg, meter`trackerFrameRate, meter`avgTrackerFrameRate
    modifies meter`processCpuLoad, meter`avgProcessCpuLoad, meter`systemCpuLoad, meter`avgSystemCpuLoad
    modifies meter`minProcessCpuLoad, meter`maxProcessCpuLoad
    ensures meter.timerIterationLast == nowMillis
    ensures meter.pulseCounter == 0 && meter.frameCounter == 0
    ensures meter.pulseRateAvgInternal == ComputeAverage(r.pulses, old(meter.pulseRateAvgInternal), meter.averageFactor)
    ensures meter.frameRateAvgInternal == ComputeAverage(r.fps, old(meter.frameRateAvgInternal), meter.averageFactor)
    ensures meter.cpuLoadProcessAvgInternal
         == ComputeAverage(ScaledLoad(r.processLoad, nCores), old(meter.cpuLoadProcessAvgInternal), meter.averageFactor)
    ensures meter.cpuLoadSystemAvgInternal
         == ComputeAverage(ScaledLoad(r.systemLoad, nCores), old(meter.cpuLoadSystemAvgInternal), meter.averageFactor)
    ensures meter.pulseRate == r.pulses && meter.trackerFrameRate == r.fps
    ensures meter.processCpuLoad == ScaledLoad(r.processLoad, nCores)
    ensures meter.systemCpuLoad == ScaledLoad(r.systemLoad, nCores)
    ensures meter.pulseRateAvg == meter.pulseRateAvgInternal && meter.avgTrackerFrameRate == meter.frameRateAvgInternal
    ensures meter.avgProcessCpuLoad == meter.cpuLoadProcessAvgInternal
    ensures meter.avgSystemCpuLoad == meter.cpuLoadSystemAvgInternal
    ensures meter.minProcessCpuLoad == WidenMin(old(meter.minProcessCpuLoad), meter.processCpuLoad)
    ensures meter.maxProcessCpuLoad == WidenMax(old(meter.maxProcessCpuLoad), meter.processCpuLoad)
    ensures meter.minProcessCpuLoad <= meter.processCpuLoad <= meter.maxProcessCpuLoad
  {
    meter.Tick(nowMillis, r.pulses, r.fps, r.processLoad, r.systemLoad, nCores);
    meter.UpdateProperties();
  }

  /** The timer at work: one tick followed by one publish per reading, the
      ticks one update period apart. The meter's four averages follow
      Smoothed and its published extrema follow PublishedMin and
      PublishedMax over the readings, so the lemmas about those functions
      hold of the meter itself. */
  method RunTicks(meter: SimplePerformanceMeter, readings: seq<Reading>, nCores: nat)
    modifies meter`timerIterationLast, meter`pulseCounter, meter`frameCounter
    modifies meter`pulseRateInternal, meter`pulseRateAvgInternal
    modifies meter`frameRateInternal, meter`frameRateAvgInternal
    modifies meter`cpuLoadProcessInternal, meter`cpuLoadProcessAvgInternal
    modifies meter`cpuLoadSystemInternal, meter`cpuLoadSystemAvgInternal
    modifies meter`pulseRate, meter`pulseRateAvg, meter`trackerFrameRate, meter`avgTrackerFrameRate
    modifies meter`processCpuLoad, meter`avgProcessCpuLoad, meter`systemCpuLoad, meter`avgSystemCpuLoad
    modifies meter`minProcessCpuLoad, meter`maxProcessCpuLoad
    ensures meter.averageFactor == old(meter.averageFactor)
    ensures meter.timerIterationLast == old(meter.timerIterationLast) + |readings| * meter.updateDuration
    ensures meter.pulseRateAvgInternal
         == Smoothed(old(meter.pulseRateAvgInternal), PulseReadings(readings), meter.averageFactor)
    ensures meter.frameRateAvgInternal
         == Smoothed(old(meter.frameRateAvgInternal), FpsReadings(readings), meter.averageFactor)
    ensures meter.cpuLoadProcessAvgInternal
         == Smoothed(old(meter.cpuLoadProcessAvgInternal), ProcessLoads(readings, nCores), meter.averageFactor)
    ensures meter.cpuLoadSystemAvgInternal
         == Smoothed(old(meter.cpuLoadSystemAvgInternal), SystemLoads(readings, nCores), meter.averageFactor)
    ensures meter.minProcessCpuLoad == PublishedMin(old(meter.minProcessCpuLoad), ProcessLoads(readings, nCores))
    ensures meter.maxProcessCpuLoad == PublishedMax(old(meter.maxProcessCpuLoad), ProcessLoads(readings, nCores))
    ensures readings != [] ==> meter.GetAverageFxFrameRate() == meter.pulseRateAvgInternal
    ensures readings != [] ==> meter.GetAverageFrameRate() == meter.frameRateAvgInternal
    ensures readings != [] ==> meter.GetAverageProcessCpuLoad() == meter.cpuLoadProcessAvgInternal
    ensures readings != [] ==> meter.GetAverageSystemCpuLoad() == meter.cpuLoadSystemAvgInternal
    // the last tick's readings are published, its counters drained
    ensures readings != [] ==> meter.GetFxFrameRate() == readings[|readings| - 1].pulses
    ensures readings != [] ==> meter.GetActualFrameRate() == readings[|readings| - 1].fps
    ensures readings != [] ==> meter.GetProcessCpuLoad() == ScaledLoad(readings[|readings| - 1].processLoad, nCores)
    ensures readings != [] ==> meter.GetSystemCpuLoad() == ScaledLoad(readings[|readings| - 1].systemLoad, nCores)
    ensures readings != [] ==> meter.pulseCounter == 0 && meter.frameCounter == 0
    ensures readings != [] ==> meter.minProcessCpuLoad <= meter.processCpuLoad <= meter.maxProcessCpuLoad
  {
    ghost var alpha, t0 := meter.averageFactor, meter.timerIterationLast;
    ghost var pulses0, fps0 := meter.pulseRateAvgInternal, meter.frameRateAvgInternal;
    ghost var process0, system0 := meter.cpuLoadProcessAvgInternal, meter.cpuLoadSystemAvgInternal;
    ghost var min0, max0 := meter.minProcessCpuLoad, meter.maxProcessCpuLoad;
    ghost var pulses, fps := PulseReadings(readings), FpsReadings(readings);
    ghost var process, system := ProcessLoads(readings, nCores), SystemLoads(readings, nCores);
    var i := 0;
    while i < |readings|
      invariant 0 <= i <= |readings|
      invariant meter.averageFactor == alpha
      invariant meter.timerIterationLast == t0 + i * meter.updateDuration
      invariant meter.pulseRateAvgInternal == Smoothed(pulses0, pulses[..i], alpha)
      invariant meter.frameRateAvgInternal == Smoothed(fps0, fps[..i], alpha)
      invariant meter.cpuLoadProcessAvgInternal == Smoothed(process0, process[..i], alpha)
      invariant meter.cpuLoadSystemAvgInternal == Smoothed(system0, system[..i], alpha)
      invariant meter.minProcessCpuLoad == PublishedMin(min0, process[..i])
      invariant meter.maxProcessCpuLoad == PublishedMax(max0, process[..i])
      invariant 0 < i ==> meter.pulseRateAvg == meter.pulseRateAvgInternal
      invariant 0 < i ==> meter.avgTrackerFrameRate == meter.frameRateAvgInternal
      invariant 0 < i ==> meter.avgProcessCpuLoad == meter.cpuLoadProcessAvgInternal
      invariant 0 < i ==> meter.avgSystemCpuLoad == meter.cpuLoadSystemAvgInternal
      invariant 0 < i ==> meter.pulseRate == pulses[i - 1] && meter.trackerFrameRate == fps[i - 1]
      invariant 0 < i ==> meter.processCpuLoad == process[i - 1] && meter.systemCpuLoad == system[i - 1]
      invariant 0 < i ==> meter.pulseCounter == 0 && meter.frameCounter == 0
      invariant 0 < i ==> meter.minProcessCpuLoad <= meter.processCpuLoad <= meter.maxProcessCpuLoad
    {
      var r := readings[i];
      assert pulses[i] == r.pulses && fps[i] == r.fps;
      assert process[i] == ScaledLoad(r.processLoad, nCores) && system[i] == ScaledLoad(r.systemLoad, nCores);
      SmoothedExtend(pulses0, pulses, alpha, i);
      SmoothedExtend(fps0, fps, alpha, i);
      SmoothedExtend(process0, process, alpha, i);
      SmoothedExtend(system0, system, alpha, i);
      ExtremaExtend(min0, max0, process, i);
      TickAndPublish(meter, meter.timerIterationLast + meter.updateDuration, r, nCores);
      assert (i + 1) * meter.updateDuration == i * meter.updateDuration + meter.updateDuration;
      i := i + 1;
    }
    assert pulses[..i] == pulses && fps[..i] == fps;
    assert process[..i] == process && system[..i] == system;
    if i > 0 {
      assert pulses[i - 1] == readings[i - 1].pulses && fps[i - 1] == readings[i - 1].fps;
      assert process[i - 1] == ScaledLoad(readings[i - 1].processLoad, nCores);
      assert system[i - 1] == ScaledLoad(readings[i - 1].systemLoad, nCores);
    }
  }
}
