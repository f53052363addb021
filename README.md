# chart-fx performance meter and renderer settings, in Dafny

This project models two pieces of sequential state logic of the chart-fx JavaFX
charting library.

**SimplePerformanceMeter** (`performance_meter.dfy`, module `PerformanceMeter`;
multi-tick properties in `meter_traces.dfy`, module `MeterTraces`). The meter
clamps its update period into [40, 10000] ms and counts animation pulses. On
every timer tick it does four things:
- it drains the pulse and frame counters;
- it takes the tracker's pulse and frame rates;
- it scales the process and system CPU loads by 100 × the number of cores;
- it smooths each of the four metrics with an IIR filter. A negative previous
  average means "no history", and the new value is then taken as it is.

A publish step copies the tick-side values to the published values and widens
the published minimum and maximum of the process CPU load. `ResetAverages` puts
every tick-side value back to the sentinel -1. The Java class is a
`SimplePerformanceMeter` class here; the tick body, the publish step, the reset,
the pulse callback and the listener registration are methods on its fields.
Pure pieces are functions with contracts: the period clamp, the filter step,
the rate, the load scaling and the min/max widening. `MeterTraces` defines the
smoothed series and the published extrema over a whole sequence of readings
and proves the properties that span many ticks. `RunTicks` drives a meter
through one tick and one publish per reading, with a loop whose invariants show
that the meter's averages and extrema follow those definitions.

**AbstractErrorDataSetRendererParameter** (`renderer_parameter.dfy`, module
`ErrorDataSetRendererParameter`). This is the settings record of the error data
set renderers: 16 settings with defaults, fluent setters and getters. Some
setters reject negative values with an `IllegalArgumentException`, modelled as
a `Failure` result that leaves the record unchanged. `setRendererDataReducer`
substitutes a `DefaultDataReducer` for null. Every setter's contract states
the whole new record, as `old(Current())` with one field replaced, and the
getter round trip. The five validating setters (`SetBarWidth`,
`SetBarWidthPercentage`, `SetDashSize`, `SetMarkerSize`, `SetShiftBarOffset`)
and `SetIntensityFading` also state that they keep the guarded sizes
non-negative (`NonNegativeSizes`); the other setters change no guarded size.

Java `double` is `real`, Java `int` settings are the newtype `int32`, and
null is `Option.None`. The readings that come from outside the class are
parameters of `Tick`: the clock, the tracker's instant pulses and FPS, the OS
bean's CPU loads and the core count.

Three behaviours of the code are kept as written:
- The rates computed from the drained counters (lines 216-217) are overwritten
  at once by the tracker's readings (lines 219-220). The published pulse rate
  is the tracker's value, not the count over the elapsed time.
- `cpuLoadProcessAvgInternal` starts at 0 rather than -1. The first smoothed
  process load is therefore alpha × load, while the other three averages start
  from the raw value (`ResetScenario`, `ThreeTickAverages`).
- `getMaxProcessCpuLoad` returns the published minimum. Only
  `maxProcessCpuLoadProperty` reads the maximum.

## Where the code differs from what a caller would expect

The model follows the code in each case.
- A caller would expect registering the listeners twice to be harmless. The
  code schedules a second timer and drops the reference to the first, and
  `deregisterListener` cancels only the latest, so one timer keeps running
  (`RegisterListener`, `ReregisterScenario`).
- A caller would expect `resetAverages` to clear only the averages. The code
  also sets the raw tick-side values to -1, and it leaves the published
  minimum and maximum as they were.
- A caller would expect the published minimum and maximum to bracket every
  load published so far. They do only while all loads are non-negative
  (`MinMaxBracketHistory`). A negative load, which the OS bean reports as -1
  when no value is available, becomes the minimum, and the next publish then
  restarts the minimum from the new load: publishing 20, -100, 30 leaves the
  minimum at 30 (`NegativeLoadRestartsMin`).
- The smoothed averages behave the same way. A negative reading can pull an
  average below 0, and the next tick then takes the raw value as if there were
  no history: with alpha 0.5, the readings 10, -30, 5 from no history give the
  averages 10, -10 and then 5, where the filter recurrence would give -2.5
  (`NegativeReadingRestartsAverage`). The recurrence holds for non-negative
  readings (`SmoothedRecurrence`).
- A caller would expect a zero or negative elapsed time to show up in the
  published rate. The code computes the rate sentinel -1 for it (`CountRate`),
  but overwrites that rate with the tracker's reading in the same tick.
- A caller would expect every average to start from its first reading. With
  alpha 0.5 and the readings 0.2, 0.4, 0.6, the averages that start at the
  sentinel -1 give 0.2, 0.3, 0.45, but the process average starts at 0 and
  gives 0.1, 0.25, 0.425 (`SmoothingScenario`). In the meter the loads are
  also scaled by 100 × cores, so the published process averages for those
  readings on one core are 10, 25, 42.5 (`ThreeTickAverages`).

## Model

| member | source | states |
|---|---|---|
| PerformanceMeter.EffectiveUpdatePeriod | chartfx-chart/src/main/java/de/gsi/chart/utils/SimplePerformanceMeter.java:73-78 | the kept period lies in [40, 10000]; it equals the request when that is in range, 40 below, 10000 above |
| PerformanceMeter.ComputeAverage | chartfx-chart/src/main/java/de/gsi/chart/utils/SimplePerformanceMeter.java:296-301 | a negative old value (no history) yields the new value; otherwise the result moves alpha of the way from old to new; alpha 1 yields the new value in both cases |
| PerformanceMeter.AverageIsConvex | chartfx-chart/src/main/java/de/gsi/chart/utils/SimplePerformanceMeter.java:296-301 | with history, alpha 0 keeps the old value, and any alpha in [0, 1] gives a result between the old value and the new one |
| PerformanceMeter.ElapsedSeconds | chartfx-chart/src/main/java/de/gsi/chart/utils/SimplePerformanceMeter.java:214 | elapsed seconds times 1000 equal the millisecond difference; they are positive exactly when the clock advanced |
| PerformanceMeter.CountRate | chartfx-chart/src/main/java/de/gsi/chart/utils/SimplePerformanceMeter.java:216-217 | for a positive window, rate × window = count (so 0 pulses give rate 0); otherwise the sentinel -1 |
| PerformanceMeter.ScaledLoad | chartfx-chart/src/main/java/de/gsi/chart/utils/SimplePerformanceMeter.java:222-223 | the stored load is reading × 100 × cores; a reading in [0, 1] gives a load in [0, 100 × cores] |
| PerformanceMeter.WidenMin | chartfx-chart/src/main/java/de/gsi/chart/utils/SimplePerformanceMeter.java:270-274 | the new minimum is at most the published load; with no minimum yet it is the load, otherwise at most the old minimum and equal to one of the two |
| PerformanceMeter.WidenMax | chartfx-chart/src/main/java/de/gsi/chart/utils/SimplePerformanceMeter.java:275-279 | the new maximum is at least the published load; with no maximum yet it is the load, otherwise at least the old maximum and equal to one of the two |
| PerformanceMeter.SimplePerformanceMeter.constructor | chartfx-chart/src/main/java/de/gsi/chart/utils/SimplePerformanceMeter.java:38-102 | the period is clamped; every value takes its declared initial value: tick-side process average 0, other tick-side averages -1; published pulse and frame averages 0, published process and system averages and min/max -1; the listeners are registered with one timer scheduled |
| PerformanceMeter.SimplePerformanceMeter.Create | chartfx-chart/src/main/java/de/gsi/chart/utils/SimplePerformanceMeter.java:73-78 | a null scene is rejected with IllegalArgumentException("scene must not be null") and nothing is built; otherwise a fresh meter in its initial state with the clamped period |
| PerformanceMeter.SimplePerformanceMeter.HandlePulse | chartfx-chart/src/main/java/de/gsi/chart/utils/SimplePerformanceMeter.java:81-86 | each animation pulse adds exactly 1 to the pulse counter and changes nothing else |
| PerformanceMeter.SimplePerformanceMeter.SetAverageFactor | chartfx-chart/src/main/java/de/gsi/chart/utils/SimplePerformanceMeter.java:118-120 | the IIR factor used by later ticks becomes alpha |
| PerformanceMeter.SimplePerformanceMeter.Tick | chartfx-chart/src/main/java/de/gsi/chart/utils/SimplePerformanceMeter.java:210-235 | both counters are drained to 0; the timestamp becomes the current reading; the rates are the tracker readings; each CPU load is reading × 100 × cores; each average is ComputeAverage of its raw value and old average; an average with no history takes its raw value; published values are untouched |
| PerformanceMeter.SimplePerformanceMeter.ResetAverages | chartfx-chart/src/main/java/de/gsi/chart/utils/SimplePerformanceMeter.java:241-250 | all eight tick-side values are -1 and nothing else changes |
| PerformanceMeter.SimplePerformanceMeter.UpdateProperties | chartfx-chart/src/main/java/de/gsi/chart/utils/SimplePerformanceMeter.java:256-280 | the eight tick-side values are published unchanged; min and max are widened by the published load; afterwards min <= process load <= max, and an existing min (max) never grows (shrinks) |
| PerformanceMeter.SimplePerformanceMeter.RegisterListener | chartfx-chart/src/main/java/de/gsi/chart/utils/SimplePerformanceMeter.java:205-239 | the animation timer runs and a new timer is scheduled; a still-scheduled previous timer is abandoned, so the number of scheduled timers grows by one on every call |
| PerformanceMeter.SimplePerformanceMeter.DeregisterListener | chartfx-chart/src/main/java/de/gsi/chart/utils/SimplePerformanceMeter.java:138-143 | the animation timer stops and the last scheduled timer is cancelled; abandoned timers stay scheduled |
| PerformanceMeter.SimplePerformanceMeter.GetActualFrameRate | chartfx-chart/src/main/java/de/gsi/chart/utils/SimplePerformanceMeter.java:149-151 | reads the published tracker frame rate |
| PerformanceMeter.SimplePerformanceMeter.GetAverageFrameRate | chartfx-chart/src/main/java/de/gsi/chart/utils/SimplePerformanceMeter.java:153-155 | reads the published average tracker frame rate |
| PerformanceMeter.SimplePerformanceMeter.GetAverageFxFrameRate | chartfx-chart/src/main/java/de/gsi/chart/utils/SimplePerformanceMeter.java:157-159 | reads the published average pulse rate |
| PerformanceMeter.SimplePerformanceMeter.GetAverageProcessCpuLoad | chartfx-chart/src/main/java/de/gsi/chart/utils/SimplePerformanceMeter.java:161-163 | reads the published average process load |
| PerformanceMeter.SimplePerformanceMeter.GetAverageSystemCpuLoad | chartfx-chart/src/main/java/de/gsi/chart/utils/SimplePerformanceMeter.java:165-167 | reads the published average system load |
| PerformanceMeter.SimplePerformanceMeter.GetFxFrameRate | chartfx-chart/src/main/java/de/gsi/chart/utils/SimplePerformanceMeter.java:169-171 | reads the published pulse rate |
| PerformanceMeter.SimplePerformanceMeter.GetMaxProcessCpuLoad | chartfx-chart/src/main/java/de/gsi/chart/utils/SimplePerformanceMeter.java:173-176 | reads the published MINIMUM, the same value as GetMinProcessCpuLoad |
| PerformanceMeter.SimplePerformanceMeter.GetMinProcessCpuLoad | chartfx-chart/src/main/java/de/gsi/chart/utils/SimplePerformanceMeter.java:178-181 | reads the published minimum process load |
| PerformanceMeter.SimplePerformanceMeter.GetProcessCpuLoad | chartfx-chart/src/main/java/de/gsi/chart/utils/SimplePerformanceMeter.java:183-185 | reads the published process load |
| PerformanceMeter.SimplePerformanceMeter.GetSystemCpuLoad | chartfx-chart/src/main/java/de/gsi/chart/utils/SimplePerformanceMeter.java:187-189 | reads the published system load |
| PerformanceMeter.SimplePerformanceMeter.MaxProcessCpuLoadProperty | chartfx-chart/src/main/java/de/gsi/chart/utils/SimplePerformanceMeter.java:191-194 | the maximum property holds the published maximum |
| MeterTraces.SmoothedWithinBounds | chartfx-chart/src/main/java/de/gsi/chart/utils/SimplePerformanceMeter.java:228-232 | with alpha in [0, 1], the smoothed series after any number of ticks stays within any interval that holds all readings and the starting average (or starts from the sentinel) |
| MeterTraces.SmoothedNonNegative | chartfx-chart/src/main/java/de/gsi/chart/utils/SimplePerformanceMeter.java:228-232 | non-negative readings keep the smoothed series non-negative once it has left the sentinel |
| MeterTraces.SmoothedRecurrence | chartfx-chart/src/main/java/de/gsi/chart/utils/SimplePerformanceMeter.java:228-232 | from the sentinel with non-negative readings: s(1) = v(1) and, for every later tick k, BlendsAt: s(k) = (1 - alpha) s(k-1) + alpha v(k) |
| MeterTraces.SmoothedPassThrough | chartfx-chart/src/main/java/de/gsi/chart/utils/SimplePerformanceMeter.java:296-301 | with alpha 1 the average after any non-empty sequence of ticks is the latest reading |
| MeterTraces.SmoothingScenario | chartfx-chart/src/main/java/de/gsi/chart/utils/SimplePerformanceMeter.java:50-56 | readings 0.2, 0.4, 0.6 with alpha 0.5 end at 0.45 from the sentinel and at 0.425 from the process average's initial 0 |
| MeterTraces.MinMaxBracketHistory | chartfx-chart/src/main/java/de/gsi/chart/utils/SimplePerformanceMeter.java:269-279 | if all published loads are non-negative, min <= every load <= max, min never exceeds a non-negative start value, and min and max are each a load or the start value |
| MeterTraces.NegativeLoadRestartsMin | chartfx-chart/src/main/java/de/gsi/chart/utils/SimplePerformanceMeter.java:270-274 | publishing 20, -100, 30 from no history leaves the minimum at 30, above the 20 published first |
| MeterTraces.NegativeReadingRestartsAverage | chartfx-chart/src/main/java/de/gsi/chart/utils/SimplePerformanceMeter.java:296-301 | with alpha 0.5 the readings 10, -30, 5 from no history give averages 10, -10 and then 5, not the -2.5 of the filter recurrence |
| MeterTraces.TickAndPublish | chartfx-chart/src/main/java/de/gsi/chart/utils/SimplePerformanceMeter.java:210-234 | one timer run, tick then publish: counters drained, timestamp set, each average is ComputeAverage of the new reading (loads scaled) and its old average, the readings and averages are published, min and max widened by the load so that min <= load <= max; only the tick and publish fields change |
| MeterTraces.RunTicks | chartfx-chart/src/main/java/de/gsi/chart/utils/SimplePerformanceMeter.java:205-280 | ticks one update period apart, each followed by a publish, changing only the tick and publish fields (listener state and factor untouched): the four averages equal Smoothed over the readings (loads scaled by 100 × cores), the published min and max equal PublishedMin and PublishedMax over the loads; after at least one reading the published averages are the tick-side ones, the published current rates and loads are the last reading's, both counters are drained, and min <= load <= max |
| MeterTraces.ConstructionScenario | chartfx-chart/src/test/java/de/gsi/chart/ui/ProfilerInfoBoxTests.java:127-128 | a null scene is rejected and a requested period of 20 ms becomes 40 ms |
| MeterTraces.ThreeTickAverages | chartfx-chart/src/main/java/de/gsi/chart/utils/SimplePerformanceMeter.java:210-267 | three tick+publish rounds at alpha 0.5 on one core with loads 0.2, 0.4, 0.6 publish system averages 20, 30, 45 and process averages 10, 25, 42.5 |
| MeterTraces.ThreeTickExtrema | chartfx-chart/src/main/java/de/gsi/chart/utils/SimplePerformanceMeter.java:173-280 | the same rounds publish min 20 and max 60, the deprecated max getter reads 20, the pulse counter is drained to 0 and the published pulse rate is the tracker's reading |
| MeterTraces.ResetScenario | chartfx-chart/src/main/java/de/gsi/chart/utils/SimplePerformanceMeter.java:241-250 | a new meter's first process average is alpha × load; after ResetAverages the next one is the load itself, for every alpha |
| MeterTraces.ReregisterScenario | chartfx-chart/src/main/java/de/gsi/chart/utils/SimplePerformanceMeter.java:205-208 | a meter whose listeners are registered again has two timers scheduled, and deregistering leaves one |
| ErrorDataSetRendererParameter.DefaultsHaveNonNegativeSizes | chartfx-chart/src/main/java/de/gsi/chart/renderer/spi/AbstractErrorDataSetRendererParameter.java:41-52 | the default dash size, marker size, shift offset, bar width percentage and bar width are non-negative |
| ErrorDataSetRendererParameter.GtEqThanZero | chartfx-chart/src/main/java/de/gsi/chart/renderer/spi/AbstractErrorDataSetRendererParameter.java:302 | no exception exactly when the value is at least 0; otherwise an IllegalArgumentException carrying the setting's name |
| ErrorDataSetRendererParameter.Parameters.constructor | chartfx-chart/src/main/java/de/gsi/chart/renderer/spi/AbstractErrorDataSetRendererParameter.java:35-63 | a new record holds the defaults: ERRORCOMBO, DefaultDataReducer, dash 3, marker 1.5, markers drawn, NORMAL lines, all data sets drawn, no bars, shifted bars with offset 3, dynamic bar width, 70 %, bar width 5, fading 0.65, no bubbles, no NaNs |
| ErrorDataSetRendererParameter.Parameters.GetBarWidth | chartfx-chart/src/main/java/de/gsi/chart/renderer/spi/AbstractErrorDataSetRendererParameter.java:133-135 | reads the bar width setting |
| ErrorDataSetRendererParameter.Parameters.GetBarWidthPercentage | chartfx-chart/src/main/java/de/gsi/chart/renderer/spi/AbstractErrorDataSetRendererParameter.java:140-142 | reads the bar width percentage setting |
| ErrorDataSetRendererParameter.Parameters.GetDashSize | chartfx-chart/src/main/java/de/gsi/chart/renderer/spi/AbstractErrorDataSetRendererParameter.java:149-151 | reads the dash size setting |
| ErrorDataSetRendererParameter.Parameters.GetErrorType | chartfx-chart/src/main/java/de/gsi/chart/renderer/spi/AbstractErrorDataSetRendererParameter.java:157-159 | reads the error style setting |
| ErrorDataSetRendererParameter.Parameters.GetIntensityFading | chartfx-chart/src/main/java/de/gsi/chart/renderer/spi/AbstractErrorDataSetRendererParameter.java:166-168 | reads the intensity fading setting |
| ErrorDataSetRendererParameter.Parameters.GetMarkerSize | chartfx-chart/src/main/java/de/gsi/chart/renderer/spi/AbstractErrorDataSetRendererParameter.java:175-177 | reads the marker size setting |
| ErrorDataSetRendererParameter.Parameters.GetPolyLineStyle | chartfx-chart/src/main/java/de/gsi/chart/renderer/spi/AbstractErrorDataSetRendererParameter.java:184-186 | reads the poly-line style setting |
| ErrorDataSetRendererParameter.Parameters.GetRendererDataReducer | chartfx-chart/src/main/java/de/gsi/chart/renderer/spi/AbstractErrorDataSetRendererParameter.java:192-194 | reads the data reducer setting |
| ErrorDataSetRendererParameter.Parameters.GetShiftBarOffset | chartfx-chart/src/main/java/de/gsi/chart/renderer/spi/AbstractErrorDataSetRendererParameter.java:201-203 | reads the shift bar offset setting |
| ErrorDataSetRendererParameter.Parameters.IsAllowNaNs | chartfx-chart/src/main/java/de/gsi/chart/renderer/spi/AbstractErrorDataSetRendererParameter.java:212-214 | reads the allow-NaNs setting |
| ErrorDataSetRendererParameter.Parameters.IsDrawBars | chartfx-chart/src/main/java/de/gsi/chart/renderer/spi/AbstractErrorDataSetRendererParameter.java:219-221 | reads the draw-bars setting |
| ErrorDataSetRendererParameter.Parameters.IsDrawBubbles | chartfx-chart/src/main/java/de/gsi/chart/renderer/spi/AbstractErrorDataSetRendererParameter.java:226-228 | reads the draw-bubbles setting |
| ErrorDataSetRendererParameter.Parameters.IsDrawChartDataSets | chartfx-chart/src/main/java/de/gsi/chart/renderer/spi/AbstractErrorDataSetRendererParameter.java:234-236 | reads the draw-chart-data-sets setting |
| ErrorDataSetRendererParameter.Parameters.IsDrawMarker | chartfx-chart/src/main/java/de/gsi/chart/renderer/spi/AbstractErrorDataSetRendererParameter.java:241-243 | reads the draw-marker setting |
| ErrorDataSetRendererParameter.Parameters.IsDynamicBarWidth | chartfx-chart/src/main/java/de/gsi/chart/renderer/spi/AbstractErrorDataSetRendererParameter.java:248-250 | reads the dynamic-bar-width setting |
| ErrorDataSetRendererParameter.Parameters.IsShiftBar | chartfx-chart/src/main/java/de/gsi/chart/renderer/spi/AbstractErrorDataSetRendererParameter.java:255-257 | reads the shift-bar setting |
| ErrorDataSetRendererParameter.Parameters.SetAllowNaNs | chartfx-chart/src/main/java/de/gsi/chart/renderer/spi/AbstractErrorDataSetRendererParameter.java:292-295 | stores the flag, which IsAllowNaNs then returns; every other setting unchanged; returns the record itself |
| ErrorDataSetRendererParameter.Parameters.SetBarWidth | chartfx-chart/src/main/java/de/gsi/chart/renderer/spi/AbstractErrorDataSetRendererParameter.java:301-305 | a negative width fails with IllegalArgumentException("barWidth") and changes nothing; 0 and above are stored, read back by GetBarWidth, every other setting unchanged, the record returned; non-negative sizes stay non-negative |
| ErrorDataSetRendererParameter.Parameters.SetBarWidthPercentage | chartfx-chart/src/main/java/de/gsi/chart/renderer/spi/AbstractErrorDataSetRendererParameter.java:311-315 | a negative percentage fails and changes nothing; 0 and above are stored and read back, every other setting unchanged, the record returned |
| ErrorDataSetRendererParameter.Parameters.SetDashSize | chartfx-chart/src/main/java/de/gsi/chart/renderer/spi/AbstractErrorDataSetRendererParameter.java:324-328 | a negative dash size fails and changes nothing; 0 (dash not painted) and above are stored and read back, every other setting unchanged, the record returned |
| ErrorDataSetRendererParameter.Parameters.SetDrawBars | chartfx-chart/src/main/java/de/gsi/chart/renderer/spi/AbstractErrorDataSetRendererParameter.java:334-337 | stores the flag and reads it back; every other setting unchanged; returns the record |
| ErrorDataSetRendererParameter.Parameters.SetDrawBubbles | chartfx-chart/src/main/java/de/gsi/chart/renderer/spi/AbstractErrorDataSetRendererParameter.java:343-346 | stores the flag and reads it back; every other setting unchanged; returns the record |
| ErrorDataSetRendererParameter.Parameters.SetDrawChartDataSets | chartfx-chart/src/main/java/de/gsi/chart/renderer/spi/AbstractErrorDataSetRendererParameter.java:352-354 | stores the flag and reads it back; every other setting unchanged; returns nothing |
| ErrorDataSetRendererParameter.Parameters.SetDrawMarker | chartfx-chart/src/main/java/de/gsi/chart/renderer/spi/AbstractErrorDataSetRendererParameter.java:360-363 | stores the flag and reads it back; every other setting unchanged; returns the record |
| ErrorDataSetRendererParameter.Parameters.SetDynamicBarWidth | chartfx-chart/src/main/java/de/gsi/chart/renderer/spi/AbstractErrorDataSetRendererParameter.java:369-372 | stores the flag and reads it back; every other setting unchanged; returns the record |
| ErrorDataSetRendererParameter.Parameters.SetErrorType | chartfx-chart/src/main/java/de/gsi/chart/renderer/spi/AbstractErrorDataSetRendererParameter.java:382-385 | stores the error style and reads it back; every other setting unchanged; returns the record |
| ErrorDataSetRendererParameter.Parameters.SetIntensityFading | chartfx-chart/src/main/java/de/gsi/chart/renderer/spi/AbstractErrorDataSetRendererParameter.java:393-396 | stores any value, negative included, and reads it back; every other setting unchanged; returns the record |
| ErrorDataSetRendererParameter.Parameters.SetMarkerSize | chartfx-chart/src/main/java/de/gsi/chart/renderer/spi/AbstractErrorDataSetRendererParameter.java:404-408 | a negative size fails with IllegalArgumentException("marker size ") and changes nothing; 0 and above are stored and read back, every other setting unchanged, the record returned |
| ErrorDataSetRendererParameter.Parameters.SetPolyLineStyle | chartfx-chart/src/main/java/de/gsi/chart/renderer/spi/AbstractErrorDataSetRendererParameter.java:416-419 | stores the line style and reads it back; every other setting unchanged; returns the record |
| ErrorDataSetRendererParameter.Parameters.SetRendererDataReducer | chartfx-chart/src/main/java/de/gsi/chart/renderer/spi/AbstractErrorDataSetRendererParameter.java:426-433 | null installs DefaultDataReducer, any other algorithm is stored as given; every other setting unchanged; returns the record |
| ErrorDataSetRendererParameter.Parameters.SetShiftBar | chartfx-chart/src/main/java/de/gsi/chart/renderer/spi/AbstractErrorDataSetRendererParameter.java:439-442 | stores the flag and reads it back; every other setting unchanged; returns the record |
| ErrorDataSetRendererParameter.Parameters.SetShiftBarOffset | chartfx-chart/src/main/java/de/gsi/chart/renderer/spi/AbstractErrorDataSetRendererParameter.java:450-454 | a negative offset fails with IllegalArgumentException("shiftBarOffset") and changes nothing; 0 and above are stored and read back, every other setting unchanged, the record returned |
| ErrorDataSetRendererParameter.FluentChainScenario | chartfx-chart/src/main/java/de/gsi/chart/renderer/spi/AbstractErrorDataSetRendererParameter.java:292-454 | on a new record, chained calls store draw-bars and a dash size of 0, reject a bar width of -1 (leaving 5), install the default reducer for null, and leave every other default in place |

## Left out

- Timers and threads: `java.util.Timer` scheduling at the update period, the JavaFX `AnimationTimer`, the hand-over of `updateProperties` to the FX thread and the atomicity of the `AtomicInteger` counters are concurrency. One tick followed by one publish is modelled as two sequential calls, and the counters as plain naturals.
- Foreign readings: `System.currentTimeMillis`, `PerformanceTracker.getInstantPulses/getInstantFPS`, `OS_BEAN.getProcessCpuLoad/getSystemCpuLoad` and `N_CORES` are parameters of `Tick` and `Create`. The tracker lookup `getSceneTracker` is not modelled.
- `getProcessCpuLoadInternal` (an MBean lookup with float truncation) is not modelled; the tick does not call it.
- `isSceneDirty`, the reflective `dirtyBits`/`dirtyNodesSize` lookups and `pulseListener`, the only code that increments `frameCounter`, read private JavaFX state. That listener is never registered. The frame counter is kept and drained, but nothing increments it.
- Floating point: doubles are reals, so NaN, rounding and overflow are not modelled. The long timestamp difference and the 32-bit wrap-around of the counters are unbounded integers.
- JavaFX properties: the `*Property()` accessors hand out mutable property objects. Only the value of `maxProcessCpuLoadProperty` is modelled, since no getter reads the maximum. Writes through a renderer property object bypass the setters' checks. `NonNegativeSizes` is therefore shown to be preserved by the setters only. The renderer's `bind`/`unbind` and its axis-list listener are not modelled.
- The inherited `AbstractPointReductionManagment` settings and `getThis()` are not modelled. `getThis()` is taken to be the record itself.
- ErrorStyle.java and LineStyle.java are not part of this model. The two enums hold the constants the class's comments name, plus the defaults. Null styles, which the Java setters would store, are not modelled.
- AssertUtils is not part of this model. Its exception carries the checked setting's name as passed by each setter, not AssertUtils' exact message text.
- A `DefaultDataReducer` installed for null is a new object in Java; the model treats reducers as values, so object identity is not modelled.
