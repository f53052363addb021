/** The settings record behind chart-fx's error data set renderers
    (AbstractErrorDataSetRendererParameter): renderer settings with their
    defaults, fluent setters that store one setting each, some of them after
    rejecting negative values, and the getters that read them back. */
module ErrorDataSetRendererParameter {
  import opened Wrappers

  /** A Java int. */
  newtype int32 = x: int | -0x8000_0000 <= x < 0x8000_0000

  /** How errors are drawn; the constants named by the class's comments and
      the default. NoErrors is Java's NONE. */
  datatype ErrorStyle = NoErrors | ErrorBars | ErrorSurface | ErrorCombo

  /** How the poly-line is drawn; the constants named by the class's
      comments and the default. NoLine is Java's NONE. */
  datatype LineStyle = NoLine | Normal | StairCase | BezierCurve

  /** The data reduction algorithms the class names, and any other
      implementation, told apart by an identity. */
  datatype DataReducer =
    | DefaultDataReducer
    | MaxDataReducer
    | RamanDouglasPeukerDataReducer
    | DouglasPeukerDataReducer
    | VisvalingamMaheswariWhyattDataReducer
    | CustomDataReducer(id: nat)

  /** Every setting of the record, as one value. */
  datatype Settings = Settings(
    errorStyle: ErrorStyle,
    rendererDataReducer: DataReducer,
    dashSize: int32,
    markerSize: real,
    drawMarker: bool,
    polyLineStyle: LineStyle,
    drawChartDataSets: bool,
    drawBars: bool,
    shiftBar: bool,
    shiftBarOffset: int32,
    dynamicBarWidth: bool,
    barWidthPercentage: real,
    barWidth: int32,
    intensityFading: real,
    drawBubbles: bool,
    allowNaNs: bool)

  /** Intensity fading factor per history stage. */
  const DefaultHistoryIntensityFading: real := 0.65

  /** The settings of a new record. */
  const Defaults: Settings := Settings(
    errorStyle := ErrorCombo,
    rendererDataReducer := DefaultDataReducer,
    dashSize := 3,
    markerSize := 1.5,
    drawMarker := true,
    polyLineStyle := Normal,
    drawChartDataSets := true,
    drawBars := false,
    shiftBar := true,
    shiftBarOffset := 3,
    dynamicBarWidth := true,
    barWidthPercentage := 70.0,
    barWidth := 5,
    intensityFading := DefaultHistoryIntensityFading,
    drawBubbles := false,
    allowNaNs := false)

  /** The settings the validating setters guard are all non-negative. */
  predicate NonNegativeSizes(s: Settings)
  {
    s.dashSize >= 0 && s.markerSize >= 0.0 && s.shiftBarOffset >= 0
    && s.barWidthPercentage >= 0.0 && s.barWidth >= 0
  }

  lemma DefaultsHaveNonNegativeSizes()
    ensures NonNegativeSizes(Defaults)
  {
  }

  /** AssertUtils.gtEqThanZero: no exception for a value of at least zero,
      else an IllegalArgumentException naming the checked setting. */
  function GtEqThanZero(name: string, value: real): (thrown: Option<IllegalArgumentException>)
    ensures thrown.None? <==> value >= 0.0
    ensures thrown.Some? ==> thrown.value.message == name
  {
    if value >= 0.0 then None else Some(IllegalArgumentException(name))
  }

  class Parameters {
    var errorStyle: ErrorStyle
    var rendererDataReducer: DataReducer
    var dashSize: int32
    var markerSize: real
    var drawMarker: bool
    var polyLineStyle: LineStyle
    var drawChartDataSets: bool
    var drawBars: bool
    var shiftBar: bool
    var shiftBarOffset: int32
    var dynamicBarWidth: bool
    var barWidthPercentage: real
    var barWidth: int32
    var intensityFading: real
    var drawBubbles: bool
    var allowNaNs: bool

    /** All settings of this record. */
    function Current(): (s: Settings)
      reads this
    {
      Settings(errorStyle, rendererDataReducer, dashSize, markerSize, drawMarker, polyLineStyle,
               drawChartDataSets, drawBars, shiftBar, shiftBarOffset, dynamicBarWidth,
               barWidthPercentage, barWidth, intensityFading, drawBubbles, allowNaNs)
    }

    constructor ()
      ensures Current() == Defaults
    {
      errorStyle := ErrorCombo;
      rendererDataReducer := DefaultDataReducer;
      dashSize := 3;
      markerSize := 1.5;
      drawMarker := true;
      polyLineStyle := Normal;
      drawChartDataSets := true;
      drawBars := false;
      shiftBar := true;
      shiftBarOffset := 3;
      dynamicBarWidth := true;
      barWidthPercentage := 70.0;
      barWidth := 5;
      intensityFading := DefaultHistoryIntensityFading;
      drawBubbles := false;
      allowNaNs := false;
    }

    // Getters: each reads back one setting.

    function GetBarWidth(): (v: int32)
      reads this
      ensures v == Current().barWidth
    { barWidth }

    function GetBarWidthPercentage(): (v: real)
      reads this
      ensures v == Current().barWidthPercentage
    { barWidthPercentage }

    function GetDashSize(): (v: int32)
      reads this
      ensures v == Current().dashSize
    { dashSize }

    function GetErrorType(): (v: ErrorStyle)
      reads this
      ensures v == Current().errorStyle
    { errorStyle }

    function GetIntensityFading(): (v: real)
      reads this
      ensures v == Current().intensityFading
    { intensityFading }

    function GetMarkerSize(): (v: real)
      reads this
      ensures v == Current().markerSize
    { markerSize }

    function GetPolyLineStyle(): (v: LineStyle)
      reads this
      ensures v == Current().polyLineStyle
    { polyLineStyle }

    function GetRendererDataReducer(): (v: DataReducer)
      reads this
      ensures v == Current().rendererDataReducer
    { rendererDataReducer }

    function GetShiftBarOffset(): (v: int32)
      reads this
      ensures v == Current().shiftBarOffset
    { shiftBarOffset }

    function IsAllowNaNs(): (v: bool)
      reads this
      ensures v == Current().allowNaNs
    { allowNaNs }

    function IsDrawBars(): (v: bool)
      reads this
      ensures v == Current().drawBars
    { drawBars }

    function IsDrawBubbles(): (v: bool)
      reads this
      ensures v == Current().drawBubbles
    { drawBubbles }

    function IsDrawChartDataSets(): (v: bool)
      reads this
      ensures v == Current().drawChartDataSets
    { drawChartDataSets }

    function IsDrawMarker(): (v: bool)
      reads this
      ensures v == Current().drawMarker
    { drawMarker }

    function IsDynamicBarWidth(): (v: bool)
      reads this
      ensures v == Current().dynamicBarWidth
    { dynamicBarWidth }

    function IsShiftBar(): (v: bool)
      reads this
      ensures v == Current().shiftBar
    { shiftBar }

    // Setters. Each changes at most its own field (its modifies clause), says
    // the whole new record, and returns the record itself for chaining.

    method SetAllowNaNs(state: bool) returns (self: Parameters)
      modifies this`allowNaNs
      ensures self == this && IsAllowNaNs() == state
      ensures Current() == old(Current()).(allowNaNs := state)
    {
      allowNaNs := state;
      self := this;
    }

    /** Rejects a negative width and leaves the record as it was. */
    method SetBarWidth(width: int32) returns (r: Result<Parameters, IllegalArgumentException>)
      modifies this`barWidth
      ensures width < 0 ==> r == Failure(IllegalArgumentException("barWidth")) && Current() == old(Current())
      ensures width >= 0 ==> r == Success(this) && GetBarWidth() == width
      ensures width >= 0 ==> Current() == old(Current()).(barWidth := width)
      ensures NonNegativeSizes(old(Current())) ==> NonNegativeSizes(Current())
    {
      var thrown := GtEqThanZero("barWidth", width as real);
      if thrown.Some? {
        return Failure(thrown.value);
      }
      barWidth := width;
      r := Success(this);
    }

    /** Rejects a negative percentage and leaves the record as it was. */
    method SetBarWidthPercentage(size: real) returns (r: Result<Parameters, IllegalArgumentException>)
      modifies this`barWidthPercentage
      ensures size < 0.0 ==> r == Failure(IllegalArgumentException("barWidthPercentage")) && Current() == old(Current())
      ensures size >= 0.0 ==> r == Success(this) && GetBarWidthPercentage() == size
      ensures size >= 0.0 ==> Current() == old(Current()).(barWidthPercentage := size)
      ensures NonNegativeSizes(old(Current())) ==> NonNegativeSizes(Current())
    {
      var thrown := GtEqThanZero("barWidthPercentage", size);
      if thrown.Some? {
        return Failure(thrown.value);
      }
      barWidthPercentage := size;
      r := Success(this);
    }

    /** Rejects a negative dash size; a dash size of 0 means the dash is not
        painted. */
    method SetDashSize(size: int32) returns (r: Result<Parameters, IllegalArgumentException>)
      modifies this`dashSize
      ensures size < 0 ==> r == Failure(IllegalArgumentException("dash size")) && Current() == old(Current())
      ensures size >= 0 ==> r == Success(this) && GetDashSize() == size
      ensures size >= 0 ==> Current() == old(Current()).(dashSize := size)
      ensures NonNegativeSizes(old(Current())) ==> NonNegativeSizes(Current())
    {
      var thrown := GtEqThanZero("dash size", size as real);
      if thrown.Some? {
        return Failure(thrown.value);
      }
      dashSize := size;
      r := Success(this);
    }

    method SetDrawBars(state: bool) returns (self: Parameters)
      modifies this`drawBars
      ensures self == this && IsDrawBars() == state
      ensures Current() == old(Current()).(drawBars := state)
    {
      drawBars := state;
      self := this;
    }

    method SetDrawBubbles(state: bool) returns (self: Parameters)
      modifies this`drawBubbles
      ensures self == this && IsDrawBubbles() == state
      ensures Current() == old(Current()).(drawBubbles := state)
    {
      drawBubbles := state;
      self := this;
    }

    /** The one setter that returns nothing. */
    method SetDrawChartDataSets(state: bool)
      modifies this`drawChartDataSets
      ensures IsDrawChartDataSets() == state
      ensures Current() == old(Current()).(drawChartDataSets := state)
    {
      drawChartDataSets := state;
    }

    method SetDrawMarker(state: bool) returns (self: Parameters)
      modifies this`drawMarker
      ensures self == this && IsDrawMarker() == state
      ensures Current() == old(Current()).(drawMarker := state)
    {
      drawMarker := state;
      self := this;
    }

    method SetDynamicBarWidth(state: bool) returns (self: Parameters)
      modifies this`dynamicBarWidth
      ensures self == this && IsDynamicBarWidth() == state
      ensures Current() == old(Current()).(dynamicBarWidth := state)
    {
      dynamicBarWidth := state;
      self := this;
    }

    method SetErrorType(style: ErrorStyle) returns (self: Parameters)
      modifies this`errorStyle
      ensures self == this && GetErrorType() == style
      ensures Current() == old(Current()).(errorStyle := style)
    {
      errorStyle := style;
      self := this;
    }

    /** Stores any value, negative ones included. */
    method SetIntensityFading(size: real) returns (self: Parameters)
      modifies this`intensityFading
      ensures self == this && GetIntensityFading() == size
      ensures Current() == old(Current()).(intensityFading := size)
      ensures NonNegativeSizes(old(Current())) ==> NonNegativeSizes(Current())
    {
      intensityFading := size;
      self := this;
    }

    /** Rejects a negative marker size and leaves the record as it was. */
    method SetMarkerSize(size: real) returns (r: Result<Parameters, IllegalArgumentException>)
      modifies this`markerSize
      ensures size < 0.0 ==> r == Failure(IllegalArgumentException("marker size ")) && Current() == old(Current())
      ensures size >= 0.0 ==> r == Success(this) && GetMarkerSize() == size
      ensures size >= 0.0 ==> Current() == old(Current()).(markerSize := size)
      ensures NonNegativeSizes(old(Current())) ==> NonNegativeSizes(Current())
    {
      var thrown := GtEqThanZero("marker size ", size);
      if thrown.Some? {
        return Failure(thrown.value);
      }
      markerSize := size;
      r := Success(this);
    }

    method SetPolyLineStyle(style: LineStyle) returns (self: Parameters)
      modifies this`polyLineStyle
      ensures self == this && GetPolyLineStyle() == style
      ensures Current() == old(Current()).(polyLineStyle := style)
    {
      polyLineStyle := style;
      self := this;
    }

    /** A missing algorithm (null) installs a new DefaultDataReducer; any
        other is stored as given. */
    method SetRendererDataReducer(algorithm: Option<DataReducer>) returns (self: Parameters)
      modifies this`rendererDataReducer
      ensures self == this
      ensures algorithm.None? ==> GetRendererDataReducer() == DefaultDataReducer
      ensures algorithm.Some? ==> GetRendererDataReducer() == algorithm.value
      ensures Current() == old(Current()).(rendererDataReducer := GetRendererDataReducer())
    {
      if algorithm.None? {
        rendererDataReducer := DefaultDataReducer;
      } else {
        rendererDataReducer := algorithm.value;
      }
      self := this;
    }

    method SetShiftBar(state: bool) returns (self: Parameters)
      modifies this`shiftBar
      ensures self == this && IsShiftBar() == state
      ensures Current() == old(Current()).(shiftBar := state)
    {
      shiftBar := state;
      self := this;
    }

    /** setshiftBarOffset: rejects a negative offset and leaves the record as
        it was. */
    method SetShiftBarOffset(offset: int32) returns (r: Result<Parameters, IllegalArgumentException>)
      modifies this`shiftBarOffset
      ensures offset < 0 ==> r == Failure(IllegalArgumentException("shiftBarOffset")) && Current() == old(Current())
      ensures offset >= 0 ==> r == Success(this) && GetShiftBarOffset() == offset
      ensures offset >= 0 ==> Current() == old(Current()).(shiftBarOffset := offset)
      ensures NonNegativeSizes(old(Current())) ==> NonNegativeSizes(Current())
    {
      var thrown := GtEqThanZero("shiftBarOffset", offset as real);
      if thrown.Some? {
        return Failure(thrown.value);
      }
      shiftBarOffset := offset;
      r := Success(this);
    }
  }

  /** A chain of fluent calls on a new record: a rejected negative bar width
      leaves the default in place, an accepted dash size of 0 is stored, a
      missing reducer falls back to the default one, and every setting the
      chain does not touch keeps its default. */
  method FluentChainScenario() returns (settings: Settings, rejected: bool)
    ensures rejected
    ensures settings == Defaults.(dashSize := 0, drawBars := true, rendererDataReducer := DefaultDataReducer)
    ensures settings.barWidth == 5
  {
    var p := new Parameters();
    var q := p.SetDrawBars(true);
    var r := q.SetBarWidth(-1);
    rejected := r.Failure?;
    var s := q.SetDashSize(0);
    var t := s.value.SetRendererDataReducer(None);
    settings := t.Current();
  }
}
