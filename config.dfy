/**
 * The configuration store: the firmware's `g_*` globals. Readings, limits,
 * offsets, the alerts gate and the page selector are individual fields
 * of one `Store` object that the HTTP handler, the button handler and the
 * main loop update in place. C `float` values are modelled as reals (the
 * core only adds and compares them).
 */
module Config {

  /** Per-quantity thresholds; a value is in range when `min <= x <= max`. */
  datatype Limits = Limits(
    tempMin: real, tempMax: real,
    humidityMin: real, humidityMax: real,
    pressureMin: real, pressureMax: real)

  /** Additive calibration offsets, one per quantity. */
  datatype Offsets = Offsets(temp: real, humidity: real, pressure: real)

  /** The reading globals, offsets already applied. */
  datatype Readings = Readings(
    ahtTemperature: real, ahtHumidity: real,
    bmpTemperature: real, bmpPressure: real)

  /** Everything the HTTP control plane and the buttons can change. */
  datatype Settings = Settings(limits: Limits, offsets: Offsets, alertsEnabled: bool, page: int)

  /** The page selector value that serves the graphs page; any other value serves the limits page. */
  const GraphsPage: int := 0
  const LimitsPage: int := 1

  const DefaultLimits := Limits(18.0, 30.0, 40.0, 85.0, 98000.0, 102000.0)
  const ZeroOffsets := Offsets(0.0, 0.0, 0.0)
  const DefaultSettings := Settings(DefaultLimits, ZeroOffsets, true, GraphsPage)
  const InitialReadings := Readings(0.0, 0.0, 0.0, 0.0)

  /** The check `set_limits` applies before it accepts new limits: every min strictly below its max. */
  predicate ValidRange(l: Limits) {
    l.tempMin < l.tempMax && l.humidityMin < l.humidityMax && l.pressureMin < l.pressureMax
  }

  /** The boot-time limits pass the same check. */
  lemma DefaultLimitsValid()
    ensures ValidRange(DefaultSettings.limits)
  {
  }

  class Store {
    var ahtTemperature: real
    var ahtHumidity: real
    var bmpTemperature: real
    var bmpPressure: real

    var tempMinLimit: real
    var tempMaxLimit: real
    var humidityMinLimit: real
    var humidityMaxLimit: real
    var pressureMinLimit: real
    var pressureMaxLimit: real

    var tempOffset: real
    var humidityOffset: real
    var pressureOffset: real

    var alertsEnabled: bool
    var currentPage: int

    /** The page selector only ever holds one of the two page numbers. */
    ghost predicate Valid()
      reads this
    {
      currentPage == GraphsPage || currentPage == LimitsPage
    }

    function CurrentLimits(): Limits
      reads this
    {
      Limits(tempMinLimit, tempMaxLimit, humidityMinLimit, humidityMaxLimit, pressureMinLimit, pressureMaxLimit)
    }

    function CurrentOffsets(): Offsets
      reads this
    {
      Offsets(tempOffset, humidityOffset, pressureOffset)
    }

    function CurrentSettings(): Settings
      reads this
    {
      Settings(CurrentLimits(), CurrentOffsets(), alertsEnabled, currentPage)
    }

    function CurrentReadings(): Readings
      reads this
    {
      Readings(ahtTemperature, ahtHumidity, bmpTemperature, bmpPressure)
    }

    /** The globals' initialisers. */
    constructor ()
      ensures Valid()
      ensures CurrentSettings() == DefaultSettings
      ensures CurrentReadings() == InitialReadings
    {
      ahtTemperature, ahtHumidity, bmpTemperature, bmpPressure := 0.0, 0.0, 0.0, 0.0;
      tempMinLimit, tempMaxLimit := 18.0, 30.0;
      humidityMinLimit, humidityMaxLimit := 40.0, 85.0;
      pressureMinLimit, pressureMaxLimit := 98000.0, 102000.0;
      tempOffset, humidityOffset, pressureOffset := 0.0, 0.0, 0.0;
      alertsEnabled := true;
      currentPage := GraphsPage;
    }

    /** The writes `set_limits` performs once the new limits pass the range check, one field at a time. */
    method WriteLimits(l: Limits, alertsOn: bool)
      modifies this
      ensures CurrentSettings() == old(CurrentSettings()).(limits := l, alertsEnabled := alertsOn)
      ensures CurrentReadings() == old(CurrentReadings())
    {
      tempMinLimit := l.tempMin;
      tempMaxLimit := l.tempMax;
      humidityMinLimit := l.humidityMin;
      humidityMaxLimit := l.humidityMax;
      pressureMinLimit := l.pressureMin;
      pressureMaxLimit := l.pressureMax;
      alertsEnabled := alertsOn;
    }

    /** The writes `set_offsets` performs, one field at a time. */
    method WriteOffsets(o: Offsets)
      modifies this
      ensures CurrentSettings() == old(CurrentSettings()).(offsets := o)
      ensures CurrentReadings() == old(CurrentReadings())
    {
      tempOffset := o.temp;
      humidityOffset := o.humidity;
      pressureOffset := o.pressure;
    }
  }
}
