/**
 * The alert decision the main loop takes every iteration: three
 * out-of-range flags, a fixed first-match cascade that picks one matrix
 * colour, and the alerts gate that forces the quiet state.
 */
module Alerts {
  import opened Config

  datatype Rgb = Rgb(r: bv8, g: bv8, b: bv8)

  /** The quantities the monitor checks. */
  datatype Quantity = Temperature | Humidity | Pressure

  /** Which branch of the cascade fired; Nominal when none did. */
  datatype Category =
    | PressureHumidity
    | HumidityTemperature
    | TemperaturePressure
    | HumidityOnly
    | PressureOnly
    | TemperatureOnly
    | Nominal

  datatype StatusLed = Red | Green

  /** One iteration's outcome: whether the alert fires (red LED and a tone), and the colour left on the matrix. */
  datatype AlertDecision = AlertDecision(active: bool, led: StatusLed, matrix: Rgb)

  const Off := Rgb(0, 0, 0)

  /** Out of range is strict on both sides: the limits themselves are in range. */
  predicate OutOfRange(x: real, lo: real, hi: real) {
    x < lo || x > hi
  }

  datatype OutFlags = OutFlags(temperature: bool, humidity: bool, pressure: bool)

  /**
   * Temperature and humidity come from the AHT20, pressure from the BMP280;
   * a quantity is flagged exactly when its reading lies outside its closed
   * range.
   */
  function Flags(r: Readings, l: Limits): (f: OutFlags)
    ensures Temperature in OutSet(f) <==> !(l.tempMin <= r.ahtTemperature <= l.tempMax)
    ensures Humidity in OutSet(f) <==> !(l.humidityMin <= r.ahtHumidity <= l.humidityMax)
    ensures Pressure in OutSet(f) <==> !(l.pressureMin <= r.bmpPressure <= l.pressureMax)
  {
    OutFlags(
      OutOfRange(r.ahtTemperature, l.tempMin, l.tempMax),
      OutOfRange(r.ahtHumidity, l.humidityMin, l.humidityMax),
      OutOfRange(r.bmpPressure, l.pressureMin, l.pressureMax))
  }

  /**
   * The cascade: compound conditions first, first match wins. It reports
   * exactly the out-of-range quantities, except when all three are out:
   * then it reports pressure and humidity only.
   */
  function Classify(f: OutFlags): (c: Category)
    ensures Reported(c) <= OutSet(f)
    ensures !(f.temperature && f.humidity && f.pressure) ==> Reported(c) == OutSet(f)
    ensures f.temperature && f.humidity && f.pressure ==> c == PressureHumidity
    ensures c == Nominal <==> OutSet(f) == {}
  {
    if f.pressure && f.humidity then PressureHumidity
    else if f.humidity && f.temperature then HumidityTemperature
    else if f.temperature && f.pressure then TemperaturePressure
    else if f.humidity then HumidityOnly
    else if f.pressure then PressureOnly
    else if f.temperature then TemperatureOnly
    else Nominal
  }

  /** The colour each branch gives to `set_one_led`; only Nominal leaves the matrix dark. */
  function CategoryColour(c: Category): (colour: Rgb)
    ensures colour == Off <==> c == Nominal
    ensures colour.r in {0, 125} && colour.g in {0, 125} && colour.b in {0, 125}
  {
    match c
    case PressureHumidity => Rgb(0, 125, 0)
    case HumidityTemperature => Rgb(125, 0, 125)
    case TemperaturePressure => Rgb(125, 125, 125)
    case HumidityOnly => Rgb(0, 0, 125)
    case PressureOnly => Rgb(125, 125, 0)
    case TemperatureOnly => Rgb(125, 0, 0)
    case Nominal => Off
  }

  /** The quantities a category reports as out of range. */
  function Reported(c: Category): set<Quantity> {
    match c
    case PressureHumidity => {Pressure, Humidity}
    case HumidityTemperature => {Humidity, Temperature}
    case TemperaturePressure => {Temperature, Pressure}
    case HumidityOnly => {Humidity}
    case PressureOnly => {Pressure}
    case TemperatureOnly => {Temperature}
    case Nominal => {}
  }

  /** The quantities that are out of range. */
  function OutSet(f: OutFlags): set<Quantity> {
    (if f.temperature then {Temperature} else {})
    + (if f.humidity then {Humidity} else {})
    + (if f.pressure then {Pressure} else {})
  }

  /** A category is determined by the quantities it reports. */
  lemma ReportedInjective(c: Category, c': Category)
    requires Reported(c) == Reported(c')
    ensures c == c'
  {
  }

  /** Each category lights a colour of its own. */
  lemma ColourIdentifiesCategory(c: Category, c': Category)
    requires CategoryColour(c) == CategoryColour(c')
    ensures c == c'
  {
  }

  /** The decision the main loop takes; readings already carry their offsets. */
  function Evaluate(r: Readings, l: Limits, alertsEnabled: bool): (d: AlertDecision)
    ensures d.active <==> d.led == Red
    ensures d.active <==> d.matrix != Off
    ensures d.active <==> alertsEnabled && OutSet(Flags(r, l)) != {}
  {
    if !alertsEnabled then AlertDecision(false, Green, Off)
    else
      var c := Classify(Flags(r, l));
      if c != Nominal then AlertDecision(true, Red, CategoryColour(c))
      else AlertDecision(false, Green, Off)
  }

  /** With alerts disabled nothing fires, however far the readings are out of range. */
  lemma DisabledIsQuiet(r: Readings, l: Limits)
    ensures Evaluate(r, l, false) == AlertDecision(false, Green, Off)
  {
  }

  /** Readings that sit exactly on their limits raise no alert. */
  lemma BoundariesAreInRange(r: Readings, l: Limits, alertsEnabled: bool)
    requires l.tempMin <= l.tempMax && l.humidityMin <= l.humidityMax && l.pressureMin <= l.pressureMax
    requires r.ahtTemperature == l.tempMin || r.ahtTemperature == l.tempMax
    requires r.ahtHumidity == l.humidityMin || r.ahtHumidity == l.humidityMax
    requires r.bmpPressure == l.pressureMin || r.bmpPressure == l.pressureMax
    ensures !Evaluate(r, l, alertsEnabled).active
  {
  }

  /** With alerts enabled, the matrix shows the colour of the category the cascade picks. */
  lemma EnabledShowsCategory(r: Readings, l: Limits)
    ensures Evaluate(r, l, true).matrix == CategoryColour(Classify(Flags(r, l)))
  {
  }

  /**
   * The `set_one_led` colours one enabled iteration issues, in order: the
   * cascade's colour (if any), the repeated pressure-and-humidity check,
   * and black when nothing fired. A disabled iteration issues black only.
   * The repeated check never changes the outcome: every colour written is
   * the decision's colour, so the matrix ends up showing it.
   */
  function MatrixWrites(r: Readings, l: Limits, alertsEnabled: bool): (writes: seq<Rgb>)
    ensures 1 <= |writes| <= 2
    ensures forall i :: 0 <= i < |writes| ==> writes[i] == Evaluate(r, l, alertsEnabled).matrix
  {
    if !alertsEnabled then [Off]
    else
      var f := Flags(r, l);
      var c := Classify(f);
      var first := if c != Nominal then [CategoryColour(c)] else [];
      var recheck := if f.pressure && f.humidity then [CategoryColour(PressureHumidity)] else [];
      var active := c != Nominal || (f.pressure && f.humidity);
      first + recheck + (if active then [] else [Off])
  }
}
