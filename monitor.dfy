/**
 * One iteration of the firmware's main loop: take the sensor values,
 * apply the calibration offsets, store the readings, run the alert
 * cascade and drive the matrix. The sensor drivers, the buzzer, the
 * status LED and the delays are outside the model: the sensor values
 * are parameters, and the tone and LED are the returned decision.
 */
module Monitor {
  import opened Common
  import opened Config
  import opened Alerts
  import Matrix

  /** What a successful AHT20 read leaves in the loop's `data` variable. */
  datatype AhtData = AhtData(temperature: real, humidity: real)

  /** One BMP280 conversion: temperature in hundredths of a degree Celsius, pressure in pascals. */
  datatype BmpSample = BmpSample(temperatureCenti: int, pressurePa: int)

  /**
   * The reading globals after one iteration: raw values plus offsets. With
   * zero offsets the readings are the sensor values; whatever the offsets,
   * the two temperature readings differ by what the sensors measured, since
   * one offset corrects both.
   */
  function Calibrate(bmp: BmpSample, aht: AhtData, o: Offsets): (r: Readings)
    ensures o == ZeroOffsets ==>
              r == Readings(aht.temperature, aht.humidity, bmp.temperatureCenti as real / 100.0, bmp.pressurePa as real)
    ensures r.bmpTemperature - r.ahtTemperature == bmp.temperatureCenti as real / 100.0 - aht.temperature
  {
    Readings(
      aht.temperature + o.temp,
      aht.humidity + o.humidity,
      bmp.temperatureCenti as real / 100.0 + o.temp,
      bmp.pressurePa as real + o.pressure)
  }

  /** The temperature offset moves both temperature readings; the others move only their own quantity. */
  lemma OffsetsShiftReadings(bmp: BmpSample, aht: AhtData, o: Offsets, o': Offsets)
    ensures var r, r' := Calibrate(bmp, aht, o), Calibrate(bmp, aht, o');
            && r'.ahtTemperature - r.ahtTemperature == o'.temp - o.temp
            && r'.bmpTemperature - r.bmpTemperature == o'.temp - o.temp
            && r'.ahtHumidity - r.ahtHumidity == o'.humidity - o.humidity
            && r'.bmpPressure - r.bmpPressure == o'.pressure - o.pressure
  {
  }

  /** The words pushed to the matrix for a sequence of `set_one_led` calls with the filled drawing. */
  function Frames(writes: seq<Rgb>): seq<bv32> {
    if writes == [] then []
    else Matrix.Frame(writes[0].r, writes[0].g, writes[0].b, Matrix.Filled()) + Frames(writes[1..])
  }

  /** The words of consecutive `set_one_led` calls follow each other. */
  lemma {:induction false} FramesAppend(a: seq<Rgb>, b: seq<Rgb>)
    ensures Frames(a + b) == Frames(a) + Frames(b)
  {
    if a != [] {
      assert (a + b)[1..] == a[1..] + b;
      FramesAppend(a[1..], b);
    } else {
      assert a + b == b;
    }
  }

  /** Every `set_one_led` call with the filled drawing pushes exactly one frame of 25 words. */
  lemma {:induction false} FramesLength(writes: seq<Rgb>)
    ensures |Frames(writes)| == Matrix.LedCount * |writes|
  {
    if writes != [] {
      FramesLength(writes[1..]);
    }
  }

  /**
   * The alert block of the main loop (the cascade, the repeated
   * pressure-and-humidity check, and the quiet branch), given the stored
   * readings, limits and gate. `drawing` is `matriz_preenchida`.
   */
  method DriveAlerts(readings: Readings, limits: Limits, alertsEnabled: bool, drawing: array<bool>)
      returns (decision: AlertDecision, words: seq<bv32>)
    requires drawing[..] == Matrix.Filled()
    ensures decision == Evaluate(readings, limits, alertsEnabled)
    ensures words == Frames(MatrixWrites(readings, limits, alertsEnabled))
  {
    ghost var issued: seq<Rgb> := [];
    if alertsEnabled {
      var flags := Flags(readings, limits);
      var category := Classify(flags);
      var active := false;
      words := [];
      if category != Nominal {
        var c := CategoryColour(category);
        words := Matrix.SetOneLed(c.r, c.g, c.b, drawing);
        issued := [c];
        active := true;
      }
      assert words == Frames(issued);
      if flags.pressure && flags.humidity {
        var c := CategoryColour(PressureHumidity);
        var again := Matrix.SetOneLed(c.r, c.g, c.b, drawing);
        FramesAppend(issued, [c]);
        words, issued := words + again, issued + [c];
        active := true;
      }
      if active {
        decision := AlertDecision(true, Red, CategoryColour(category));
      } else {
        var dark := Matrix.SetOneLed(0, 0, 0, drawing);
        FramesAppend(issued, [Off]);
        words, issued := words + dark, issued + [Off];
        decision := AlertDecision(false, Green, Off);
      }
    } else {
      words := Matrix.SetOneLed(0, 0, 0, drawing);
      issued := [Off];
      decision := AlertDecision(false, Green, Off);
    }
    assert issued == MatrixWrites(readings, limits, alertsEnabled);
  }

  /**
   * One pass of the main loop. `ahtRead` is None when the AHT20 read
   * failed; the loop then keeps the `data` of the last successful read.
   * `drawing` is `matriz_preenchida`.
   */
  method LoopIteration(store: Store, bmp: BmpSample, ahtRead: Option<AhtData>, data: AhtData, drawing: array<bool>)
      returns (data': AhtData, decision: AlertDecision, words: seq<bv32>)
    requires store.Valid()
    requires drawing[..] == Matrix.Filled()
    modifies store`ahtTemperature, store`ahtHumidity, store`bmpTemperature, store`bmpPressure
    ensures store.Valid()
    ensures data' == if ahtRead.Some? then ahtRead.value else data
    ensures store.CurrentSettings() == old(store.CurrentSettings())
    ensures store.CurrentReadings() == Calibrate(bmp, data', store.CurrentOffsets())
    ensures decision == Evaluate(store.CurrentReadings(), store.CurrentLimits(), store.alertsEnabled)
    ensures words == Frames(MatrixWrites(store.CurrentReadings(), store.CurrentLimits(), store.alertsEnabled))
  {
    store.bmpTemperature := bmp.temperatureCenti as real / 100.0;
    store.bmpPressure := bmp.pressurePa as real;
    store.bmpTemperature := store.bmpTemperature + store.tempOffset;
    store.bmpPressure := store.bmpPressure + store.pressureOffset;

    data' := if ahtRead.Some? then ahtRead.value else data;
    store.ahtTemperature := data'.temperature;
    store.ahtHumidity := data'.humidity;
    store.ahtTemperature := store.ahtTemperature + store.tempOffset;
    store.ahtHumidity := store.ahtHumidity + store.humidityOffset;

    decision, words := DriveAlerts(store.CurrentReadings(), store.CurrentLimits(), store.alertsEnabled, drawing);
  }
}
