/** Concrete cases of the model on small hub answers. */
module GardenScenarios {
  import opened Wrappers
  import opened Strings
  import opened Ints
  import opened Decimal
  import opened Mappings
  import opened Selection
  import opened GardenApi

  /**
   * The hub reports 25.02 °C as 2502; one- and two-digit values pass through.
   * The digits kept do not depend on the magnitude: 9.50 °C (950) shows as 95
   * and a humidity of 100.00 % (10000) as 10.
   */
  lemma TrimTempExamples()
    ensures TrimTemp(2502) == 25
    ensures TrimTemp(2701) == 27
    ensures TrimTemp(999) == 99
    ensures TrimTemp(42) == 42
    ensures TrimTemp(5) == 5
    ensures TrimTemp(0) == 0
    ensures TrimTemp(U32_MAX) == 42
    ensures TrimTemp(950) == 95
    ensures TrimTemp(10000) == 10
  {
  }

  function TypedSensor(t: string, st: SensorState): Sensor {
    Sensor(Some(t), "", SensorConfig(true, None, None), st)
  }

  const NoReadings := SensorState(None, None, None, None, None)

  /** Two sensors of the same type: the one iterated last is the one kept. */
  lemma DuplicateTypeExample()
    ensures LastMatch([("1", TypedSensor("ZHATemperature", NoReadings)),
                       ("2", TypedSensor("ZHATemperature", NoReadings))], OfCategory(Temperature)) == Some("2")
  {
    ContainsInContext("ZHA", "Temperature", "");
    assert HasCategory(TypedSensor("ZHATemperature", NoReadings), Temperature);
  }

  /** A sensor without a `type` is skipped even when its reading is present. */
  lemma UntypedSensorExample()
    ensures LastMatch([("1", Sensor(None, "Temperature", SensorConfig(true, None, None),
                                    SensorState(None, Some(2502), None, None, None)))],
                      OfCategory(Temperature)) == None
  {
  }

  /** The URL of a single-sensor request. */
  lemma SensorUrlExample()
    ensures RequestUrl(AppConfig("http://hub", "KEY"), SensorPath("7")) == "http://hub/api/KEY/sensors/7"
  {
  }

  const Config := AppConfig("http://hub", "KEY")

  const Thermometer := TypedSensor("ZHATemperature", SensorState(None, Some(2701), None, None, None))

  const GardenLights := Group("5", "Garden lights", GroupState(false, false), GroupAction(false, None))

  /**
   * A hub with one temperature sensor reading 2701 and one Garden group; it
   * answers every sensor request with that sensor.
   */
  function SmallHub(): Hub {
    Hub(_ => Ok([("1", Thermometer)]), (_, _) => Ok(Thermometer), _ => Ok([("5", GardenLights)]))
  }

  /** "ZHATemperature" holds the temperature pattern and none of the other three. */
  lemma ThermometerCategory(c: Category)
    ensures HasCategory(Thermometer, c) <==> c == Temperature
  {
    match c
    case Temperature => ContainsInContext("ZHA", "Temperature", "");
    case LightLevel => NotContainsForeignChar("ZHATemperature", "LightLevel", 0);
    case Humidity => NotContainsForeignChar("ZHATemperature", "Humidity", 4);
    case Pressure => NotContainsForeignChar("ZHATemperature", "Pressure", 0);
  }

  /** Discovery over the small hub's listing finds the thermometer and nothing else. */
  lemma SmallHubDiscovery(c: Category)
    ensures LastMatch([("1", Thermometer)], OfCategory(c)) == if c == Temperature then Some("1") else None
  {
    ThermometerCategory(c);
  }

  /** The four category blocks against the small hub: one Read of 27, three skips. */
  lemma SmallHubPlan()
    ensures Plan(Config, SmallHub(), [("1", Thermometer)]) == SmallHubPlanSteps
  {
    var hub := SmallHub();
    var listing := [("1", Thermometer)];
    SmallHubDiscovery(Temperature);
    SmallHubDiscovery(LightLevel);
    SmallHubDiscovery(Humidity);
    SmallHubDiscovery(Pressure);
    assert TrimTemp(2701) == 27 by { TrimTempExamples(); }
    assert Extract(Thermometer, Temperature) == Ok(27);
    assert StepFor(Config, hub, listing, Temperature) == Read(27);
  }

  const SmallHubPlanSteps: seq<(Category, Step)> :=
    [(Temperature, Read(27)), (LightLevel, Skipped), (Humidity, Skipped), (Pressure, Skipped)]

  /** The group listing resolves to "5", and the steps print only the temperature. */
  lemma SmallHubCollect()
    ensures Collect(SmallHubPlanSteps, [], Ok([("5", GardenLights)])) == Finished([(Temperature, 27)], Some("5"))
  {
  }

  /**
   * The temperature block prints 27 before the group listing is asked for, so
   * a failed group listing still leaves that reading printed.
   */
  lemma SmallHubGroupsFail()
    ensures Collect(SmallHubPlanSteps, [], Err(Transport)) == Failed(Transport, [(Temperature, 27)])
  {
  }

  /** One pass against that hub prints a temperature of 27 and resolves group "5". */
  lemma SmallHubCycle()
    ensures Cycle(Config, SmallHub()) == Finished([(Temperature, 27)], Some("5"))
  {
    SmallHubPlan();
    SmallHubCollect();
  }
}
