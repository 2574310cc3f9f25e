/**
 * The records the hub's sensor and group listings are decoded into
 * (src/mappings/sensor.rs and src/mappings/group.rs). They carry no behaviour.
 */
module Mappings {
  import opened Wrappers
  import opened Ints

  /** `sensor::Config`. */
  datatype SensorConfig = SensorConfig(on: bool, reachable: Option<bool>, battery: Option<U32>)

  /** `sensor::State`: each reading is present only for sensors that report it. */
  datatype SensorState = SensorState(
    lastUpdated: Option<string>,
    temperature: Option<U32>,
    lux: Option<U32>,
    humidity: Option<U32>,
    pressure: Option<U32>)

  /** `sensor::Sensor`; the hub may leave out `type`, which Rust spells `r#type`. */
  datatype Sensor = Sensor(sensorType: Option<string>, name: string, config: SensorConfig, state: SensorState)

  /** `group::GroupState`. */
  datatype GroupState = GroupState(allOn: bool, anyOn: bool)

  /** `group::GroupAction`. */
  datatype GroupAction = GroupAction(on: bool, toggle: Option<bool>)

  /** `group::Group`. */
  datatype Group = Group(id: string, name: string, state: GroupState, action: GroupAction)
}
