/**
 * The shared vocabulary of the firmware: sensor kinds, sample channels, the
 * drained data record and the health-status scale (sensor.h, analyzer.h).
 * Enumerations stay numbers, as in the C++ source, where they are cast from
 * loop counters and printed with %d.
 */
module SensorTypes {

  /** Capacity of every per-channel sample buffer. */
  const MAX_BUFFER_SIZE: nat := 10

  /** Number of sensor kinds (sensor_t): OXIMETER = 0, ACCELEROMETER = 1. */
  const SENSOR_TYPE_QTT: nat := 2
  type SensorType = n: nat | n < SENSOR_TYPE_QTT
  const SENSOR_TYPE_OXIMETER: SensorType := 0
  const SENSOR_TYPE_ACCELEROMETER: SensorType := 1

  /** Number of sample channels (sample_t): SPO2, HEART_RATE, TEMPERATURE, ACCEL. */
  const SAMPLE_TYPE_QTT: nat := 4
  type SampleType = n: nat | n < SAMPLE_TYPE_QTT
  const SAMPLE_TYPE_SPO2: SampleType := 0
  const SAMPLE_TYPE_HEART_RATE: SampleType := 1
  const SAMPLE_TYPE_TEMPERATURE: SampleType := 2
  const SAMPLE_TYPE_ACCEL: SampleType := 3

  /** The five-level health scale (healthStatus_t). */
  type HealthStatus = n: nat | n < 5
  const HEALTH_STATUS_CRITICAL_LOW: HealthStatus := 0
  const HEALTH_STATUS_LOW: HealthStatus := 1
  const HEALTH_STATUS_NORMAL: HealthStatus := 2
  const HEALTH_STATUS_HIGH: HealthStatus := 3
  const HEALTH_STATUS_CRITICAL_HIGH: HealthStatus := 4

  /** A single-precision reading as the sensor drivers deliver it: a number or NaN. */
  datatype Float = NaN | Num(v: real)

  /**
   * Data_t: the record that getData fills in. In the firmware `data` points at
   * the sensor's own buffer and `size` says how many entries are valid; here
   * `values` is that prefix, copied.
   */
  datatype Data = Data(timestamp: nat, values: seq<real>, sampleType: SampleType)
}
