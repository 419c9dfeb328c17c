/**
 * The self-driving pulse/oxygen sensor (oximeter.h, oximeter.cpp). Its own
 * task runs UpdateInternal: the vendor algorithm turns a window of raw
 * samples into a heart-rate and an SpO2 estimate with a validity flag each,
 * and the estimates (plus the die temperature) are committed to the three
 * buffers only when both flags are valid. The orchestrator's Update is a
 * no-op; getData drains one channel at a time.
 *
 * The sensor driver, the estimation algorithm, task creation, the mutex and
 * the clock are outside the model: their results are parameters.
 */
module Oximeters {
  import opened SensorTypes
  import opened SampleBuffers

  /** int8_t validity flags and the int32_t heart-rate estimate. */
  type Int8 = x: int | -128 <= x < 128
  type Int32 = x: int | -0x8000_0000 <= x < 0x8000_0000

  class Oximeter {
    const sensorType: SensorType
    /** dataMutex != nullptr */
    const hasMutex: bool

    const bufferSpo2: array<real>
    const bufferHeartRate: array<real>
    const bufferTemperature: array<real>
    var sizeSpo2: nat
    var sizeHeartRate: nat
    var sizeTemperature: nat

    var spo2Valid: Int8
    var heartRateValid: Int8
    var spo2: real
    var heartRate: Int32

    /** taskHandle != nullptr */
    var hasTask: bool
    var taskRunning: bool

    ghost predicate Valid()
      reads this
    {
      bufferSpo2.Length == MAX_BUFFER_SIZE && bufferHeartRate.Length == MAX_BUFFER_SIZE &&
      bufferTemperature.Length == MAX_BUFFER_SIZE &&
      sizeSpo2 <= MAX_BUFFER_SIZE && sizeHeartRate <= MAX_BUFFER_SIZE &&
      sizeTemperature <= MAX_BUFFER_SIZE &&
      bufferSpo2 != bufferHeartRate && bufferSpo2 != bufferTemperature &&
      bufferHeartRate != bufferTemperature &&
      (taskRunning <==> hasTask)
    }

    /** The buffered readings of a sample channel, oldest first; ACCEL is not produced here. */
    ghost function Channel(s: SampleType): seq<real>
      reads this, bufferSpo2, bufferHeartRate, bufferTemperature
      requires Valid()
    {
      if s == SAMPLE_TYPE_SPO2 then bufferSpo2[..sizeSpo2]
      else if s == SAMPLE_TYPE_HEART_RATE then bufferHeartRate[..sizeHeartRate]
      else if s == SAMPLE_TYPE_TEMPERATURE then bufferTemperature[..sizeTemperature]
      else []
    }

    /** is_valid: both the heart-rate and the SpO2 estimate of the last window are valid. */
    predicate IsValid()
      reads this
    {
      heartRateValid != 0 && spo2Valid != 0
    }

    /** The sensor handshake and LED setup are left out. */
    constructor (mutexCreated: bool)
      ensures Valid()
      ensures sensorType == SENSOR_TYPE_OXIMETER && hasMutex == mutexCreated
      ensures sizeSpo2 == 0 && sizeHeartRate == 0 && sizeTemperature == 0
      ensures spo2Valid == 0 && heartRateValid == 0 && !IsValid()
      ensures !hasTask && !taskRunning
      ensures fresh(bufferSpo2) && fresh(bufferHeartRate) && fresh(bufferTemperature)
    {
      sensorType := SENSOR_TYPE_OXIMETER;
      hasMutex := mutexCreated;
      bufferSpo2 := new real[MAX_BUFFER_SIZE];
      bufferHeartRate := new real[MAX_BUFFER_SIZE];
      bufferTemperature := new real[MAX_BUFFER_SIZE];
      sizeSpo2, sizeHeartRate, sizeTemperature := 0, 0, 0;
      spo2Valid, heartRateValid := 0, 0;
      spo2, heartRate := 0.0, 0;
      hasTask, taskRunning := false, false;
    }

    /**
     * UpdateInternal, from the point where the estimation algorithm has
     * produced its outputs: the estimates and flags are always stored; the
     * buffers take one value each (with shift-on-full eviction) only when both
     * flags are valid and the lock is obtained.
     */
    method UpdateInternal(newSpo2: real, newSpo2Valid: Int8, newHeartRate: Int32, newHeartRateValid: Int8,
                          temperature: real, lockAcquired: bool)
      requires Valid()
      modifies this, bufferSpo2, bufferHeartRate, bufferTemperature
      ensures Valid()
      ensures spo2 == newSpo2 && spo2Valid == newSpo2Valid
      ensures heartRate == newHeartRate && heartRateValid == newHeartRateValid
      ensures hasTask == old(hasTask) && taskRunning == old(taskRunning)
      ensures if IsValid() && lockAcquired then
                Channel(SAMPLE_TYPE_SPO2) == Pushed(old(Channel(SAMPLE_TYPE_SPO2)), newSpo2) &&
                Channel(SAMPLE_TYPE_HEART_RATE) == Pushed(old(Channel(SAMPLE_TYPE_HEART_RATE)), newHeartRate as real) &&
                Channel(SAMPLE_TYPE_TEMPERATURE) == Pushed(old(Channel(SAMPLE_TYPE_TEMPERATURE)), temperature)
              else
                sizeSpo2 == old(sizeSpo2) && sizeHeartRate == old(sizeHeartRate) &&
                sizeTemperature == old(sizeTemperature) &&
                unchanged(bufferSpo2, bufferHeartRate, bufferTemperature)
    {
      spo2, spo2Valid := newSpo2, newSpo2Valid;
      heartRate, heartRateValid := newHeartRate, newHeartRateValid;
      if IsValid() {
        if lockAcquired {
          sizeSpo2 := PushSample(bufferSpo2, sizeSpo2, spo2);
          sizeHeartRate := PushSample(bufferHeartRate, sizeHeartRate, heartRate as real);
          sizeTemperature := PushSample(bufferTemperature, sizeTemperature, temperature);
        }
      }
    }

    /** Update: deprecated and empty; it has no modifies clause, so it changes nothing. */
    method Update()
      requires Valid()
      ensures Valid()
    {
    }

    /**
     * getData: refused while the last window was invalid (no timestamp is
     * written then). With the lock held, SPO2, HEART_RATE and TEMPERATURE are
     * served from their own buffers; a successful drain resets only that
     * channel's size.
     */
    method GetData(data: Data, lockAcquired: bool, now: nat) returns (ok: bool, result: Data)
      requires Valid()
      modifies this
      ensures Valid()
      ensures ok <==> IsValid() && lockAcquired && old(Channel(data.sampleType)) != []
      ensures ok ==> result == data.(timestamp := now, values := old(Channel(data.sampleType)))
      ensures ok ==> Channel(data.sampleType) == []
      ensures forall s: SampleType :: s != data.sampleType || !ok ==> Channel(s) == old(Channel(s))
      ensures !ok ==> result == if IsValid() && lockAcquired then data.(timestamp := now) else data
      ensures spo2Valid == old(spo2Valid) && heartRateValid == old(heartRateValid)
      ensures hasTask == old(hasTask) && taskRunning == old(taskRunning)
      ensures spo2 == old(spo2) && heartRate == old(heartRate)
    {
      result := data;
      if !IsValid() {
        return false, result;
      }
      if lockAcquired {
        ok := false;
        var s := data.sampleType;
        if s == SAMPLE_TYPE_SPO2 {
          if sizeSpo2 != 0 {
            result := result.(values := bufferSpo2[..sizeSpo2]);
            sizeSpo2 := 0;
            ok := true;
          }
        } else if s == SAMPLE_TYPE_HEART_RATE {
          if sizeHeartRate != 0 {
            result := result.(values := bufferHeartRate[..sizeHeartRate]);
            sizeHeartRate := 0;
            ok := true;
          }
        } else if s == SAMPLE_TYPE_TEMPERATURE {
          if sizeTemperature != 0 {
            result := result.(values := bufferTemperature[..sizeTemperature]);
            sizeTemperature := 0;
            ok := true;
          }
        }
        result := result.(timestamp := now);
        return ok, result;
      }
      return false, result;
    }

    /**
     * StartTask: does nothing when a task already exists or there is no
     * mutex; otherwise the task exists afterwards exactly when its creation
     * succeeded.
     */
    method StartTask(creationSucceeds: bool)
      requires Valid()
      modifies this`hasTask, this`taskRunning
      ensures Valid()
      ensures if !old(hasTask) && hasMutex then hasTask == creationSucceeds
              else hasTask == old(hasTask)
    {
      if !hasTask && hasMutex {
        taskRunning := true;
        if !creationSucceeds {
          taskRunning := false;
          hasTask := false;
        } else {
          hasTask := true;
        }
      }
    }

    /** StopTask: idempotent; afterwards there is no task and it is not running. */
    method StopTask()
      requires Valid()
      modifies this`hasTask, this`taskRunning
      ensures Valid()
      ensures !hasTask && !taskRunning
    {
      if hasTask {
        taskRunning := false;
        hasTask := false;
      }
    }
  }
}
