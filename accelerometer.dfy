/**
 * The motion sensor (accelerometer.cpp): four sample buffers (x, y, z and
 * the magnitude of the acceleration vector), filled once per collection tick
 * and drained through the magnitude channel only.
 *
 * The IMU driver, the FreeRTOS mutex and the clock are outside the model:
 * the calibrated reading, whether the mutex was created, whether a lock
 * attempt succeeds and the current time in milliseconds are parameters.
 * sqrtf of the sum of squares is the parameter `norm`.
 */
module Accelerometers {
  import opened SensorTypes
  import opened SampleBuffers

  class Accelerometer {
    const sensorType: SensorType
    /** dataMutex != nullptr */
    const hasMutex: bool

    const bufferX: array<real>
    const bufferY: array<real>
    const bufferZ: array<real>
    const bufferMagnitude: array<real>
    var sizeX: nat
    var sizeY: nat
    var sizeZ: nat
    var sizeMagnitude: nat

    ghost predicate Valid()
      reads this
    {
      bufferX.Length == MAX_BUFFER_SIZE && bufferY.Length == MAX_BUFFER_SIZE &&
      bufferZ.Length == MAX_BUFFER_SIZE && bufferMagnitude.Length == MAX_BUFFER_SIZE &&
      sizeX <= MAX_BUFFER_SIZE && sizeY <= MAX_BUFFER_SIZE &&
      sizeZ <= MAX_BUFFER_SIZE && sizeMagnitude <= MAX_BUFFER_SIZE &&
      bufferX != bufferY && bufferX != bufferZ && bufferX != bufferMagnitude &&
      bufferY != bufferZ && bufferY != bufferMagnitude && bufferZ != bufferMagnitude
    }

    /** The buffered readings of each channel, oldest first. */
    ghost function X(): seq<real>
      reads this, bufferX
      requires Valid()
    {
      bufferX[..sizeX]
    }

    ghost function Y(): seq<real>
      reads this, bufferY
      requires Valid()
    {
      bufferY[..sizeY]
    }

    ghost function Z(): seq<real>
      reads this, bufferZ
      requires Valid()
    {
      bufferZ[..sizeZ]
    }

    ghost function Magnitude(): seq<real>
      reads this, bufferMagnitude
      requires Valid()
    {
      bufferMagnitude[..sizeMagnitude]
    }

    /** The IMU handshake loop is left out; the mutex may or may not have been created. */
    constructor (mutexCreated: bool)
      ensures Valid()
      ensures sensorType == SENSOR_TYPE_ACCELEROMETER && hasMutex == mutexCreated
      ensures sizeX == 0 && sizeY == 0 && sizeZ == 0 && sizeMagnitude == 0
      ensures fresh(bufferX) && fresh(bufferY) && fresh(bufferZ) && fresh(bufferMagnitude)
    {
      sensorType := SENSOR_TYPE_ACCELEROMETER;
      hasMutex := mutexCreated;
      bufferX := new real[MAX_BUFFER_SIZE];
      bufferY := new real[MAX_BUFFER_SIZE];
      bufferZ := new real[MAX_BUFFER_SIZE];
      bufferMagnitude := new real[MAX_BUFFER_SIZE];
      sizeX, sizeY, sizeZ, sizeMagnitude := 0, 0, 0, 0;
    }

    /**
     * Update: a reading with a NaN axis is rejected; so is the whole update
     * when there is no mutex or the lock is not acquired. Otherwise every
     * channel gets exactly one new value, with shift-on-full eviction.
     */
    method Update(x: Float, y: Float, z: Float, lockAcquired: bool, norm: (real, real, real) -> real)
      requires Valid()
      modifies this, bufferX, bufferY, bufferZ, bufferMagnitude
      ensures Valid()
      ensures if x.Num? && y.Num? && z.Num? && hasMutex && lockAcquired then
                X() == Pushed(old(X()), x.v) && Y() == Pushed(old(Y()), y.v) &&
                Z() == Pushed(old(Z()), z.v) &&
                Magnitude() == Pushed(old(Magnitude()), norm(x.v, y.v, z.v))
              else
                sizeX == old(sizeX) && sizeY == old(sizeY) &&
                sizeZ == old(sizeZ) && sizeMagnitude == old(sizeMagnitude) &&
                unchanged(bufferX, bufferY, bufferZ, bufferMagnitude)
    {
      if x.NaN? || y.NaN? || z.NaN? {
        return;
      }
      if !hasMutex {
        return;
      }
      if lockAcquired {
        var m := norm(x.v, y.v, z.v);
        sizeX := PushSample(bufferX, sizeX, x.v);
        sizeY := PushSample(bufferY, sizeY, y.v);
        sizeZ := PushSample(bufferZ, sizeZ, z.v);
        sizeMagnitude := PushSample(bufferMagnitude, sizeMagnitude, m);
      }
    }

    /**
     * getData: only SAMPLE_TYPE_ACCEL is served, from the magnitude buffer.
     * A successful drain hands out the buffered readings and resets only the
     * magnitude size; once the lock is held the timestamp is written whether
     * or not the drain succeeds.
     */
    method GetData(data: Data, lockAcquired: bool, now: nat) returns (ok: bool, result: Data)
      requires Valid()
      modifies this
      ensures Valid()
      ensures ok <==> hasMutex && lockAcquired && data.sampleType == SAMPLE_TYPE_ACCEL && old(sizeMagnitude) > 0
      ensures ok ==> result == data.(timestamp := now, values := old(Magnitude())) && sizeMagnitude == 0
      ensures !ok ==> sizeMagnitude == old(sizeMagnitude)
      ensures !ok ==> result == if hasMutex && lockAcquired then data.(timestamp := now) else data
      ensures sizeX == old(sizeX) && sizeY == old(sizeY) && sizeZ == old(sizeZ)
    {
      result := data;
      if !hasMutex {
        return false, result;
      }
      if lockAcquired {
        ok := false;
        if data.sampleType == SAMPLE_TYPE_ACCEL {
          if sizeMagnitude == 0 {
            ok := false;
          } else {
            result := result.(values := bufferMagnitude[..sizeMagnitude]);
            sizeMagnitude := 0;
            ok := true;
          }
        }
        result := result.(timestamp := now);
        return ok, result;
      }
      return false, result;
    }
  }
}
