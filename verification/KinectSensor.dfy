/** The Kinect cameras and their shared sensor as objects that update their fields. */
module KinectSensor {
  import opened Basics
  import opened KinectSensorSpec
  import Spec = KinectSensorSpec

  /** How one attached sensor answers creation, the status query and initialisation. */
  datatype Probe = Probe(created: bool, statusOk: bool, initialised: bool)

  predicate Usable(p: Probe) {
    p.created && p.statusOk && p.initialised
  }

  predicate SomeUsable(sensors: seq<Probe>) {
    exists i :: 0 <= i < |sensors| && Usable(sensors[i])
  }

  predicate FirstUsable(sensors: seq<Probe>, i: nat) {
    i < |sensors| && Usable(sensors[i]) && forall j :: 0 <= j < i ==> !Usable(sensors[j])
  }

  /** The static members of the camera class. */
  class SharedSensor {
    var shared: Option<nat>
    var count: nat
    var inits: nat    // numbers the sensors, in place of their addresses
    var device: nat   // which attached sensor the shared one is
    ghost var shutdowns: nat

    ghost function Abs(): Pool
      reads this
    {
      Pool(shared, count, inits, shutdowns)
    }

    constructor ()
      ensures Abs() == NEW_POOL
    {
      shared, count, inits, device, shutdowns := None, 0, 0, 0, 0;
    }

    /** Takes the first attached sensor that works, unless there is a shared one; counts every call. */
    method GrabKinect(countOk: bool, sensors: seq<Probe>) returns (sensor: Option<nat>)
      modifies this
      ensures (Abs(), sensor) == Spec.GrabKinect(old(Abs()), countOk && SomeUsable(sensors))
      ensures if old(shared) == None && sensor != None then FirstUsable(sensors, device) else device == old(device)
    {
      if shared == None {
        if countOk {
          var i := 0;
          while i < |sensors|
            invariant 0 <= i <= |sensors|
            invariant forall j :: 0 <= j < i ==> !Usable(sensors[j])
            invariant unchanged(this)
          {
            if Usable(sensors[i]) {
              shared := Some(inits);
              inits := inits + 1;
              device := i;
              break;
            }
            i := i + 1;
          }
        }
      }
      count := Spec.Increment(count);
      sensor := shared;
    }

    method FreeKinect(sensor: nat)
      modifies this
      ensures Abs() == Spec.FreeKinect(old(Abs()), sensor)
    {
      if shared == Some(sensor) {
        count := Spec.Decrement(count);
        if count == 0 {
          shutdowns := shutdowns + 1;
          shared := None;
        }
      }
    }
  }

  class KinectCamera {
    const pool: SharedSensor
    var paused: int
    var sensor: Option<nat>
    var waitTimer: bool

    ghost function Abs(): Camera
      reads this
    {
      Camera(paused, sensor, waitTimer)
    }

    constructor (pool: SharedSensor)
      ensures this.pool == pool && Abs() == NEW_CAMERA
    {
      this.pool := pool;
      paused, sensor, waitTimer := 0, None, false;
    }

    method OnStart(countOk: bool, sensors: seq<Probe>, streamOk: bool) returns (ok: bool)
      modifies this, pool
      ensures ok
      ensures (pool.Abs(), Abs()) ==
        Spec.OnStart(old(pool.Abs()), old(Abs()), countOk && SomeUsable(sensors), streamOk)
    {
      if paused == 0 {
        sensor := pool.GrabKinect(countOk, sensors);
        if sensor != None {
          if streamOk {
            waitTimer := true;
          } else {
            pool.FreeKinect(sensor.value);
            sensor := None;
          }
        }
      }
      ok := true;
    }

    method OnStop() returns (ok: bool)
      modifies this, pool
      ensures ok && (pool.Abs(), Abs()) == Spec.OnStop(old(pool.Abs()), old(Abs()))
    {
      waitTimer := false;
      if sensor != None {
        pool.FreeKinect(sensor.value);
        sensor := None;
      }
      ok := true;
    }

    method OnPause()
      modifies this, pool
      ensures (pool.Abs(), Abs()) == Spec.OnPause(old(pool.Abs()), old(Abs()))
    {
      if paused == 0 {
        var _ := OnStop();
      }
      paused := paused + 1;
    }

    method OnResume(countOk: bool, sensors: seq<Probe>, streamOk: bool)
      modifies this, pool
      ensures (pool.Abs(), Abs()) ==
        Spec.OnResume(old(pool.Abs()), old(Abs()), countOk && SomeUsable(sensors), streamOk)
    {
      paused := paused - 1;
      if paused == 0 {
        var _ := OnStart(countOk, sensors, streamOk);
      }
    }
  }
}
