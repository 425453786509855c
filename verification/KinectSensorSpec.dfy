/**
  The sensor shared by all Kinect cameras (kinect/KinectCamera.cpp, kinect/KinectDepthCamera.cpp): one
  pointer and one 32-bit count for an unbounded set of colour and depth cameras, which start, stop, pause
  and resume in any order. Both kinds of camera follow the same protocol.
*/
module KinectSensorSpec {
  import opened Basics

  const UINT_MAX: nat := 0xffff_ffff
  const UINT_RANGE: nat := 0x1_0000_0000

  /** The static members, and how often a sensor was initialised and shut down. */
  datatype Pool = Pool(shared: Option<nat>, count: nat, inits: nat, shutdowns: nat)

  datatype Camera = Camera(paused: int, sensor: Option<nat>, capturing: bool)

  const NEW_POOL := Pool(None, 0, 0, 0)
  const NEW_CAMERA := Camera(0, None, false)

  function Increment(count: nat): nat {
    if count == UINT_MAX then 0 else count + 1
  }

  function Decrement(count: nat): nat {
    if count == 0 then UINT_MAX else count - 1
  }

  /** found says whether some connected sensor can be initialised. */
  function GrabKinect(p: Pool, found: bool): (Pool, Option<nat>) {
    var q := if p.shared.None? && found then p.(shared := Some(p.inits), inits := p.inits + 1) else p;
    (q.(count := Increment(q.count)), q.shared)
  }

  function FreeKinect(p: Pool, sensor: nat): Pool {
    if p.shared != Some(sensor) then p
    else
      var q := p.(count := Decrement(p.count));
      if q.count == 0 then q.(shared := None, shutdowns := q.shutdowns + 1) else q
  }

  function OnStart(p: Pool, c: Camera, found: bool, streamOk: bool): (Pool, Camera) {
    if c.paused != 0 then (p, c)
    else
      var (q, sensor) := GrabKinect(p, found);
      if sensor.None? then (q, c.(sensor := None))
      else if streamOk then (q, c.(sensor := sensor, capturing := true))
      else (FreeKinect(q, sensor.value), c.(sensor := None))
  }

  function OnStop(p: Pool, c: Camera): (Pool, Camera) {
    (if c.sensor.Some? then FreeKinect(p, c.sensor.value) else p, c.(sensor := None, capturing := false))
  }

  function OnPause(p: Pool, c: Camera): (Pool, Camera) {
    var (q, d) := if c.paused == 0 then OnStop(p, c) else (p, c);
    (q, d.(paused := d.paused + 1))
  }

  function OnResume(p: Pool, c: Camera, found: bool, streamOk: bool): (Pool, Camera) {
    OnStart(p, c.(paused := c.paused - 1), found, streamOk)
  }

  // ---------------------------------------------------------------- all cameras together

  /** leaked counts the grabs that no camera will ever free. */
  datatype Fleet = Fleet(pool: Pool, cameras: map<nat, Camera>, leaked: nat)

  datatype Event =
    | ECreate(camera: nat)
    | EStart(camera: nat, found: bool, streamOk: bool)
    | EStop(camera: nat)
    | EPause(camera: nat)
    | EResume(camera: nat, found: bool, streamOk: bool)

  /** A start leaks its grab when no sensor is found, or when the camera already holds the sensor. */
  function Leaks(p: Pool, c: Camera, found: bool): nat {
    if c.paused == 0 && ((p.shared.None? && !found) || c.sensor.Some?) then 1 else 0
  }

  function Put(f: Fleet, k: nat, result: (Pool, Camera), leaks: nat): Fleet {
    Fleet(result.0, f.cameras[k := result.1], f.leaked + leaks)
  }

  function Step(f: Fleet, e: Event): Fleet {
    var k := e.camera;
    if e.ECreate? then
      if k in f.cameras then f else f.(cameras := f.cameras[k := NEW_CAMERA])
    else if k !in f.cameras then f
    else
      var c := f.cameras[k];
      match e
      case EStart(_, found, streamOk) => Put(f, k, OnStart(f.pool, c, found, streamOk), Leaks(f.pool, c, found))
      case EStop(_) => Put(f, k, OnStop(f.pool, c), 0)
      case EPause(_) => Put(f, k, OnPause(f.pool, c), 0)
      case EResume(_, found, streamOk) =>
        Put(f, k, OnResume(f.pool, c, found, streamOk), Leaks(f.pool, c.(paused := c.paused - 1), found))
  }

  /** The fleet after the first n events. */
  function RunTo(f: Fleet, es: seq<Event>, n: nat): Fleet
    requires n <= |es|
  {
    FoldTo(Step, f, es, n)
  }

  function Run(f: Fleet, es: seq<Event>): Fleet {
    RunTo(f, es, |es|)
  }

  const NEW_FLEET := Fleet(NEW_POOL, map[], 0)

  function Holders(cameras: map<nat, Camera>): set<nat> {
    set k | k in cameras && cameras[k].sensor.Some?
  }

  /** Grabs that were not given back. */
  function Outstanding(f: Fleet): nat {
    |Holders(f.cameras)| + f.leaked
  }

  ghost predicate PausedHoldNothing(f: Fleet) {
    forall k :: k in f.cameras && f.cameras[k].paused > 0 ==>
      f.cameras[k].sensor.None? && !f.cameras[k].capturing
  }

  /** No camera holds a sensor that was shut down. */
  ghost predicate HoldersShare(f: Fleet) {
    forall k :: k in Holders(f.cameras) ==> f.cameras[k].sensor == f.pool.shared
  }

  ghost predicate PoolSound(p: Pool, outstanding: int) {
    && p.count == outstanding % UINT_RANGE
    && (p.shared.Some? ==> outstanding > 0)
    && p.inits == p.shutdowns + (if p.shared.Some? then 1 else 0)
  }

  /** What holds between any two steps. */
  ghost predicate Safe(f: Fleet) {
    PoolSound(f.pool, Outstanding(f)) && HoldersShare(f) && PausedHoldNothing(f)
  }

  lemma CountUp(n: nat)
    ensures (n + 1) % UINT_RANGE == Increment(n % UINT_RANGE)
    ensures Decrement(Increment(n % UINT_RANGE)) == n % UINT_RANGE
  {
  }

  lemma CountDown(n: nat)
    requires n > 0
    ensures (n - 1) % UINT_RANGE == Decrement(n % UINT_RANGE)
    ensures Decrement(n % UINT_RANGE) == 0 <==> n % UINT_RANGE == 1
  {
  }

  lemma {:induction false} PutHolders(cameras: map<nat, Camera>, k: nat, c: Camera)
    ensures
      var before, after := Holders(cameras), Holders(cameras[k := c]);
      && (c.sensor.Some? ==> after == before + {k})
      && (c.sensor.None? ==> after == before - {k})
      && |after| == |before| + (if c.sensor.Some? && k !in before then 1 else 0)
                             - (if c.sensor.None? && k in before then 1 else 0)
  {
    var before, after := Holders(cameras), Holders(cameras[k := c]);
    if c.sensor.Some? {
      assert after == before + {k};
    } else {
      assert after == before - {k};
    }
  }

  function Hold(c: Camera): nat {
    if c.sensor.Some? then 1 else 0
  }

  /** The grabs outstanding at the moment the event gives one back, if it does. */
  function GivesBack(f: Fleet, e: Event): Option<nat> {
    var k := e.camera;
    if k !in f.cameras then None
    else
      var c := f.cameras[k];
      match e
      case ECreate(_) => None
      case EStop(_) => if c.sensor.Some? then Some(Outstanding(f)) else None
      case EPause(_) => if c.paused == 0 && c.sensor.Some? then Some(Outstanding(f)) else None
      case EStart(_, found, streamOk) => FailedStream(f, c.paused, found, streamOk)
      case EResume(_, found, streamOk) => FailedStream(f, c.paused - 1, found, streamOk)
  }

  /** A start whose stream cannot be opened gives its own grab back. */
  function FailedStream(f: Fleet, paused: int, found: bool, streamOk: bool): Option<nat> {
    if paused == 0 && (f.pool.shared.Some? || found) && !streamOk then Some(Outstanding(f) + 1) else None
  }

  /** The event gives back a grab when the count reads 1. */
  predicate CountsToZero(f: Fleet, e: Event) {
    GivesBack(f, e).Some? && GivesBack(f, e).value % UINT_RANGE == 1
  }

  /** It does so while another camera holds the sensor: the count has wrapped around. */
  predicate CutsOff(f: Fleet, e: Event) {
    CountsToZero(f, e) && Holders(f.cameras) - {e.camera} != {}
  }

  /** A camera's turn: it counted right, and shut the sensor down only if shut says so. */
  ghost predicate Turn(f: Fleet, k: nat, q: Pool, d: Camera, leaks: nat, shut: bool)
    requires k in f.cameras
  {
    && PoolSound(q, Outstanding(f) + Hold(d) + leaks - Hold(f.cameras[k]))
    && (d.sensor.Some? ==> d.sensor == q.shared)
    && (d.paused > 0 ==> d.sensor.None? && !d.capturing)
    && q.shutdowns == f.pool.shutdowns + (if shut then 1 else 0)
    && (f.pool.shared.Some? ==> q.shared == if shut then None else f.pool.shared)
  }

  lemma PutOutstanding(f: Fleet, k: nat, q: Pool, d: Camera, leaks: nat)
    requires k in f.cameras
    ensures Outstanding(Put(f, k, (q, d), leaks)) == Outstanding(f) + Hold(d) + leaks - Hold(f.cameras[k])
  {
    PutHolders(f.cameras, k, d);
    assert k in Holders(f.cameras) <==> Hold(f.cameras[k]) == 1;
  }

  lemma PutPaused(f: Fleet, k: nat, q: Pool, d: Camera, leaks: nat)
    requires PausedHoldNothing(f) && k in f.cameras && (d.paused > 0 ==> d.sensor.None? && !d.capturing)
    ensures PausedHoldNothing(Put(f, k, (q, d), leaks))
  {
  }

  /** The other holders keep the shared sensor unless it was shut down. */
  lemma PutShares(f: Fleet, k: nat, q: Pool, d: Camera, leaks: nat, shut: bool)
    requires HoldersShare(f) && k in f.cameras
    requires d.sensor.Some? ==> d.sensor == q.shared
    requires f.pool.shared.Some? ==> q.shared == if shut then None else f.pool.shared
    ensures HoldersShare(Put(f, k, (q, d), leaks)) <==> !(shut && Holders(f.cameras) - {k} != {})
  {
    var others := Holders(f.cameras) - {k};
    var r := Put(f, k, (q, d), leaks);
    forall j | j in Holders(r.cameras) && j != k
      ensures j in others && r.cameras[j].sensor == f.pool.shared
    {
    }
    if shut && others != {} {
      var j :| j in others;
      assert j in Holders(r.cameras) && r.cameras[j].sensor == f.pool.shared;
    }
  }

  lemma PutSafe(f: Fleet, k: nat, q: Pool, d: Camera, leaks: nat, shut: bool)
    requires Safe(f) && k in f.cameras && Turn(f, k, q, d, leaks, shut)
    ensures Safe(Put(f, k, (q, d), leaks)) <==> !(shut && Holders(f.cameras) - {k} != {})
  {
    PutOutstanding(f, k, q, d, leaks);
    PutPaused(f, k, q, d, leaks);
    PutShares(f, k, q, d, leaks, shut);
  }

  lemma Single(k: nat, s: set<nat>)
    requires k in s
    ensures |s| >= 1
  {
    assert s == {k} + (s - {k});
  }

  /** A camera that holds the sensor is counted. */
  lemma HolderCounted(f: Fleet, k: nat)
    requires Safe(f) && k in f.cameras
    ensures Outstanding(f) >= Hold(f.cameras[k]) + f.leaked
    ensures f.cameras[k].sensor.Some? ==> f.cameras[k].sensor == f.pool.shared
  {
    if f.cameras[k].sensor.Some? {
      assert k in Holders(f.cameras);
      Single(k, Holders(f.cameras));
    }
  }

  lemma StartTurn(f: Fleet, k: nat, paused: int, found: bool, streamOk: bool)
    requires Safe(f) && k in f.cameras && paused <= f.cameras[k].paused
    ensures
      var c := f.cameras[k].(paused := paused);
      var (q, d) := OnStart(f.pool, c, found, streamOk);
      var n := FailedStream(f, paused, found, streamOk);
      Turn(f, k, q, d, Leaks(f.pool, c, found), n.Some? && n.value % UINT_RANGE == 1)
  {
    HolderCounted(f, k);
    CountUp(Outstanding(f));
    CountDown(Outstanding(f) + 1);
  }

  lemma StopTurn(f: Fleet, k: nat, paused: int)
    requires Safe(f) && k in f.cameras
    ensures
      var (q, d) := OnStop(f.pool, f.cameras[k]);
      Turn(f, k, q, d.(paused := paused), 0, f.cameras[k].sensor.Some? && Outstanding(f) % UINT_RANGE == 1)
  {
    HolderCounted(f, k);
    if f.cameras[k].sensor.Some? {
      CountDown(Outstanding(f));
    }
  }

  /** The result of an event of an existing camera. */
  lemma {:induction false} StepTurn(f: Fleet, e: Event)
    requires Safe(f) && e.camera in f.cameras && !e.ECreate?
    ensures
      var k, r := e.camera, Step(f, e);
      && k in r.cameras && r.leaked >= f.leaked
      && r == Put(f, k, (r.pool, r.cameras[k]), r.leaked - f.leaked)
      && Turn(f, k, r.pool, r.cameras[k], r.leaked - f.leaked, CountsToZero(f, e))
  {
    var k := e.camera;
    var c := f.cameras[k];
    match e
    case EStart(_, found, streamOk) => StartTurn(f, k, c.paused, found, streamOk);
    case EStop(_) => StopTurn(f, k, c.paused);
    case EPause(_) =>
      HolderCounted(f, k);
      StopTurn(f, k, 1);
    case EResume(_, found, streamOk) => StartTurn(f, k, c.paused - 1, found, streamOk);
  }

  /** A step from a safe state breaks safety exactly when it cuts off another camera. */
  lemma {:induction false} StepSafeIff(f: Fleet, e: Event)
    requires Safe(f)
    ensures Safe(Step(f, e)) <==> !CutsOff(f, e)
  {
    if e.camera in f.cameras && !e.ECreate? {
      StepTurn(f, e);
      var r := Step(f, e);
      PutSafe(f, e.camera, r.pool, r.cameras[e.camera], r.leaked - f.leaked, CountsToZero(f, e));
    } else if e.ECreate? {
      PutHolders(f.cameras, e.camera, NEW_CAMERA);
    }
  }

  lemma StepOutstanding(f: Fleet, e: Event)
    requires Safe(f)
    ensures Outstanding(Step(f, e)) <= Outstanding(f) + 1 && Step(f, e).leaked >= f.leaked
  {
    var r := Step(f, e);
    if e.camera in f.cameras && !e.ECreate? {
      StepTurn(f, e);
      PutHolders(f.cameras, e.camera, r.cameras[e.camera]);
    } else if e.ECreate? {
      PutHolders(f.cameras, e.camera, NEW_CAMERA);
    }
  }

  /** Safe, after that many grabs at most. */
  ghost predicate SafeAfter(f: Fleet, grabs: nat) {
    Safe(f) && Outstanding(f) <= grabs
  }

  lemma StepSafeAfter(f: Fleet, e: Event, grabs: nat)
    requires SafeAfter(f, grabs) && !CutsOff(f, e)
    ensures SafeAfter(Step(f, e), grabs + 1)
  {
    StepSafeIff(f, e);
    StepOutstanding(f, e);
  }

  /** Event i of the run cuts another camera off. */
  predicate CutsOffAt(es: seq<Event>, i: nat) {
    i < |es| && CutsOff(RunTo(NEW_FLEET, es, i), es[i])
  }

  lemma {:induction false} RunSafe(es: seq<Event>, n: nat)
    requires n <= |es| && forall i :: 0 <= i < n ==> !CutsOffAt(es, i)
    ensures SafeAfter(RunTo(NEW_FLEET, es, n), n)
  {
    if n > 0 {
      assert !CutsOffAt(es, n - 1);
      RunSafe(es, n - 1);
      StepSafeAfter(RunTo(NEW_FLEET, es, n - 1), es[n-1], n - 1);
    }
  }

  /**
    Whatever the cameras do: the count is the number of cameras that hold the sensor plus the leaked
    grabs, modulo 2^32; every holder's pointer is the shared one, so a sensor is never shut down while
    held; every initialised sensor but the shared one was shut down; a paused camera holds nothing. All
    this holds throughout a run exactly when no step of it gives a grab back while the count reads 1 and
    another camera holds the sensor.
  */
  lemma SharedSensorSafeIff(es: seq<Event>)
    ensures
      (forall n :: 0 <= n <= |es| ==> Safe(RunTo(NEW_FLEET, es, n)))
      <==> (forall n :: 0 <= n < |es| ==> !CutsOffAt(es, n))
  {
    if forall n :: 0 <= n < |es| ==> !CutsOffAt(es, n) {
      forall n | 0 <= n <= |es|
        ensures Safe(RunTo(NEW_FLEET, es, n))
      {
        RunSafe(es, n);
      }
    } else {
      var n :| 0 <= n < |es| && CutsOffAt(es, n);
      if Safe(RunTo(NEW_FLEET, es, n)) {
        StepSafeIff(RunTo(NEW_FLEET, es, n), es[n]);
        assert !Safe(RunTo(NEW_FLEET, es, n + 1));
      }
    }
  }

  /** That takes more than 2^32 grabs. */
  lemma CutOffIsFar(f: Fleet, e: Event)
    requires Safe(f) && CutsOff(f, e)
    ensures Outstanding(f) >= UINT_RANGE
  {
    var j :| j in Holders(f.cameras) - {e.camera};
    Single(j, Holders(f.cameras));
    assert GivesBack(f, e).value >= Outstanding(f);
    if GivesBack(f, e).value == Outstanding(f) {
      assert e.camera in Holders(f.cameras);
      assert Holders(f.cameras) == {j, e.camera} + (Holders(f.cameras) - {j, e.camera});
      assert |{j, e.camera}| == 2;
    }
  }

  /** So up to 2^32 events any run is safe, with the exact count. */
  lemma {:induction false} SharedSensorSafe(es: seq<Event>, n: nat)
    requires n <= |es| && n <= UINT_RANGE
    ensures SafeAfter(RunTo(NEW_FLEET, es, n), n)
  {
    if n > 0 {
      SharedSensorSafe(es, n - 1);
      var f := RunTo(NEW_FLEET, es, n - 1);
      if CutsOff(f, es[n-1]) {
        CutOffIsFar(f, es[n-1]);
      }
      StepSafeAfter(f, es[n-1], n - 1);
    }
  }

  // ---------------------------------------------------------------- shutting down

  /** A step shuts the sensor down exactly when it gives a grab back while the count reads 1. */
  lemma ShutsDownIff(f: Fleet, e: Event)
    requires Safe(f)
    ensures Step(f, e).pool.shutdowns == f.pool.shutdowns + (if CountsToZero(f, e) then 1 else 0)
    ensures f.pool.shared.Some? ==>
      Step(f, e).pool.shared == if CountsToZero(f, e) then None else f.pool.shared
  {
    if e.camera in f.cameras && !e.ECreate? {
      StepTurn(f, e);
    }
  }

  /** A camera that holds the sensor is stopped, or paused for the first time. */
  predicate Releases(f: Fleet, e: Event) {
    && e.camera in Holders(f.cameras)
    && (e.EStop? || (e.EPause? && f.cameras[e.camera].paused == 0))
  }

  /** The last release shuts the sensor down exactly when no grab was leaked (modulo 2^32). */
  lemma LastReleaseShutsDownIff(f: Fleet, e: Event)
    requires Safe(f) && Releases(f, e) && |Holders(f.cameras)| == 1
    ensures
      var r := Step(f, e);
      && Holders(r.cameras) == {} && f.pool.shared.Some?
      && (r.pool.shared.None? && r.pool.shutdowns == f.pool.shutdowns + 1 <==> f.leaked % UINT_RANGE == 0)
      && (r.pool == f.pool.(count := f.leaked % UINT_RANGE) <==> f.leaked % UINT_RANGE != 0)
  {
    var k, r := e.camera, Step(f, e);
    Single(k, Holders(f.cameras));
    assert Holders(f.cameras) == {k} + (Holders(f.cameras) - {k});
    PutHolders(f.cameras, k, r.cameras[k]);
    CountDown(Outstanding(f));
  }

  /** An earlier one only counts down, exactly when the grabs outstanding are not 1 modulo 2^32. */
  lemma EarlierReleaseKeepsIff(f: Fleet, e: Event)
    requires Safe(f) && Releases(f, e) && |Holders(f.cameras)| > 1
    ensures Step(f, e).pool == f.pool.(count := Decrement(f.pool.count)) <==> Outstanding(f) % UINT_RANGE != 1
  {
    CountDown(Outstanding(f));
  }

  /**
    A capturing camera that is paused and resumed captures again; count, holders and leaks are as before,
    provided the pause kept the sensor open or a sensor is found again.
  */
  lemma ResumeRestores(f: Fleet, k: nat, found: bool)
    requires Safe(f) && k in Holders(f.cameras) && f.cameras[k].paused == 0 && f.cameras[k].capturing
    requires found || f.pool.count != 1
    ensures
      var r := Step(Step(f, EPause(k)), EResume(k, found, true));
      && r.cameras[k].paused == 0 && r.cameras[k].capturing && Holders(r.cameras) == Holders(f.cameras)
      && r.pool.count == f.pool.count && r.leaked == f.leaked
      && (f.pool.count != 1 ==> r == f)
  {
    HolderCounted(f, k);
    var p := Step(f, EPause(k));
    var r := Step(p, EResume(k, found, true));
    PutHolders(f.cameras, k, p.cameras[k]);
    PutHolders(p.cameras, k, r.cameras[k]);
    assert r.cameras == f.cameras[k := r.cameras[k]];
  }

  /** Event i of the run gives a grab back while the count reads 1. */
  predicate ZeroAt(f: Fleet, es: seq<Event>, i: nat) {
    i < |es| && CountsToZero(RunTo(f, es, i), es[i])
  }

  predicate ReachesZero(f: Fleet, es: seq<Event>, n: nat) {
    exists i :: 0 <= i < n && ZeroAt(f, es, i)
  }

  /** From f to r, n events later, the open sensor with leaked grabs stayed open. */
  ghost predicate StillOpen(f: Fleet, r: Fleet, n: nat) {
    && Safe(r) && r.leaked > 0 && Outstanding(r) <= Outstanding(f) + n
    && r.pool.shared.Some? && r.pool.shared == f.pool.shared && r.pool.shutdowns == f.pool.shutdowns
  }

  lemma StepStillOpen(f: Fleet, r: Fleet, n: nat, e: Event)
    requires StillOpen(f, r, n) && !CountsToZero(r, e)
    ensures StillOpen(f, Step(r, e), n + 1)
  {
    StepSafeIff(r, e);
    StepOutstanding(r, e);
    ShutsDownIff(r, e);
  }

  lemma {:induction false} StaysOpen(f: Fleet, es: seq<Event>, n: nat)
    requires n <= |es| && StillOpen(f, f, 0)
    requires !ReachesZero(f, es, n)
    ensures StillOpen(f, RunTo(f, es, n), n)
  {
    if n > 0 {
      assert !ZeroAt(f, es, n - 1);
      StaysOpen(f, es, n - 1);
      StepStillOpen(f, RunTo(f, es, n - 1), n - 1, es[n-1]);
    }
  }

  /** With a leaked grab the count reads 1 at a release only after it has wrapped around. */
  lemma LeakedIsFar(f: Fleet, e: Event)
    requires Safe(f) && f.leaked > 0 && CountsToZero(f, e)
    ensures Outstanding(f) >= UINT_RANGE
  {
    HolderCounted(f, e.camera);
  }

  lemma {:induction false} StaysOpenFor(f: Fleet, es: seq<Event>, n: nat)
    requires n <= |es| && StillOpen(f, f, 0) && Outstanding(f) + n <= UINT_RANGE
    ensures StillOpen(f, RunTo(f, es, n), n)
  {
    if n > 0 {
      StaysOpenFor(f, es, n - 1);
      var r := RunTo(f, es, n - 1);
      if CountsToZero(r, es[n-1]) {
        LeakedIsFar(r, es[n-1]);
      }
      StepStillOpen(f, r, n - 1, es[n-1]);
    }
  }

  /** Once a grab is leaked and a sensor is open, that sensor is never shut down again within 2^32 events. */
  lemma LeakKeepsSensor(es: seq<Event>, more: seq<Event>)
    requires |es| + |more| <= UINT_RANGE
    requires Run(NEW_FLEET, es).leaked > 0 && Run(NEW_FLEET, es).pool.shared.Some?
    ensures
      var f := Run(NEW_FLEET, es);
      Run(f, more).pool.shared == f.pool.shared && Run(f, more).pool.shutdowns == f.pool.shutdowns
  {
    SharedSensorSafe(es, |es|);
    StaysOpenFor(Run(NEW_FLEET, es), more, |more|);
  }

  /** In any continuation such a sensor stays open exactly when no step gives a grab back at a count of 1. */
  lemma LeakKeepsSensorIff(f: Fleet, es: seq<Event>)
    requires Safe(f) && f.leaked > 0 && f.pool.shared.Some?
    ensures
      (forall n :: 0 <= n <= |es| ==> RunTo(f, es, n).pool.shutdowns == f.pool.shutdowns) <==> !ReachesZero(f, es, |es|)
  {
    if ReachesZero(f, es, |es|) {
      FirstZero(f, es, |es|);
    } else {
      forall n | 0 <= n <= |es|
        ensures RunTo(f, es, n).pool.shutdowns == f.pool.shutdowns
      {
        StaysOpen(f, es, n);
      }
    }
  }

  lemma {:induction false} FirstZero(f: Fleet, es: seq<Event>, n: nat)
    requires Safe(f) && f.leaked > 0 && f.pool.shared.Some?
    requires n <= |es| && ReachesZero(f, es, n)
    ensures exists m :: 0 <= m <= |es| && RunTo(f, es, m).pool.shutdowns != f.pool.shutdowns
  {
    if ReachesZero(f, es, n - 1) {
      FirstZero(f, es, n - 1);
    } else {
      assert ZeroAt(f, es, n - 1);
      StaysOpen(f, es, n - 1);
      ShutsDownIff(RunTo(f, es, n - 1), es[n-1]);
      assert RunTo(f, es, n).pool.shutdowns == f.pool.shutdowns + 1;
    }
  }

  // ---------------------------------------------------------------- runs

  /** One start before the sensor is plugged in, and it stays initialised after its only user stopped. */
  lemma FailedGrabKeepsSensor()
    ensures
      var r := Run(NEW_FLEET, [ECreate(0), EStart(0, false, true), EStart(0, true, true), EStop(0)]);
      Holders(r.cameras) == {} && r.pool.shared == Some(0) && r.leaked == 1
  {
    var es := [ECreate(0), EStart(0, false, true), EStart(0, true, true), EStop(0)];
    var f1 := RunTo(NEW_FLEET, es, 1);
    var f2 := RunTo(NEW_FLEET, es, 2);
    var f3 := RunTo(NEW_FLEET, es, 3);
    assert f1 == Step(NEW_FLEET, es[0]) && f2 == Step(f1, es[1]) && f3 == Step(f2, es[2]);
    assert Run(NEW_FLEET, es) == Step(f3, es[3]);
  }

  // ---------------------------------------------------------------- the capture timer

  ghost predicate CapturesOnlyWithSensor(f: Fleet) {
    forall k :: k in f.cameras && f.cameras[k].capturing ==> f.cameras[k].sensor.Some?
  }

  /** A start of a camera that holds the sensor already, whose stream then cannot be opened. */
  predicate BrokenRestart(f: Fleet, e: Event) {
    && e.EStart? && e.camera in f.cameras && !e.streamOk
    && f.cameras[e.camera].paused == 0 && f.cameras[e.camera].capturing
  }

  /** A step leaves a capture timer running without a sensor exactly when it is such a start. */
  lemma CaptureLosesSensorIff(f: Fleet, e: Event)
    requires Safe(f) && CapturesOnlyWithSensor(f)
    ensures !CapturesOnlyWithSensor(Step(f, e)) <==> BrokenRestart(f, e)
  {
    var k, r := e.camera, Step(f, e);
    if k in f.cameras {
      assert f.cameras[k].sensor.Some? ==> k in Holders(f.cameras);
      assert forall j :: j in r.cameras && j != k ==> r.cameras[j] == f.cameras[j];
      if BrokenRestart(f, e) {
        assert r.cameras[k].capturing && r.cameras[k].sensor.None?;
      }
    }
  }

  /** A camera started twice, with a stream the second time refused, captures without a sensor. */
  lemma RestartLosesSensor()
    ensures
      var c := Run(NEW_FLEET, [ECreate(0), EStart(0, true, true), EStart(0, true, false)]).cameras;
      0 in c && c[0].capturing && c[0].sensor.None?
  {
    var es := [ECreate(0), EStart(0, true, true), EStart(0, true, false)];
    var f1 := RunTo(NEW_FLEET, es, 1);
    var f2 := RunTo(NEW_FLEET, es, 2);
    assert f1 == Step(NEW_FLEET, es[0]) && f2 == Step(f1, es[1]);
    assert Run(NEW_FLEET, es) == Step(f2, es[2]);
  }

  /** Two cameras hold the sensor; one of them is started again until the count is 1, and then stopped. */
  function ManyGrabs(): seq<Event> {
    [ECreate(0), ECreate(1), EStart(0, true, true)] + seq(UINT_RANGE, _ => EStart(1, true, true)) + [EStop(1)]
  }

  lemma {:induction false} ManyStarts(n: nat)
    requires 0 < n <= UINT_RANGE
    ensures
      var f := RunTo(NEW_FLEET, ManyGrabs(), n + 3);
      && f.pool == Pool(Some(0), (n + 1) % UINT_RANGE, 1, 0) && f.leaked == n - 1
      && f.cameras == map[0 := Camera(0, Some(0), true), 1 := Camera(0, Some(0), true)]
  {
    var es := ManyGrabs();
    assert es[n+2] == EStart(1, true, true);
    if n == 1 {
      var f1 := RunTo(NEW_FLEET, es, 1);
      var f2 := RunTo(NEW_FLEET, es, 2);
      assert f1 == Step(NEW_FLEET, es[0]) && f2 == Step(f1, es[1]);
      assert RunTo(NEW_FLEET, es, 3) == Step(f2, es[2]);
    } else {
      ManyStarts(n - 1);
      CountUp(n);
    }
  }

  /** That shuts the sensor down while camera 0 holds it. */
  lemma WrapShutsDownHeldSensor()
    ensures
      var r := Run(NEW_FLEET, ManyGrabs());
      && 0 in r.cameras && r.cameras[0].sensor == Some(0) && r.pool.shared.None? && r.pool.shutdowns == 1
  {
    ManyStarts(UINT_RANGE);
    assert ManyGrabs()[UINT_RANGE + 3] == EStop(1);
  }

  // ---------------------------------------------------------------- pausing

  predicate Created(es: seq<Event>, n: nat, k: nat)
    requires n <= |es|
  {
    exists i :: 0 <= i < n && es[i] == ECreate(k)
  }

  /** Pauses minus resumes of a camera since it was created. */
  function Depth(es: seq<Event>, n: nat, k: nat): int
    requires n <= |es|
  {
    if n == 0 then 0
    else
      var before := Depth(es, n - 1, k);
      if Created(es, n - 1, k) then before + Deepens(es[n-1], k) else before
  }

  function Deepens(e: Event, k: nat): int {
    if e == EPause(k) then 1 else if e.EResume? && e.camera == k then -1 else 0
  }

  /** What one step does to the pauses of a camera, to whether it is there, and to a paused one. */
  lemma {:induction false} StepDepth(f: Fleet, e: Event, k: nat)
    requires PausedHoldNothing(f)
    ensures
      var r := Step(f, e);
      && PausedHoldNothing(r)
      && (k in r.cameras <==> k in f.cameras || e == ECreate(k))
      && (k in f.cameras ==> r.cameras[k].paused == f.cameras[k].paused + Deepens(e, k))
      && (k !in f.cameras && k in r.cameras ==> r.cameras[k].paused == 0)
  {
  }

  lemma {:induction false} RunDepth(es: seq<Event>, n: nat, k: nat)
    requires n <= |es|
    ensures
      var r := RunTo(NEW_FLEET, es, n);
      && PausedHoldNothing(r) && (k in r.cameras <==> Created(es, n, k))
      && (k in r.cameras ==> r.cameras[k].paused == Depth(es, n, k))
      && (k !in r.cameras ==> Depth(es, n, k) == 0)
  {
    if n > 0 {
      RunDepth(es, n - 1, k);
      StepDepth(RunTo(NEW_FLEET, es, n - 1), es[n-1], k);
      assert Created(es, n, k) <==> Created(es, n - 1, k) || es[n-1] == ECreate(k);
    }
  }

  /**
    Pauses nest, whatever happens to other cameras and however often this one is started or stopped in
    between: a camera paused more often than resumed holds and captures nothing, and a resume captures
    again exactly when it makes the two numbers equal, provided the sensor is found and its stream opens.
  */
  lemma PausesNest(es: seq<Event>, k: nat)
    requires Created(es, |es|, k)
    ensures
      var f, depth := Run(NEW_FLEET, es), Depth(es, |es|, k);
      && k in f.cameras
      && (depth > 0 ==> IdleUnless(f.cameras[k], false))
      && (depth > 0 ==> IdleUnless(Step(f, EResume(k, true, true)).cameras[k], depth == 1))
  {
    RunDepth(es, |es|, k);
  }

  /** The camera holds a sensor and captures, or neither. */
  predicate IdleUnless(c: Camera, busy: bool) {
    (c.sensor.Some? <==> busy) && (c.capturing <==> busy)
  }
}
