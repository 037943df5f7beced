/**
 * KASModulePhysicChild (Plugins/Source/KASModulePhysicChild.cs): a part module that
 * hands a child object over to the physics engine and takes it back. Positions,
 * rotations, velocities and gravity are opaque values that are only copied.
 */
module PhysicChild {
  import opened Wrappers

  datatype Vector3 = Vector3(x: real, y: real, z: real)
  datatype Quaternion = Quaternion(x: real, y: real, z: real, w: real)

  /** A position and a rotation, relative to the part. */
  datatype Pose = Pose(position: Vector3, rotation: Quaternion)

  /** The rigid body on the child object, and the accelerations applied to it so far. */
  datatype Rigidbody = Rigidbody(
    mass: real,
    useGravity: bool,
    isKinematic: bool,
    velocity: Vector3,
    angularVelocity: Vector3,
    accelerations: seq<Vector3>)

  /** What the module reads of its part: the part body's velocities and the vessel's gravity. */
  datatype PartMotion = PartMotion(velocity: Vector3, angularVelocity: Vector3, graviticAcceleration: Vector3)

  /**
   * The module and its child object: the mass the module gives a new body, whether
   * physics is on, the child's body (if any),
   * whether the child hangs from the part, its pose relative to the part, the pose
   * recorded at pack time, and whether a deferred resync is waiting for the next
   * physics frame.
   */
  datatype ChildState = ChildState(
    mass: real,
    physicActive: bool,
    body: Option<Rigidbody>,
    parentedToPart: bool,
    localPose: Pose,
    recordedPose: Pose,
    resyncPending: bool)

  /** The module's mass setting until a caller assigns another one. */
  const DefaultMass: real := 0.01

  /**
   * The module's invariant: physics is on exactly when the child has a body; that body
   * has no built-in gravity; and the child hangs from the part
   * exactly when the engine is not simulating it (no body, or a kinematic one).
   */
  predicate Inv(s: ChildState) {
    && (s.physicActive <==> s.body.Some?)
    && (s.body.Some? ==> !s.body.value.useGravity)
    && (s.parentedToPart <==> (s.body.None? || s.body.value.isKinematic))
  }

  /** Simulated by the engine: a body that is not kinematic. */
  predicate Simulated(s: ChildState) {
    s.body.Some? && !s.body.value.isKinematic
  }

  /** The state of a fresh module: physics off, child on the part, no body. */
  function Initial(mass: real, pose: Pose): (s: ChildState)
    ensures Inv(s) && !s.physicActive && !s.resyncPending && s.body.None? && s.parentedToPart
    ensures s.mass == mass && s.localPose == pose
  {
    ChildState(mass, false, Option.None, true, pose, pose, false)
  }

  /**
   * StartPhysics: when off, the child gets a fresh non-kinematic body with the module's
   * current mass, no gravity and the part's velocities, and leaves the part. When on,
   * nothing.
   */
  function Started(s: ChildState, part: PartMotion): (r: ChildState)
    ensures Inv(s) ==> Inv(r)
    ensures !s.physicActive ==>
      && Simulated(r)
      && r.body.value.mass == s.mass
      && r.body.value.velocity == part.velocity
      && r.body.value.angularVelocity == part.angularVelocity
      && r.body.value.accelerations == []
    ensures s.physicActive ==> r == s
    ensures r.localPose == s.localPose && r.recordedPose == s.recordedPose
    ensures r.resyncPending == s.resyncPending
  {
    if !s.physicActive then
      s.(body := Some(Rigidbody(s.mass, false, false, part.velocity, part.angularVelocity, [])),
         parentedToPart := false,
         physicActive := true)
    else
      s
  }

  /** StopPhysics: when on, the body is destroyed and the child is back on the part. */
  function Stopped(s: ChildState): (r: ChildState)
    ensures Inv(s) ==> Inv(r)
    ensures !r.physicActive && r.body.None? && r.parentedToPart
    ensures !s.physicActive ==> r == s.(body := Option.None, parentedToPart := true)
    ensures r.localPose == s.localPose && r.recordedPose == s.recordedPose
    ensures r.resyncPending == s.resyncPending
  {
    if s.physicActive then
      s.(body := Option.None, parentedToPart := true, physicActive := false)
    else
      s.(body := Option.None, parentedToPart := true)
  }

  /**
   * OnPartPack: when on, records the child's pose relative to the part, freezes the body
   * (kinematic), hangs the child on the part and schedules a resync.
   */
  function Packed(s: ChildState): (r: ChildState)
    requires Inv(s)
    ensures Inv(r)
    ensures !s.physicActive ==> r == s
    ensures s.physicActive ==>
      && r.recordedPose == s.localPose && r.localPose == s.localPose
      && r.body.Some? && r.body.value.isKinematic && r.parentedToPart && r.resyncPending
      && r.body.value.velocity == s.body.value.velocity
      && r.body.value.angularVelocity == s.body.value.angularVelocity
  {
    if s.physicActive then
      s.(recordedPose := s.localPose,
         body := Some(s.body.value.(isKinematic := true)),
         parentedToPart := true,
         resyncPending := true)
    else
      s
  }

  /**
   * OnPartUnpack: only when on with a frozen body, the child leaves the part, gets back
   * the pose recorded at pack time, is unfrozen and a resync is scheduled.
   */
  function Unpacked(s: ChildState): (r: ChildState)
    requires Inv(s)
    ensures Inv(r)
    ensures !(s.physicActive && s.body.value.isKinematic) ==> r == s
    ensures s.physicActive && s.body.value.isKinematic ==>
      && r.localPose == s.recordedPose && Simulated(r) && !r.parentedToPart && r.resyncPending
      && r.recordedPose == s.recordedPose
  {
    if s.physicActive && s.body.value.isKinematic then
      s.(parentedToPart := false,
         localPose := s.recordedPose,
         body := Some(s.body.value.(isKinematic := false)),
         resyncPending := true)
    else
      s
  }

  /**
   * The deferred resync (WaitPhysicUpdate), one physics frame after it was scheduled:
   * the recorded pose is applied again, and a simulated body takes the part's
   * velocities. A frozen body keeps its velocities.
   */
  function Resynced(s: ChildState, part: PartMotion): (r: ChildState)
    ensures Inv(s) ==> Inv(r)
    ensures !s.resyncPending ==> r == s
    ensures s.resyncPending ==>
      && r.localPose == s.recordedPose && !r.resyncPending
      && r.physicActive == s.physicActive && r.parentedToPart == s.parentedToPart
      && (Simulated(s) ==>
            && Simulated(r)
            && r.body.value.velocity == part.velocity
            && r.body.value.angularVelocity == part.angularVelocity)
      && (!Simulated(s) ==> r.body == s.body)
  {
    if !s.resyncPending then
      s
    else if Simulated(s) then
      s.(localPose := s.recordedPose,
         body := Some(s.body.value.(angularVelocity := part.angularVelocity, velocity := part.velocity)),
         resyncPending := false)
    else
      s.(localPose := s.recordedPose, resyncPending := false)
  }

  /**
   * FixedUpdate: a simulated body receives the vessel's gravity as an acceleration;
   * nothing else happens.
   */
  function AfterFixedUpdate(s: ChildState, gravity: Vector3): (r: ChildState)
    ensures Inv(s) ==> Inv(r)
    ensures Simulated(s) && s.physicActive ==>
      r == s.(body := Some(s.body.value.(accelerations := s.body.value.accelerations + [gravity])))
    ensures !(Simulated(s) && s.physicActive) ==> r == s
  {
    if s.physicActive && Simulated(s) then
      s.(body := Some(s.body.value.(accelerations := s.body.value.accelerations + [gravity])))
    else
      s
  }

  /** OnDestroy: stops physics when it is on, so no body outlives the module. */
  function Destroyed(s: ChildState): (r: ChildState)
    requires Inv(s)
    ensures Inv(r) && r.body.None? && !r.physicActive
    ensures !s.physicActive ==> r == s
  {
    if s.physicActive then Stopped(s) else s
  }

  /** What can happen to the module, a caller assigning its public `mass` included. */
  datatype ChildEvent =
    | AssignMass(mass: real)
    | Start(part: PartMotion)
    | Stop
    | Pack
    | Unpack
    | Resync(part: PartMotion)
    | Tick(gravity: Vector3)
    | Destroy

  function Step(s: ChildState, e: ChildEvent): (r: ChildState)
    requires Inv(s)
    ensures Inv(r)
  {
    match e
    case AssignMass(mass) => s.(mass := mass)
    case Start(part) => Started(s, part)
    case Stop => Stopped(s)
    case Pack => Packed(s)
    case Unpack => Unpacked(s)
    case Resync(part) => Resynced(s, part)
    case Tick(gravity) => AfterFixedUpdate(s, gravity)
    case Destroy => Destroyed(s)
  }

  /** Any sequence of events keeps the invariant. */
  function Run(s: ChildState, events: seq<ChildEvent>): (r: ChildState)
    requires Inv(s)
    ensures Inv(r)
    decreases |events|
  {
    if events == [] then s else Run(Step(s, events[0]), events[1..])
  }

  /** Without a StartPhysics, a module that is off never creates a body. */
  lemma {:induction false} NoBodyWithoutStart(s: ChildState, events: seq<ChildEvent>)
    requires Inv(s) && !s.physicActive
    requires forall i :: 0 <= i < |events| ==> !events[i].Start?
    ensures !Run(s, events).physicActive && Run(s, events).body.None?
    ensures Run(s, events).parentedToPart
    decreases |events|
  {
    if events != [] {
      var t := Step(s, events[0]);
      assert !events[0].Start?;
      assert !t.physicActive;
      NoBodyWithoutStart(t, events[1..]);
    }
  }

  /** Stop undoes Start: from off, the module is back where it was. */
  lemma StartThenStopRestores(s: ChildState, part: PartMotion)
    requires Inv(s) && !s.physicActive
    ensures Stopped(Started(s, part)) == s
  {
  }

  /** Start and Stop are idempotent: a second call changes nothing. */
  lemma StartAndStopAreIdempotent(s: ChildState, part: PartMotion, part2: PartMotion)
    ensures Started(Started(s, part), part2) == Started(s, part)
    ensures Stopped(Stopped(s)) == Stopped(s)
  {
  }

  /**
   * Pack, unpack and the resync that follows put a simulated child back where it was
   * relative to the part, simulated again, with the part's velocities of that frame.
   */
  lemma PackUnpackResyncRestores(s: ChildState, part: PartMotion)
    requires Inv(s) && s.physicActive && Simulated(s)
    ensures var r := Resynced(Unpacked(Packed(s)), part);
      && r.localPose == s.localPose && r.physicActive && Simulated(r) && !r.parentedToPart
      && !r.resyncPending
      && r.body.value.velocity == part.velocity
      && r.body.value.angularVelocity == part.angularVelocity
      && r.body.value.accelerations == s.body.value.accelerations
  {
  }

  /** While packed, the resync keeps the child frozen on the part with its velocities. */
  lemma ResyncWhilePackedKeepsVelocities(s: ChildState, part: PartMotion)
    requires Inv(s) && s.physicActive
    ensures var p := Packed(s); var r := Resynced(p, part);
      && r.body == p.body && r.parentedToPart && r.localPose == s.localPose
  {
  }

  /** The part and its vessel as the module sees them. */
  class Part {
    var velocity: Vector3
    var angularVelocity: Vector3
    var graviticAcceleration: Vector3

    constructor (motion: PartMotion)
      ensures Motion() == motion
    {
      velocity, angularVelocity, graviticAcceleration :=
        motion.velocity, motion.angularVelocity, motion.graviticAcceleration;
    }

    function Motion(): (motion: PartMotion)
      reads this
    {
      PartMotion(velocity, angularVelocity, graviticAcceleration)
    }
  }

  /** The child game object: its parent link, its pose and its rigid body component. */
  class PhysicObject {
    var parentedToPart: bool
    var localPose: Pose
    var body: Option<Rigidbody>

    constructor (pose: Pose)
      ensures parentedToPart && localPose == pose && body.None?
    {
      parentedToPart, localPose, body := true, pose, Option.None;
    }
  }

  /**
   * KASModulePhysicChild. `mass` is public: callers may assign it at any time, and
   * StartPhysics gives a new body the value it has then. The coroutine WaitPhysicUpdate
   * is the `resyncPending` flag: scheduling sets it and the next physics frame runs Resync.
   */
  class KASModulePhysicChild {
    const part: Part
    const physicObj: PhysicObject
    var mass: real
    var physicActive: bool
    var currentLocalPose: Pose
    var resyncPending: bool

    function State(): (state: ChildState)
      reads this, physicObj
    {
      ChildState(mass, physicActive, physicObj.body, physicObj.parentedToPart, physicObj.localPose,
                 currentLocalPose, resyncPending)
    }

    ghost predicate Valid()
      reads this, physicObj
    {
      Inv(State())
    }

    constructor (part: Part, physicObj: PhysicObject, mass: real := DefaultMass)
      requires physicObj.parentedToPart && physicObj.body.None?
      ensures Valid() && State() == Initial(mass, physicObj.localPose)
      ensures this.part == part && this.physicObj == physicObj
    {
      this.part, this.physicObj, this.mass := part, physicObj, mass;
      physicActive, currentLocalPose, resyncPending := false, physicObj.localPose, false;
    }

    method StartPhysics()
      requires Valid()
      modifies this`physicActive, physicObj
      ensures Valid()
      ensures State() == Started(old(State()), part.Motion())
    {
      if !physicActive {
        physicObj.body := Some(Rigidbody(mass, false, false, part.velocity, part.angularVelocity, []));
        physicObj.parentedToPart := false;
        physicActive := true;
      }
    }

    method StopPhysics()
      requires Valid()
      modifies this`physicActive, physicObj
      ensures Valid()
      ensures State() == Stopped(old(State()))
    {
      if physicActive {
        physicObj.body := Option.None;
        physicObj.parentedToPart := true;
        physicActive := false;
      }
    }

    method OnPartPack()
      requires Valid()
      modifies this`currentLocalPose, this`resyncPending, physicObj
      ensures Valid()
      ensures State() == Packed(old(State()))
    {
      if physicActive {
        currentLocalPose := physicObj.localPose;
        physicObj.body := Some(physicObj.body.value.(isKinematic := true));
        physicObj.parentedToPart := true;
        WaitPhysicUpdate();
      }
    }

    method OnPartUnpack()
      requires Valid()
      modifies this`resyncPending, physicObj
      ensures Valid()
      ensures State() == Unpacked(old(State()))
    {
      if physicActive {
        var rb := physicObj.body.value;
        if rb.isKinematic {
          physicObj.parentedToPart := false;
          physicObj.localPose := currentLocalPose;
          physicObj.body := Some(rb.(isKinematic := false));
          WaitPhysicUpdate();
        }
      }
    }

    method OnDestroy()
      requires Valid()
      modifies this`physicActive, physicObj
      ensures Valid()
      ensures State() == Destroyed(old(State()))
    {
      if physicActive {
        StopPhysics();
      }
    }

    method FixedUpdate()
      requires Valid()
      modifies physicObj`body
      ensures Valid()
      ensures State() == AfterFixedUpdate(old(State()), part.graviticAcceleration)
    {
      if physicActive {
        var rb := physicObj.body;
        if rb.Some? && !rb.value.isKinematic {
          physicObj.body := Some(rb.value.(accelerations := rb.value.accelerations + [part.graviticAcceleration]));
        }
      }
    }

    /** Schedules the deferred resync for the next physics frame. */
    method WaitPhysicUpdate()
      modifies this`resyncPending
      ensures resyncPending
    {
      resyncPending := true;
    }

    /** The scheduled resync, run after the next physics frame. */
    method ResyncAfterPhysicUpdate()
      requires Valid()
      modifies this`resyncPending, physicObj
      ensures Valid()
      ensures State() == Resynced(old(State()), part.Motion())
    {
      if resyncPending {
        physicObj.localPose := currentLocalPose;
        var rb := physicObj.body;
        if rb.Some? && !rb.value.isKinematic {
          physicObj.body := Some(rb.value.(angularVelocity := part.angularVelocity, velocity := part.velocity));
        }
        resyncPending := false;
      }
    }
  }
}
