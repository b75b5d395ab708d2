/**
 * Values shared by the physics system model: the configuration it reads
 * (the component schema), the participants it schedules, the method slots
 * of a body, the calls it makes on its driver and the trace of everything
 * it does, in order.
 */
module PhysicsTypes {
  import opened Wrappers

  /** The four backends the system can drive. */
  datatype DriverKind = Local | Worker | Network | Ammo

  /** The schema name of each backend. */
  function DriverName(k: DriverKind): string
  {
    match k
    case Local => "local"
    case Worker => "worker"
    case Network => "network"
    case Ammo => "ammo"
  }

  /** The `switch (data.driver)` of `init`: None is the "Driver not recognized" case. */
  function ParseDriver(name: string): (r: Option<DriverKind>)
    ensures r.Some? ==> DriverName(r.value) == name
    ensures r.None? <==> forall k :: DriverName(k) != name
  {
    if name == "local" then Some(Local)
    else if name == "ammo" then Some(Ammo)
    else if name == "network" then Some(Network)
    else if name == "worker" then Some(Worker)
    else None
  }

  datatype Vec3 = Vec3(x: real, y: real, z: real)

  /** The system's schema data (`this.data`). */
  datatype Config = Config(
    driver: string,
    networkUrl: string,
    workerFps: int,
    workerInterpolate: bool,
    workerInterpBufferSize: int,
    workerEngine: string,
    workerDebug: bool,
    gravity: Vec3,
    iterations: int,
    friction: real,
    restitution: real,
    contactEquationStiffness: real,
    contactEquationRelaxation: real,
    frictionEquationStiffness: real,
    frictionEquationRegularization: real,
    maxInterval: real,
    debug: bool,
    debugDrawMode: int,
    maxSubSteps: int,
    fixedTimeStep: real,
    stats: seq<string>)

  /** Schema default of `maxInterval`: never step more than four 60 Hz frames at once. */
  const DefaultMaxInterval: real := 4.0 / 60.0

  /** The constructor arguments each backend receives. */
  datatype DriverSetup =
    | LocalSetup
    | AmmoSetup
    | NetworkSetup(url: string)
    | WorkerSetup(fps: int, engine: string, interpolate: bool, interpolationBufferSize: int, debug: bool)

  function SetupFor(k: DriverKind, data: Config): DriverSetup
  {
    match k
    case Local => LocalSetup
    case Ammo => AmmoSetup
    case Network => NetworkSetup(data.networkUrl)
    case Worker => WorkerSetup(data.workerFps, data.workerEngine, data.workerInterpolate,
                               data.workerInterpBufferSize, data.workerDebug)
  }

  function KindOf(setup: DriverSetup): DriverKind
  {
    match setup
    case LocalSetup => Local
    case AmmoSetup => Ammo
    case NetworkSetup(_) => Network
    case WorkerSetup(_, _, _, _, _) => Worker
  }

  /** The three callback phases of a tick. */
  datatype Phase = BeforeStep | Step | AfterStep

  /**
   * The object identity of a participant: the phase lists hold participants
   * by identity, and `indexOf` compares identities.
   */
  type Participant = nat

  /**
   * A participant as seen at one call: its identity, and which of the
   * methods beforeStep, step, afterStep it has at that moment.
   */
  datatype Component = Component(id: Participant, beforeStep: bool, step: bool, afterStep: bool)

  /** Classification of a body, as the backends tag it. */
  datatype BodyType = Static | Dynamic | Kinematic

  /** The functions that can sit in a body's method slots. */
  datatype FunctionRef =
    | Native(tag: nat)                            // the engine's own method
    | ApplyBodyMethod(body: nat, name: string)     // proxy to driver.applyBodyMethod
    | UpdateBodyProperties(body: nat)             // proxy to driver.updateBodyProperties
    | CollideForwarder(body: nat)                 // re-emits 'collide' on the body's entity

  /** A JavaScript value as far as the slots need one. */
  datatype Value = Undefined | Function(f: FunctionRef)

  /** A property: missing altogether, or present with a value (possibly undefined). */
  datatype Prop = Absent | Present(value: Value)

  /** Reading a property: a missing one reads as undefined. */
  function Read(p: Prop): Value
  {
    if p.Present? then p.value else Undefined
  }

  datatype ContactSpec = ContactSpec(
    friction: real,
    restitution: real,
    contactEquationStiffness: real,
    contactEquationRelaxation: real,
    frictionEquationStiffness: real,
    frictionEquationRegularization: real)

  datatype Material = Material(name: string)

  datatype Contact = Contact(bodyA: nat, bodyB: nat)

  /** The option objects handed to `driver.init`. */
  datatype InitOptions =
    | CannonInit(quatNormalizeSkip: int, quatNormalizeFast: bool, solverIterations: int, gravity: Vec3)
    | AmmoInit(gravity: Vec3, debugDrawMode: int, solverIterations: int, maxSubSteps: int, fixedTimeStep: real)

  /** A call the system makes on its driver. */
  datatype DriverCall =
    | DriverInit(options: InitOptions)
    | DriverStep(dt: real)
    | DriverAddBody(body: nat, group: Option<int>, mask: Option<int>)
    | DriverRemoveBody(body: nat)
    | DriverAddConstraint(constraint: nat)
    | DriverRemoveConstraint(constraint: nat)
    | DriverAddMaterial(name: string)
    | DriverAddContactMaterial(materialA: string, materialB: string, spec: ContactSpec)
    | DriverGetDebugDrawer

  /** One observable step of the system, in the order it happens. */
  datatype Event =
    | Called(call: DriverCall)
    | Invoked(phase: Phase, participant: Participant, t: real, dt: real)
    | DrawerEnabled
    | DrawerDisabled
    | ListenerAdded(body: nat, listener: Value)
    | ListenerRemoved(body: nat, listener: Value)
    | TickDataEmitted
    | BodyStatsLogged(stats: map<string, nat>)
    | BodyDataEmitted(stats: map<string, nat>)

  datatype Error =
    | DriverNotRecognized(name: string)
    | CountBodiesNotAFunction(driver: string)
    | DriverInitFailed

  /** How a call of the system ends: normally, or by throwing. */
  datatype Outcome = Done | Thrown(error: Error)

  /** Every backend name is recognized and recognized as itself. */
  lemma ParseDriverName(k: DriverKind)
    ensures ParseDriver(DriverName(k)) == Some(k)
  {
  }
}
