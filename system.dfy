/**
 * The physics system: it owns one driver, chosen once by `init`, runs the
 * three callback phases around one driver step per frame, keeps the
 * callback registry and the per-body collision listeners, toggles the Ammo
 * debug drawer and, with statistics on, counts bodies every 100 ticks.
 * Every observable action is appended to `trace`.
 */
module PhysicsSystem {
  import opened Wrappers
  import opened PhysicsTypes
  import opened Registry
  import opened Schedule
  import opened BodyCounts
  import opened BodyProxy
  import opened Lifecycle

  /**
   * A backend, seen from the system. Its own stepping and bookkeeping are
   * not modelled: the system's calls on it are recorded in the system's
   * trace, and the fields below are what it answers when queried.
   */
  class Driver {
    const setup: DriverSetup
    const kind: DriverKind
    var contacts: seq<Contact>              // getContacts(), and the worker's `contacts`
    var materials: map<string, Material>    // getMaterial(name)
    var worldBodies: seq<BodyType>          // local: world.bodies
    var worldContactCount: nat              // local: world.contacts.length
    var bodies: seq<BodyType>               // worker: Object.values(bodies)
    var els: seq<BodyType>                  // ammo: each el's ammo-body type
    var manifolds: seq<nat>                 // ammo: getNumContacts() of each manifold
    var collisionsSize: nat                 // ammo: collisions.size
    var collisionKeysLength: nat            // ammo: collisionKeys.length

    constructor (setup: DriverSetup)
      ensures this.setup == setup && kind == KindOf(setup)
      ensures contacts == [] && materials == map[] && worldBodies == [] && worldContactCount == 0
      ensures bodies == [] && els == [] && manifolds == []
      ensures collisionsSize == 0 && collisionKeysLength == 0
    {
      this.setup := setup;
      kind := KindOf(setup);
      contacts, materials, worldBodies, worldContactCount := [], map[], [], 0;
      bodies, els, manifolds := [], [], [];
      collisionsSize, collisionKeysLength := 0, 0;
    }

    /** `getMaterial(name)`: the registered material, or undefined. */
    function GetMaterial(name: string): (r: Option<Material>)
      reads this
      ensures r.Some? <==> name in materials
      ensures r.Some? ==> r.value == materials[name]
    {
      if name in materials then Some(materials[name]) else None
    }
  }

  /** A rigid body: an engine id, its type tag and the method slots the system rewrites. */
  class Body {
    const id: nat
    const bodyType: BodyType
    var applyImpulse: Prop
    var applyForce: Prop
    var savedImpulse: Prop       // __applyImpulse
    var savedForce: Prop         // __applyForce
    var updateProperties: Prop

    constructor (id: nat, bodyType: BodyType, applyImpulse: Prop, applyForce: Prop)
      ensures this.id == id && this.bodyType == bodyType
      ensures Slots() == BodySlots(applyImpulse, applyForce, Absent, Absent, Absent)
    {
      this.id, this.bodyType := id, bodyType;
      this.applyImpulse, this.applyForce := applyImpulse, applyForce;
      savedImpulse, savedForce, updateProperties := Absent, Absent, Absent;
    }

    function Slots(): BodySlots
      reads this
    {
      BodySlots(applyImpulse, applyForce, savedImpulse, savedForce, updateProperties)
    }
  }

  /** The lookup `this.listeners[id]`: undefined when no listener was stored. */
  function ListenerOf(listeners: map<nat, Value>, id: nat): Value
  {
    if id in listeners then listeners[id] else Undefined
  }

  /** What the 100th tick reports after counting. */
  function BodyStatsReport(toConsole: bool, toEvents: bool, stats: map<string, nat>): seq<Event>
  {
    (if toConsole then [BodyStatsLogged(stats)] else [])
    + (if toEvents then [BodyDataEmitted(stats)] else [])
  }

  /** A recognized name is "network" or "ammo" exactly when its backend is. */
  lemma NetworkName(name: string, k: DriverKind)
    requires ParseDriver(name) == Some(k)
    ensures name == "network" <==> k == Network
    ensures name == "ammo" <==> k == Ammo
  {
  }

  class System {
    const data: Config
    var debug: bool
    var initialized: bool
    var driver: Driver?
    var beforeStep: seq<Participant>
    var step: seq<Participant>
    var afterStep: seq<Participant>
    var listeners: map<nat, Value>
    var statsToConsole: bool
    var statsToEvents: bool
    var statsToPanel: bool
    var trackPerf: bool
    var tickCounter: nat
    var statsBodyData: map<string, nat>
    var hasDebugDrawer: bool
    var trace: seq<Event>

    /**
     * The driver exists once the system is initialized and is the backend
     * the schema names; the statistics are consistent.
     */
    ghost predicate Valid()
      reads this
    {
      && (initialized ==> driver != null)
      && (driver != null ==> ParseDriver(data.driver) == Some(driver.kind))
      && StatsValid()
    }

    /**
     * Statistics are tracked exactly when an output is on, the outputs on
     * are the ones the stats list names, and the counter stays below 100,
     * except under the network backend, which has no body counter to reset it.
     */
    ghost predicate StatsValid()
      reads this
    {
      && (trackPerf <==> statsToConsole || statsToEvents || statsToPanel)
      && (trackPerf ==>
            && statsToConsole == ("console" in data.stats)
            && statsToEvents == ("events" in data.stats)
            && statsToPanel == ("panel" in data.stats))
      && (trackPerf && data.driver != "network" ==> tickCounter < StatsPeriod)
    }

    /** The system as the framework creates it, before `init` has run. */
    constructor (data: Config)
      ensures this.data == data && Valid()
      ensures !initialized && driver == null && !debug && !hasDebugDrawer
      ensures beforeStep == [] && step == [] && afterStep == [] && listeners == map[]
      ensures !statsToConsole && !statsToEvents && !statsToPanel && !trackPerf
      ensures tickCounter == 0 && statsBodyData == map[] && trace == []
    {
      this.data := data;
      debug, initialized, driver := false, false, null;
      beforeStep, step, afterStep, listeners := [], [], [], map[];
      statsToConsole, statsToEvents, statsToPanel, trackPerf := false, false, false, false;
      tickCounter, statsBodyData, hasDebugDrawer, trace := 0, map[], false, [];
    }

    /** `initStats`: statistics are tracked iff the stats list names an output. */
    method InitStats()
      requires Valid()
      modifies this`statsToConsole, this`statsToEvents, this`statsToPanel, this`trackPerf,
               this`tickCounter, this`statsBodyData
      ensures Valid()
      ensures statsToConsole == ("console" in data.stats)
      ensures statsToEvents == ("events" in data.stats)
      ensures statsToPanel == ("panel" in data.stats)
      ensures trackPerf <==> statsToConsole || statsToEvents || statsToPanel
      ensures statsToConsole || statsToEvents || statsToPanel ==>
        tickCounter == 0 && statsBodyData == map[]
      ensures !(statsToConsole || statsToEvents || statsToPanel) ==>
        trackPerf == old(trackPerf) && tickCounter == old(tickCounter) &&
        statsBodyData == old(statsBodyData)
    {
      statsToConsole := "console" in data.stats;
      statsToEvents := "events" in data.stats;
      statsToPanel := "panel" in data.stats;
      if statsToConsole || statsToEvents || statsToPanel {
        trackPerf := true;
        tickCounter := 0;
        statsBodyData := map[];
      }
    }

    /**
     * `init`: resets the registry and listeners, picks the backend (throwing
     * on an unknown name), initialises it and registers the materials, marks
     * the system initialized and finally applies the schema's debug flag.
     * `initOk` is the driver's answer to `driver.init`: when it rejects, the
     * rest of `init` is skipped.
     */
    method Init(initOk: bool) returns (r: Outcome)
      requires Valid()
      modifies this
      ensures Valid()
      ensures statsToConsole == ("console" in data.stats)
      ensures statsToEvents == ("events" in data.stats)
      ensures statsToPanel == ("panel" in data.stats)
      ensures statsToConsole || statsToEvents || statsToPanel ==>
        trackPerf && tickCounter == 0 && statsBodyData == map[]
      ensures !(statsToConsole || statsToEvents || statsToPanel) ==>
        trackPerf == old(trackPerf) && tickCounter == old(tickCounter) &&
        statsBodyData == old(statsBodyData)
      ensures beforeStep == [] && step == [] && afterStep == [] && listeners == map[]
      ensures debug == data.debug
      ensures ParseDriver(data.driver).None? ==>
        && r == Thrown(DriverNotRecognized(data.driver))
        && driver == null && !initialized
        && trace == old(trace) && hasDebugDrawer == old(hasDebugDrawer)
      ensures ParseDriver(data.driver).Some? ==>
        var k := ParseDriver(data.driver).value;
        && driver != null && fresh(driver) && driver.kind == k && driver.setup == SetupFor(k, data)
      ensures ParseDriver(data.driver).Some? && !initOk ==>
        var k := ParseDriver(data.driver).value;
        && r == Thrown(DriverInitFailed) && initialized == old(initialized)
        && trace == old(trace) + InitCalls(data, k)[..1] && hasDebugDrawer == old(hasDebugDrawer)
      ensures ParseDriver(data.driver).Some? && initOk ==>
        var k := ParseDriver(data.driver).value;
        var calls := old(trace) + InitCalls(data, k);
        var d := DebugEffect(k == Ammo, old(hasDebugDrawer), true);
        && r == Done && initialized
        && (data.debug ==> trace == calls + d.events && hasDebugDrawer == d.hasDrawer)
        && (!data.debug ==> trace == calls && hasDebugDrawer == old(hasDebugDrawer))
    {
      ResetForInit();
      var kind := ParseDriver(data.driver);
      if kind.None? {
        return Thrown(DriverNotRecognized(data.driver));
      }
      r := StartDriver(kind.value, initOk);
    }

    /** The first half of `init`: flags, statistics, registry and listeners, no driver. */
    method ResetForInit()
      requires Valid()
      modifies this`debug, this`statsToConsole, this`statsToEvents, this`statsToPanel,
               this`trackPerf, this`tickCounter, this`statsBodyData,
               this`beforeStep, this`step, this`afterStep, this`listeners, this`driver
      ensures debug == data.debug
      ensures statsToConsole == ("console" in data.stats)
      ensures statsToEvents == ("events" in data.stats)
      ensures statsToPanel == ("panel" in data.stats)
      ensures statsToConsole || statsToEvents || statsToPanel ==>
        trackPerf && tickCounter == 0 && statsBodyData == map[]
      ensures !(statsToConsole || statsToEvents || statsToPanel) ==>
        trackPerf == old(trackPerf) && tickCounter == old(tickCounter) &&
        statsBodyData == old(statsBodyData)
      ensures beforeStep == [] && step == [] && afterStep == [] && listeners == map[]
      ensures driver == null && StatsValid()
      ensures initialized == old(initialized)
    {
      debug := data.debug;
      InitStats();
      beforeStep, step, afterStep := [], [], [];
      listeners := map[];
      driver := null;
    }

    /**
     * The second half of `init`, once the backend name was recognized as k:
     * the driver is constructed and `driver.init` awaited. When it rejects,
     * nothing else happens and the system is not marked initialized; else
     * the materials are registered, and only then is the system marked
     * initialized and the debug flag applied.
     */
    method StartDriver(k: DriverKind, initOk: bool) returns (r: Outcome)
      requires ParseDriver(data.driver) == Some(k) && driver == null
      requires StatsValid()
      modifies this`driver, this`initialized, this`trace, this`hasDebugDrawer, this`debug
      ensures Valid()
      ensures driver != null && fresh(driver) && driver.kind == k && driver.setup == SetupFor(k, data)
      ensures debug == old(debug)
      ensures !initOk ==>
        && r == Thrown(DriverInitFailed) && initialized == old(initialized)
        && trace == old(trace) + InitCalls(data, k)[..1] && hasDebugDrawer == old(hasDebugDrawer)
      ensures initOk ==>
        var calls := old(trace) + InitCalls(data, k);
        var d := DebugEffect(k == Ammo, old(hasDebugDrawer), true);
        && r == Done && initialized
        && (debug ==> trace == calls + d.events && hasDebugDrawer == d.hasDrawer)
        && (!debug ==> trace == calls && hasDebugDrawer == old(hasDebugDrawer))
    {
      NetworkName(data.driver, k);
      assert KindOf(SetupFor(k, data)) == k;
      driver := new Driver(SetupFor(k, data));
      var calls := InitCalls(data, k);
      trace := trace + calls[..1];
      if !initOk {
        return Thrown(DriverInitFailed);
      }
      trace := trace + calls[1..];
      assert old(trace) + calls[..1] + calls[1..] == old(trace) + calls;
      initialized := true;
      r := Done;
      if debug {
        SetDebug(true);
      }
    }

    /**
     * `setDebug`: stores the flag; only an initialized Ammo system touches
     * the drawer, creating and enabling one when asked for it and none
     * exists, and otherwise disabling and dropping the one it has.
     */
    method SetDebug(debug: bool)
      requires Valid()
      modifies this`debug, this`hasDebugDrawer, this`trace
      ensures Valid()
      ensures this.debug == debug
      ensures var d := DebugEffect(data.driver == "ammo" && initialized, old(hasDebugDrawer), debug);
        trace == old(trace) + d.events && hasDebugDrawer == d.hasDrawer
    {
      this.debug := debug;
      if data.driver == "ammo" && initialized {
        if debug && !hasDebugDrawer {
          trace := trace + [Called(DriverGetDebugDrawer), DrawerEnabled];
          hasDebugDrawer := true;
        } else if hasDebugDrawer {
          trace := trace + [DrawerDisabled];
          hasDebugDrawer := false;
        }
      }
    }

    /** Appends one phase's invocations, in list order. */
    method RunPhase(phase: Phase, participants: seq<Participant>, t: real, dt: real)
      modifies this`trace
      ensures trace == old(trace) + PhaseTrace(phase, participants, t, dt)
    {
      var i := 0;
      while i < |participants|
        invariant 0 <= i <= |participants|
        invariant trace == old(trace) + PhaseTrace(phase, participants[..i], t, dt)
      {
        assert participants[..i + 1][..i] == participants[..i];
        trace := trace + [Invoked(phase, participants[i], t, dt)];
        i := i + 1;
      }
      assert participants[..i] == participants;
    }

    /**
     * `tick`: nothing happens before initialization or on a zero delta.
     * Otherwise the phases run around one driver step with the clamped delta;
     * with statistics on, the tick data is emitted and every 100th tick
     * counts the bodies and reports them. The network backend has no body
     * counter, so its 100th tick throws and leaves the counter at 100.
     */
    method Tick(t: real, dt: real) returns (r: Outcome)
      requires Valid()
      modifies this`trace, this`tickCounter, this`statsBodyData
      ensures Valid()
      ensures !initialized || dt == 0.0 ==>
        r == Done && trace == old(trace) && tickCounter == old(tickCounter) &&
        statsBodyData == old(statsBodyData)
      ensures initialized && dt != 0.0 && !trackPerf ==>
        && r == Done && tickCounter == old(tickCounter) && statsBodyData == old(statsBodyData)
        && trace == old(trace) + TickEvents(beforeStep, step, afterStep, t, dt, data.maxInterval)
      ensures initialized && dt != 0.0 && trackPerf && old(tickCounter) + 1 != StatsPeriod ==>
        && r == Done && tickCounter == old(tickCounter) + 1 && statsBodyData == old(statsBodyData)
        && trace == old(trace) + TickEvents(beforeStep, step, afterStep, t, dt, data.maxInterval)
                   + [TickDataEmitted]
      ensures initialized && dt != 0.0 && trackPerf && old(tickCounter) + 1 == StatsPeriod
              && driver.kind == Network ==>
        && r == Thrown(CountBodiesNotAFunction(data.driver))
        && tickCounter == StatsPeriod && statsBodyData == old(statsBodyData)
        && trace == old(trace) + TickEvents(beforeStep, step, afterStep, t, dt, data.maxInterval)
                   + [TickDataEmitted]
      ensures initialized && dt != 0.0 && trackPerf && old(tickCounter) + 1 == StatsPeriod
              && driver.kind != Network ==>
        && r == Done && tickCounter == 0
        && (driver.kind == Ammo ==>
              statsBodyData == AmmoBodyStats(old(statsBodyData), driver.manifolds,
                                             driver.collisionsSize, driver.collisionKeysLength,
                                             driver.els))
        && (driver.kind == Local ==>
              statsBodyData == CannonBodyStats(old(statsBodyData), driver.worldContactCount,
                                               driver.worldBodies))
        && (driver.kind == Worker ==>
              statsBodyData == CannonBodyStats(old(statsBodyData), |driver.contacts|, driver.bodies))
        && trace == old(trace) + TickEvents(beforeStep, step, afterStep, t, dt, data.maxInterval)
                   + [TickDataEmitted]
                   + BodyStatsReport(statsToConsole, statsToEvents || statsToPanel, statsBodyData)
      ensures initialized && dt != 0.0 && trackPerf && data.driver != "network" ==>
        tickCounter == NextCounter(old(tickCounter))
    {
      r := Done;
      if !initialized || dt == 0.0 {
        return;
      }
      StepFrame(t, dt);
      if trackPerf {
        r := RecordTick();
      }
    }

    /** The part of an effective tick before its statistics. */
    method StepFrame(t: real, dt: real)
      modifies this`trace
      ensures trace == old(trace) + TickEvents(beforeStep, step, afterStep, t, dt, data.maxInterval)
    {
      ghost var start := trace;
      RunPhase(BeforeStep, beforeStep, t, dt);
      ghost var pb := PhaseTrace(BeforeStep, beforeStep, t, dt);
      var st := Called(DriverStep(ClampDelta(dt, data.maxInterval)));
      trace := trace + [st];
      RunPhase(Step, step, t, dt);
      ghost var ps := PhaseTrace(Step, step, t, dt);
      RunPhase(AfterStep, afterStep, t, dt);
      ghost var pa := PhaseTrace(AfterStep, afterStep, t, dt);
      assert trace == start + (pb + [st] + ps + pa);
    }

    /**
     * The statistics part of an effective tick: emit the tick data, advance
     * the counter and, at 100, count the bodies and report them.
     */
    method RecordTick() returns (r: Outcome)
      requires Valid() && initialized && trackPerf
      modifies this`trace, this`tickCounter, this`statsBodyData
      ensures Valid()
      ensures old(tickCounter) + 1 != StatsPeriod ==>
        && r == Done && tickCounter == old(tickCounter) + 1 && statsBodyData == old(statsBodyData)
        && trace == old(trace) + [TickDataEmitted]
      ensures old(tickCounter) + 1 == StatsPeriod && driver.kind == Network ==>
        && r == Thrown(CountBodiesNotAFunction(data.driver))
        && tickCounter == StatsPeriod && statsBodyData == old(statsBodyData)
        && trace == old(trace) + [TickDataEmitted]
      ensures old(tickCounter) + 1 == StatsPeriod && driver.kind != Network ==>
        && r == Done && tickCounter == 0
        && (driver.kind == Ammo ==>
              statsBodyData == AmmoBodyStats(old(statsBodyData), driver.manifolds,
                                             driver.collisionsSize, driver.collisionKeysLength,
                                             driver.els))
        && (driver.kind == Local ==>
              statsBodyData == CannonBodyStats(old(statsBodyData), driver.worldContactCount,
                                               driver.worldBodies))
        && (driver.kind == Worker ==>
              statsBodyData == CannonBodyStats(old(statsBodyData), |driver.contacts|, driver.bodies))
        && trace == old(trace) + [TickDataEmitted]
                   + BodyStatsReport(statsToConsole, statsToEvents || statsToPanel, statsBodyData)
      ensures data.driver != "network" ==> tickCounter == NextCounter(old(tickCounter))
    {
      r := Done;
      NetworkName(data.driver, driver.kind);
      trace := trace + [TickDataEmitted];
      tickCounter := tickCounter + 1;
      if tickCounter == StatsPeriod {
        if driver.kind == Network {
          return Thrown(CountBodiesNotAFunction(data.driver));
        }
        CountBodies();
        trace := trace + BodyStatsReport(statsToConsole, statsToEvents || statsToPanel, statsBodyData);
        tickCounter := 0;
      }
    }

    /** `this.countBodies[this.data.driver]()` for the three backends that have an entry. */
    method CountBodies()
      requires driver != null && driver.kind != Network
      modifies this`statsBodyData
      ensures driver.kind == Ammo ==>
        statsBodyData == AmmoBodyStats(old(statsBodyData), driver.manifolds,
                                       driver.collisionsSize, driver.collisionKeysLength, driver.els)
      ensures driver.kind == Local ==>
        statsBodyData == CannonBodyStats(old(statsBodyData), driver.worldContactCount, driver.worldBodies)
      ensures driver.kind == Worker ==>
        statsBodyData == CannonBodyStats(old(statsBodyData), |driver.contacts|, driver.bodies)
    {
      match driver.kind {
        case Ammo => CountBodiesAmmo();
        case Local => CountBodiesCannon(false);
        case Worker => CountBodiesCannon(true);
      }
    }

    /**
     * `countBodiesCannon`: records the contact count, zeroes the static and
     * dynamic counters and adds one per body of a mapped type.
     */
    method CountBodiesCannon(worker: bool)
      requires driver != null
      modifies this`statsBodyData
      ensures statsBodyData ==
        CannonBodyStats(old(statsBodyData),
                        if worker then |driver.contacts| else driver.worldContactCount,
                        if worker then driver.bodies else driver.worldBodies)
    {
      var contacts := if worker then |driver.contacts| else driver.worldContactCount;
      var bodies := if worker then driver.bodies else driver.worldBodies;
      var base := statsBodyData["contacts" := contacts];
      statsBodyData := base["staticBodies" := 0]["dynamicBodies" := 0];
      var i := 0;
      while i < |bodies|
        invariant 0 <= i <= |bodies|
        invariant statsBodyData == CannonTypeCounts(base, bodies[..i])
      {
        assert bodies[..i + 1] == bodies[..i] + [bodies[i]];
        CannonCountStep(base, bodies[..i], bodies[i]);
        match CannonProperty(bodies[i]) {
          case Some(property) =>
            statsBodyData := statsBodyData[property := statsBodyData[property] + 1];
          case None =>
        }
        i := i + 1;
      }
      assert bodies[..i] == bodies;
    }

    /**
     * `countBodiesAmmo`: records the manifold count and the total of their
     * contacts, the collision sizes, then zeroes the three type counters and
     * adds one per body.
     */
    method CountBodiesAmmo()
      requires driver != null
      modifies this`statsBodyData
      ensures statsBodyData ==
        AmmoBodyStats(old(statsBodyData), driver.manifolds, driver.collisionsSize,
                      driver.collisionKeysLength, driver.els)
    {
      var manifolds := driver.manifolds;
      var start := statsBodyData["manifolds" := |manifolds|];
      statsBodyData := start["manifoldContacts" := 0];
      var i := 0;
      while i < |manifolds|
        invariant 0 <= i <= |manifolds|
        invariant statsBodyData == start["manifoldContacts" := Sum(manifolds[..i])]
      {
        assert manifolds[..i + 1][..i] == manifolds[..i];
        statsBodyData := statsBodyData["manifoldContacts" := statsBodyData["manifoldContacts"] + manifolds[i]];
        i := i + 1;
      }
      assert manifolds[..i] == manifolds;
      statsBodyData := statsBodyData["collisions" := driver.collisionsSize];
      statsBodyData := statsBodyData["collisionKeys" := driver.collisionKeysLength];
      ghost var header := statsBodyData;
      assert header == AmmoHeader(old(statsBodyData), manifolds, driver.collisionsSize,
                                  driver.collisionKeysLength);
      statsBodyData := statsBodyData["staticBodies" := 0]["kinematicBodies" := 0]["dynamicBodies" := 0];
      var els := driver.els;
      var j := 0;
      while j < |els|
        invariant 0 <= j <= |els|
        invariant statsBodyData == AmmoTypeCounts(header, els[..j])
      {
        assert els[..j + 1] == els[..j] + [els[j]];
        AmmoCountStep(header, els[..j], els[j]);
        var property := AmmoProperty(els[j]);
        statsBodyData := statsBodyData[property := statsBodyData[property] + 1];
        j := j + 1;
      }
      assert els[..j] == els;
    }

    /**
     * `addBody`: under the local backend the body's impulse and force methods
     * are saved and replaced by driver proxies, an updateProperties proxy is
     * added and a collide listener is stored and attached; every backend then
     * receives the body, with the collision group and mask when given and
     * undefined (None) when omitted.
     */
    method AddBody(body: Body, group: Option<int>, mask: Option<int>)
      requires Valid() && driver != null
      modifies this`listeners, this`trace, body
      ensures Valid()
      ensures data.driver == "local" ==>
        && body.Slots() == Proxied(old(body.Slots()), body.id)
        && listeners == old(listeners)[body.id := Function(CollideForwarder(body.id))]
        && trace == old(trace) + [ListenerAdded(body.id, Function(CollideForwarder(body.id))),
                                  Called(DriverAddBody(body.id, group, mask))]
      ensures data.driver != "local" ==>
        && body.Slots() == old(body.Slots()) && listeners == old(listeners)
        && trace == old(trace) + [Called(DriverAddBody(body.id, group, mask))]
    {
      if data.driver == "local" {
        body.savedImpulse := Present(Read(body.applyImpulse));
        body.applyImpulse := Present(Function(ApplyBodyMethod(body.id, "applyImpulse")));
        body.savedForce := Present(Read(body.applyForce));
        body.applyForce := Present(Function(ApplyBodyMethod(body.id, "applyForce")));
        body.updateProperties := Present(Function(UpdateBodyProperties(body.id)));
        listeners := listeners[body.id := Function(CollideForwarder(body.id))];
        trace := trace + [ListenerAdded(body.id, listeners[body.id])];
      }
      trace := trace + [Called(DriverAddBody(body.id, group, mask))];
    }

    /**
     * `removeBody`: every backend drops the body; under the local and worker
     * backends the stored listener is detached and deleted and the saved
     * methods are copied back (undefined when nothing was saved).
     */
    method RemoveBody(body: Body)
      requires Valid() && driver != null
      modifies this`listeners, this`trace, body
      ensures Valid()
      ensures data.driver == "local" || data.driver == "worker" ==>
        && body.Slots() == Restored(old(body.Slots()))
        && listeners == old(listeners) - {body.id}
        && trace == old(trace) + [Called(DriverRemoveBody(body.id)),
                                  ListenerRemoved(body.id, ListenerOf(old(listeners), body.id))]
      ensures !(data.driver == "local" || data.driver == "worker") ==>
        && body.Slots() == old(body.Slots()) && listeners == old(listeners)
        && trace == old(trace) + [Called(DriverRemoveBody(body.id))]
    {
      trace := trace + [Called(DriverRemoveBody(body.id))];
      if data.driver == "local" || data.driver == "worker" {
        trace := trace + [ListenerRemoved(body.id, ListenerOf(listeners, body.id))];
        listeners := listeners - {body.id};
        body.applyImpulse := Present(Read(body.savedImpulse));
        body.savedImpulse := Absent;
        body.applyForce := Present(Read(body.savedForce));
        body.savedForce := Absent;
        body.updateProperties := Absent;
      }
    }

    /** `addConstraint`: handed straight to the driver. */
    method AddConstraint(constraint: nat)
      requires driver != null
      modifies this`trace
      ensures trace == old(trace) + [Called(DriverAddConstraint(constraint))]
    {
      trace := trace + [Called(DriverAddConstraint(constraint))];
    }

    /** `removeConstraint`: handed straight to the driver. */
    method RemoveConstraint(constraint: nat)
      requires driver != null
      modifies this`trace
      ensures trace == old(trace) + [Called(DriverRemoveConstraint(constraint))]
    {
      trace := trace + [Called(DriverRemoveConstraint(constraint))];
    }

    /** `addComponent`: appended to each phase list it implements, duplicates included. */
    method AddComponent(component: Component)
      modifies this`beforeStep, this`step, this`afterStep
      ensures beforeStep == Registered(old(beforeStep), component.beforeStep, component.id)
      ensures step == Registered(old(step), component.step, component.id)
      ensures afterStep == Registered(old(afterStep), component.afterStep, component.id)
    {
      if component.beforeStep { beforeStep := beforeStep + [component.id]; }
      if component.step { step := step + [component.id]; }
      if component.afterStep { afterStep := afterStep + [component.id]; }
    }

    /**
     * `removeComponent`: splices `indexOf(component)` out of each phase list
     * it implements now; for an absent component that index is -1 and the
     * last element of the list goes instead. The lookup is by identity, so a
     * participant whose methods changed since it was added is still found.
     */
    method RemoveComponent(component: Component)
      modifies this`beforeStep, this`step, this`afterStep
      ensures beforeStep == Unregistered(old(beforeStep), component.beforeStep, component.id)
      ensures step == Unregistered(old(step), component.step, component.id)
      ensures afterStep == Unregistered(old(afterStep), component.afterStep, component.id)
    {
      if component.beforeStep {
        beforeStep := JsArray.SpliceOne(beforeStep, JsArray.IndexOf(beforeStep, component.id));
      }
      if component.step {
        step := JsArray.SpliceOne(step, JsArray.IndexOf(step, component.id));
      }
      if component.afterStep {
        afterStep := JsArray.SpliceOne(afterStep, JsArray.IndexOf(afterStep, component.id));
      }
    }

    /** `getContacts`: the driver's contact list. */
    method GetContacts() returns (r: seq<Contact>)
      requires driver != null
      ensures r == driver.contacts
    {
      r := driver.contacts;
    }

    /** `getMaterial`: the driver's material of that name, or undefined. */
    method GetMaterial(name: string) returns (r: Option<Material>)
      requires driver != null
      ensures r.Some? <==> name in driver.materials
      ensures r.Some? ==> r.value == driver.materials[name]
    {
      r := driver.GetMaterial(name);
    }
  }
}
