# A-Frame physics system: a Dafny model of the frame orchestrator

This project models the `physics` system of aframe-physics-system (`src/system.js`).
The system owns one physics backend (the "driver"). It is chosen once by `init` from
`local`, `worker`, `network` and `ammo`. Once per render frame it runs three ordered
callback phases (beforeStep, step, afterStep) around one `driver.step` call, with the
frame delta clamped to `maxInterval`. It keeps the participant lists for those phases.
It rewrites the impulse and force methods of bodies so that they go through the driver.
Under the Ammo backend it toggles a debug drawer. When statistics are on, it counts
bodies by type every 100 ticks.

The model is imperative, like the source:

- `PhysicsSystem.System` is a class whose fields are the system's state: the three
  phase lists (holding each participant by its identity, `PhysicsTypes.Participant`,
  as the code's arrays hold object references), the listener map, the flags, the tick counter, the `statsBodyData`
  map and the drawer.
- Everything the system does that can be observed is appended to one field,
  `trace`, in order. This covers driver calls, phase callbacks, drawer
  enable/disable, listener attach/detach and statistics emits.
- `PhysicsSystem.Driver` stands for the backend. Calls made on it are only
  recorded in the trace. Its fields hold what it answers when the system queries
  it: contacts, materials, and the bodies and manifolds that body counting reads.
- `PhysicsSystem.Body` is a body with a type tag and the method slots that
  `addBody` / `removeBody` overwrite. A slot is either missing or present with a
  value, and that value may be `undefined`.

Each method has a contract that states the new state in terms of the specification
functions in the other modules:

| module | contents |
|---|---|
| Schedule | the delta clamp, the ordered trace of a tick, the 100-tick counter |
| Registry, JsArray | push, `indexOf` and `splice` on the phase lists |
| BodyCounts | the body statistics |
| BodyProxy | method-slot rewriting on bodies |
| Lifecycle | the init calls and the debug toggle |

The lemmas in those modules prove what the system promises.

Three quirks of the code are modelled as written, not fixed:

- `removeComponent` on an absent participant splices at index -1. That removes
  the last element of the list (`Registry.RemoveFirstAbsent`).
- `setDebug(true)` while a drawer exists takes the else-branch and disables the
  drawer (`Lifecycle.DebugOnTwiceDiscards`).
- `removeBody` under the worker backend copies back an `__applyImpulse` that was
  never saved. The body's `applyImpulse` becomes `undefined`
  (`BodyProxy.RestoreWithoutProxy`).

A fourth behaviour follows from the code and is modelled as written too.
`countBodies` has entries only for `ammo`, `local` and `worker`. So with statistics
on under the `network` backend, the 100th tick calls an undefined function and
throws. The counter is then left at 100 and never equals 100 again. `System.Tick`
returns `Thrown(CountBodiesNotAFunction)` in that case. `System.Valid` bounds the
counter below 100 only for the other backends.

Two more points where the code's behaviour may not be what a reader expects:

- A body of a type its backend's table does not map is not reported as an error.
  The only such case is a kinematic body under a Cannon backend. The code writes
  to a stray `undefined` key of the statistics, and the model leaves it out of
  every counter.
- An unknown driver name is fatal, but only after `init` has reset the flags,
  statistics, lists and listeners.

## Model

| member | source | states |
|---|---|---|
| PhysicsTypes.ParseDriver | src/system.js:70-95 | a name is recognized exactly when it is one of the four backend names, and it is recognized as that backend; every other name is the "Driver not recognized" error |
| PhysicsTypes.ParseDriverName | src/system.js:70-91 | every backend's own name selects that backend |
| PhysicsSystem.System.constructor | src/system.js:17-52 | a new system is uninitialized, with no driver, empty lists, statistics off and an empty trace |
| PhysicsSystem.Driver.constructor | src/system.js:70-91 | the driver keeps the constructor arguments its kind receives, and its kind is the one they name |
| PhysicsSystem.Driver.GetMaterial | src/system.js:460-462 | a material is returned exactly when the driver has one under that name |
| PhysicsSystem.System.Init | src/system.js:57-137 | an unrecognized driver throws with no driver and the system not initialized; otherwise a fresh driver of the named kind is created; if its `init` rejects, `init` throws after that one call with `initialized` unchanged and no materials; if it resolves, the system is initialized, the trace holds that kind's init calls, and then the debug toggle if the schema's debug flag is set; lists and listeners are reset in every case |
| PhysicsSystem.System.ResetForInit | src/system.js:58-69 | debug flag from the schema, statistics set up, empty phase lists and listener map, no driver |
| PhysicsSystem.System.StartDriver | src/system.js:70-136 | the driver is created and its `init` awaited; a rejected `init` ends the call with only the init call in the trace and `initialized` unchanged, so the system is marked initialized only after the driver's init has resolved; then the materials are registered, the system is marked initialized and the debug flag is applied last |
| PhysicsSystem.System.InitStats | src/system.js:139-156 | the three output flags are true iff "console", "events" or "panel" is listed; when one of them is set, statistics are tracked with the counter and body data reset, and otherwise all three are left as they were; on every valid state (`System.StatsValid`) statistics are tracked iff an output flag is set |
| Lifecycle.InitComesFirst | src/system.js:97-130 | every backend's first call is `init`, with the Ammo options exactly for the Ammo backend |
| Lifecycle.CannonInitRegistersMaterials | src/system.js:104-121 | non-Ammo backends register defaultMaterial then staticMaterial, and two contact materials; the static/default pair has friction 1.0 and restitution 0.0 |
| Lifecycle.FailedInitRegistersNothing | src/system.js:97-132 | when `driver.init` rejects, the only call made is the init call, so no material and no contact material is registered on any backend |
| Lifecycle.AmmoInitRegistersNothing | src/system.js:122-130 | the Ammo backend gets no materials and no contact materials |
| Schedule.ClampDelta | src/system.js:271 | the step is the smaller of dt/1000 and maxInterval: never above either, and equal to one of them |
| Schedule.DefaultStepBound | src/system.js:39 | with the schema's default `maxInterval` of 4/60 the driver never steps more than that, and a frame shorter than that is stepped unchanged |
| Schedule.PhaseTraceAt | src/system.js:265-281 | a phase loop invokes every participant once, in list order, with (t, dt) |
| Schedule.PhaseTraceSteps | src/system.js:265-281 | a phase loop never calls `driver.step` |
| Schedule.TickOrder | src/system.js:265-281 | an effective tick is every beforeStep participant in order, then exactly one `driver.step` with the clamped delta, then every step participant, then every afterStep participant; any list may be empty |
| PhysicsSystem.System.RunPhase | src/system.js:265-267 | the index loop appends the phase trace of its list |
| PhysicsSystem.System.StepFrame | src/system.js:260-281 | the three loops and the driver step append exactly the tick events |
| PhysicsSystem.System.Tick | src/system.js:257-309 | before initialization or with dt = 0 nothing changes; otherwise the tick events are appended, then with statistics on the tick data is emitted, the counter advances, and at 100 the bodies are counted, reported and the counter reset (network backend: throws, counter stays 100) |
| PhysicsSystem.System.RecordTick | src/system.js:283-308 | the statistics tail of a tick, case by case as in Tick |
| Schedule.CounterStaysInPeriod | src/system.js:293-307 | a counter below 100 stays below 100 over any number of ticks |
| Schedule.CounterFromZero | src/system.js:293-307 | from 0, after n ticks the counter is n mod 100, and bodies have been counted n div 100 times |
| PhysicsSystem.System.CountBodies | src/system.js:152-156 | ammo counts with the Ammo counter, local counts the world's bodies, worker counts the driver's body table |
| PhysicsSystem.System.CountBodiesCannon | src/system.js:336-349 | contacts recorded, static and dynamic counters equal to the number of bodies of each type, and other keys kept |
| PhysicsSystem.System.CountBodiesAmmo | src/system.js:311-334 | manifold count, total manifold contacts, collision sizes, and per-type counters, with other keys kept |
| BodyCounts.CannonCountStep | src/system.js:345-348 | one more body increments the counter its type maps to, if any, and nothing else |
| BodyCounts.AmmoCountStep | src/system.js:330-333 | one more body increments the counter of its type and nothing else |
| BodyCounts.CountOfIsMultiplicity | src/system.js:345-348 | a type's counter is that type's multiplicity among the bodies |
| BodyCounts.CountsPartition | src/system.js:330-333 | static + dynamic + kinematic counts add up to the number of bodies |
| BodyCounts.CannonStatsCountMapped | src/system.js:336-349 | after a Cannon count, static + dynamic is the number of mapped (non-kinematic) bodies, contacts is recorded and other keys are kept |
| BodyCounts.AmmoStatsCountAll | src/system.js:311-334 | after an Ammo count, static + kinematic + dynamic is the number of bodies and manifoldContacts is the sum of the per-manifold counts |
| BodyCounts.SumBoundsEach | src/system.js:316-319 | each manifold's contacts are part of the total |
| PhysicsSystem.System.SetDebug | src/system.js:351-362 | the flag is stored, and the drawer changes as DebugEffect says, touched only when the driver is ammo and the system is initialized |
| Lifecycle.DebugInactive | src/system.js:353 | outside ammo-and-initialized the drawer is untouched |
| Lifecycle.DebugOffDiscards | src/system.js:357-360 | setDebug(false) leaves no drawer, and disables one if there was one |
| Lifecycle.DebugOnCreates | src/system.js:354-356 | setDebug(true) with no drawer gets one from the driver and enables it |
| Lifecycle.DebugOnTwiceDiscards | src/system.js:354-360 | setDebug(true) with a drawer disables and drops it, so two in a row end without a drawer |
| PhysicsSystem.System.AddBody | src/system.js:368-391 | under local: slots proxied, listener stored and attached, then the driver gets the body; other backends: only the driver call; the optional group and mask are passed on as given, or as undefined when omitted |
| PhysicsSystem.System.RemoveBody | src/system.js:397-412 | the driver drops the body for every backend; under local and worker the stored listener is detached and deleted and the slots are restored |
| BodyProxy.ProxyRoutesThroughDriver | src/system.js:372-384 | after addBody, impulse and force go to driver proxies and the originals are saved |
| BodyProxy.RestoreAfterProxy | src/system.js:368-412 | removeBody after addBody gives back the original applyImpulse/applyForce and deletes updateProperties; a plain body is restored exactly |
| BodyProxy.RestoreWithoutProxy | src/system.js:400-408 | under worker, nothing was saved, so a body's applyImpulse method becomes undefined |
| PhysicsSystem.System.AddConstraint | src/system.js:415-417 | the constraint is passed to the driver |
| PhysicsSystem.System.RemoveConstraint | src/system.js:420-422 | the constraint removal is passed to the driver |
| PhysicsSystem.System.AddComponent | src/system.js:430-435 | the participant's identity is appended to exactly the phase lists it implements at that call; the others are unchanged |
| PhysicsSystem.System.RemoveComponent | src/system.js:442-453 | each list the participant implements at that call has the element at the indexOf of its identity spliced out, whatever methods it had when it was added |
| JsArray.IndexOf | src/system.js:445 | -1 iff absent; otherwise an index holding the element with no earlier occurrence |
| JsArray.SpliceOneInside | src/system.js:445 | splicing at an index inside the list removes exactly that element and shifts the rest |
| JsArray.SpliceMinusOne | src/system.js:445 | splicing at -1 removes the last element, and leaves an empty list empty |
| Registry.RemoveFirstPresent | src/system.js:444-446 | a present participant loses exactly its first occurrence, and order is kept |
| Registry.RemoveFirstMultiset | src/system.js:444-446 | removing a present participant takes out one copy of it |
| Registry.RemoveFirstAbsent | src/system.js:444-446 | removing an absent participant drops the last element (nothing from an empty list) |
| Registry.UnregisterAfterRegister | src/system.js:430-453 | remove after add restores a list that did not already hold the participant |
| Registry.UnregisterAfterRegisterMultiset | src/system.js:430-453 | remove after add always restores the list's contents up to order |
| Registry.RegisterTwice | src/system.js:430-435 | no deduplication: adding twice gives two more entries |
| PhysicsSystem.System.GetContacts | src/system.js:456-458 | returns the driver's contact list |
| PhysicsSystem.System.GetMaterial | src/system.js:460-462 | returns the driver's material of that name, or undefined when it has none |

## Left out

- Timing: `performance.now()` and the values in `statsTickData` are wall-clock floats. The model only records that the tick data was emitted (`TickDataEmitted`).
- UI output: `console.log` and the `el.emit` payloads are reduced to trace events carrying the body statistics map. The `stats-collector` / `stats-panel` attribute strings (src/system.js:170-246) are not modelled.
- Backends: the internals of the four drivers and of the Cannon and Ammo engines are not part of this model. Their mutating calls are recorded, and their query answers are fields of `Driver`.
- PhysicsSystem.System.GetMaterial: returns the driver's material table. That table is not filled by `addMaterial`, because the driver's bookkeeping is not modelled.
- Schema defaults: `src/constants.js` is not part of this model, so gravity, iterations and the default contact-material coefficients are fields of `Config`. So are `THREE.AmmoDebugConstants` and the other schema defaults. The model defines only the `maxInterval` default of 4/60 (`DefaultMaxInterval`, used by `Schedule.DefaultStepBound`).
- Framework: A-Frame's `registerSystem` is not modelled, and `init` is an ordinary sequential method on an explicitly constructed `System`. Its one `await`, on `driver.init`, is modelled by the parameter `initOk`, the driver's answer. What else may run while `init` waits (a tick, or another call on the system) is not modelled.
- Calls before `init` completes: a participant added before `init` would hit undefined lists in the code, while the model starts with empty lists. `addBody`, `removeBody`, the constraint calls and the two queries require a driver; the code would throw a TypeError without one.
- Participants' methods: a `Component` gives a participant's identity and the methods it has at one call. A tick invokes each listed identity; a participant that lost a phase method while still listed would make the code throw a TypeError, and that case is not modelled.
- Re-entrancy: the callbacks themselves are not modelled. A callback that registers or unregisters participants during a tick is out of scope.
- Body type tables: a body whose type has no entry (kinematic under Cannon) makes the code increment a stray `undefined` key, which becomes NaN. The model changes no counter for it.
- Listeners: each `addBody` creates a new closure. The model represents it as the value `CollideForwarder(id)`. The forwarding itself (`body.el.emit('collide', e)`) and CANNON's event-target bookkeeping are recorded only as attach/detach events.
- The debug drawer's scene-root argument and the drawer's own drawing are not modelled.
- `dt` values that are falsy but not 0 (NaN, undefined) are not modelled. `Math.min` with NaN is not modelled either.
- `examples/components/force-pushable.js` (input handling and vector arithmetic) is not part of this model.
