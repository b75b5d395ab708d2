/**
 * The driver calls `init` makes once a backend is chosen, and the effect of
 * `setDebug` on the Ammo debug drawer.
 */
module Lifecycle {
  import opened PhysicsTypes

  const DefaultMaterial: string := "defaultMaterial"
  const StaticMaterial: string := "staticMaterial"

  /** Contact parameters of the default/default pair: all from the schema. */
  function DefaultContact(data: Config): ContactSpec
  {
    ContactSpec(data.friction, data.restitution, data.contactEquationStiffness,
                data.contactEquationRelaxation, data.frictionEquationStiffness,
                data.frictionEquationRegularization)
  }

  /** Contact parameters of the static/default pair: friction 1, restitution 0. */
  function StaticContact(data: Config): ContactSpec
  {
    ContactSpec(1.0, 0.0, data.contactEquationStiffness, data.contactEquationRelaxation,
                data.frictionEquationStiffness, data.frictionEquationRegularization)
  }

  /** The driver calls of `init` for the Cannon-based backends (local, worker, network). */
  function CannonInitCalls(data: Config): seq<Event>
  {
    [Called(DriverInit(CannonInit(0, false, data.iterations, data.gravity))),
     Called(DriverAddMaterial(DefaultMaterial)),
     Called(DriverAddMaterial(StaticMaterial)),
     Called(DriverAddContactMaterial(DefaultMaterial, DefaultMaterial, DefaultContact(data))),
     Called(DriverAddContactMaterial(StaticMaterial, DefaultMaterial, StaticContact(data)))]
  }

  /** The driver calls of `init` after the backend has been constructed. */
  function InitCalls(data: Config, k: DriverKind): seq<Event>
  {
    if k != Ammo then CannonInitCalls(data)
    else
      [Called(DriverInit(AmmoInit(data.gravity, data.debugDrawMode, data.iterations,
                                  data.maxSubSteps, data.fixedTimeStep)))]
  }

  /** The names passed to `addMaterial`, in call order. */
  function MaterialNames(events: seq<Event>): seq<string>
  {
    if events == [] then []
    else
      var e := events[|events| - 1];
      MaterialNames(events[..|events| - 1])
      + (if e.Called? && e.call.DriverAddMaterial? then [e.call.name] else [])
  }

  /** The `addContactMaterial` calls, in call order. */
  function ContactMaterials(events: seq<Event>): seq<DriverCall>
  {
    if events == [] then []
    else
      var e := events[|events| - 1];
      ContactMaterials(events[..|events| - 1])
      + (if e.Called? && e.call.DriverAddContactMaterial? then [e.call] else [])
  }

  lemma {:induction false} MaterialsAppend(a: seq<Event>, b: seq<Event>)
    ensures MaterialNames(a + b) == MaterialNames(a) + MaterialNames(b)
    ensures ContactMaterials(a + b) == ContactMaterials(a) + ContactMaterials(b)
  {
    if b == [] {
      assert a + b == a;
    } else {
      var b' := b[..|b| - 1];
      assert (a + b)[..|a + b| - 1] == a + b';
      MaterialsAppend(a, b');
    }
  }

  lemma MaterialsOne(e: Event)
    ensures MaterialNames([e]) == (if e.Called? && e.call.DriverAddMaterial? then [e.call.name] else [])
    ensures ContactMaterials([e]) ==
      (if e.Called? && e.call.DriverAddContactMaterial? then [e.call] else [])
  {
    assert [e][..0] == [];
  }

  /** Every backend's driver is initialised before anything else, with its own options. */
  lemma InitComesFirst(data: Config, k: DriverKind)
    ensures var calls := InitCalls(data, k);
      |calls| > 0 && calls[0].Called? && calls[0].call.DriverInit?
      && (calls[0].call.options.AmmoInit? <==> k == Ammo)
  {
  }

  /**
   * When `driver.init` rejects, the trace of `init` stops at the init call:
   * no material and no contact material is registered, on any backend.
   */
  lemma FailedInitRegistersNothing(data: Config, k: DriverKind)
    ensures var done := InitCalls(data, k)[..1];
      && |done| == 1 && done[0].Called? && done[0].call.DriverInit?
      && MaterialNames(done) == [] && ContactMaterials(done) == []
  {
    MaterialsOne(InitCalls(data, k)[0]);
    assert InitCalls(data, k)[..1] == [InitCalls(data, k)[0]];
  }

  /** Five calls contribute their materials one after the other. */
  lemma MaterialsOfFive(e0: Event, e1: Event, e2: Event, e3: Event, e4: Event)
    ensures MaterialNames([e0, e1, e2, e3, e4]) ==
      MaterialNames([e0]) + MaterialNames([e1]) + MaterialNames([e2]) + MaterialNames([e3])
      + MaterialNames([e4])
    ensures ContactMaterials([e0, e1, e2, e3, e4]) ==
      ContactMaterials([e0]) + ContactMaterials([e1]) + ContactMaterials([e2])
      + ContactMaterials([e3]) + ContactMaterials([e4])
  {
    assert [e0, e1, e2, e3, e4] == [e0] + [e1] + [e2] + [e3] + [e4];
    MaterialsAppend([e0], [e1]);
    MaterialsAppend([e0] + [e1], [e2]);
    MaterialsAppend([e0] + [e1] + [e2], [e3]);
    MaterialsAppend([e0] + [e1] + [e2] + [e3], [e4]);
  }

  /**
   * The non-Ammo backends register defaultMaterial and then staticMaterial,
   * and two contact materials: the default/default pair from the schema and
   * the static/default pair with friction 1.0 and restitution 0.0.
   */
  lemma CannonInitRegistersMaterials(data: Config)
    ensures MaterialNames(CannonInitCalls(data)) == [DefaultMaterial, StaticMaterial]
    ensures ContactMaterials(CannonInitCalls(data)) ==
      [DriverAddContactMaterial(DefaultMaterial, DefaultMaterial, DefaultContact(data)),
       DriverAddContactMaterial(StaticMaterial, DefaultMaterial, StaticContact(data))]
    ensures StaticContact(data).friction == 1.0 && StaticContact(data).restitution == 0.0
  {
    var c := CannonInitCalls(data);
    MaterialsOfFive(c[0], c[1], c[2], c[3], c[4]);
    MaterialsOne(c[0]);
    MaterialsOne(c[1]);
    MaterialsOne(c[2]);
    MaterialsOne(c[3]);
    MaterialsOne(c[4]);
  }

  /** The Ammo backend registers no materials. */
  lemma AmmoInitRegistersNothing(data: Config)
    ensures MaterialNames(InitCalls(data, Ammo)) == []
    ensures ContactMaterials(InitCalls(data, Ammo)) == []
  {
    MaterialsOne(InitCalls(data, Ammo)[0]);
  }

  /** What `setDebug` leaves: the events it causes and whether a drawer exists. */
  datatype DebugOutcome = DebugOutcome(events: seq<Event>, hasDrawer: bool)

  /**
   * `setDebug(debug)`; `active` is "the driver is ammo and the system is
   * initialized", the only case in which the drawer is touched.
   */
  function DebugEffect(active: bool, hasDrawer: bool, debug: bool): DebugOutcome
  {
    if !active then DebugOutcome([], hasDrawer)
    else if debug && !hasDrawer then DebugOutcome([Called(DriverGetDebugDrawer), DrawerEnabled], true)
    else if hasDrawer then DebugOutcome([DrawerDisabled], false)
    else DebugOutcome([], hasDrawer)
  }

  /** Outside the active case the drawer is never touched. */
  lemma DebugInactive(hasDrawer: bool, debug: bool)
    ensures DebugEffect(false, hasDrawer, debug) == DebugOutcome([], hasDrawer)
  {
  }

  /** setDebug(false) leaves no drawer, disabling the one that was there. */
  lemma DebugOffDiscards(hasDrawer: bool)
    ensures !DebugEffect(true, hasDrawer, false).hasDrawer
    ensures DebugEffect(true, hasDrawer, false).events == (if hasDrawer then [DrawerDisabled] else [])
  {
  }

  /** setDebug(true) without a drawer fetches one from the driver and enables it. */
  lemma DebugOnCreates()
    ensures DebugEffect(true, false, true) ==
      DebugOutcome([Called(DriverGetDebugDrawer), DrawerEnabled], true)
  {
  }

  /**
   * setDebug(true) while a drawer exists falls into the else-branch and
   * disables it, so two setDebug(true) in a row end without a drawer.
   */
  lemma DebugOnTwiceDiscards()
    ensures DebugEffect(true, true, true) == DebugOutcome([DrawerDisabled], false)
    ensures !DebugEffect(true, DebugEffect(true, false, true).hasDrawer, true).hasDrawer
  {
  }
}
