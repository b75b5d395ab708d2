/**
 * The body statistics gathered every 100 ticks: per-classification counters
 * that are zeroed and then incremented once per body whose type the backend's
 * table maps, plus (for the Ammo backend) manifold and contact totals.
 */
module BodyCounts {
  import opened Wrappers
  import opened PhysicsTypes

  /** How many bodies of type t the list holds. */
  function CountOf(types: seq<BodyType>, t: BodyType): nat
  {
    if types == [] then 0
    else CountOf(types[..|types| - 1], t) + (if types[|types| - 1] == t then 1 else 0)
  }

  /** Sum of the per-manifold contact counts. */
  function Sum(xs: seq<nat>): nat
  {
    if xs == [] then 0 else Sum(xs[..|xs| - 1]) + xs[|xs| - 1]
  }

  /** The Cannon row of `bodyTypeToStatsPropertyMap`: kinematic bodies are not mapped. */
  function CannonProperty(t: BodyType): Option<string>
  {
    match t
    case Static => Some("staticBodies")
    case Dynamic => Some("dynamicBodies")
    case Kinematic => None
  }

  /** The Ammo row of `bodyTypeToStatsPropertyMap`: every type is mapped. */
  function AmmoProperty(t: BodyType): string
  {
    match t
    case Static => "staticBodies"
    case Kinematic => "kinematicBodies"
    case Dynamic => "dynamicBodies"
  }

  /** The static and dynamic counters, counted over types. */
  function CannonTypeCounts(base: map<string, nat>, types: seq<BodyType>): map<string, nat>
  {
    base["staticBodies" := CountOf(types, Static)]["dynamicBodies" := CountOf(types, Dynamic)]
  }

  /** The static, kinematic and dynamic counters, counted over types. */
  function AmmoTypeCounts(base: map<string, nat>, types: seq<BodyType>): map<string, nat>
  {
    base["staticBodies" := CountOf(types, Static)]
        ["kinematicBodies" := CountOf(types, Kinematic)]
        ["dynamicBodies" := CountOf(types, Dynamic)]
  }

  /** `statsBodyData` after `countBodiesCannon`. */
  function CannonBodyStats(base: map<string, nat>, contacts: nat, types: seq<BodyType>): map<string, nat>
  {
    CannonTypeCounts(base["contacts" := contacts], types)
  }

  /** The entries `countBodiesAmmo` writes before it counts bodies. */
  function AmmoHeader(base: map<string, nat>, manifolds: seq<nat>, collisions: nat,
                      collisionKeys: nat): map<string, nat>
  {
    base["manifolds" := |manifolds|]
        ["manifoldContacts" := Sum(manifolds)]
        ["collisions" := collisions]
        ["collisionKeys" := collisionKeys]
  }

  /** `statsBodyData` after `countBodiesAmmo`. */
  function AmmoBodyStats(base: map<string, nat>, manifolds: seq<nat>, collisions: nat,
                         collisionKeys: nat, types: seq<BodyType>): map<string, nat>
  {
    AmmoTypeCounts(AmmoHeader(base, manifolds, collisions, collisionKeys), types)
  }

  /** One more body bumps the counter its type maps to, if any, and nothing else. */
  lemma CannonCountStep(base: map<string, nat>, types: seq<BodyType>, t: BodyType)
    ensures var m := CannonTypeCounts(base, types);
      CannonTypeCounts(base, types + [t]) ==
        match CannonProperty(t)
        case Some(p) => m[p := m[p] + 1]
        case None => m
  {
    assert (types + [t])[..|types|] == types;
  }

  /** One more body bumps the counter of its type and nothing else. */
  lemma AmmoCountStep(base: map<string, nat>, types: seq<BodyType>, t: BodyType)
    ensures var m := AmmoTypeCounts(base, types);
      AmmoTypeCounts(base, types + [t]) == m[AmmoProperty(t) := m[AmmoProperty(t)] + 1]
  {
    assert (types + [t])[..|types|] == types;
  }

  /** The counter of a type is that type's multiplicity in the list. */
  lemma {:induction false} CountOfIsMultiplicity(types: seq<BodyType>, t: BodyType)
    ensures CountOf(types, t) == multiset(types)[t]
  {
    if types != [] {
      var init := types[..|types| - 1];
      CountOfIsMultiplicity(init, t);
      assert types == init + [types[|types| - 1]];
    }
  }

  /** Every body has exactly one of the three types. */
  lemma {:induction false} CountsPartition(types: seq<BodyType>)
    ensures CountOf(types, Static) + CountOf(types, Dynamic) + CountOf(types, Kinematic) == |types|
  {
    if types != [] {
      CountsPartition(types[..|types| - 1]);
    }
  }

  /**
   * After a Cannon count, static + dynamic is the number of mapped bodies,
   * that is, all bodies but the kinematic ones; other keys are kept.
   */
  lemma CannonStatsCountMapped(base: map<string, nat>, contacts: nat, types: seq<BodyType>)
    ensures var r := CannonBodyStats(base, contacts, types);
      && "staticBodies" in r && "dynamicBodies" in r && "contacts" in r
      && r["staticBodies"] + r["dynamicBodies"] == |types| - CountOf(types, Kinematic)
      && r["contacts"] == contacts
      && forall key :: key in base && key !in {"contacts", "staticBodies", "dynamicBodies"} ==>
           key in r && r[key] == base[key]
  {
    CountsPartition(types);
  }

  /**
   * After an Ammo count, static + kinematic + dynamic is the number of bodies
   * and manifoldContacts is the sum of the per-manifold contact counts.
   */
  lemma AmmoStatsCountAll(base: map<string, nat>, manifolds: seq<nat>, collisions: nat,
                          collisionKeys: nat, types: seq<BodyType>)
    ensures var r := AmmoBodyStats(base, manifolds, collisions, collisionKeys, types);
      && "staticBodies" in r && "kinematicBodies" in r && "dynamicBodies" in r
      && r["staticBodies"] + r["kinematicBodies"] + r["dynamicBodies"] == |types|
      && "manifoldContacts" in r && r["manifoldContacts"] == Sum(manifolds)
      && "manifolds" in r && r["manifolds"] == |manifolds|
  {
    CountsPartition(types);
  }

  /** Each manifold contributes its own count: the total is no less than any one of them. */
  lemma {:induction false} SumBoundsEach(xs: seq<nat>, i: nat)
    requires i < |xs|
    ensures xs[i] <= Sum(xs)
  {
    if i < |xs| - 1 {
      SumBoundsEach(xs[..|xs| - 1], i);
    }
  }
}
