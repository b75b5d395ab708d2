/**
 * The method slots `addBody` and `removeBody` rewrite on a body under the
 * local backend: applyImpulse and applyForce are saved into __applyImpulse
 * and __applyForce and replaced by proxies into the driver, and an
 * updateProperties proxy is added; removal copies the saved slots back and
 * deletes the saved slots and updateProperties.
 */
module BodyProxy {
  import opened PhysicsTypes

  datatype BodySlots = BodySlots(
    applyImpulse: Prop,
    applyForce: Prop,
    savedImpulse: Prop,      // __applyImpulse
    savedForce: Prop,        // __applyForce
    updateProperties: Prop)

  /** The slots after `addBody` under the local backend. */
  function Proxied(s: BodySlots, id: nat): BodySlots
  {
    BodySlots(
      Present(Function(ApplyBodyMethod(id, "applyImpulse"))),
      Present(Function(ApplyBodyMethod(id, "applyForce"))),
      Present(Read(s.applyImpulse)),
      Present(Read(s.applyForce)),
      Present(Function(UpdateBodyProperties(id))))
  }

  /** The slots after `removeBody` under the local or worker backend. */
  function Restored(s: BodySlots): BodySlots
  {
    BodySlots(Present(Read(s.savedImpulse)), Present(Read(s.savedForce)), Absent, Absent, Absent)
  }

  /** What JavaScript code reading the five properties would see. */
  function Observed(s: BodySlots): seq<Value>
  {
    [Read(s.applyImpulse), Read(s.applyForce), Read(s.savedImpulse), Read(s.savedForce),
     Read(s.updateProperties)]
  }

  /** After addBody, impulses and forces go through the driver and the originals are saved. */
  lemma ProxyRoutesThroughDriver(s: BodySlots, id: nat)
    ensures Read(Proxied(s, id).applyImpulse) == Function(ApplyBodyMethod(id, "applyImpulse"))
    ensures Read(Proxied(s, id).applyForce) == Function(ApplyBodyMethod(id, "applyForce"))
    ensures Read(Proxied(s, id).savedImpulse) == Read(s.applyImpulse)
    ensures Read(Proxied(s, id).savedForce) == Read(s.applyForce)
  {
  }

  /**
   * removeBody after addBody gives back the original applyImpulse and
   * applyForce and deletes updateProperties; a body that carried none of the
   * three added slots reads exactly as before, and one whose two methods
   * were present is restored property for property.
   */
  lemma RestoreAfterProxy(s: BodySlots, id: nat)
    ensures Read(Restored(Proxied(s, id)).applyImpulse) == Read(s.applyImpulse)
    ensures Read(Restored(Proxied(s, id)).applyForce) == Read(s.applyForce)
    ensures Restored(Proxied(s, id)).updateProperties == Absent
    ensures s.savedImpulse == Absent && s.savedForce == Absent && s.updateProperties == Absent ==>
      Observed(Restored(Proxied(s, id))) == Observed(s)
    ensures s.applyImpulse.Present? && s.applyForce.Present? && s.savedImpulse == Absent &&
            s.savedForce == Absent && s.updateProperties == Absent ==>
      Restored(Proxied(s, id)) == s
  {
  }

  /**
   * Under the worker backend addBody saves nothing, so removeBody copies
   * the unset __applyImpulse back: a body that had an applyImpulse method
   * is left with applyImpulse undefined.
   */
  lemma RestoreWithoutProxy(s: BodySlots)
    requires s.savedImpulse == Absent && s.applyImpulse.Present? && s.applyImpulse.value.Function?
    ensures Restored(s).applyImpulse != s.applyImpulse
    ensures Restored(s).applyImpulse == Present(Undefined)
  {
  }
}
