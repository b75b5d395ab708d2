/**
 * What one tick of the physics system does: the delta it hands the driver,
 * the order of the three callback phases around the single driver step,
 * and the 100-tick cadence of the body statistics.
 */
module Schedule {
  import opened PhysicsTypes

  /** `Math.min(dt / 1000, maxInterval)`: milliseconds to seconds, capped. */
  function ClampDelta(dt: real, maxInterval: real): (r: real)
    ensures r <= dt / 1000.0 && r <= maxInterval
    ensures r == dt / 1000.0 || r == maxInterval
  {
    if dt / 1000.0 < maxInterval then dt / 1000.0 else maxInterval
  }

  /**
   * With the schema's default `maxInterval`, the driver never steps more
   * than four 60 Hz frames at once, and a shorter frame is stepped as is.
   */
  lemma DefaultStepBound(dt: real)
    ensures ClampDelta(dt, DefaultMaxInterval) <= 4.0 / 60.0
    ensures dt / 1000.0 <= 4.0 / 60.0 ==> ClampDelta(dt, DefaultMaxInterval) == dt / 1000.0
  {
  }

  /** The calls one index loop of `tick` makes over a phase list. */
  function PhaseTrace(phase: Phase, participants: seq<Participant>, t: real, dt: real): seq<Event>
  {
    if participants == [] then []
    else PhaseTrace(phase, participants[..|participants| - 1], t, dt)
         + [Invoked(phase, participants[|participants| - 1], t, dt)]
  }

  /** Everything an effective tick does before its statistics. */
  function TickEvents(before: seq<Participant>, step: seq<Participant>, after: seq<Participant>,
                      t: real, dt: real, maxInterval: real): seq<Event>
  {
    PhaseTrace(BeforeStep, before, t, dt)
    + [Called(DriverStep(ClampDelta(dt, maxInterval)))]
    + PhaseTrace(Step, step, t, dt)
    + PhaseTrace(AfterStep, after, t, dt)
  }

  /** How many `driver.step` calls a trace holds. */
  function StepCalls(events: seq<Event>): nat
  {
    if events == [] then 0
    else StepCalls(events[..|events| - 1])
         + (if events[|events| - 1].Called? && events[|events| - 1].call.DriverStep? then 1 else 0)
  }

  /** A phase loop invokes each participant once, in list order, with (t, dt). */
  lemma {:induction false} PhaseTraceAt(phase: Phase, participants: seq<Participant>, t: real, dt: real)
    ensures |PhaseTrace(phase, participants, t, dt)| == |participants|
    ensures forall k :: 0 <= k < |participants| ==>
      PhaseTrace(phase, participants, t, dt)[k] == Invoked(phase, participants[k], t, dt)
  {
    if participants != [] {
      var init := participants[..|participants| - 1];
      PhaseTraceAt(phase, init, t, dt);
      forall k | 0 <= k < |init|
        ensures init[k] == participants[k]
      {
      }
    }
  }

  lemma {:induction false} StepCallsAppend(a: seq<Event>, b: seq<Event>)
    ensures StepCalls(a + b) == StepCalls(a) + StepCalls(b)
  {
    if b == [] {
      assert a + b == a;
    } else {
      var b' := b[..|b| - 1];
      assert (a + b)[..|a + b| - 1] == a + b';
      StepCallsAppend(a, b');
    }
  }

  /** A phase loop never steps the driver. */
  lemma {:induction false} PhaseTraceSteps(phase: Phase, participants: seq<Participant>, t: real, dt: real)
    ensures StepCalls(PhaseTrace(phase, participants, t, dt)) == 0
  {
    if participants != [] {
      var init := participants[..|participants| - 1];
      var e := Invoked(phase, participants[|participants| - 1], t, dt);
      PhaseTraceSteps(phase, init, t, dt);
      StepCallsAppend(PhaseTrace(phase, init, t, dt), [e]);
    }
  }

  /**
   * Within one effective tick: every beforeStep participant in list order,
   * then exactly one driver step with the clamped delta, then every step
   * participant, then every afterStep participant. Empty lists are allowed.
   */
  lemma TickOrder(before: seq<Participant>, step: seq<Participant>, after: seq<Participant>,
                  t: real, dt: real, maxInterval: real)
    ensures var e := TickEvents(before, step, after, t, dt, maxInterval);
      && |e| == |before| + 1 + |step| + |after|
      && (forall k :: 0 <= k < |before| ==> e[k] == Invoked(BeforeStep, before[k], t, dt))
      && e[|before|] == Called(DriverStep(ClampDelta(dt, maxInterval)))
      && (forall k :: 0 <= k < |step| ==> e[|before| + 1 + k] == Invoked(Step, step[k], t, dt))
      && (forall k :: 0 <= k < |after| ==>
            e[|before| + 1 + |step| + k] == Invoked(AfterStep, after[k], t, dt))
      && StepCalls(e) == 1
  {
    var pb, ps, pa := PhaseTrace(BeforeStep, before, t, dt), PhaseTrace(Step, step, t, dt),
                      PhaseTrace(AfterStep, after, t, dt);
    var st: seq<Event> := [Called(DriverStep(ClampDelta(dt, maxInterval)))];
    PhaseTraceAt(BeforeStep, before, t, dt);
    PhaseTraceAt(Step, step, t, dt);
    PhaseTraceAt(AfterStep, after, t, dt);
    PhaseTraceSteps(BeforeStep, before, t, dt);
    PhaseTraceSteps(Step, step, t, dt);
    PhaseTraceSteps(AfterStep, after, t, dt);
    assert StepCalls(st) == 1 by {
      assert st[..0] == [];
    }
    StepCallsAppend(pb, st);
    StepCallsAppend(pb + st, ps);
    StepCallsAppend(pb + st + ps, pa);
  }

  /** Ticks between two body counts. */
  const StatsPeriod: nat := 100

  /** `tickCounter++`, then back to 0 once it reaches 100. */
  function NextCounter(c: nat): nat
  {
    if c + 1 == StatsPeriod then 0 else c + 1
  }

  /** The counter after n effective ticks with statistics on. */
  function CounterAfter(c: nat, n: nat): nat
  {
    if n == 0 then c else NextCounter(CounterAfter(c, n - 1))
  }

  /** How many of those n ticks ran the body count. */
  function CountsAfter(c: nat, n: nat): nat
  {
    if n == 0 then 0
    else CountsAfter(c, n - 1) + (if CounterAfter(c, n - 1) + 1 == StatsPeriod then 1 else 0)
  }

  /** A counter below 100 stays below 100, however many ticks follow. */
  lemma {:induction false} CounterStaysInPeriod(c: nat, n: nat)
    requires c < StatsPeriod
    ensures CounterAfter(c, n) < StatsPeriod
  {
    if n > 0 {
      CounterStaysInPeriod(c, n - 1);
    }
  }

  /** From a fresh counter, the body count runs once every 100 effective ticks. */
  lemma {:induction false} CounterFromZero(n: nat)
    ensures CounterAfter(0, n) == n % StatsPeriod
    ensures CountsAfter(0, n) == n / StatsPeriod
  {
    if n > 0 {
      CounterFromZero(n - 1);
    }
  }
}
