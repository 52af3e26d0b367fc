/**
 * Properties of the DCTCP+ evolution step: what a single step does in each
 * state, and what sequences of steps do.
 */
module DctcpPlusProperties {
  import opened DctcpPlus

  /** The inputs of one step: the event and the generator's draw. */
  datatype Input = Input(event: Event, sample: int)

  /** Every draw lies in the generator's range [0, unit]. */
  ghost predicate SamplesInRange(c: Config, ins: seq<Input>)
  {
    forall i :: 0 <= i < |ins| ==> 0 <= ins[i].sample <= c.unit
  }

  /** No event of the sequence signals congestion. */
  ghost predicate Quiet(ins: seq<Input>)
  {
    forall i :: 0 <= i < |ins| ==> !IsCongested(ins[i].event)
  }

  /** The snapshot reached by evolving `s` on each input in turn. */
  ghost function Run(c: Config, s: Snapshot, ins: seq<Input>): Snapshot
    requires ValidConfig(c)
    requires SamplesInRange(c, ins)
    decreases |ins|
  {
    if ins == [] then s
    else Run(c, Evolve(c, s, ins[0].event, ins[0].sample), ins[1..])
  }

  /**
   * The number of uncongested steps that take TIME_DES with slow time `t`
   * to NORMAL: one division per step while `t` is above the threshold,
   * then one step to leave. It is finite and at most `t + 1`.
   */
  function DrainSteps(c: Config, t: int): (n: nat)
    requires ValidConfig(c) && t >= 0
    ensures 1 <= n <= t + 1
    decreases t
  {
    if t <= c.threshold then 1
    else 1 + DrainSteps(c, TruncDiv(t, c.divisor))
  }

  // ---------------------------------------------------------------------
  // Single steps

  /** The increase and decrease triggers never hold together, in any state. */
  lemma TriggersExclusive(c: Config, s: Snapshot, e: Event)
    ensures !(IsToTimeInc(s, e) && IsToTimeDes(c, s, e))
  {
  }

  /** In TIME_INC exactly one of the two triggers holds. */
  lemma TimeIncTriggersExhaustive(c: Config, s: Snapshot, e: Event)
    requires s.phase == TimeInc
    ensures IsToTimeInc(s, e) != IsToTimeDes(c, s, e)
  {
  }

  /**
   * In TIME_DES the step's own threshold test picks the decay branch
   * exactly when the decrease trigger holds.
   */
  lemma TimeDesDecayIsTrigger(c: Config, s: Snapshot, e: Event, sample: int)
    requires ValidConfig(c) && 0 <= sample <= c.unit
    requires s.phase == TimeDes && s.slowTime >= 0
    requires !IsToTimeInc(s, e)
    ensures IsToTimeDes(c, s, e) <==> Evolve(c, s, e, sample).phase == TimeDes
  {
  }

  /**
   * In NORMAL a step changes nothing unless the window is at its minimum and
   * the flow is congested; then it enters TIME_INC with one backoff sample.
   */
  lemma NormalStep(c: Config, s: Snapshot, e: Event, sample: int)
    requires ValidConfig(c) && 0 <= sample <= c.unit
    requires s.phase == Normal
    ensures !IsToTimeDes(c, s, e)
    ensures !(e.cwnd == e.minCwnd && IsCongested(e)) ==> Evolve(c, s, e, sample) == s
    ensures e.cwnd == e.minCwnd && IsCongested(e) ==>
      var r := Evolve(c, s, e, sample);
      && r.phase == TimeInc
      && 0 <= r.slowTime <= c.unit
      && (c.randomize ==> r.slowTime == sample)
      && (!c.randomize ==> r.slowTime == c.unit)
  {
  }

  /**
   * Under congestion in TIME_INC or TIME_DES the state label is kept and the
   * slow time gains one sample in [0, unit], or exactly `unit`.
   */
  lemma CongestedTimedStep(c: Config, s: Snapshot, e: Event, sample: int)
    requires ValidConfig(c) && 0 <= sample <= c.unit
    requires s.phase != Normal && IsCongested(e)
    ensures var r := Evolve(c, s, e, sample);
      && r.phase == s.phase
      && s.slowTime <= r.slowTime <= s.slowTime + c.unit
      && (c.randomize ==> r.slowTime == s.slowTime + sample)
      && (!c.randomize ==> r.slowTime == s.slowTime + c.unit)
  {
  }

  /**
   * Without congestion TIME_INC stays TIME_INC and its slow time is divided
   * by the divisor, so it never grows and shrinks whenever it is positive.
   */
  lemma QuietTimeIncStep(c: Config, s: Snapshot, e: Event, sample: int)
    requires ValidConfig(c) && 0 <= sample <= c.unit
    requires s.phase == TimeInc && s.slowTime >= 0 && !IsCongested(e)
    ensures var r := Evolve(c, s, e, sample);
      && r == Snapshot(TimeInc, s.slowTime / c.divisor)
      && r.slowTime <= s.slowTime
      && (s.slowTime > 0 ==> r.slowTime < s.slowTime)
  {
  }

  /**
   * Without congestion TIME_DES divides its slow time while it is above the
   * threshold, and otherwise moves to NORMAL keeping the slow time.
   */
  lemma QuietTimeDesStep(c: Config, s: Snapshot, e: Event, sample: int)
    requires ValidConfig(c) && 0 <= sample <= c.unit
    requires s.phase == TimeDes && s.slowTime >= 0 && !IsCongested(e)
    ensures s.slowTime > c.threshold ==>
      Evolve(c, s, e, sample) == Snapshot(TimeDes, s.slowTime / c.divisor)
    ensures s.slowTime <= c.threshold ==>
      Evolve(c, s, e, sample) == Snapshot(Normal, s.slowTime)
  {
  }

  /** Scenario: TIME_INC with slow time 80 and divisor 2 decays to exactly 40. */
  lemma DecayHasNoOffset(sample: int)
    requires 0 <= sample <= 100
    ensures Evolve(Config(100, 2, 2, true), Snapshot(TimeInc, 80),
                   Event(0, false, 1448, 1448), sample) == Snapshot(TimeInc, 40)
  {
  }

  // ---------------------------------------------------------------------
  // Runs of steps

  /** Every step keeps a non-negative slow time non-negative. */
  lemma {:induction false} RunKeepsNonNegative(c: Config, s: Snapshot, ins: seq<Input>)
    requires ValidConfig(c) && SamplesInRange(c, ins)
    requires s.slowTime >= 0
    ensures Run(c, s, ins).slowTime >= 0
    decreases |ins|
  {
    if ins != [] {
      RunKeepsNonNegative(c, Evolve(c, s, ins[0].event, ins[0].sample), ins[1..]);
    }
  }

  /**
   * As written, TIME_INC is never left: both of its branches keep the label.
   */
  lemma {:induction false} TimeIncIsAbsorbing(c: Config, s: Snapshot, ins: seq<Input>)
    requires ValidConfig(c) && SamplesInRange(c, ins)
    requires s.phase == TimeInc
    ensures Run(c, s, ins).phase == TimeInc
    decreases |ins|
  {
    if ins != [] {
      TimeIncIsAbsorbing(c, Evolve(c, s, ins[0].event, ins[0].sample), ins[1..]);
    }
  }

  /**
   * As written, no step enters TIME_DES from another state, so a controller
   * that starts in NORMAL never reaches TIME_DES.
   */
  lemma {:induction false} TimeDesNeverEntered(c: Config, s: Snapshot, ins: seq<Input>)
    requires ValidConfig(c) && SamplesInRange(c, ins)
    requires s.phase != TimeDes
    ensures Run(c, s, ins).phase != TimeDes
    decreases |ins|
  {
    if ins != [] {
      TimeDesNeverEntered(c, Evolve(c, s, ins[0].event, ins[0].sample), ins[1..]);
    }
  }

  /** Uncongested events leave a NORMAL controller untouched. */
  lemma {:induction false} QuietRunStaysNormal(c: Config, s: Snapshot, ins: seq<Input>)
    requires ValidConfig(c) && SamplesInRange(c, ins) && Quiet(ins)
    requires s.phase == Normal
    ensures Run(c, s, ins) == s
    decreases |ins|
  {
    if ins != [] {
      assert !IsCongested(ins[0].event);
      QuietRunStaysNormal(c, Evolve(c, s, ins[0].event, ins[0].sample), ins[1..]);
    }
  }

  /**
   * Uncongested events decay a TIME_INC slow time to zero within as many
   * steps as its value, while the state stays TIME_INC.
   */
  lemma {:induction false} QuietRunDecaysTimeInc(c: Config, s: Snapshot, ins: seq<Input>)
    requires ValidConfig(c) && SamplesInRange(c, ins) && Quiet(ins)
    requires s.phase == TimeInc && s.slowTime >= 0
    ensures Run(c, s, ins).phase == TimeInc
    ensures 0 <= Run(c, s, ins).slowTime <= s.slowTime
    ensures |ins| >= s.slowTime ==> Run(c, s, ins) == Snapshot(TimeInc, 0)
    decreases |ins|
  {
    if ins != [] {
      assert !IsCongested(ins[0].event);
      var next := Evolve(c, s, ins[0].event, ins[0].sample);
      QuietTimeIncStep(c, s, ins[0].event, ins[0].sample);
      QuietRunDecaysTimeInc(c, next, ins[1..]);
    }
  }

  /**
   * Uncongested events take TIME_DES to NORMAL in exactly
   * `DrainSteps(c, s.slowTime)` steps, ending at or below the threshold.
   */
  lemma {:induction false} QuietRunDrainsTimeDes(c: Config, s: Snapshot, ins: seq<Input>)
    requires ValidConfig(c) && SamplesInRange(c, ins) && Quiet(ins)
    requires s.phase == TimeDes && s.slowTime >= 0
    ensures |ins| < DrainSteps(c, s.slowTime) ==>
      Run(c, s, ins).phase == TimeDes
    ensures |ins| >= DrainSteps(c, s.slowTime) ==>
      Run(c, s, ins).phase == Normal && 0 <= Run(c, s, ins).slowTime <= c.threshold
    decreases |ins|
  {
    if ins == [] {
    } else {
      assert !IsCongested(ins[0].event);
      var next := Evolve(c, s, ins[0].event, ins[0].sample);
      QuietTimeDesStep(c, s, ins[0].event, ins[0].sample);
      if s.slowTime <= c.threshold {
        QuietRunStaysNormal(c, next, ins[1..]);
      } else {
        QuietRunDrainsTimeDes(c, next, ins[1..]);
      }
    }
  }
}
