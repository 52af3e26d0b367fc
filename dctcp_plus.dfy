/**
 * The DCTCP+ pacing-backoff controller of `TcpDctcpPlus`: a three-state
 * machine that, once a flow is congested at its minimum window, adds random
 * backoff samples to a "slow time" delay and divides that delay by a decay
 * factor once congestion stops.
 *
 * Durations (slow time, backoff unit, threshold) are counts of simulator time
 * ticks, as an ns-3 `Time` is a signed tick count.
 */
module DctcpPlus {

  /** The controller states (`DctcpPlusState`). */
  datatype Phase = Normal | TimeInc | TimeDes

  /**
   * The inputs of one acknowledgement event, supplied by the base DCTCP
   * estimator and the socket: the ECN-echo value, whether a retransmission
   * was detected, the current congestion window and the minimum window.
   */
  datatype Event = Event(ece: int, retrans: bool, cwnd: nat, minCwnd: nat)

  /** The fixed configuration of one controller. */
  datatype Config = Config(unit: int, threshold: int, divisor: int, randomize: bool)

  /** The part of the controller that each step updates. */
  datatype Snapshot = Snapshot(phase: Phase, slowTime: int)

  /**
   * A configuration the controller can run with: a positive backoff unit,
   * a non-negative exit threshold and a decay divisor greater than one.
   */
  predicate ValidConfig(c: Config)
  {
    c.unit >= 1 && c.threshold >= 0 && c.divisor >= 2
  }

  /** The congestion signal: an ECN echo of 1, or a retransmission. */
  function IsCongested(e: Event): (r: bool)
    ensures e.ece == 1 ==> r
    ensures e.retrans ==> r
    ensures r ==> e.ece == 1 || e.retrans
  {
    e.ece == 1 || e.retrans
  }

  /**
   * The trigger of the increase path: in NORMAL only at the minimum window
   * under congestion, in the two timed states exactly under congestion.
   */
  function IsToTimeInc(s: Snapshot, e: Event): (r: bool)
    ensures r ==> IsCongested(e)
    ensures s.phase == Normal ==> (r <==> e.cwnd == e.minCwnd && IsCongested(e))
    ensures s.phase != Normal ==> (r <==> IsCongested(e))
  {
    match s.phase
    case Normal => e.cwnd == e.minCwnd && IsCongested(e)
    case TimeInc => IsCongested(e)
    case TimeDes => IsCongested(e)
  }

  /**
   * The trigger of the decrease path: never in NORMAL, in TIME_INC without
   * congestion, in TIME_DES without congestion while the slow time is above
   * the threshold. It never holds together with the increase trigger.
   */
  function IsToTimeDes(c: Config, s: Snapshot, e: Event): (r: bool)
    ensures r ==> !IsToTimeInc(s, e)
    ensures r ==> s.phase != Normal && !IsCongested(e)
    ensures s.phase == TimeInc ==> (r <==> !IsCongested(e))
    ensures s.phase == TimeDes ==> (r <==> !IsCongested(e) && s.slowTime > c.threshold)
  {
    match s.phase
    case Normal => false
    case TimeInc => !IsCongested(e)
    case TimeDes => !IsCongested(e) && s.slowTime > c.threshold
  }

  /**
   * One backoff increment: the drawn sample when randomisation is on, the
   * whole unit otherwise. A drawn sample lies in [0, unit].
   */
  function Increment(c: Config, sample: int): (r: int)
    requires 0 <= sample <= c.unit
    ensures 0 <= r <= c.unit
    ensures !c.randomize ==> r == c.unit
    ensures c.randomize ==> r == sample
  {
    if c.randomize then sample else c.unit
  }

  /** C++ integer division, which truncates toward zero. */
  function TruncDiv(a: int, d: int): (q: int)
    requires d > 0
    ensures a >= 0 ==> q == a / d && 0 <= q <= a
    ensures a < 0 ==> q == -((-a) / d) && a <= q <= 0
    ensures a >= 1 && d >= 2 ==> q < a
  {
    if a >= 0 then DivBounds(a, d); a / d else DivBounds(-a, d); -((-a) / d)
  }

  /** Euclidean quotient bounds for a non-negative dividend. */
  lemma DivBounds(a: int, d: int)
    requires a >= 0 && d > 0
    ensures 0 <= a / d <= a
    ensures a >= 1 && d >= 2 ==> a / d < a
  {
    var q := a / d;
    assert q * d <= a;
    if q < 0 {
      MulMonotone(q, -1, d);
    }
    if q > 0 {
      MulMonotone(1, d, q);
      assert q <= q * d;
    }
    if a >= 1 && d >= 2 && q >= a {
      MulMonotone(2, d, q);
    }
  }

  /** Multiplying by a non-negative factor preserves order. */
  lemma MulMonotone(x: int, y: int, k: int)
    requires x <= y && k >= 0
    ensures x * k <= y * k
  {
  }

  /**
   * One evolution step from snapshot `s` on event `e`, where `sample` is the
   * value the uniform generator would draw. A step never makes a non-negative
   * slow time negative, enters TIME_DES only from TIME_DES, and never moves
   * TIME_INC back to NORMAL.
   */
  function Evolve(c: Config, s: Snapshot, e: Event, sample: int): (r: Snapshot)
    requires ValidConfig(c)
    requires 0 <= sample <= c.unit
    ensures s.slowTime >= 0 ==> r.slowTime >= 0
    ensures r.phase == TimeDes ==> s.phase == TimeDes
    ensures s.phase == TimeInc ==> r.phase == TimeInc
  {
    match s.phase
    case Normal =>
      if IsToTimeInc(s, e) then Snapshot(TimeInc, Increment(c, sample)) else s
    case TimeInc =>
      if IsToTimeInc(s, e) then Snapshot(TimeInc, s.slowTime + Increment(c, sample))
      else if IsToTimeDes(c, s, e) then Snapshot(TimeInc, TruncDiv(s.slowTime, c.divisor))
      else s
    case TimeDes =>
      if IsToTimeInc(s, e) then Snapshot(TimeDes, s.slowTime + Increment(c, sample))
      else if s.slowTime > c.threshold then Snapshot(TimeDes, TruncDiv(s.slowTime, c.divisor))
      else Snapshot(Normal, s.slowTime)
  }

  /** The per-flow controller object (`TcpDctcpPlus`'s DCTCP+ fields). */
  class Controller {
    var state: Phase
    var slowTime: int
    const unit: int
    const threshold: int
    const divisor: int
    const randomize: bool

    function Cfg(): Config
    {
      Config(unit, threshold, divisor, randomize)
    }

    function Current(): Snapshot
      reads this
    {
      Snapshot(state, slowTime)
    }

    /** The object invariant: a usable configuration and a non-negative slow time. */
    ghost predicate Valid()
      reads this
    {
      ValidConfig(Cfg()) && slowTime >= 0
    }

    /**
     * A fresh controller: NORMAL, no slow time, decay divisor 2,
     * randomised backoff, with the given backoff unit and exit threshold.
     */
    constructor (unit: int, threshold: int)
      requires unit >= 1 && threshold >= 0
      ensures Valid()
      ensures state == Normal && slowTime == 0
      ensures this.unit == unit && this.threshold == threshold
      ensures divisor == 2 && randomize
    {
      this.unit := unit;
      this.threshold := threshold;
      this.slowTime := 0;
      this.randomize := true;
      this.state := Normal;
      this.divisor := 2;
    }

    /**
     * `ndctcpStatusEvolution`: advance the state machine on one
     * acknowledgement event; `sample` is the generator's draw in [0, unit].
     */
    method Step(e: Event, sample: int)
      requires Valid()
      requires 0 <= sample <= unit
      modifies this
      ensures Valid()
      ensures Current() == Evolve(Cfg(), old(Current()), e, sample)
    {
      match state
      case Normal =>
        if IsToTimeInc(Current(), e) {
          state := TimeInc;
          slowTime := Increment(Cfg(), sample);
        }
      case TimeInc =>
        if IsToTimeInc(Current(), e) {
          slowTime := slowTime + Increment(Cfg(), sample);
        } else if IsToTimeDes(Cfg(), Current(), e) {
          state := TimeInc;
          slowTime := slowTime / divisor;
        }
      case TimeDes =>
        if IsToTimeInc(Current(), e) {
          state := TimeDes;
          slowTime := slowTime + Increment(Cfg(), sample);
        } else if slowTime > threshold {
          slowTime := slowTime / divisor;
        } else {
          state := Normal;
        }
    }
  }
}
