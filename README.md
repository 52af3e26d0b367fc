# DCTCP+ pacing-backoff controller

This project models the DCTCP+ extension of the ns-3 DCTCP congestion
control, `TcpDctcpPlus`. The model covers the controller's three states
NORMAL, TIME_INC and TIME_DES and its "slow time" delay. The slow time is the
extra inter-packet spacing the controller adds when a flow is congested at its
minimum window.

- `DctcpPlus` (`dctcp_plus.dfy`) holds the model itself:
  - the state enum and the per-event inputs;
  - the congestion signal `IsCongested`;
  - the two trigger predicates `IsToTimeInc` and `IsToTimeDes`;
  - the evolution step as a pure function `Evolve`;
  - the controller object `Controller`, whose constructor sets the defaults
    and whose `Step` method updates `state` and `slowTime` in place, proved
    equal to `Evolve`.
- `DctcpPlusProperties` (`dctcp_plus_properties.dfy`) proves what one step
  does in each state. It also proves what runs of steps do: runs keep the
  slow time non-negative, TIME_DES drains to NORMAL, and the as-written
  transitions confine the controller, as described below.

Durations (slow time, backoff unit, threshold) are integer counts of
simulator time ticks, as an ns-3 `Time` is. The slow time is an `int` and the
object invariant `Valid()` keeps it non-negative. Its division is C++
division, which truncates toward zero (`TruncDiv`). Integer division is
Euclidean in Dafny, and the two agree on the non-negative values the
controller reaches.

Choices where the code is incomplete or contradicts itself:

- The random draw `getInteger(0, m_backoffTimeUnit)` (cc:102, 107, 116) is a
  parameter `sample` with `0 <= sample <= unit`. The range is inclusive, so a
  sample may be 0.
- Lines 107 and 116 are written `cond ? a, b`. They are read as the ternary
  `cond ? sample : unit`.
- `m_backoffTimeUnit` is declared twice (h:24, h:26) and initialised twice
  (100 µs at cc:52, 1 µs at cc:54). The model has a single constructor
  parameter `unit`, with `unit >= 1`.
- `m_thresholdT` is initialised at cc:59 but declared nowhere in the header
  (h:17-31). Its initializer `m_thresholdT()` would value-initialise it to
  0 ticks. The model makes it a constructor parameter `threshold >= 0`, so 0
  is one admitted value. The drain to NORMAL (`DrainSteps`,
  `QuietRunDrainsTimeDes`) depends on `threshold >= 0`. With a negative
  threshold, TIME_DES at slow time 0 would keep dividing 0 and never exit.
- The undeclared names `ECE`, `retrans`, `cwnd` and `minCwnd` (cc:68, cc:75)
  are the fields of the per-event input `Event`. Congestion is `ece == 1`
  or `retrans`, as written.
- The constructor fixes the divisor to 2 and turns randomisation on, as the
  code does (cc:55, cc:57). `Valid()` admits any divisor of at least 2 and
  either randomisation setting, and every lemma holds for all of them.

How the step updates the slow time and the state:

- The decay is a plain integer division with no `+1` (cc:110, cc:118).
  `DecayHasNoOffset` pins this down: 80 with divisor 2 becomes 40.
- Samples come from the inclusive range [0, unit] (cc:102).
- Two branches keep the state label. The decay branch of TIME_INC stays in
  TIME_INC (cc:109), and the congested branch of TIME_DES stays in TIME_DES
  (cc:115).

Because of the self-loops, TIME_INC is absorbing (`TimeIncIsAbsorbing`), and
no step enters TIME_DES from another state (`TimeDesNeverEntered`). So a
controller built by the constructor never reaches TIME_DES. Once it leaves
NORMAL it never returns. Without congestion its slow time decays to zero
(`QuietRunDecaysTimeInc`). The TIME_DES drain to NORMAL (`QuietRunDrainsTimeDes`)
therefore applies only to a controller placed in TIME_DES directly.

## Model

| member | source | states |
|---|---|---|
| `DctcpPlus.IsCongested` | src/internet/model/tcp-dctcp-plus.cc:66-69 | The flow is congested exactly when the ECN echo is 1 or a retransmission was seen. The function has no side effects. |
| `DctcpPlus.IsToTimeInc` | src/internet/model/tcp-dctcp-plus.cc:71-80 | The increase trigger implies congestion. In NORMAL it holds exactly when cwnd equals the minimum window under congestion. In TIME_INC and TIME_DES it holds exactly under congestion. |
| `DctcpPlus.IsToTimeDes` | src/internet/model/tcp-dctcp-plus.cc:82-92 | The decrease trigger excludes the increase trigger. It never holds in NORMAL. In TIME_INC it holds exactly without congestion. In TIME_DES it holds exactly without congestion while slow time exceeds the threshold. |
| `DctcpPlus.Increment` | src/internet/model/tcp-dctcp-plus.cc:102 | A backoff increment lies in [0, unit]. It is the drawn sample when randomisation is on and exactly `unit` when it is off. |
| `DctcpPlus.TruncDiv` | src/internet/model/tcp-dctcp-plus.cc:110 | The C++ quotient of a non-negative value stays in [0, a] and agrees with Euclidean division. It is strictly smaller once a >= 1 and the divisor is at least 2. |
| `DctcpPlus.Evolve` | src/internet/model/tcp-dctcp-plus.cc:96-124 | One step keeps a non-negative slow time non-negative. It enters TIME_DES only from TIME_DES and never moves TIME_INC to another state. |
| `DctcpPlus.Controller.constructor` | src/internet/model/tcp-dctcp-plus.cc:50-63 | A new controller is in NORMAL with slow time 0, divisor 2, randomisation on and the given unit and threshold. Its invariant holds. |
| `DctcpPlus.Controller.Step` | src/internet/model/tcp-dctcp-plus.cc:96-124 | The in-place update of `state` and `slowTime` yields exactly `Evolve` of the old state. It keeps the invariant, including slow time >= 0. |
| `DctcpPlusProperties.DrainSteps` | src/internet/model/tcp-dctcp-plus.cc:117-121 | The number of uncongested steps from TIME_DES to NORMAL is finite, between 1 and slowTime + 1. |
| `DctcpPlusProperties.TriggersExclusive` | src/internet/model/tcp-dctcp-plus.cc:71-92 | In every state the increase and decrease triggers are never both true. |
| `DctcpPlusProperties.TimeIncTriggersExhaustive` | src/internet/model/tcp-dctcp-plus.cc:71-92 | In TIME_INC exactly one trigger holds, so its step always takes one of its two branches. |
| `DctcpPlusProperties.TimeDesDecayIsTrigger` | src/internet/model/tcp-dctcp-plus.cc:113-121 | In TIME_DES, the step's own threshold test at cc:117 picks the decay branch exactly when the decrease trigger holds. |
| `DctcpPlusProperties.NormalStep` | src/internet/model/tcp-dctcp-plus.cc:99-104 | NORMAL never takes the decrease path, and it changes nothing unless cwnd == minCwnd under congestion. When it leaves, it enters TIME_INC with a slow time in [0, unit]: the sample, or exactly `unit` without randomisation. |
| `DctcpPlusProperties.CongestedTimedStep` | src/internet/model/tcp-dctcp-plus.cc:105-116 | Under congestion, TIME_INC and TIME_DES keep their label. Slow time grows by one sample in [0, unit], or by exactly `unit`, and never decreases. |
| `DctcpPlusProperties.QuietTimeIncStep` | src/internet/model/tcp-dctcp-plus.cc:108-111 | Without congestion, TIME_INC stays TIME_INC and slow time becomes slowTime / divisor. It never increases, and it strictly decreases when positive. |
| `DctcpPlusProperties.QuietTimeDesStep` | src/internet/model/tcp-dctcp-plus.cc:117-121 | Without congestion, TIME_DES above the threshold divides slow time and stays in TIME_DES. Otherwise it moves to NORMAL with slow time unchanged. |
| `DctcpPlusProperties.DecayHasNoOffset` | src/internet/model/tcp-dctcp-plus.cc:108-111 | TIME_INC with slow time 80 and divisor 2 decays to exactly 40: no `+1`, state still TIME_INC. |
| `DctcpPlusProperties.RunKeepsNonNegative` | src/internet/model/tcp-dctcp-plus.cc:96-124 | Slow time stays non-negative after any sequence of steps with in-range samples. |
| `DctcpPlusProperties.TimeIncIsAbsorbing` | src/internet/model/tcp-dctcp-plus.cc:105-111 | From TIME_INC, every sequence of steps ends in TIME_INC. |
| `DctcpPlusProperties.TimeDesNeverEntered` | src/internet/model/tcp-dctcp-plus.cc:99-111 | From NORMAL or TIME_INC, no sequence of steps reaches TIME_DES. |
| `DctcpPlusProperties.QuietRunStaysNormal` | src/internet/model/tcp-dctcp-plus.cc:99-104 | Any sequence of uncongested events leaves a NORMAL controller exactly as it was. |
| `DctcpPlusProperties.QuietRunDecaysTimeInc` | src/internet/model/tcp-dctcp-plus.cc:108-111 | Uncongested events keep TIME_INC and never raise slow time. After at least slowTime steps, slow time is 0. |
| `DctcpPlusProperties.QuietRunDrainsTimeDes` | src/internet/model/tcp-dctcp-plus.cc:113-121 | Uncongested events keep TIME_DES for fewer than `DrainSteps` steps. After at least `DrainSteps` steps the controller is in NORMAL with slow time in [0, threshold]. |

## Left out

- `TcpDctcpPlus::GetTypeId` and `GetName` (cc:14-48) are left out. They are ns-3 attribute and trace registration, and the DCTCP alpha attributes are floating point.
- The base DCTCP alpha estimator and window reduction are left out. The model takes their outputs (`ece`, `cwnd`, `minCwnd`) and the retransmission flag as event inputs.
- `regulateSendingTimeInterval` (h:35), the pacing-rate computation, is declared but has no body, so there is no behaviour to model.
- The `UniformRandomVariable` object (cc:62) is not modelled as a generator. Its draw is the `sample` parameter, bounded to [0, unit].
- The 64-bit range of ns-3 `Time` is not modelled. Integers are unbounded, so a slow time that grows past 2^63 ticks does not wrap around.
- The experiment drivers and the plotting script under `scratch/` are left out. They are topology set-up, scheduling, tracing and file output, not controller logic.
