# BB-8 joystick adapter, modelled in Dafny

The BB-8 joystick example of pylgbst turns a LEGO Move Hub into a joystick.
Motor A and the external motor C are the two axes. Their encoder angles are
clamped to [-25, 25] and kept in two registers. Every change of either axis
recomputes a (speed, direction) vector and calls every registered
`on_joystick` listener with it. Motor B is a rotary dial reported as an angle
in [0, 359]. The hub's green button sets a pressed flag.

`joystick.dfy` holds one module, `BB8Joystick`:

- pure functions for `_clamp` and for the values the hub wrappers forward
  (motor A/C clamp, motor B `% 360`, the 0/1 button filter);
- the joystick vector as specification functions (`Norm`, `Ratio`,
  `SectorOf`/`Offset`, `Heading`, `Trunc`, `ReportedDirection`,
  `SpeedSquared`), with lemmas about range, sectors, the zero-denominator
  sentinel and speed;
- class `Joystick<L>`, whose fields are the registers and the listener set
  (`L` is a callback compared by equality, as Python's `set` deduplicates
  callbacks by `==` and hash; for plain functions and lambdas that is
  identity). Its handler methods update exactly one register.
  `CalcJoystick` returns the batch of listener calls it makes, and it is proved
  against the specification functions;
- two client scenarios: a callback registered twice is called once, and both
  axes in the corner give direction 314.

The arctangent is not computed. The class holds it as a function value `atan`
(degrees, so `math.atan` already scaled by `180 / math.pi`). The predicate
`ArctanLaw` is all the model assumes of it: the result lies in [-90, 90] and has
the sign of its argument; it is strictly inside (-90, 90) for arguments in
[-25, 25], the only ratios two in-range readings can form; at `+-sys.maxsize`
it is exactly +-90, because the double-precision arctangent has saturated
there to the double nearest pi/2. `ArctanLawHasModel` shows that
some function satisfies the law.

The final direction is `359 - int(direction)`, with no `mod 360`.
`ReportedDirectionInRange` proves that for readings in range this already lies
in [0, 359], so a `mod 360` would change nothing.

The `on_rotation` wrapper has a fallback branch `360 - val` for a negative
residue. That branch would give a value above 360; `360 + val` was presumably
meant. Python's `%` with a positive divisor is never negative, so the branch
cannot run. `RotationAngle` keeps it as written and proves that the result is
the residue itself.

## Model

| member | source | states |
|---|---|---|
| BB8Joystick.Clamp | examples/bb8joystick/joystick.py:9-10 | for lo <= hi the result is in [lo, hi]; it is the value itself when in range, lo below, hi above; when hi < lo the result is lo |
| BB8Joystick.ClampIdempotent | examples/bb8joystick/joystick.py:9-10 | for all bounds, clamping twice gives the same as clamping once |
| BB8Joystick.MotorAngle | examples/bb8joystick/joystick.py:55-60 | the motor A wrapper (and the identical motor C wrapper at lines 76-81) forwards an angle in [-25, 25] for every integer: the raw angle when in range, otherwise the nearer bound |
| BB8Joystick.RotationAngle | examples/bb8joystick/joystick.py:64-72 | the motor B wrapper forwards a value in [0, 359] congruent to the raw angle modulo 360; it equals `raw % 360`, so the `360 - val` branch is never taken |
| BB8Joystick.ButtonFilter | examples/bb8joystick/joystick.py:44-51 | the button wrapper forwards something exactly for states 0 and 1, `false` for 0 and `true` for 1, and drops every other state |
| BB8Joystick.Norm | examples/bb8joystick/joystick.py:112-113 | the normalised reading times 25 is the reading; readings in [-25, 25] normalise into [-1, 1]; `NormSign` states its signs |
| BB8Joystick.Ratio | examples/bb8joystick/joystick.py:119-120 | with a non-zero `norm_b` the arctangent's argument times `norm_b` is `norm_a`; with zero `norm_b` it is +-maxsize, positive exactly when `norm_a >= 0`; `SentinelSign` and `RatioBounded` restate it on the readings |
| BB8Joystick.SectorOf | examples/bb8joystick/joystick.py:122-133 | the sector is the first or second exactly when `norm_b >= 0`, the second or third exactly when `norm_a < 0`; `SectorBySign` restates it on the readings |
| BB8Joystick.Offset | examples/bb8joystick/joystick.py:122-133 | every branch subtracts from 90 or 270, and from 90 exactly in the first two sectors |
| BB8Joystick.Heading | examples/bb8joystick/joystick.py:120-133 | `direction` after the branch plus the arctangent is 90 when C >= 0 and 270 otherwise |
| BB8Joystick.ReportedDirection | examples/bb8joystick/joystick.py:136 | the reported value is 359 minus the whole-degree part of the heading (truncated toward zero); its range, arcs and sentinel values are stated by `ReportedDirectionInRange`, `SectorArcs` and `SentinelDirections` |
| BB8Joystick.SpeedSquared | examples/bb8joystick/joystick.py:112-116 | the squared speed times 1250 is A^2 + C^2; bounds and monotonicity are stated by `SpeedSquaredBounds` and `SpeedMonotonic` |
| BB8Joystick.Joystick.InRange | examples/bb8joystick/joystick.py:55-83 | the registers are in range exactly when each is a fixed point of its hub wrapper: clamping A and C, and reducing B mod 360, changes nothing |
| BB8Joystick.NormSign | examples/bb8joystick/joystick.py:112-113 | dividing an angle by 25 keeps its sign and its being zero |
| BB8Joystick.SectorBySign | examples/bb8joystick/joystick.py:122-133 | each of the four sector tests on the normalised readings holds exactly when the same sign test holds on the integer readings; the offset is 90 when C >= 0 and 270 otherwise |
| BB8Joystick.SentinelSign | examples/bb8joystick/joystick.py:119-120 | with C == 0 the arctangent's argument is +maxsize when A >= 0 and -maxsize otherwise |
| BB8Joystick.RatioBounded | examples/bb8joystick/joystick.py:112-120 | with both readings in range and C != 0 the argument is A / C, lies in [-25, 25], and is positive (negative) exactly when A and C are non-zero with equal (opposite) signs |
| BB8Joystick.Trunc | examples/bb8joystick/joystick.py:136 | `int()` truncates toward zero: the result is the floor for non-negative inputs and the ceiling for negative ones |
| BB8Joystick.ReportedDirectionInRange | examples/bb8joystick/joystick.py:102-136 | for readings in [-25, 25] the reported direction `359 - int(direction)` lies in [0, 359], and reducing it mod 360 changes nothing |
| BB8Joystick.SectorArcs | examples/bb8joystick/joystick.py:119-136 | A > 0, C > 0 reports 270..359; A == 0, C > 0 reports 269; A < 0, C > 0 reports 180..269; A < 0, C < 0 reports 90..179; A >= 0, C < 0 reports 0..89 |
| BB8Joystick.SentinelDirections | examples/bb8joystick/joystick.py:119-136 | with C == 0 nothing is divided by zero and the direction is 359 when A >= 0 and 179 when A < 0, opposite sides of the compass |
| BB8Joystick.SpeedSquaredBounds | examples/bb8joystick/joystick.py:112-117 | for readings in range the squared speed lies in [0, 1], so the clamp to [-1, 1] never binds; it is 0 exactly at rest and 1 exactly when both axes are at a bound |
| BB8Joystick.SpeedMonotonic | examples/bb8joystick/joystick.py:116 | moving A further from the centre (0 <= A1 < A2), with C held, strictly increases the speed |
| BB8Joystick.NotifiedExactlyOnce | examples/bb8joystick/joystick.py:135-136 | in one recomputation's fan-out every registered listener is called exactly once and no other callback is called |
| BB8Joystick.ArctanLawHasModel | examples/bb8joystick/joystick.py:120-121 | the assumptions made about the arctangent are consistent: a piecewise-linear saturating function meets them |
| BB8Joystick.Joystick.constructor | examples/bb8joystick/joystick.py:14-31 | a new adapter has all three angle registers 0, the button released and no listeners |
| BB8Joystick.Joystick.OnBtn | examples/bb8joystick/joystick.py:85-86 | `_on_btn` sets the pressed flag to `state != 0` and changes nothing else |
| BB8Joystick.Joystick.ComputeVector | examples/bb8joystick/joystick.py:111-133 | the step-by-step computation yields the specified squared speed and reported direction; for registers in range they lie in [0, 1] and [0, 359] |
| BB8Joystick.Joystick.CalcJoystick | examples/bb8joystick/joystick.py:111-136 | the loop calls every registered listener exactly once (as multisets, the callees are the listener set), each call carrying the vector of the current registers; for registers in range the direction is in [0, 359]; no state changes |
| BB8Joystick.Joystick.OnA | examples/bb8joystick/joystick.py:88-91 | `_on_a` stores its argument in the A register, changes no other register or the listener set, and runs one recomputation over the new registers |
| BB8Joystick.Joystick.OnB | examples/bb8joystick/joystick.py:93-95 | `_on_b` stores its argument in the B register, changes nothing else and calls no listener |
| BB8Joystick.Joystick.OnC | examples/bb8joystick/joystick.py:97-100 | `_on_c` stores its argument in the C register, changes no other register or the listener set, and runs one recomputation over the new registers |
| BB8Joystick.Joystick.OnJoystick | examples/bb8joystick/joystick.py:102-109 | `on_joystick` adds the callback to the listener set; registering one already present leaves the set unchanged; no register changes |
| BB8Joystick.Joystick.HubMotorA | examples/bb8joystick/joystick.py:55-62 | a raw motor A reading is clamped by the wrapper and stored by `_on_a`, which recomputes; registers that were in range stay in range |
| BB8Joystick.Joystick.HubMotorB | examples/bb8joystick/joystick.py:64-74 | a raw motor B reading is reduced by the `on_rotation` wrapper and stored by `_on_b`; no recomputation; registers that were in range stay in range |
| BB8Joystick.Joystick.HubMotorC | examples/bb8joystick/joystick.py:76-83 | a raw motor C reading is clamped by the wrapper and stored by `_on_c`, which recomputes; registers that were in range stay in range |
| BB8Joystick.DuplicateListenerCalledOnce | examples/bb8joystick/joystick.py:102-136 | a callback registered twice, then a motor A reading of 40 (clamped to 25) with C at rest, gives exactly one call: squared speed 0.5, direction 359 |
| BB8Joystick.CornerScenario | examples/bb8joystick/joystick.py:88-136 | A = 25 then C = 25, with atan(1) = 45 degrees, gives exactly one call with full speed and direction 314 |

## Left out

- The hub and BLE side: constructing `MoveHub`, the `subscribe` calls, `_reset_sensors`/`preset_encoder` and `disconnect` (joystick.py lines 14-42, 53, 62, 74, 83) are calls into the hub library. Each subscription is a `Hub*` method, or `OnBtn` for the button, that is given the raw reading.
- `bleak1.py`: a one-shot BLE characteristic read and print through an external library, all I/O.
- Logging, `time.sleep` and the `__main__` block: no behaviour to model.
- Floating point. Norms, ratios and headings are exact reals. Rounding in `/`, in `atan` and in `180 / math.pi` is not modelled. The concrete arctangent is replaced by the assumptions of `ArctanLaw`.
- BB8Joystick.Joystick.CalcJoystick: listeners receive the square of the speed, not the speed. `math.sqrt` is not modelled, so the speed clamp `_clamp(-1.0, speed, 1.0)` on floats is not modelled either; `SpeedSquaredBounds` shows it never binds.
- BB8Joystick.Joystick.ComputeVector: returns the squared speed, for the same reason.
- `sys.maxsize` is taken as 2^63 - 1, its value on a 64-bit interpreter.
- The order in which listeners are called: Python's set has no defined order. The model picks an arbitrary member each time and proves only "each exactly once".
- Listener callbacks themselves are external code. A call is recorded as a `Call` value in the returned batch. Nothing a callback does (re-entrancy, exceptions) is modelled.
- Python's dynamic typing: readings and button states are integers. Values such as `True` or `1.0`, which Python's `in (0, 1)` test also accepts, are not modelled.
- The handlers `_on_a`/`_on_c` accept any integer. The range results (`ReportedDirectionInRange`, `SectorArcs`, `SpeedSquaredBounds`) assume in-range registers, which the hub wrappers guarantee.
