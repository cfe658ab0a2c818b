# Battleswitch: RC pulse capture and fail-safe switch supervisor

Battleswitch reads one pulse-width-modulated channel from an RC receiver and drives two power
switches and two indicator LEDs from the measured pulse width. If the signal goes missing, it
turns every output off. This project models the two parts of the firmware that make that
decision, and proves properties about them.

- **Pulse capture and signal validity** (`rc_input.c`, module `RcInput`). An edge interrupt
  alternates between latching the timer on a rising edge and measuring the pulse on the falling
  edge. The subtraction and the multiplication by the 4 µs timer step both wrap at 2^16. A width
  in [1000, 2000] µs is published and counted; the count is a `uint8_t`. A timer-overflow
  interrupt ends each 262 ms epoch: it declares the channel good when at least 10 pulses were
  counted, resynchronises the expected edge when the channel is lost, and clears the count.
- **Supervisor** (`main.c`, module `Supervisor`). One pass of the endless loop over the states
  INIT, WAIT_FOR_SIGNAL and ACTIVE, with the static LED-toggle flag. It commands LED 1, LED 2,
  switch 1 and switch 2; each actuator is recorded as the level it was last told to take.
- **Board** (module `System`). Any interleaving of the two interrupt handlers and loop
  iterations, each treated as one atomic event.

Each mutable entity is a class: `RcInput.PulseCapture` for the global `_rc_input` plus the
handler's static timestamps, and `Supervisor.Battleswitch` for the loop state and the actuator
levels. Each handler or loop method is proved to follow a pure step function on a snapshot
value (`OnEdge`, `OnOverflow`, `NextControl`). The invariants and the multi-step properties are
proved about those functions and about runs over finite event sequences. `uint8_t` and `uint16_t`
arithmetic is written out modulo 2^8 and 2^16 in module `MachineInt`.

Inputs from hardware are parameters:
- the timer register `TCNT1` read by the edge handler;
- the levels the LED and switch drivers leave at power-up.

The `EICRA` trigger configuration is an abstract field (`Trigger`).

Where the code and the design description disagree, the model follows the code:

- In the band above 1750 µs the code commands only switch 1 and LED 1 on (main.c:91-96). Switch 2
  and LED 2 keep their previous levels; they are not turned off. After the low band, both
  switches therefore stay on (`Supervisor.HighBandKeepsSwitch2`). Starting from WAIT_FOR_SIGNAL,
  the outputs do settle to (on, off) (`Supervisor.HighSignalSettles`).
- The design says the wrap-around subtraction is correct as long as a pulse spans less than one
  timer period (65536 steps). But the product `steps * 4` is also a `uint16_t`, so only the low 14
  bits of the step count survive. The true width is therefore measured only for pulses shorter than
  16384 steps, i.e. 65.536 ms (`RcInput.TrueWidthMeasured`). A pulse of 66.536 ms reads as
  1000 µs and is accepted (`RcInput.LongPulseAliases`, `RcInput.AcceptedStepCounts`). Such a
  pulse lies outside the RC timing contract (period about 20 ms), so this behaviour is documented
  here rather than reported as a defect.
- The design asks for the multi-byte shared fields to be read inside a critical section. The main
  loop reads the 16-bit width without one. The model treats each handler and each read as atomic
  (see Left out).

## Model

| member | source | states |
|---|---|---|
| MachineInt.Wrap16 | software/rc_input.c:108-110 | conversion to `uint16_t` is the identity on [0, 2^16) and subtracts 2^16 once on [2^16, 2^17) |
| MachineInt.Inc8 | software/rc_input.c:117 | the `uint8_t` increment adds one below 255 and wraps 255 to 0 |
| MachineInt.Sub16 | software/rc_input.c:108 | the 16-bit difference is the value that, added back to `start` modulo 2^16, gives `stop`; it is `stop - start` without a wrap and `stop - start + 2^16` when `stop < start` |
| MachineInt.Mul16 | software/rc_input.c:110 | the 16-bit product equals the true product when that fits in 16 bits |
| MachineInt.Sub16RecoversElapsed | software/rc_input.c:104-108 | for two readings of the free-running counter less than 2^16 counts apart, the wrapped subtraction gives the true elapsed count, even when the counter wrapped in between |
| MachineInt.Mul16ByFour | software/rc_input.c:109-110 | `steps * 4` in 16 bits is 4 times the low 14 bits of `steps`, and is a multiple of 4 |
| RcInput.TriggerFor | software/rc_input.c:20-21 | the rising-edge trigger goes with an expected rising edge and only with it |
| RcInput.InitialInv | software/rc_input.c:41-56 | the initial record (expect rising, count 0, width 0, channel bad) with the rising trigger that `rc_input_init` sets satisfies the capture invariant |
| RcInput.PulseDurationUs | software/rc_input.c:108-110 | the measured width is 4 times the low 14 bits of the wrapped step count, hence a multiple of 4 |
| RcInput.OnEdge | software/rc_input.c:91-120 | every edge flips the expected edge and arms the trigger for the new expected edge; it never touches the channel flag; it preserves the capture invariant (trigger agrees, width is 0 or a multiple of 4 in range) |
| RcInput.OnOverflow | software/rc_input.c:125-144 | the channel flag becomes exactly `pulses_received >= 10`; the count becomes 0; the width and the timestamps are unchanged; on loss the expected edge and the trigger become rising; when good both are left as they were; the invariant is preserved |
| RcInput.RisingEdgeLatches | software/rc_input.c:96-100 | on an expected rising edge, `start` becomes the timer value and the handler expects and arms the falling edge; nothing else changes |
| RcInput.FallingEdgeFilters | software/rc_input.c:102-118 | on an expected falling edge, `stop` becomes the timer value and the handler expects and arms the rising edge; a duration in [1000, 2000] becomes the width and increments the count modulo 256; any other duration changes neither |
| RcInput.AcceptedStepCounts | software/rc_input.c:108-113 | the filter accepts a step count exactly when its low 14 bits lie in [250, 500] |
| RcInput.TrueWidthMeasured | software/rc_input.c:104-113 | a pulse shorter than 65.536 ms, whose edges may straddle a timer wrap, is measured at its true width and accepted exactly when that width lies in [1000, 2000] µs |
| RcInput.LongPulseAliases | software/rc_input.c:108-113 | a 16634-step pulse (66.536 ms) reads as 1000 µs and is accepted |
| RcInput.Handle | software/rc_input.c:91-144 | each of the two interrupts preserves the capture invariant |
| RcInput.RunCapturePreservesInv | software/rc_input.c:91-144 | the capture invariant holds after any sequence of edge and epoch interrupts |
| RcInput.TriggerAgreesFromInit | software/rc_input.c:41-144 | from initialisation, through any interleaving of the two handlers, the trigger agrees with the expected edge and the width is 0 or a multiple of 4 in [1000, 2000] |
| RcInput.GoodPulsesCounted | software/rc_input.c:112-118 | starting on an expected rising edge, n in-range pulses (without passing 255) add exactly n to the count, leave a rising edge expected, and publish the last pulse's width |
| RcInput.HealthyEpochIsGood | software/rc_input.c:112-143 | ten or more in-range pulses in an epoch that started from a cleared count make the epoch handler declare the channel good and keep the last width |
| RcInput.PulseCapture.constructor | software/rc_input.c:41-56 | the global starts in the initial state and satisfies its invariant |
| RcInput.PulseCapture.GetPulseWidthUs | software/rc_input.c:75-78 | returns the last good width, which under the invariant is 0 or a multiple of 4 in [1000, 2000] |
| RcInput.PulseCapture.IsChannelGood | software/rc_input.c:83-86 | returns the channel flag |
| RcInput.PulseCapture.Int0Isr | software/rc_input.c:91-120 | the edge handler changes the global exactly as `OnEdge` does on its old state and keeps the invariant |
| RcInput.PulseCapture.Timer1OvfIsr | software/rc_input.c:125-144 | the overflow handler changes the global exactly as `OnOverflow` does and keeps the invariant |
| Supervisor.Boot | software/main.c:32-33 | the loop starts in INIT with `led_out_1_on` set |
| Supervisor.Classify | software/main.c:91-112 | a width is high exactly above 1750, low exactly below 1250, and neutral exactly on [1250, 1750] |
| Supervisor.NextControl | software/main.c:37-130 | one pass preserves the safety invariant; never returns to INIT; commands no switch outside ACTIVE; cannot be in ACTIVE after a pass that saw a bad channel |
| Supervisor.InitStep | software/main.c:39-55 | INIT leaves both LEDs off, commands no switch, keeps the toggle flag, and moves to WAIT_FOR_SIGNAL unconditionally |
| Supervisor.WaitStep | software/main.c:56-84 | WAIT_FOR_SIGNAL negates the toggle flag and commands no switch; with a bad channel it stays and shows the LED the flag selected (LED 1 only or LED 2 only); with a good channel it turns both LEDs off and moves to ACTIVE |
| Supervisor.WaitAlternates | software/main.c:59-70 | two passes without a signal light the two LEDs in turn and restore the flag |
| Supervisor.HighBand | software/main.c:91-96 | ACTIVE with a good channel above 1750: switch 1 and LED 1 go on, everything else (switch 2, LED 2, state) is unchanged |
| Supervisor.LowBand | software/main.c:97-104 | ACTIVE with a good channel below 1250: both switches and both LEDs go on, the state stays ACTIVE |
| Supervisor.NeutralBand | software/main.c:105-112 | ACTIVE with a good channel on [1250, 1750]: both switches and both LEDs go off, the state stays ACTIVE |
| Supervisor.FailSafe | software/main.c:114-126 | ACTIVE with a bad channel: both switches and both LEDs go off and the state becomes WAIT_FOR_SIGNAL, whatever the width |
| Supervisor.BandBoundaries | software/main.c:91-112 | 1250 and 1750 are neutral, 1751 and 1800 high, 1249 and 1000 low, 1500 neutral |
| Supervisor.HighBandKeepsSwitch2 | software/main.c:91-104 | a high reading after a low one leaves switch 2 and LED 2 on |
| Supervisor.RunLoopSafe | software/main.c:35-131 | any sequence of passes from a safe configuration ends in a safe one |
| Supervisor.SwitchesOnOnlyWhileActive | software/main.c:33-131 | from power-up with both switches off, in every reachable configuration a switch is on only while ACTIVE |
| Supervisor.UnsafeWithoutSwitchesOff | software/main.c:39-84 | without the switches-off assumption, a switch can be on in WAIT_FOR_SIGNAL |
| Supervisor.HighSignalSettles | software/main.c:56-96 | from WAIT_FOR_SIGNAL in a safe configuration, two or more good readings above 1750 leave ACTIVE with switch 1 and LED 1 on and switch 2 and LED 2 off |
| Supervisor.HighSignalStays | software/main.c:87-96 | once (on, off) in the high band, further good high readings change nothing |
| Supervisor.Battleswitch.constructor | software/main.c:32-33 | the loop object starts at `Boot` with the drivers' initial levels |
| Supervisor.Battleswitch.Step | software/main.c:37-130 | one pass, reading the RC input through its two getters, changes the loop state exactly as `NextControl` does and keeps the safety invariant |
| System.Apply | software/main.c:74-89 | an interrupt changes only the capture state; a loop iteration changes only the loop state |
| System.PowerUp | software/rc_input.c:41 | the reset board (initial capture record, INIT, switches off) satisfies the board invariant |
| System.RunPreservesBoardInv | software/main.c:35-131 | the capture and safety invariants hold after any interleaving of interrupts and loop passes |
| System.BoardInvFromPowerUp | software/main.c:33-131 | from reset, under any interleaving, the trigger agrees with the expected edge, the width the loop reads is 0 or good, and a switch is on only while ACTIVE |
| System.StaysFailSafe | software/main.c:114-126 | with the channel flagged bad and the loop out of ACTIVE, no event other than an epoch end changes either, and both switches stay off |
| System.BadChannelForcesSwitchesOff | software/main.c:114-126 | once the channel is flagged bad, after any run with no epoch end that contains a loop pass, the loop is out of ACTIVE and both switches are off |
| System.EpochLossForcesSwitchesOff | software/rc_input.c:128-140 | an epoch ending with fewer than 10 good pulses, followed by at least one loop pass before the next epoch end, leaves both switches off and the loop out of ACTIVE |

## Left out

- Peripheral setup (`RC_DDR`, `RC_PORT`, `EIMSK`, `TCNT1 = 0`, `TIMSK1`, `TCCR1B`, `sei()`) and `init_application`: register I/O. Only the trigger set-up of `rc_input_init` is kept, as the initial `Trigger` value.
- The `EICRA` bit patterns of the trigger macros: their bit values come from AVR headers that are not part of this model. The polarity is the abstract field `Trigger`.
- `_delay_ms` and the transient both-LEDs-on flash inside INIT: only the net effect (both LEDs off) is visible in a one-pass model.
- `led_control_*`, `switch_control_*` and `hal.h` are not part of this model. Each actuator is recorded as the last commanded level; the levels at power-up are parameters, and switches off at power-up is an assumption of the safety lemmas.
- Interrupt preemption inside a loop pass and torn reads of the 16-bit width: each handler and each loop pass is one atomic event. The source takes no critical section around these reads, and that hazard is not modelled.
- The endless `for(;;)` is modelled as one pass plus lemmas over finite sequences of passes. Its `default` branch cannot be reached with a three-valued state and is not modelled.
- The implicit no-op when `pulse_state` is neither RISING nor FALLING (rc_input.c:102) cannot happen with a two-valued state.
- Timing: the epoch length, the 20 ms pulse period and the distance between edges in real time are not modelled. Events carry only timer readings.
