/** Pulse capture and signal-validity monitoring of one RC receiver channel
    (software/rc_input.c).

    The state of the C module is the record `_rc_input` together with the two
    `static` timestamps of the edge handler and the edge polarity the external
    interrupt is configured for. `Capture` is that state as a value; `OnEdge`
    and `OnOverflow` are the two interrupt handlers as functions on it, and the
    class `PulseCapture` is the mutable global whose handler methods are proved
    to follow those functions. The timer register `TCNT1` that the edge
    handler reads is a parameter. */
module RcInput {
  import opened MachineInt

  const MIN_PULSES_PER_TIMER_CYCLE: u8 := 10
  const MIN_PULSE_WIDTH_US: u16 := 1000
  const MAX_PULSE_WIDTH_US: u16 := 2000
  /** Timer 1 runs at 16 MHz / 64, so one count lasts 4 microseconds. */
  const TIMERSTEP_DURATION_US: u16 := 4

  /** The edge the handler expects next (`E_PULSE_STATE`). */
  datatype PulseState = Rising | Falling

  /** The polarity the external interrupt INT0 is configured for; it stands
      for the effect of the `TRIGGER_AT_RISING_EDGE` and
      `TRIGGER_AT_FALLING_EDGE` macros on the `EICRA` register. */
  datatype Trigger = AtRisingEdge | AtFallingEdge

  function TriggerFor(p: PulseState): (t: Trigger)
    ensures t == AtRisingEdge <==> p == Rising
  {
    match p
    case Rising => AtRisingEdge
    case Falling => AtFallingEdge
  }

  /** `_rc_input`, the static `start` and `stop` of the edge handler, and the
      configured trigger polarity. */
  datatype Capture = Capture(
    pulseState: PulseState,
    pulsesReceived: u8,
    lastGoodPulseDurationUs: u16,
    isChannelGood: bool,
    trigger: Trigger,
    start: u16,
    stop: u16)

  /** The static initialiser `{RISING, 0, 0, false}`, `start = stop = 0`, and
      the rising-edge trigger that `rc_input_init` configures. */
  const Initial: Capture := Capture(Rising, 0, 0, false, AtRisingEdge, 0, 0)

  /** The range filter: both bounds are inclusive. */
  predicate InBounds(d: u16) {
    MIN_PULSE_WIDTH_US <= d <= MAX_PULSE_WIDTH_US
  }

  /** The values the last good width can hold: its initial 0, or an accepted
      duration, which is a whole number of timer steps. */
  predicate GoodWidth(w: u16) {
    w == 0 || (InBounds(w) && w % TIMERSTEP_DURATION_US == 0)
  }

  /** The invariant of the capture state: the interrupt is armed for the edge
      the handler expects, and the published width is a good one. */
  predicate Inv(c: Capture) {
    c.trigger == TriggerFor(c.pulseState) && GoodWidth(c.lastGoodPulseDurationUs)
  }

  lemma InitialInv()
    ensures Inv(Initial)
  {
  }

  /** Elapsed timer steps between two edges, wrap-around included, times 4 µs,
      all in `uint16_t`: only the low 14 bits of the step count survive. */
  function PulseDurationUs(start: u16, stop: u16): (d: u16)
    ensures d == TIMERSTEP_DURATION_US * (Sub16(stop, start) % 0x4000)
    ensures d % TIMERSTEP_DURATION_US == 0
  {
    Mul16ByFour(Sub16(stop, start));
    Mul16(Sub16(stop, start), TIMERSTEP_DURATION_US)
  }

  /** `ISR(INT0_vect)`: an edge seen while the timer reads `tcnt1`. */
  function OnEdge(c: Capture, tcnt1: u16): (r: Capture)
    ensures r.pulseState != c.pulseState
    ensures r.trigger == TriggerFor(r.pulseState)
    ensures r.isChannelGood == c.isChannelGood
    ensures Inv(c) ==> Inv(r)
  {
    match c.pulseState
    case Rising =>
      c.(start := tcnt1, pulseState := Falling, trigger := AtFallingEdge)
    case Falling =>
      var armed := c.(stop := tcnt1, pulseState := Rising, trigger := AtRisingEdge);
      var d := PulseDurationUs(c.start, tcnt1);
      if InBounds(d) then
        armed.(lastGoodPulseDurationUs := d, pulsesReceived := Inc8(c.pulsesReceived))
      else
        armed
  }

  /** `ISR(TIMER1_OVF_vect)`: the end of a timer epoch. */
  function OnOverflow(c: Capture): (r: Capture)
    ensures r.isChannelGood <==> c.pulsesReceived >= MIN_PULSES_PER_TIMER_CYCLE
    ensures r.pulsesReceived == 0
    ensures r.lastGoodPulseDurationUs == c.lastGoodPulseDurationUs
    ensures !r.isChannelGood ==> r.pulseState == Rising && r.trigger == AtRisingEdge
    ensures r.isChannelGood ==> r.pulseState == c.pulseState && r.trigger == c.trigger
    ensures r.start == c.start && r.stop == c.stop
    ensures Inv(c) ==> Inv(r)
  {
    var pulsesLost := c.pulsesReceived < MIN_PULSES_PER_TIMER_CYCLE;
    var flagged :=
      if pulsesLost then c.(pulseState := Rising, trigger := AtRisingEdge, isChannelGood := false)
      else c.(isChannelGood := true);
    flagged.(pulsesReceived := 0)
  }

  /** An expected rising edge latches the timer value, expects and arms the
      falling edge, and leaves the count, the width and the flag alone. */
  lemma RisingEdgeLatches(c: Capture, tcnt1: u16)
    requires c.pulseState == Rising
    ensures OnEdge(c, tcnt1) == c.(start := tcnt1, pulseState := Falling, trigger := AtFallingEdge)
  {
  }

  /** An expected falling edge expects and arms the rising edge again, and the
      measured width passes the range filter exactly when it lies in
      [1000, 2000]: then it becomes the last good width and the count goes up
      by one (modulo 256); otherwise neither changes. */
  lemma FallingEdgeFilters(c: Capture, tcnt1: u16)
    requires c.pulseState == Falling
    ensures var r := OnEdge(c, tcnt1);
      var d := Mul16(Sub16(tcnt1, c.start), TIMERSTEP_DURATION_US);
      && r.pulseState == Rising && r.trigger == AtRisingEdge
      && r.start == c.start && r.stop == tcnt1
      && (1000 <= d <= 2000 ==>
            r.lastGoodPulseDurationUs == d && r.pulsesReceived == (c.pulsesReceived + 1) % 256)
      && (!(1000 <= d <= 2000) ==>
            r.lastGoodPulseDurationUs == c.lastGoodPulseDurationUs && r.pulsesReceived == c.pulsesReceived)
  {
  }

  /** Which step counts the range filter accepts: because the product wraps
      at 2^16, a count is accepted exactly when its low 14 bits lie in
      [250, 500]. */
  lemma AcceptedStepCounts(steps: u16)
    ensures InBounds(Mul16(steps, TIMERSTEP_DURATION_US)) <==> 250 <= steps % 0x4000 <= 500
  {
    Mul16ByFour(steps);
  }

  /** For a pulse shorter than 2^14 timer steps (65.536 ms) whose two edges
      were read from the free-running timer at counts `riseCount` and
      `fallCount` (the timer may have wrapped in between), the handler measures
      the true width, and the filter accepts it exactly when the true width
      lies in [1000, 2000] µs. */
  lemma TrueWidthMeasured(riseCount: nat, fallCount: nat)
    requires riseCount <= fallCount < riseCount + 0x4000
    ensures PulseDurationUs(Wrap16(riseCount), Wrap16(fallCount)) == 4 * (fallCount - riseCount)
    ensures InBounds(PulseDurationUs(Wrap16(riseCount), Wrap16(fallCount)))
        <==> 1000 <= 4 * (fallCount - riseCount) <= 2000
  {
    Sub16RecoversElapsed(riseCount, fallCount);
  }

  /** A pulse of 16634 timer steps (66.536 ms) wraps to 1000 µs and is
      accepted as a good pulse. */
  lemma LongPulseAliases()
    ensures PulseDurationUs(0, 16634) == 1000
    ensures InBounds(PulseDurationUs(0, 16634))
  {
  }

  /** An interrupt delivered to the capture state. */
  datatype CaptureEvent = Edge(tcnt1: u16) | Overflow

  function Handle(c: Capture, e: CaptureEvent): (r: Capture)
    ensures Inv(c) ==> Inv(r)
  {
    match e
    case Edge(t) => OnEdge(c, t)
    case Overflow => OnOverflow(c)
  }

  /** The capture state after the interrupts `es`, in order. */
  function RunCapture(c: Capture, es: seq<CaptureEvent>): Capture
    decreases |es|
  {
    if es == [] then c else RunCapture(Handle(c, es[0]), es[1..])
  }

  /** The invariant holds after any interleaving of edge and epoch interrupts. */
  lemma {:induction false} RunCapturePreservesInv(c: Capture, es: seq<CaptureEvent>)
    requires Inv(c)
    ensures Inv(RunCapture(c, es))
    decreases |es|
  {
    if es != [] {
      RunCapturePreservesInv(Handle(c, es[0]), es[1..]);
    }
  }

  /** From power-up, the trigger agrees with the expected edge and the width
      is good, whatever interrupts arrive. */
  lemma {:induction false} TriggerAgreesFromInit(es: seq<CaptureEvent>)
    ensures RunCapture(Initial, es).trigger == TriggerFor(RunCapture(Initial, es).pulseState)
    ensures GoodWidth(RunCapture(Initial, es).lastGoodPulseDurationUs)
  {
    RunCapturePreservesInv(Initial, es);
  }

  /** A rising edge and a falling edge for each pair of timer readings. */
  function EdgePairs(pulses: seq<(u16, u16)>): (es: seq<CaptureEvent>)
    ensures |es| == 2 * |pulses|
  {
    if pulses == [] then [] else [Edge(pulses[0].0), Edge(pulses[0].1)] + EdgePairs(pulses[1..])
  }

  /** A healthy signal: when the handler expects a rising edge and every pulse
      measures in range, each pulse counts once and the last one is published. */
  lemma {:induction false} GoodPulsesCounted(c: Capture, pulses: seq<(u16, u16)>)
    requires c.pulseState == Rising
    requires forall i :: 0 <= i < |pulses| ==> InBounds(PulseDurationUs(pulses[i].0, pulses[i].1))
    requires c.pulsesReceived + |pulses| < U8_MODULUS
    ensures RunCapture(c, EdgePairs(pulses)).pulseState == Rising
    ensures RunCapture(c, EdgePairs(pulses)).pulsesReceived == c.pulsesReceived + |pulses|
    ensures pulses != [] ==>
      RunCapture(c, EdgePairs(pulses)).lastGoodPulseDurationUs
        == PulseDurationUs(pulses[|pulses| - 1].0, pulses[|pulses| - 1].1)
    decreases |pulses|
  {
    if pulses != [] {
      var es := EdgePairs(pulses);
      var rest := EdgePairs(pulses[1..]);
      assert es[0] == Edge(pulses[0].0);
      assert es[1..][0] == Edge(pulses[0].1);
      assert es[1..][1..] == rest;
      var mid := OnEdge(OnEdge(c, pulses[0].0), pulses[0].1);
      assert RunCapture(c, es) == RunCapture(mid, rest);
      assert mid.pulsesReceived == c.pulsesReceived + 1;
      GoodPulsesCounted(mid, pulses[1..]);
      if pulses[1..] == [] {
        assert RunCapture(mid, rest) == mid;
      } else {
        assert pulses[1..][|pulses[1..]| - 1] == pulses[|pulses| - 1];
      }
    }
  }

  /** At least ten good pulses in one epoch (starting from a cleared count)
      make the epoch handler declare the channel good, and leave the width of
      the last pulse published. */
  lemma HealthyEpochIsGood(c: Capture, pulses: seq<(u16, u16)>)
    requires c.pulseState == Rising && c.pulsesReceived == 0
    requires forall i :: 0 <= i < |pulses| ==> InBounds(PulseDurationUs(pulses[i].0, pulses[i].1))
    requires MIN_PULSES_PER_TIMER_CYCLE as int <= |pulses| < U8_MODULUS
    ensures OnOverflow(RunCapture(c, EdgePairs(pulses))).isChannelGood
    ensures OnOverflow(RunCapture(c, EdgePairs(pulses))).lastGoodPulseDurationUs
        == PulseDurationUs(pulses[|pulses| - 1].0, pulses[|pulses| - 1].1)
  {
    GoodPulsesCounted(c, pulses);
  }

  /** The global `_rc_input` with the static timestamps of the edge handler. */
  class PulseCapture {
    var pulseState: PulseState
    var pulsesReceived: u8
    var lastGoodPulseDurationUs: u16
    var isChannelGood: bool
    var trigger: Trigger
    var start: u16
    var stop: u16

    function Snapshot(): Capture
      reads this
    {
      Capture(pulseState, pulsesReceived, lastGoodPulseDurationUs, isChannelGood, trigger, start, stop)
    }

    ghost predicate Valid()
      reads this
    {
      Inv(Snapshot())
    }

    /** Static initialisation followed by the trigger set-up of `rc_input_init`. */
    constructor ()
      ensures Snapshot() == Initial
      ensures Valid()
    {
      pulseState, pulsesReceived, lastGoodPulseDurationUs, isChannelGood := Rising, 0, 0, false;
      start, stop := 0, 0;
      trigger := AtRisingEdge;
    }

    /** `rc_input_get_pulse_width_us`: the published width is 0 or a good one. */
    method GetPulseWidthUs() returns (w: u16)
      ensures w == lastGoodPulseDurationUs
      ensures Valid() ==> w == 0 || (MIN_PULSE_WIDTH_US <= w <= MAX_PULSE_WIDTH_US && w % 4 == 0)
    {
      w := lastGoodPulseDurationUs;
    }

    /** `rc_input_is_channel_good`. */
    method IsChannelGood() returns (good: bool)
      ensures good == isChannelGood
    {
      good := isChannelGood;
    }

    /** `ISR(INT0_vect)` with the timer reading `tcnt1`. */
    method Int0Isr(tcnt1: u16)
      modifies this
      ensures Snapshot() == OnEdge(old(Snapshot()), tcnt1)
      ensures old(Valid()) ==> Valid()
    {
      if pulseState == Rising {
        start := tcnt1;
        pulseState := Falling;
        trigger := AtFallingEdge;
      } else {
        stop := tcnt1;
        pulseState := Rising;
        trigger := AtRisingEdge;
        var pulseDurationInTimerSteps := Sub16(stop, start);
        var pulseDurationInUs := Mul16(pulseDurationInTimerSteps, TIMERSTEP_DURATION_US);
        if pulseDurationInUs >= MIN_PULSE_WIDTH_US && pulseDurationInUs <= MAX_PULSE_WIDTH_US {
          lastGoodPulseDurationUs := pulseDurationInUs;
          pulsesReceived := Inc8(pulsesReceived);
        }
      }
    }

    /** `ISR(TIMER1_OVF_vect)`. */
    method Timer1OvfIsr()
      modifies this
      ensures Snapshot() == OnOverflow(old(Snapshot()))
      ensures old(Valid()) ==> Valid()
    {
      var pulsesLost := pulsesReceived < MIN_PULSES_PER_TIMER_CYCLE;
      if pulsesLost {
        pulseState := Rising;
        trigger := AtRisingEdge;
        isChannelGood := false;
      } else {
        isChannelGood := true;
      }
      pulsesReceived := 0;
    }
  }
}
