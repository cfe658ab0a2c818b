/** The Battleswitch supervisor: one iteration of the endless loop in `main`
    (software/main.c).

    The state of the loop is the variable `state`, the `static` flag
    `led_out_1_on` of the WAIT_FOR_SIGNAL case, and the levels last commanded
    to the two LEDs and the two switches (the LED and switch drivers are
    recorded as the last level they were told to take). `Control` is that
    state as a value and `NextControl` one iteration on it, given what the
    iteration reads from the RC input; the class `Battleswitch` holds the
    same state in fields and its method `Step` is proved to follow
    `NextControl`. The `_delay_ms` pauses take no part. */
module Supervisor {
  import opened MachineInt
  import RcInput

  const HIGH_BAND_ABOVE_US: u16 := 1750
  const LOW_BAND_BELOW_US: u16 := 1250

  /** `E_BATTLESWITCH_STATE`. */
  datatype BattleswitchState = Init | WaitForSignal | Active

  datatype Control = Control(
    state: BattleswitchState,
    ledOut1On: bool,
    led1: bool,
    led2: bool,
    switch1: bool,
    switch2: bool)

  /** Power-up: state INIT and `led_out_1_on = true`; the LED and switch
      levels left by their drivers' initialisation are not known here, so
      they are parameters. */
  function Boot(switch1: bool, switch2: bool, led1: bool, led2: bool): (c: Control)
    ensures c.state == Init && c.ledOut1On
  {
    Control(Init, true, led1, led2, switch1, switch2)
  }

  /** The three bands the ACTIVE state tells pulse widths apart by. */
  datatype Band = High | Low | Neutral

  /** Above 1750 µs is high, below 1250 µs is low, and everything from 1250
      to 1750 µs, both included, is neutral. */
  function Classify(widthUs: u16): (b: Band)
    ensures b == High <==> widthUs > HIGH_BAND_ABOVE_US
    ensures b == Low <==> widthUs < LOW_BAND_BELOW_US
    ensures b == Neutral <==> LOW_BAND_BELOW_US <= widthUs <= HIGH_BAND_ABOVE_US
  {
    if widthUs > HIGH_BAND_ABOVE_US then High
    else if widthUs < LOW_BAND_BELOW_US then Low
    else Neutral
  }

  /** The safety invariant: a switch may be on only while the state is ACTIVE. */
  predicate Safe(c: Control) {
    (c.switch1 || c.switch2) ==> c.state == Active
  }

  /** One pass of the loop body, given the channel flag and the last good
      width the RC input reports at that moment. */
  function NextControl(c: Control, channelGood: bool, widthUs: u16): (r: Control)
    ensures Safe(c) ==> Safe(r)
    ensures r.state != Init
    ensures c.state != Active ==> r.switch1 == c.switch1 && r.switch2 == c.switch2
    ensures !channelGood ==> r.state != Active
  {
    match c.state
    case Init =>
      c.(led1 := false, led2 := false, state := WaitForSignal)
    case WaitForSignal =>
      var shown := c.(led1 := c.ledOut1On, led2 := !c.ledOut1On, ledOut1On := !c.ledOut1On);
      if channelGood then shown.(led1 := false, led2 := false, state := Active) else shown
    case Active =>
      if channelGood then
        match Classify(widthUs)
        case High => c.(switch1 := true, led1 := true)
        case Low => c.(switch1 := true, switch2 := true, led1 := true, led2 := true)
        case Neutral => c.(switch1 := false, switch2 := false, led1 := false, led2 := false)
      else
        c.(switch1 := false, switch2 := false, led1 := false, led2 := false, state := WaitForSignal)
  }

  /** INIT turns both LEDs off, commands no switch, keeps the toggle flag, and
      moves on to WAIT_FOR_SIGNAL whatever the signal. */
  lemma InitStep(c: Control, channelGood: bool, widthUs: u16)
    requires c.state == Init
    ensures var r := NextControl(c, channelGood, widthUs);
      && r.state == WaitForSignal && !r.led1 && !r.led2
      && r.switch1 == c.switch1 && r.switch2 == c.switch2 && r.ledOut1On == c.ledOut1On
  {
  }

  /** WAIT_FOR_SIGNAL lights exactly one LED, the one `led_out_1_on` selects,
      and negates the flag; without a good channel it stays in WAIT_FOR_SIGNAL
      showing that LED, with a good channel it turns both LEDs off and moves to
      ACTIVE. No switch is commanded either way. */
  lemma WaitStep(c: Control, channelGood: bool, widthUs: u16)
    requires c.state == WaitForSignal
    ensures var r := NextControl(c, channelGood, widthUs);
      && r.ledOut1On == !c.ledOut1On
      && r.switch1 == c.switch1 && r.switch2 == c.switch2
      && (!channelGood ==> r.state == WaitForSignal && r.led1 == c.ledOut1On && r.led2 == !c.ledOut1On)
      && (channelGood ==> r.state == Active && !r.led1 && !r.led2)
  {
  }

  /** Two iterations in WAIT_FOR_SIGNAL without a signal show the two LEDs in
      turn and bring the toggle flag back to where it was. */
  lemma WaitAlternates(c: Control, w1: u16, w2: u16)
    requires c.state == WaitForSignal
    ensures var r1 := NextControl(c, false, w1);
      var r2 := NextControl(r1, false, w2);
      && r1.led1 != r2.led1 && r1.led2 != r2.led2 && r1.led1 != r1.led2
      && r2.ledOut1On == c.ledOut1On && r2.state == WaitForSignal
  {
  }

  /** ACTIVE, good channel, width above 1750 µs: switch 1 and LED 1 on;
      switch 2 and LED 2 keep whatever level they had; the state stays ACTIVE. */
  lemma HighBand(c: Control, widthUs: u16)
    requires c.state == Active && widthUs > 1750
    ensures NextControl(c, true, widthUs) == c.(switch1 := true, led1 := true)
  {
  }

  /** ACTIVE, good channel, width below 1250 µs: both switches and both LEDs on. */
  lemma LowBand(c: Control, widthUs: u16)
    requires c.state == Active && widthUs < 1250
    ensures NextControl(c, true, widthUs)
      == c.(switch1 := true, switch2 := true, led1 := true, led2 := true)
  {
  }

  /** ACTIVE, good channel, width from 1250 to 1750 µs inclusive: everything off. */
  lemma NeutralBand(c: Control, widthUs: u16)
    requires c.state == Active && 1250 <= widthUs <= 1750
    ensures NextControl(c, true, widthUs)
      == c.(switch1 := false, switch2 := false, led1 := false, led2 := false)
  {
  }

  /** ACTIVE without a good channel: everything off and back to WAIT_FOR_SIGNAL,
      whatever the last width was. */
  lemma FailSafe(c: Control, widthUs: u16)
    requires c.state == Active
    ensures NextControl(c, false, widthUs)
      == c.(switch1 := false, switch2 := false, led1 := false, led2 := false, state := WaitForSignal)
  {
  }

  /** The band boundaries: 1750 and 1250 are neutral, 1751 is high, 1249 is low. */
  lemma BandBoundaries()
    ensures Classify(1750) == Neutral && Classify(1250) == Neutral
    ensures Classify(1751) == High && Classify(1249) == Low
    ensures Classify(1800) == High && Classify(1000) == Low && Classify(1500) == Neutral
  {
  }

  /** The high band does not turn switch 2 off: after the low band it stays on. */
  lemma HighBandKeepsSwitch2()
    ensures var low := NextControl(Control(Active, true, false, false, false, false), true, 1000);
      var high := NextControl(low, true, 1800);
      high.switch1 && high.switch2 && high.led2
  {
  }

  /** What one iteration reads from the RC input. */
  datatype Reading = Reading(channelGood: bool, widthUs: u16)

  /** The loop state after the iterations that read `rs`, in order. */
  function RunLoop(c: Control, rs: seq<Reading>): Control
    decreases |rs|
  {
    if rs == [] then c else RunLoop(NextControl(c, rs[0].channelGood, rs[0].widthUs), rs[1..])
  }

  /** Every configuration reachable from a safe one is safe. */
  lemma {:induction false} RunLoopSafe(c: Control, rs: seq<Reading>)
    requires Safe(c)
    ensures Safe(RunLoop(c, rs))
    decreases |rs|
  {
    if rs != [] {
      RunLoopSafe(NextControl(c, rs[0].channelGood, rs[0].widthUs), rs[1..]);
    }
  }

  /** If the switches start off, then after any sequence of iterations a
      switch is on only while the state is ACTIVE. */
  lemma {:induction false} SwitchesOnOnlyWhileActive(led1: bool, led2: bool, rs: seq<Reading>)
    ensures var r := RunLoop(Boot(false, false, led1, led2), rs);
      (r.switch1 || r.switch2) ==> r.state == Active
  {
    RunLoopSafe(Boot(false, false, led1, led2), rs);
  }

  /** The assumption is needed: a switch left on by its driver stays on while
      waiting for a signal. */
  lemma UnsafeWithoutSwitchesOff()
    ensures var r := RunLoop(Boot(true, false, false, false), [Reading(false, 0), Reading(false, 0)]);
      r.switch1 && r.state == WaitForSignal
  {
  }

  /** A good channel whose width reads above 1750 µs, from WAIT_FOR_SIGNAL in a
      safe configuration: after the first iteration the state is ACTIVE, and
      from the second on switch 1 and LED 1 are on and switch 2 and LED 2 off. */
  lemma {:induction false} HighSignalSettles(c: Control, rs: seq<Reading>)
    requires c.state == WaitForSignal && Safe(c)
    requires |rs| >= 2
    requires forall i :: 0 <= i < |rs| ==> rs[i].channelGood && rs[i].widthUs > 1750
    ensures var r := RunLoop(c, rs);
      r.state == Active && r.switch1 && !r.switch2 && r.led1 && !r.led2
  {
    var a := NextControl(c, true, rs[0].widthUs);
    assert a.state == Active && !a.switch2 && !a.led2;
    var b := NextControl(a, true, rs[1].widthUs);
    assert b == a.(switch1 := true, led1 := true);
    HighSignalStays(b, rs[2..]);
    assert RunLoop(c, rs) == RunLoop(a, rs[1..]);
    assert rs[1..][1..] == rs[2..];
  }

  /** Once settled in the high band, further high readings change nothing. */
  lemma {:induction false} HighSignalStays(c: Control, rs: seq<Reading>)
    requires c.state == Active && c.switch1 && !c.switch2 && c.led1 && !c.led2
    requires forall i :: 0 <= i < |rs| ==> rs[i].channelGood && rs[i].widthUs > 1750
    ensures RunLoop(c, rs) == c
    decreases |rs|
  {
    if rs != [] {
      assert NextControl(c, true, rs[0].widthUs) == c;
      HighSignalStays(c, rs[1..]);
    }
  }

  /** The loop state of `main`, with the recorded actuator levels. */
  class Battleswitch {
    var state: BattleswitchState
    var ledOut1On: bool
    var led1: bool
    var led2: bool
    var switch1: bool
    var switch2: bool

    function Snapshot(): Control
      reads this
    {
      Control(state, ledOut1On, led1, led2, switch1, switch2)
    }

    constructor (switch1Initial: bool, switch2Initial: bool, led1Initial: bool, led2Initial: bool)
      ensures Snapshot() == Boot(switch1Initial, switch2Initial, led1Initial, led2Initial)
    {
      state := Init;
      ledOut1On := true;
      led1, led2 := led1Initial, led2Initial;
      switch1, switch2 := switch1Initial, switch2Initial;
    }

    /** One pass through the `switch(state)` of the loop, reading the RC input. */
    method Step(rc: RcInput.PulseCapture)
      modifies this
      ensures Snapshot() == NextControl(old(Snapshot()), rc.isChannelGood, rc.lastGoodPulseDurationUs)
      ensures old(Safe(Snapshot())) ==> Safe(Snapshot())
    {
      match state
      case Init =>
        // the self-test flash of both LEDs leaves them off
        led1 := false;
        led2 := false;
        state := WaitForSignal;
      case WaitForSignal =>
        if ledOut1On {
          led1 := true;
          led2 := false;
        } else {
          led1 := false;
          led2 := true;
        }
        ledOut1On := !ledOut1On;
        var good := rc.IsChannelGood();
        if good {
          led1 := false;
          led2 := false;
          state := Active;
        }
      case Active =>
        var good := rc.IsChannelGood();
        if good {
          var currentPulseDurationUs := rc.GetPulseWidthUs();
          if currentPulseDurationUs > HIGH_BAND_ABOVE_US {
            switch1 := true;
            led1 := true;
          } else if currentPulseDurationUs < LOW_BAND_BELOW_US {
            switch1 := true;
            switch2 := true;
            led1 := true;
            led2 := true;
          } else {
            switch1 := false;
            switch2 := false;
            led1 := false;
            led2 := false;
          }
        } else {
          switch1 := false;
          switch2 := false;
          led1 := false;
          led2 := false;
          state := WaitForSignal;
        }
    }
  }
}
