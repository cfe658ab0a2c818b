/** The whole board: the RC input state shared between the two interrupt
    handlers and the main loop, and the state of the main loop.

    Each interrupt handler and each loop iteration is one atomic event;
    any order of events is allowed. */
module System {
  import opened RcInput
  import opened Supervisor

  datatype Event = Interrupt(irq: CaptureEvent) | LoopIteration

  datatype Board = Board(capture: Capture, control: Control)

  /** A handler changes only the capture state; a loop iteration reads the
      channel flag and the last good width and changes only the loop state. */
  function Apply(b: Board, e: Event): (r: Board)
    ensures e.Interrupt? ==> r.control == b.control
    ensures e.LoopIteration? ==> r.capture == b.capture
  {
    match e
    case Interrupt(irq) => b.(capture := Handle(b.capture, irq))
    case LoopIteration =>
      b.(control := NextControl(b.control, b.capture.isChannelGood, b.capture.lastGoodPulseDurationUs))
  }

  function Run(b: Board, es: seq<Event>): Board
    decreases |es|
  {
    if es == [] then b else Run(Apply(b, es[0]), es[1..])
  }

  predicate BoardInv(b: Board) {
    Inv(b.capture) && Safe(b.control)
  }

  /** Reset, with both switches off and the LEDs at whatever level. */
  function PowerUp(led1: bool, led2: bool): (b: Board)
    ensures BoardInv(b)
  {
    Board(Initial, Boot(false, false, led1, led2))
  }

  lemma {:induction false} RunPreservesBoardInv(b: Board, es: seq<Event>)
    requires BoardInv(b)
    ensures BoardInv(Run(b, es))
    decreases |es|
  {
    if es != [] {
      RunPreservesBoardInv(Apply(b, es[0]), es[1..]);
    }
  }

  /** From reset, through any interleaving of edges, epoch ends and loop
      iterations: the trigger agrees with the expected edge, the width the loop
      reads is 0 or a good one, and a switch is on only while ACTIVE. */
  lemma {:induction false} BoardInvFromPowerUp(led1: bool, led2: bool, es: seq<Event>)
    ensures var r := Run(PowerUp(led1, led2), es);
      && r.capture.trigger == TriggerFor(r.capture.pulseState)
      && GoodWidth(r.capture.lastGoodPulseDurationUs)
      && ((r.control.switch1 || r.control.switch2) ==> r.control.state == Active)
  {
    RunPreservesBoardInv(PowerUp(led1, led2), es);
  }

  predicate NoOverflow(es: seq<Event>) {
    forall i :: 0 <= i < |es| ==> es[i] != Interrupt(Overflow)
  }

  /** While the channel is flagged bad and not ACTIVE, nothing short of an
      epoch end changes that, and the switches stay off. */
  lemma {:induction false} StaysFailSafe(b: Board, es: seq<Event>)
    requires BoardInv(b) && !b.capture.isChannelGood && b.control.state != Active
    requires NoOverflow(es)
    ensures var r := Run(b, es);
      && BoardInv(r) && !r.capture.isChannelGood && r.control.state != Active
      && !r.control.switch1 && !r.control.switch2
    decreases |es|
  {
    if es != [] {
      assert es[0] != Interrupt(Overflow);
      StaysFailSafe(Apply(b, es[0]), es[1..]);
    }
  }

  /** Fail-safe latency: once the channel is flagged bad, the first loop
      iteration leaves ACTIVE, and from then until the next epoch end both
      switches are off. */
  lemma {:induction false} BadChannelForcesSwitchesOff(b: Board, es: seq<Event>)
    requires BoardInv(b) && !b.capture.isChannelGood
    requires NoOverflow(es) && LoopIteration in es
    ensures var r := Run(b, es);
      r.control.state != Active && !r.control.switch1 && !r.control.switch2
    decreases |es|
  {
    assert es[0] != Interrupt(Overflow);
    var a := Apply(b, es[0]);
    if es[0] == LoopIteration {
      StaysFailSafe(a, es[1..]);
    } else {
      assert LoopIteration in es[1..];
      BadChannelForcesSwitchesOff(a, es[1..]);
    }
  }

  /** An epoch with fewer than ten good pulses ends with the channel flagged
      bad; from then on the fail-safe above applies. */
  lemma EpochLossForcesSwitchesOff(b: Board, es: seq<Event>)
    requires BoardInv(b) && b.capture.pulsesReceived < MIN_PULSES_PER_TIMER_CYCLE
    requires NoOverflow(es) && LoopIteration in es
    ensures var r := Run(b, [Interrupt(Overflow)] + es);
      r.control.state != Active && !r.control.switch1 && !r.control.switch2
  {
    var a := Apply(b, Interrupt(Overflow));
    assert ([Interrupt(Overflow)] + es)[1..] == es;
    BadChannelForcesSwitchesOff(a, es);
  }
}
