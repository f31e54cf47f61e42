/**
 * The shot stagger: two gates, one blocking and one open, that trade places
 * once a switch period has passed since the last switch, so that shots
 * alternate between the two paths. Each gate's commanded voltages are kept as
 * a sequence, oldest first; the clock reading is a parameter.
 */
module ShotStagger {

  const SwitchPeriod: real := 0.25
  const BlockVoltage: real := 6.0
  const OpenVoltage: real := -6.0

  /** The voltages sent to the left and right gate. */
  datatype GateVoltages = GateVoltages(left: real, right: real)

  /** The gate commands for one blocking side: exactly one gate blocks, the left one when leftBlocking. */
  function GateStates(leftBlocking: bool): (v: GateVoltages)
    ensures (v.left, v.right) == (BlockVoltage, OpenVoltage) || (v.left, v.right) == (OpenVoltage, BlockVoltage)
    ensures v.left == BlockVoltage <==> leftBlocking
  {
    if leftBlocking then GateVoltages(BlockVoltage, OpenVoltage) else GateVoltages(OpenVoltage, BlockVoltage)
  }

  /** Which side blocks and when it last changed. */
  datatype StaggerState = StaggerState(leftBlocking: bool, lastSwitchTime: real)

  /** Whether a stagger step at time now switches sides. */
  predicate SwitchDue(s: StaggerState, now: real)
  {
    now - s.lastSwitchTime >= SwitchPeriod
  }

  /** One run of the staggerShots command's body at time now. */
  function Step(s: StaggerState, now: real): StaggerState
  {
    if SwitchDue(s, now) then StaggerState(!s.leftBlocking, now) else s
  }

  /** The stagger command run at each of the given times in turn. */
  function Run(s: StaggerState, times: seq<real>): StaggerState
    decreases |times|
  {
    if times == [] then s else Run(Step(s, times[0]), times[1..])
  }

  /** The times, among those given, at which a switch happened. */
  function SwitchTimes(s: StaggerState, times: seq<real>): seq<real>
    decreases |times|
  {
    if times == [] then []
    else if SwitchDue(s, times[0]) then [times[0]] + SwitchTimes(Step(s, times[0]), times[1..])
    else SwitchTimes(Step(s, times[0]), times[1..])
  }

  /** A switch at time t is followed by no other before t plus the switch period. */
  lemma NoSwitchWithinPeriod(s: StaggerState, t: real, now: real)
    requires SwitchDue(s, t) && now < t + SwitchPeriod
    ensures Step(Step(s, t), now) == Step(s, t)
    ensures Step(s, t).lastSwitchTime == t
  {
  }

  /** Two switches restore the blocking side. */
  lemma TwoSwitchesRestore(s: StaggerState, t1: real, t2: real)
    requires SwitchDue(s, t1) && SwitchDue(Step(s, t1), t2)
    ensures Step(Step(s, t1), t2).leftBlocking == s.leftBlocking
  {
  }

  /**
   * Over any run, the blocking side has changed exactly when an odd number of
   * switches happened, and the last switch time is that of the last switch.
   */
  lemma {:induction false} RunParity(s: StaggerState, times: seq<real>)
    ensures Run(s, times).leftBlocking == (s.leftBlocking == (|SwitchTimes(s, times)| % 2 == 0))
    ensures Run(s, times).lastSwitchTime ==
      if SwitchTimes(s, times) == [] then s.lastSwitchTime else SwitchTimes(s, times)[|SwitchTimes(s, times)| - 1]
    decreases |times|
  {
    if times != [] {
      RunParity(Step(s, times[0]), times[1..]);
    }
  }

  /**
   * Over any run, the first switch comes at least a period after the last
   * switch before the run, and consecutive switches at least a period apart.
   */
  lemma {:induction false} SwitchesSpaced(s: StaggerState, times: seq<real>)
    ensures var sw := SwitchTimes(s, times);
      && (sw != [] ==> sw[0] - s.lastSwitchTime >= SwitchPeriod)
      && (forall i :: 0 <= i < |sw| - 1 ==> sw[i + 1] - sw[i] >= SwitchPeriod)
    decreases |times|
  {
    if times != [] {
      var next := Step(s, times[0]);
      SwitchesSpaced(next, times[1..]);
      var rest := SwitchTimes(next, times[1..]);
      if SwitchDue(s, times[0]) {
        var sw := [times[0]] + rest;
        forall i | 0 <= i < |sw| - 1
          ensures sw[i + 1] - sw[i] >= SwitchPeriod
        {
          if i > 0 {
            assert sw[i] == rest[i - 1] && sw[i + 1] == rest[i];
          }
        }
      }
    }
  }

  class Stagger {
    var leftBlocking: bool
    var lastSwitchTime: real
    /** Voltages commanded to each gate, oldest first. */
    var leftGate: seq<real>
    var rightGate: seq<real>

    function State(): StaggerState
      reads this
    {
      StaggerState(leftBlocking, lastSwitchTime)
    }

    /** Starts with the left gate blocking and the right gate open. */
    constructor ()
      ensures leftBlocking && lastSwitchTime == 0.0
      ensures leftGate == [BlockVoltage] && rightGate == [OpenVoltage]
    {
      leftBlocking := true;
      lastSwitchTime := 0.0;
      leftGate := [];
      rightGate := [];
      new;
      ApplyGateStates();
    }

    /** Command each gate once, from leftBlocking. */
    method ApplyGateStates()
      modifies this`leftGate, this`rightGate
      ensures leftGate == old(leftGate) + [GateStates(leftBlocking).left]
      ensures rightGate == old(rightGate) + [GateStates(leftBlocking).right]
    {
      if leftBlocking {
        leftGate := leftGate + [BlockVoltage];
        rightGate := rightGate + [OpenVoltage];
      } else {
        leftGate := leftGate + [OpenVoltage];
        rightGate := rightGate + [BlockVoltage];
      }
    }

    method Toggle()
      modifies this`leftBlocking, this`leftGate, this`rightGate
      ensures leftBlocking == !old(leftBlocking)
      ensures leftGate == old(leftGate) + [GateStates(leftBlocking).left]
      ensures rightGate == old(rightGate) + [GateStates(leftBlocking).right]
    {
      leftBlocking := !leftBlocking;
      ApplyGateStates();
    }

    /**
     * One run of the staggerShots command: the state moves by Step, and the
     * gates are commanded once exactly when a switch happens.
     */
    method StaggerShots(now: real)
      modifies this
      ensures State() == Step(old(State()), now)
      ensures SwitchDue(old(State()), now) ==>
        leftGate == old(leftGate) + [GateStates(leftBlocking).left]
        && rightGate == old(rightGate) + [GateStates(leftBlocking).right]
      ensures !SwitchDue(old(State()), now) ==> leftGate == old(leftGate) && rightGate == old(rightGate)
    {
      if now - lastSwitchTime >= SwitchPeriod {
        Toggle();
        lastSwitchTime := now;
      }
    }

    /** Command both gates to 0 V; which side blocks and when it switched are kept. */
    method Stop()
      modifies this`leftGate, this`rightGate
      ensures leftGate == old(leftGate) + [0.0] && rightGate == old(rightGate) + [0.0]
    {
      leftGate := leftGate + [0.0];
      rightGate := rightGate + [0.0];
    }
  }
}
