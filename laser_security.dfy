/**
 * The laser intrusion-alarm controller (laser-security-system-demo).
 *
 * Two producers and one consumer share one first-in-first-out event bus:
 *  - the button thread sends `ButtonPressed` after every completed press;
 *  - the alarm-checking thread samples the light detector once per period
 *    and may send `AlarmHappened`;
 *  - the main loop takes at most one event per tick and drives the four
 *    output pins (laser, status indicator, alarm trigger, alarm buzzer).
 *
 * Threads and sleeps are abstracted away: each thread's loop body is a
 * method, and any interleaving of their calls is a run of the system.
 */
module LaserSecurity {
  import opened Gpio

  datatype SystemEventType = ButtonPressed | AlarmHappened

  /** A sample above this value, with the latch clear, raises an alarm. */
  const BlockingThreshold: Byte := 20
  /** Only a sample of exactly this value leaves a set latch set. */
  const FullScale: Byte := 255

  /** The event the next non-blocking receive returns, if any. */
  function Front(q: seq<SystemEventType>): (r: Option<SystemEventType>)
  {
    if q == [] then None else Some(q[0])
  }

  /** The queue left after one non-blocking receive. */
  function Rest(q: seq<SystemEventType>): (r: seq<SystemEventType>)
  {
    if q == [] then [] else q[1..]
  }

  /**
   * The channel. `pending` is what a receive will see next; the ghost
   * history `sent` and `delivered` make its first-in-first-out promise
   * an invariant: what has been delivered is always a prefix of what has
   * been sent, and the rest is still pending in order.
   */
  class EventBus {
    var pending: seq<SystemEventType>
    ghost var sent: seq<SystemEventType>
    ghost var delivered: seq<SystemEventType>

    ghost predicate Valid()
      reads this
    {
      sent == delivered + pending
    }

    constructor ()
      ensures Valid()
      ensures pending == [] && sent == [] && delivered == []
    {
      pending, sent, delivered := [], [], [];
    }

    /** A producer's `send`: never blocks, appends at the back. */
    method Send(e: SystemEventType)
      requires Valid()
      modifies this
      ensures Valid()
      ensures pending == old(pending) + [e]
      ensures sent == old(sent) + [e] && delivered == old(delivered)
    {
      pending := pending + [e];
      sent := sent + [e];
    }

    /** The consumer's `try_recv`: takes the oldest event, or reports none. */
    method TryRecv() returns (r: Option<SystemEventType>)
      requires Valid()
      modifies this
      ensures Valid() && sent == old(sent)
      ensures r == Front(old(pending)) && pending == Rest(old(pending))
      ensures delivered == old(delivered) + (if r.Some? then [r.value] else [])
    {
      if pending == [] {
        r := None;
      } else {
        r := Some(pending[0]);
        delivered := delivered + [pending[0]];
        assert delivered + pending[1..] == old(delivered) + pending;
        pending := pending[1..];
      }
    }
  }

  // ---------------------------------------------------------------------
  // The alarm-checking thread
  // ---------------------------------------------------------------------

  /** What one sample does: the new latch and whether an alarm is sent. */
  datatype PollOutcome = PollOutcome(blocking: bool, emit: bool)

  /** One pass of the poller's loop on the latch `blocking` and the sample `v`. */
  function PollStep(blocking: bool, v: Byte): (o: PollOutcome)
  {
    if !blocking && v > BlockingThreshold then PollOutcome(true, true)
    else if v < FullScale then PollOutcome(false, false)
    else PollOutcome(blocking, false)
  }

  /** The latch after feeding `s` to a poller whose latch was `b`. */
  function LatchAfter(b: bool, s: seq<Byte>): (latch: bool)
    decreases |s|
  {
    if s == [] then b
    else PollStep(LatchAfter(b, s[..|s| - 1]), s[|s| - 1]).blocking
  }

  /** For each sample of `s`, whether it sent an alarm. */
  function Fires(b: bool, s: seq<Byte>): (f: seq<bool>)
    ensures |f| == |s|
    decreases |s|
  {
    if s == [] then []
    else Fires(b, s[..|s| - 1]) + [PollStep(LatchAfter(b, s[..|s| - 1]), s[|s| - 1]).emit]
  }

  /** The events the poller sends while it reads `s`, starting from latch `b`. */
  function Alarms(b: bool, s: seq<Byte>): (sent: seq<SystemEventType>)
    decreases |s|
  {
    if s == [] then []
    else
      Alarms(b, s[..|s| - 1])
      + (if PollStep(LatchAfter(b, s[..|s| - 1]), s[|s| - 1]).emit then [AlarmHappened] else [])
  }

  /** The poller's state: the latch `laser_light_is_blocking`. */
  class AlarmChecker {
    var laserLightIsBlocking: bool

    constructor ()
      ensures !laserLightIsBlocking
    {
      laserLightIsBlocking := false;
    }

    /** One iteration of the poller's loop on the analog sample `analogValue`. */
    method Sample(analogValue: Byte, bus: EventBus)
      requires bus.Valid()
      modifies this, bus
      ensures bus.Valid() && bus.delivered == old(bus.delivered)
      ensures laserLightIsBlocking == PollStep(old(laserLightIsBlocking), analogValue).blocking
      ensures bus.pending == old(bus.pending)
                             + (if PollStep(old(laserLightIsBlocking), analogValue).emit
                                then [AlarmHappened] else [])
    {
      if !laserLightIsBlocking && analogValue > BlockingThreshold {
        laserLightIsBlocking := true;
        bus.Send(AlarmHappened);
      } else if analogValue < FullScale {
        laserLightIsBlocking := false;
      }
    }

    /** The poller's loop over a finite stream of samples. */
    method Poll(samples: seq<Byte>, bus: EventBus)
      requires bus.Valid()
      modifies this, bus
      ensures bus.Valid() && bus.delivered == old(bus.delivered)
      ensures laserLightIsBlocking == LatchAfter(old(laserLightIsBlocking), samples)
      ensures bus.pending == old(bus.pending) + Alarms(old(laserLightIsBlocking), samples)
    {
      var i := 0;
      while i < |samples|
        invariant 0 <= i <= |samples|
        invariant bus.Valid() && bus.delivered == old(bus.delivered)
        invariant laserLightIsBlocking == LatchAfter(old(laserLightIsBlocking), samples[..i])
        invariant bus.pending == old(bus.pending) + Alarms(old(laserLightIsBlocking), samples[..i])
      {
        assert samples[..i + 1][..i] == samples[..i];
        Sample(samples[i], bus);
        i := i + 1;
      }
      assert samples[..|samples|] == samples;
    }
  }

  /** A sample raises an alarm exactly when the latch was clear and the sample exceeds 20. */
  lemma PollStepFacts(blocking: bool, v: Byte)
    ensures PollStep(blocking, v).emit <==> !blocking && v > 20
    ensures PollStep(blocking, v).emit ==> PollStep(blocking, v).blocking
    ensures !PollStep(blocking, v).emit && v < 255 ==> !PollStep(blocking, v).blocking
    ensures blocking && v == 255 ==> PollStep(blocking, v).blocking && !PollStep(blocking, v).emit
  {
  }

  /** The per-sample flags and the events sent agree: one alarm per firing sample. */
  lemma {:induction false} AlarmsFollowFires(b: bool, s: seq<Byte>)
    ensures |Alarms(b, s)| == CountTrue(Fires(b, s))
    ensures forall i :: 0 <= i < |Alarms(b, s)| ==> Alarms(b, s)[i] == AlarmHappened
    decreases |s|
  {
    if s != [] {
      var init := s[..|s| - 1];
      AlarmsFollowFires(b, init);
      CountTrueSnoc(Fires(b, init), PollStep(LatchAfter(b, init), s[|s| - 1]).emit);
    }
  }

  function CountTrue(f: seq<bool>): (n: nat)
  {
    if f == [] then 0 else (if f[0] then 1 else 0) + CountTrue(f[1..])
  }

  lemma {:induction false} CountTrueSnoc(f: seq<bool>, x: bool)
    ensures CountTrue(f + [x]) == CountTrue(f) + (if x then 1 else 0)
  {
    if f != [] {
      assert (f + [x])[1..] == f[1..] + [x];
      CountTrueSnoc(f[1..], x);
    }
  }

  /** Sample `i` fired exactly when the latch before it was clear and the sample exceeds 20. */
  lemma {:induction false} FiresAt(b: bool, s: seq<Byte>, i: nat)
    requires i < |s|
    ensures Fires(b, s)[i] == PollStep(LatchAfter(b, s[..i]), s[i]).emit
    ensures LatchAfter(b, s[..i + 1]) == PollStep(LatchAfter(b, s[..i]), s[i]).blocking
    decreases |s|
  {
    assert s[..i + 1][..i] == s[..i];
    if i < |s| - 1 {
      var init := s[..|s| - 1];
      FiresAt(b, init, i);
      assert init[..i] == s[..i] && init[..i + 1] == s[..i + 1];
    } else {
      assert s[..|s| - 1] == s[..i];
      assert s[..i + 1] == s;
    }
  }

  /** A sample of 20 or less never raises an alarm. */
  lemma LowSamplesNeverFire(b: bool, s: seq<Byte>, i: nat)
    requires i < |s| && s[i] <= BlockingThreshold
    ensures !Fires(b, s)[i]
  {
    FiresAt(b, s, i);
  }

  /** No two consecutive samples both raise an alarm. */
  lemma NoTwoConsecutiveFires(b: bool, s: seq<Byte>, i: nat)
    requires i + 1 < |s|
    ensures !(Fires(b, s)[i] && Fires(b, s)[i + 1])
  {
    FiresAt(b, s, i);
    FiresAt(b, s, i + 1);
  }

  /**
   * At most one alarm for every two samples, for any starting latch: each
   * alarm sets the latch, and only a sample that sends nothing clears it.
   */
  lemma {:induction false} AlarmBound(b: bool, s: seq<Byte>)
    ensures 2 * |Alarms(b, s)| + 1
            <= |s| + (if b then 0 else 1) + (if LatchAfter(b, s) then 1 else 0)
    decreases |s|
  {
    if s != [] {
      AlarmBound(b, s[..|s| - 1]);
    }
  }

  /** From a clear latch, n samples send at most (n + 1) / 2 alarms. */
  lemma AlarmBoundFromClear(s: seq<Byte>)
    ensures |Alarms(false, s)| <= (|s| + 1) / 2
  {
    AlarmBound(false, s);
  }

  /** Feeding `s` then `t` is feeding `t` to the poller `s` left behind. */
  lemma {:induction false} PollConcat(b: bool, s: seq<Byte>, t: seq<Byte>)
    ensures LatchAfter(b, s + t) == LatchAfter(LatchAfter(b, s), t)
    ensures Alarms(b, s + t) == Alarms(b, s) + Alarms(LatchAfter(b, s), t)
    decreases |t|
  {
    if t == [] {
      assert s + t == s;
    } else {
      var t' := t[..|t| - 1];
      assert (s + t)[..|s + t| - 1] == s + t';
      assert (s + t)[|s + t| - 1] == t[|t| - 1];
      PollConcat(b, s, t');
    }
  }

  /** While the sensor reads 255, a set latch stays set and nothing is sent. */
  lemma {:induction false} FullScaleHoldsLatch(s: seq<Byte>)
    requires forall i :: 0 <= i < |s| ==> s[i] == FullScale
    ensures LatchAfter(true, s) && Alarms(true, s) == []
    decreases |s|
  {
    if s != [] {
      FullScaleHoldsLatch(s[..|s| - 1]);
    }
  }

  /** From a clear latch, a blocking sample followed by any run of 255s sends exactly one alarm. */
  lemma OneAlarmPerFullScaleRun(v: Byte, s: seq<Byte>)
    requires v > BlockingThreshold
    requires forall i :: 0 <= i < |s| ==> s[i] == FullScale
    ensures Alarms(false, [v] + s) == [AlarmHappened]
    ensures LatchAfter(false, [v] + s)
  {
    assert [v][..0] == [];
    PollConcat(false, [v], s);
    FullScaleHoldsLatch(s);
  }

  /**
   * The poller is not an edge detector: from a clear latch, a run of
   * samples in 21..254 sends an alarm on every other sample.
   */
  lemma {:induction false} IntermediateRunAlternates(s: seq<Byte>)
    requires forall i :: 0 <= i < |s| ==> BlockingThreshold < s[i] < FullScale
    ensures LatchAfter(false, s) == (|s| % 2 == 1)
    ensures forall i :: 0 <= i < |s| ==> Fires(false, s)[i] == (i % 2 == 0)
    decreases |s|
  {
    if s != [] {
      var init := s[..|s| - 1];
      IntermediateRunAlternates(init);
      assert Fires(false, s) == Fires(false, init) + [(|s| - 1) % 2 == 0];
    }
  }

  /** From a set latch, a run of samples in 21..254 fires exactly at the odd positions. */
  lemma {:induction false} IntermediateRunAlternatesFromSet(s: seq<Byte>)
    requires forall i :: 0 <= i < |s| ==> BlockingThreshold < s[i] < FullScale
    ensures LatchAfter(true, s) == (|s| % 2 == 0)
    ensures forall i :: 0 <= i < |s| ==> Fires(true, s)[i] == (i % 2 == 1)
    decreases |s|
  {
    if s != [] {
      var init := s[..|s| - 1];
      IntermediateRunAlternatesFromSet(init);
      assert Fires(true, s) == Fires(true, init) + [(|s| - 1) % 2 == 1];
    }
  }

  /**
   * Two sample streams: [5, 25, 30, 25, 254] sends two alarms (the 30 clears
   * the latch), while [5, 25, 255, 25] sends one (the 255 keeps it set, and
   * the 25 after it only clears it).
   */
  lemma SampleStreams()
    ensures |Alarms(false, [5, 25, 30, 25, 254])| == 2
    ensures |Alarms(false, [5, 25, 255, 25])| == 1
  {
    var s1: seq<Byte> := [5];
    var s2: seq<Byte> := [5, 25];
    var s3: seq<Byte> := [5, 25, 30];
    var s4: seq<Byte> := [5, 25, 30, 25];
    var s5: seq<Byte> := [5, 25, 30, 25, 254];
    assert s1[..0] == [] && s2[..1] == s1 && s3[..2] == s2 && s4[..3] == s3 && s5[..4] == s4;
    assert !LatchAfter(false, s1) && |Alarms(false, s1)| == 0;
    assert LatchAfter(false, s2) && |Alarms(false, s2)| == 1;
    assert !LatchAfter(false, s3) && |Alarms(false, s3)| == 1;
    assert LatchAfter(false, s4) && |Alarms(false, s4)| == 2;
    var t3: seq<Byte> := [5, 25, 255];
    var t4: seq<Byte> := [5, 25, 255, 25];
    assert t3[..2] == s2 && t4[..3] == t3;
    assert LatchAfter(false, t3) && |Alarms(false, t3)| == 1;
  }

  // ---------------------------------------------------------------------
  // The main loop: the security state machine
  // ---------------------------------------------------------------------

  /** The armed flag and the four output levels the main loop owns. */
  datatype Controls = Controls(
    armed: bool,
    laser: PinState,
    indicator: PinState,
    trigger: PinState,
    buzzer: PinState)

  /** The laser and the status indicator both show whether the system is armed. */
  predicate Consistent(c: Controls)
  {
    c.laser == LevelOf(c.armed) && c.indicator == LevelOf(c.armed)
  }

  /**
   * The state right after startup: `toggle_security_system(true, ...)` drives
   * laser and indicator Low, the flag starts false, and the alarm pins keep
   * whatever level they came up with.
   */
  function Startup(trigger0: PinState, buzzer0: PinState): (c: Controls)
    ensures !c.armed && c.laser == Low && c.indicator == Low && Consistent(c)
    ensures c.trigger == trigger0 && c.buzzer == buzzer0
  {
    Controls(false, LevelOf(!true), LevelOf(!true), trigger0, buzzer0)
  }

  /** One tick of the main loop, given what the non-blocking receive returned. */
  function Dispatch(c: Controls, received: Option<SystemEventType>): (r: Controls)
    ensures received == Some(ButtonPressed) ==>
              r.armed == !c.armed && Consistent(r)
              && r.trigger == c.trigger && r.buzzer == c.buzzer
    ensures received == Some(AlarmHappened) ==>
              r == c.(trigger := High, buzzer := Low)
    ensures received == None ==>
              r == c.(trigger := Low, buzzer := High)
    ensures Consistent(c) ==> Consistent(r)
  {
    match received
    case Some(ButtonPressed) =>
      c.(armed := !c.armed, laser := LevelOf(!c.armed), indicator := LevelOf(!c.armed))
    case Some(AlarmHappened) =>
      c.(trigger := High, buzzer := Low)
    case None =>
      c.(trigger := Low, buzzer := High)
  }

  /** The controls after `ticks` ticks of the main loop with queue `q`. */
  function Replay(c: Controls, q: seq<SystemEventType>, ticks: nat): (r: Controls)
    decreases ticks
  {
    if ticks == 0 then c else Replay(Dispatch(c, Front(q)), Rest(q), ticks - 1)
  }

  /** The queue left after `ticks` ticks: each tick removes at most the oldest event. */
  function Drained(q: seq<SystemEventType>, ticks: nat): (r: seq<SystemEventType>)
    ensures r == if ticks <= |q| then q[ticks..] else []
    decreases ticks
  {
    if ticks == 0 then q else Drained(Rest(q), ticks - 1)
  }

  /** The events, in queue order, handled by `ticks` ticks. */
  function Handled(q: seq<SystemEventType>, ticks: nat): (r: seq<SystemEventType>)
  {
    if ticks <= |q| then q[..ticks] else q
  }

  /** Handling every event of `events`, oldest first. */
  function Apply(c: Controls, events: seq<SystemEventType>): (r: Controls)
    decreases |events|
  {
    if events == [] then c else Apply(Dispatch(c, Some(events[0])), events[1..])
  }

  /** The number of button presses in `events`. */
  function Presses(events: seq<SystemEventType>): (n: nat)
  {
    if events == [] then 0
    else (if events[0] == ButtonPressed then 1 else 0) + Presses(events[1..])
  }

  /** The main loop's state: the armed flag and its four output pins. */
  class SecuritySystem {
    var laserSignal: PinState
    var systemStatusIndicatorSignal: PinState
    var alarmTriggerSignal: PinState
    var alarmBuzzerSignal: PinState
    var securitySystemIsAlreadyEnabled: bool

    function Snapshot(): (c: Controls)
      reads this
    {
      Controls(securitySystemIsAlreadyEnabled, laserSignal, systemStatusIndicatorSignal,
               alarmTriggerSignal, alarmBuzzerSignal)
    }

    /**
     * Startup: the four output pins come up at unknown levels, then the
     * system is forced into the disarmed state before the loop starts.
     */
    constructor (laser0: PinState, indicator0: PinState, trigger0: PinState, buzzer0: PinState)
      ensures Snapshot() == Startup(trigger0, buzzer0)
    {
      laserSignal := laser0;
      systemStatusIndicatorSignal := indicator0;
      alarmTriggerSignal := trigger0;
      alarmBuzzerSignal := buzzer0;
      new;
      ToggleSecuritySystem(true);
      securitySystemIsAlreadyEnabled := false;
    }

    /** `toggle_security_system`: drive laser and indicator to the new state. */
    method ToggleSecuritySystem(alreadyEnabled: bool)
      modifies this`laserSignal, this`systemStatusIndicatorSignal
      ensures laserSignal == LevelOf(!alreadyEnabled)
      ensures systemStatusIndicatorSignal == LevelOf(!alreadyEnabled)
    {
      var enable := !alreadyEnabled;
      var laserPinState := if enable then High else Low;
      var systemStatusIndicatorState := laserPinState;
      laserSignal := laserPinState;
      systemStatusIndicatorSignal := systemStatusIndicatorState;
    }

    /** One pass of the main loop: take at most one event and act on it. */
    method Tick(bus: EventBus)
      requires bus.Valid()
      modifies this, bus
      ensures bus.Valid() && bus.sent == old(bus.sent)
      ensures bus.pending == Rest(old(bus.pending))
      ensures bus.delivered == old(bus.delivered) + Handled(old(bus.pending), 1)
      ensures Snapshot() == Dispatch(old(Snapshot()), Front(old(bus.pending)))
    {
      var received := bus.TryRecv();
      match received {
        case Some(ButtonPressed) =>
          ToggleSecuritySystem(securitySystemIsAlreadyEnabled);
          securitySystemIsAlreadyEnabled := !securitySystemIsAlreadyEnabled;
        case Some(AlarmHappened) =>
          alarmTriggerSignal := High;
          alarmBuzzerSignal := Low;
        case None =>
          alarmTriggerSignal := Low;
          alarmBuzzerSignal := High;
      }
    }

    /** The main loop run for `ticks` ticks with no producer sending meanwhile. */
    method Run(bus: EventBus, ticks: nat)
      requires bus.Valid()
      modifies this, bus
      ensures bus.Valid() && bus.sent == old(bus.sent)
      ensures bus.pending == Drained(old(bus.pending), ticks)
      ensures bus.delivered == old(bus.delivered) + Handled(old(bus.pending), ticks)
      ensures Snapshot() == Replay(old(Snapshot()), old(bus.pending), ticks)
    {
      var i := 0;
      while i < ticks
        invariant 0 <= i <= ticks
        invariant bus.Valid() && bus.sent == old(bus.sent)
        invariant bus.pending == Drained(old(bus.pending), i)
        invariant bus.delivered == old(bus.delivered) + Handled(old(bus.pending), i)
        invariant Replay(Snapshot(), bus.pending, ticks - i)
                  == Replay(old(Snapshot()), old(bus.pending), ticks)
      {
        Tick(bus);
        i := i + 1;
      }
    }
  }

  /** Every tick keeps laser == indicator == the level of the armed flag. */
  lemma {:induction false} ReplayKeepsConsistent(c: Controls, q: seq<SystemEventType>, ticks: nat)
    requires Consistent(c)
    ensures Consistent(Replay(c, q, ticks))
    decreases ticks
  {
    if ticks > 0 {
      ReplayKeepsConsistent(Dispatch(c, Front(q)), Rest(q), ticks - 1);
    }
  }

  /** Right after startup, and therefore after any number of ticks, the invariant holds. */
  lemma InvariantAfterEveryTick(trigger0: PinState, buzzer0: PinState,
                                q: seq<SystemEventType>, ticks: nat)
    ensures Consistent(Replay(Startup(trigger0, buzzer0), q, ticks))
  {
    ReplayKeepsConsistent(Startup(trigger0, buzzer0), q, ticks);
  }

  /** Two presses in a row restore the armed flag, the laser and the indicator. */
  lemma DoubleToggleRestores(c: Controls)
    requires Consistent(c)
    ensures var r := Dispatch(Dispatch(c, Some(ButtonPressed)), Some(ButtonPressed));
            r.armed == c.armed && r.laser == c.laser && r.indicator == c.indicator
  {
  }

  /** The first `ticks` ticks apply the first `ticks` queued events, oldest first. */
  lemma {:induction false} ReplayAppliesInOrder(c: Controls, q: seq<SystemEventType>, ticks: nat)
    requires ticks <= |q|
    ensures Replay(c, q, ticks) == Apply(c, q[..ticks])
    decreases ticks
  {
    if ticks > 0 {
      ReplayAppliesInOrder(Dispatch(c, Some(q[0])), q[1..], ticks - 1);
      assert q[..ticks][1..] == q[1..][..ticks - 1];
    }
  }

  /**
   * Once the queue is empty, each further tick is an idle tick: the alarm
   * pins read trigger Low and buzzer High, the rest is what the queued
   * events left behind.
   */
  lemma {:induction false} IdleAfterDrain(c: Controls, q: seq<SystemEventType>, ticks: nat)
    requires ticks > |q|
    ensures Replay(c, q, ticks) == Apply(c, q).(trigger := Low, buzzer := High)
    decreases ticks
  {
    if q == [] {
      if ticks > 1 {
        IdleAfterDrain(Dispatch(c, None), [], ticks - 1);
      }
    } else {
      IdleAfterDrain(Dispatch(c, Some(q[0])), q[1..], ticks - 1);
    }
  }

  /** Alarms never change the armed flag: it flips once per button press. */
  lemma {:induction false} ArmedFollowsPresses(c: Controls, events: seq<SystemEventType>)
    ensures Apply(c, events).armed == (c.armed != (Presses(events) % 2 == 1))
    decreases |events|
  {
    if events != [] {
      ArmedFollowsPresses(Dispatch(c, Some(events[0])), events[1..]);
    }
  }

  /**
   * Start disarmed, press, block the laser, then wait: the system arms,
   * the alarm fires, and the next idle tick silences it again.
   */
  lemma EndToEndScenario(trigger0: PinState, buzzer0: PinState)
    ensures var q := [ButtonPressed, AlarmHappened];
            var s0 := Startup(trigger0, buzzer0);
            var s1 := Replay(s0, q, 1);
            var s2 := Replay(s0, q, 2);
            var s3 := Replay(s0, q, 3);
            && s1.armed && s1.laser == High && s1.indicator == High
            && s1.trigger == trigger0 && s1.buzzer == buzzer0
            && s2.armed && s2.trigger == High && s2.buzzer == Low
            && s3.armed && s3.laser == High && s3.trigger == Low && s3.buzzer == High
  {
  }
}
