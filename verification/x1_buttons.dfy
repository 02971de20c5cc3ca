/**
 * The LED-blink controller of the X1 front panel (Marlin/src/feature/x1-buttons.cpp).
 *
 * The file keeps six pieces of private state: the logical levels of the
 * start, plus, minus and home LEDs and two blink deadlines, a slow one
 * (500 ms) and a fast one (100 ms).  `x1_toggle_start_led` sets or toggles
 * the start LED and drives its pin only when the level changes; `x1_leds`
 * runs once per idle cycle, toggles the start LED on each slow-clock expiry
 * while a print is active, and reschedules both clocks.
 *
 * The behaviour is given twice: as pure step functions over a `Panel`
 * snapshot (which also return the pin writes a step performs), and as the
 * class `X1Panel`, whose fields are updated in place like the file-scope
 * statics, each method proved to follow its step function.  Pin writes are
 * recorded in a ghost log instead of reaching hardware.
 */
module X1Buttons {
  import opened Millis

  /** A C `short`, the type of the LED level variables and of the argument of `x1_toggle_start_led`. */
  type Short = x: int | -0x8000 <= x < 0x8000

  const LOW: Short := 0
  const HIGH: Short := 1
  /** Default argument of `x1_toggle_start_led`: toggle instead of set. */
  const TOGGLE: Short := 2

  const BLINK_PERIOD: U32 := 500
  const FAST_BLINK_PERIOD: U32 := 100

  /** LED output pins, as numbered in Marlin/src/feature/x1-buttons.h. */
  const STARTK_LED_PIN: int := 10
  const PLUSK_LED_PIN: int := 11
  const MINUSK_LED_PIN: int := 16
  const HOMEK_LED_PIN: int := 17

  /** One write of a level to an output pin. */
  datatype PinWrite = PinWrite(pin: int, level: Short)

  /** A snapshot of the file-scope LED and blink-clock state. */
  datatype Panel = Panel(
    startLed: Short, plusLed: Short, minusLed: Short, homeLed: Short,
    nextBlink: U32, nextFastBlink: U32)

  /** The state the statics hold when the firmware starts. */
  const POWER_ON: Panel := Panel(LOW, HIGH, HIGH, HIGH, 0, 0)

  /** The new state after one operation, and the pin writes it performed, in order. */
  datatype Step = Step(panel: Panel, writes: seq<PinWrite>)

  /** The log entry for a change of the start LED, and nothing when it kept its level. */
  function StartWrites(before: Panel, after: Panel): seq<PinWrite>
  {
    if after.startLed == before.startLed then [] else [PinWrite(STARTK_LED_PIN, after.startLed)]
  }

  /** C's logical not `!v` on a level: HIGH for LOW, LOW for anything else. */
  function Negate(v: Short): (r: Short)
    ensures r == LOW || r == HIGH
    ensures r == HIGH <==> v == LOW
    ensures r != v
  {
    if v == LOW then HIGH else LOW
  }

  /**
   * `x1_toggle_start_led(newstate)`: the sentinel TOGGLE flips the start LED,
   * any other value sets it; the pin is written once when the level changes
   * and not at all otherwise, and no other field moves.
   */
  function ToggleStartStep(p: Panel, newstate: Short): (r: Step)
    ensures newstate != TOGGLE ==> r.panel.startLed == newstate
    ensures newstate == TOGGLE ==>
      r.panel.startLed != p.startLed &&
      (r.panel.startLed == LOW || r.panel.startLed == HIGH) &&
      (r.panel.startLed == HIGH <==> p.startLed == LOW)
    ensures r.panel == p.(startLed := r.panel.startLed)
    ensures r.writes == StartWrites(p, r.panel)
    ensures |r.writes| == (if r.panel.startLed == p.startLed then 0 else 1)
  {
    var target := if newstate == TOGGLE then Negate(p.startLed) else newstate;
    if target != p.startLed then
      Step(p.(startLed := target), [PinWrite(STARTK_LED_PIN, target)])
    else
      Step(p, [])
  }

  /**
   * `x1_leds(now)` with `printingIsActive()` given as `printActive`.  The
   * start LED flips exactly when the slow deadline has elapsed and a print
   * is active; each elapsed deadline moves to `now` plus its period, modulo
   * 2^32, and a pending one stays; the fast clock and the plus, minus and
   * home LEDs are never touched by anything else.
   */
  function LedsStep(p: Panel, now: U32, printActive: bool): (r: Step)
    ensures r.panel.startLed != p.startLed <==> Elapsed(now, p.nextBlink) && printActive
    ensures r.panel.startLed != p.startLed ==>
      (r.panel.startLed == LOW || r.panel.startLed == HIGH) &&
      (r.panel.startLed == HIGH <==> p.startLed == LOW)
    ensures r.panel.plusLed == p.plusLed && r.panel.minusLed == p.minusLed && r.panel.homeLed == p.homeLed
    ensures r.panel.nextBlink == if Elapsed(now, p.nextBlink) then Add(now, BLINK_PERIOD) else p.nextBlink
    ensures r.panel.nextFastBlink ==
      if Elapsed(now, p.nextFastBlink) then Add(now, FAST_BLINK_PERIOD) else p.nextFastBlink
    ensures r.writes == StartWrites(p, r.panel)
  {
    var slow :=
      if Elapsed(now, p.nextBlink) then
        var t := if printActive then ToggleStartStep(p, TOGGLE) else Step(p, []);
        Step(t.panel.(nextBlink := Add(now, BLINK_PERIOD)), t.writes)
      else
        Step(p, []);
    if Elapsed(now, slow.panel.nextFastBlink) then
      Step(slow.panel.(nextFastBlink := Add(now, FAST_BLINK_PERIOD)), slow.writes)
    else
      slow
  }

  /** Setting the start LED to the level it already has changes nothing and writes nothing. */
  lemma ToggleIdempotent(p: Panel, v: Short)
    requires v != TOGGLE && v == p.startLed
    ensures ToggleStartStep(p, v) == Step(p, [])
  {
  }

  /** Setting a level twice writes the pin at most once: the second call finds it already there. */
  lemma SetTwiceWritesOnce(p: Panel, v: Short)
    requires v != TOGGLE
    ensures ToggleStartStep(ToggleStartStep(p, v).panel, v) == Step(ToggleStartStep(p, v).panel, [])
  {
  }

  /** From a LOW or HIGH level, toggling twice restores the panel, with one write per toggle. */
  lemma ToggleTwiceRestores(p: Panel)
    requires p.startLed == LOW || p.startLed == HIGH
    ensures ToggleStartStep(ToggleStartStep(p, TOGGLE).panel, TOGGLE).panel == p
    ensures |ToggleStartStep(p, TOGGLE).writes| == 1
    ensures |ToggleStartStep(ToggleStartStep(p, TOGGLE).panel, TOGGLE).writes| == 1
  {
  }

  /**
   * A second call of `x1_leds` with the same `now` does nothing at all: both
   * deadlines it may have rescheduled are pending again, so the start LED
   * toggles at most once per timestamp.
   */
  lemma {:induction false} LedsSameNowIsNoop(p: Panel, now: U32, printActive: bool, printActive': bool)
    ensures LedsStep(LedsStep(p, now, printActive).panel, now, printActive') ==
            Step(LedsStep(p, now, printActive).panel, [])
  {
    var q := LedsStep(p, now, printActive).panel;
    if Elapsed(now, p.nextBlink) {
      PendingWithinPeriod(now, BLINK_PERIOD, 0);
    }
    if Elapsed(now, p.nextFastBlink) {
      PendingWithinPeriod(now, FAST_BLINK_PERIOD, 0);
    }
    assert !Elapsed(now, q.nextBlink) && !Elapsed(now, q.nextFastBlink);
  }

  /**
   * At most one toggle per slow period: after the slow clock fires at `now`,
   * no call in the next 499 ms changes the start LED, writes a pin or moves
   * the slow deadline, whatever the print status.
   */
  lemma {:induction false} LedsOneTogglePerPeriod(p: Panel, now: U32, k: U32, printActive: bool, printActive': bool)
    requires Elapsed(now, p.nextBlink)
    requires k < BLINK_PERIOD
    ensures var q := LedsStep(p, now, printActive).panel;
            var r := LedsStep(q, Add(now, k), printActive');
            r.panel.startLed == q.startLed && r.writes == [] && r.panel.nextBlink == q.nextBlink
  {
    PendingWithinPeriod(now, BLINK_PERIOD, k);
  }

  /** The slow clock fires again once a full period has passed since it last fired. */
  lemma {:induction false} LedsSlowClockRefires(p: Panel, now: U32, printActive: bool)
    requires Elapsed(now, p.nextBlink)
    ensures Elapsed(Add(now, BLINK_PERIOD), LedsStep(p, now, printActive).panel.nextBlink)
  {
    ElapsedAfter(Add(now, BLINK_PERIOD), 0);
  }

  /** The fast clock has no visible effect: its deadline never changes an LED level or a pin write. */
  lemma FastClockInvisible(p: Panel, fast: U32, now: U32, printActive: bool)
    ensures var r, r' := LedsStep(p, now, printActive), LedsStep(p.(nextFastBlink := fast), now, printActive);
            r.writes == r'.writes && r.panel.(nextFastBlink := 0) == r'.panel.(nextFastBlink := 0)
  {
  }

  /**
   * The first idle cycle in the first 2^31 ms after power-on finds both
   * deadlines (0) elapsed: the start LED goes HIGH if a print is active, and
   * the clocks are scheduled from `now`.
   */
  lemma {:induction false} FirstCycleAfterPowerOn(now: U32, printActive: bool)
    requires now < HALF
    ensures var r := LedsStep(POWER_ON, now, printActive);
            r.panel == POWER_ON.(startLed := if printActive then HIGH else LOW,
                                 nextBlink := Add(now, BLINK_PERIOD),
                                 nextFastBlink := Add(now, FAST_BLINK_PERIOD)) &&
            r.writes == if printActive then [PinWrite(STARTK_LED_PIN, HIGH)] else []
  {
    ElapsedAfter(0, now);
  }

  /** One idle cycle as seen by the controller: the clock reading and the print status. */
  datatype Cycle = Cycle(now: U32, printActive: bool)

  /**
   * A run of consecutive idle cycles, each one `x1_leds` step, with the pin
   * writes of all of them in order.  Over any run the plus, minus and home
   * LEDs keep their levels, only the start LED pin is written, at most once
   * per cycle, and every write records a level different from the one
   * before it, so the log never repeats a level.
   */
  function Run(p: Panel, cycles: seq<Cycle>): (r: Step)
    ensures r.panel.plusLed == p.plusLed && r.panel.minusLed == p.minusLed && r.panel.homeLed == p.homeLed
    ensures |r.writes| <= |cycles|
    ensures forall i :: 0 <= i < |r.writes| ==> r.writes[i].pin == STARTK_LED_PIN
    ensures r.writes == [] ==> r.panel.startLed == p.startLed
    ensures r.writes != [] ==> r.writes[0].level != p.startLed && r.writes[|r.writes| - 1].level == r.panel.startLed
    ensures forall i :: 0 <= i < |r.writes| - 1 ==> r.writes[i].level != r.writes[i + 1].level
    decreases |cycles|
  {
    if cycles == [] then
      Step(p, [])
    else
      var s := LedsStep(p, cycles[0].now, cycles[0].printActive);
      var rest := Run(s.panel, cycles[1..]);
      Step(rest.panel, s.writes + rest.writes)
  }

  /** While every cycle of a run finds the slow deadline pending, the run writes nothing and keeps the start LED and that deadline. */
  lemma {:induction false} RunQuietWhileSlowPending(q: Panel, cycles: seq<Cycle>)
    requires forall i :: 0 <= i < |cycles| ==> !Elapsed(cycles[i].now, q.nextBlink)
    ensures Run(q, cycles).writes == []
    ensures Run(q, cycles).panel.startLed == q.startLed && Run(q, cycles).panel.nextBlink == q.nextBlink
    decreases |cycles|
  {
    if cycles != [] {
      var s := LedsStep(q, cycles[0].now, cycles[0].printActive);
      assert !Elapsed(cycles[0].now, q.nextBlink);
      forall i | 0 <= i < |cycles[1..]|
        ensures !Elapsed(cycles[1..][i].now, s.panel.nextBlink)
      {
        assert cycles[1..][i] == cycles[i + 1];
      }
      RunQuietWhileSlowPending(s.panel, cycles[1..]);
    }
  }

  /**
   * At most one toggle per slow period, over whole runs: a cycle at `t0` on
   * which the slow clock fires, followed by any number of cycles less than
   * 500 ms after `t0`, writes the start LED pin at most once.
   */
  lemma {:induction false} RunOneTogglePerPeriod(p: Panel, t0: U32, printActive: bool, cycles: seq<Cycle>)
    requires Elapsed(t0, p.nextBlink)
    requires forall i :: 0 <= i < |cycles| ==> Sub(cycles[i].now, t0) < BLINK_PERIOD
    ensures |Run(p, [Cycle(t0, printActive)] + cycles).writes| <= 1
  {
    var all := [Cycle(t0, printActive)] + cycles;
    var s := LedsStep(p, t0, printActive);
    assert all[0] == Cycle(t0, printActive) && all[1..] == cycles;
    forall i | 0 <= i < |cycles|
      ensures !Elapsed(cycles[i].now, s.panel.nextBlink)
    {
      var k := Sub(cycles[i].now, t0);
      PendingWithinPeriod(t0, BLINK_PERIOD, k);
    }
    RunQuietWhileSlowPending(s.panel, cycles);
  }

  /** The file-scope statics of x1-buttons.cpp, updated in place; `writes` logs every LED pin write. */
  class X1Panel {
    var startLed: Short
    var plusLed: Short
    var minusLed: Short
    var homeLed: Short
    var nextBlink: U32
    var nextFastBlink: U32
    ghost var writes: seq<PinWrite>

    function State(): Panel
      reads this
    {
      Panel(startLed, plusLed, minusLed, homeLed, nextBlink, nextFastBlink)
    }

    /** Power-on: start LED LOW, plus, minus and home LEDs HIGH, both deadlines 0, nothing written. */
    constructor ()
      ensures State() == POWER_ON && writes == []
    {
      startLed, plusLed, minusLed, homeLed := LOW, HIGH, HIGH, HIGH;
      nextBlink, nextFastBlink := 0, 0;
      writes := [];
    }

    /** The four initial LED writes of `x1_setup`, home first and start last; no level changes. */
    method Setup()
      modifies this`writes
      ensures writes == old(writes) + [PinWrite(HOMEK_LED_PIN, homeLed), PinWrite(PLUSK_LED_PIN, plusLed),
                                       PinWrite(MINUSK_LED_PIN, minusLed), PinWrite(STARTK_LED_PIN, startLed)]
    {
      writes := writes + [PinWrite(HOMEK_LED_PIN, homeLed)];
      writes := writes + [PinWrite(PLUSK_LED_PIN, plusLed)];
      writes := writes + [PinWrite(MINUSK_LED_PIN, minusLed)];
      writes := writes + [PinWrite(STARTK_LED_PIN, startLed)];
    }

    /** `x1_toggle_start_led(newstate)`; pass TOGGLE for the default argument. */
    method ToggleStartLed(newstate: Short)
      modifies this`startLed, this`writes
      ensures State() == ToggleStartStep(old(State()), newstate).panel
      ensures writes == old(writes) + ToggleStartStep(old(State()), newstate).writes
    {
      var target := newstate;
      if target == TOGGLE {
        target := Negate(startLed);
      }
      if target != startLed {
        startLed := target;
        writes := writes + [PinWrite(STARTK_LED_PIN, startLed)];
      }
    }

    /** `x1_leds(now)`, with the print status sampled by the caller. */
    method Leds(now: U32, printActive: bool)
      modifies this`startLed, this`nextBlink, this`nextFastBlink, this`writes
      ensures State() == LedsStep(old(State()), now, printActive).panel
      ensures writes == old(writes) + LedsStep(old(State()), now, printActive).writes
    {
      if Elapsed(now, nextBlink) {
        if printActive {
          ToggleStartLed(TOGGLE);
        }
        nextBlink := Add(now, BLINK_PERIOD);
      }
      if Elapsed(now, nextFastBlink) {
        nextFastBlink := Add(now, FAST_BLINK_PERIOD);
      }
    }

    /** `x1_idle()`, with the clock reading `now` and the print status passed in. */
    method Idle(now: U32, printActive: bool)
      modifies this`startLed, this`nextBlink, this`nextFastBlink, this`writes
      ensures State() == LedsStep(old(State()), now, printActive).panel
      ensures writes == old(writes) + LedsStep(old(State()), now, printActive).writes
    {
      Leds(now, printActive);
    }
  }
}
