/**
 * The H-bridge driver: four GPIO outputs, AIN1/AIN2 for motor A and BIN1/BIN2 for
 * motor B. Each directional call sets the four pins to a fixed pattern, holds it for
 * `t` seconds and then switches every pin off.
 */
module MotorDrive {

  datatype Direction = Forward | Backward | Left | Right

  /** The four output levels (true is on). */
  datatype Pins = Pins(ain1: bool, ain2: bool, bin1: bool, bin2: bool)

  /** One output pin of the bridge. */
  datatype Pin = AIN1 | AIN2 | BIN1 | BIN2

  /** A `sleep(t)` taken while the pins stood at `pins`. */
  datatype Hold = Hold(pins: Pins, seconds: real)

  const Off := Pins(false, false, false, false)

  /** Neither motor has both of its inputs energised at once. */
  predicate Safe(p: Pins) { !(p.ain1 && p.ain2) && !(p.bin1 && p.bin2) }

  /** Every pin that is on in `p` is also on in `q`. */
  predicate Below(p: Pins, q: Pins)
  {
    (p.ain1 ==> q.ain1) && (p.ain2 ==> q.ain2) && (p.bin1 ==> q.bin1) && (p.bin2 ==> q.bin2)
  }

  /** Switching pins off never creates a shorted pair. */
  lemma BelowSafe(p: Pins, q: Pins)
    requires Below(p, q) && Safe(q)
    ensures Safe(p)
  {
  }

  function Level(p: Pins, pin: Pin): bool
  {
    match pin
    case AIN1 => p.ain1
    case AIN2 => p.ain2
    case BIN1 => p.bin1
    case BIN2 => p.bin2
  }

  /** The outputs after one `on()` / `off()` call: `pin` is at `on`, the other three are untouched. */
  function Set(p: Pins, pin: Pin, on: bool): (r: Pins)
    ensures Level(r, pin) == on
    ensures forall other: Pin :: other != pin ==> Level(r, other) == Level(p, other)
  {
    match pin
    case AIN1 => p.(ain1 := on)
    case AIN2 => p.(ain2 := on)
    case BIN1 => p.(bin1 := on)
    case BIN2 => p.(bin2 := on)
  }

  /**
   * The pattern each directional call holds: forward (on,off,on,off),
   * backward (off,on,off,on), left (off,on,on,off), right (on,off,off,on).
   * Each motor is driven in exactly one polarity, so no pair is shorted.
   */
  function Pattern(d: Direction): (r: Pins)
    ensures Safe(r)
    ensures r.ain1 != r.ain2 && r.bin1 != r.bin2
  {
    match d
    case Forward => Pins(true, false, true, false)
    case Backward => Pins(false, true, false, true)
    case Left => Pins(false, true, true, false)
    case Right => Pins(true, false, false, true)
  }

  /** No two directions share a pattern. */
  lemma PatternInjective(d: Direction, e: Direction)
    ensures Pattern(d) == Pattern(e) ==> d == e
  {
  }

  function Opposite(d: Direction): Direction
  {
    match d
    case Forward => Backward
    case Backward => Forward
    case Left => Right
    case Right => Left
  }

  /** Both motors with their polarity reversed. */
  function Reversed(p: Pins): Pins { Pins(p.ain2, p.ain1, p.bin2, p.bin1) }

  /** Motor A and motor B exchanged. */
  function Mirrored(p: Pins): Pins { Pins(p.bin1, p.bin2, p.ain1, p.ain2) }

  /**
   * Backward is forward with both motors reversed, and every direction's pattern is
   * the reversal of its opposite's; left and right are mirror images, while forward
   * and backward are their own mirror images.
   */
  lemma PatternSymmetry(d: Direction)
    ensures Pattern(Backward) == Reversed(Pattern(Direction.Forward))
    ensures Pattern(Opposite(d)) == Reversed(Pattern(d))
    ensures Pattern(Left) == Mirrored(Pattern(Direction.Right)) && Pattern(Right) == Mirrored(Pattern(Direction.Left))
    ensures Mirrored(Pattern(Direction.Forward)) == Pattern(Forward) && Mirrored(Pattern(Direction.Backward)) == Pattern(Backward)
  {
  }

  /** The outputs after each of the four writes of a directional call, starting from all off. */
  function Energizing(p: Pins): seq<Pins>
  {
    [ Pins(p.ain1, false, false, false),
      Pins(p.ain1, p.ain2, false, false),
      Pins(p.ain1, p.ain2, p.bin1, false),
      p ]
  }

  /** The outputs after each of the four `off()` writes of `stop()`, starting from `p`. */
  function Releasing(p: Pins): seq<Pins>
  {
    [ Pins(false, p.ain2, p.bin1, p.bin2),
      Pins(false, false, p.bin1, p.bin2),
      Pins(false, false, false, p.bin2),
      Off ]
  }

  /**
   * Setting a safe pattern pin by pin from all off, and clearing any safe state pin by
   * pin, only passes through safe states: no transient short either.
   */
  lemma {:induction false} TransitionsSafe(p: Pins)
    requires Safe(p)
    ensures forall i :: 0 <= i < 4 ==> Safe(Energizing(p)[i]) && Safe(Releasing(p)[i])
    ensures Releasing(p)[3] == Off && Energizing(p)[3] == p
  {
    forall i | 0 <= i < 4 ensures Safe(Energizing(p)[i]) && Safe(Releasing(p)[i]) {
      BelowSafe(Energizing(p)[i], p);
      BelowSafe(Releasing(p)[i], p);
    }
  }

  /**
   * From any outputs, `stop()` ends with every pin off, and a second `stop()` right
   * after it writes nothing but "all off": stopping twice is stopping once.
   */
  lemma StopIdempotent(p: Pins)
    ensures Releasing(p)[3] == Off
    ensures Releasing(Releasing(p)[3]) == [Off, Off, Off, Off]
  {
  }

  /** The four output pins of motor_drive.py and what they have done so far. */
  class HBridge {
    var ain1: bool
    var ain2: bool
    var bin1: bool
    var bin2: bool
    /** The outputs after every single pin write, oldest first, beginning with the initial state. */
    ghost var trace: seq<Pins>
    /** Every timed hold, oldest first. */
    var holds: seq<Hold>

    function Outputs(): Pins
      reads this
    {
      Pins(ain1, ain2, bin1, bin2)
    }

    /** The outputs have never shorted a motor, and the trace ends at the present outputs. */
    ghost predicate Sound()
      reads this
    {
      |trace| > 0 && trace[|trace| - 1] == Outputs() &&
      forall i :: 0 <= i < |trace| ==> Safe(trace[i])
    }

    /** Between calls the bridge is sound and at rest with every pin off. */
    ghost predicate Valid()
      reads this
    {
      Sound() && Outputs() == Off
    }

    /** The pins as `OutputDevice` creates them: off. */
    constructor ()
      ensures Valid()
      ensures trace == [Off] && holds == []
    {
      ain1, ain2, bin1, bin2 := false, false, false, false;
      trace := [Off];
      holds := [];
    }

    /** One `on()` or `off()` call. */
    method Write(pin: Pin, on: bool)
      modifies this
      ensures Outputs() == Set(old(Outputs()), pin, on)
      ensures trace == old(trace) + [Outputs()]
      ensures holds == old(holds)
    {
      match pin {
        case AIN1 => ain1 := on;
        case AIN2 => ain2 := on;
        case BIN1 => bin1 := on;
        case BIN2 => bin2 := on;
      }
      trace := trace + [Outputs()];
    }

    /** `sleep(t)`: the outputs stay as they are for `t` seconds. */
    method Sleep(t: real)
      requires t >= 0.0
      modifies this
      ensures Outputs() == old(Outputs()) && trace == old(trace)
      ensures holds == old(holds) + [Hold(Outputs(), t)]
    {
      holds := holds + [Hold(Outputs(), t)];
    }

    /** `stop()`: all four pins off, in the order AIN1, AIN2, BIN1, BIN2. */
    method Stop()
      requires Sound()
      modifies this
      ensures Valid()
      ensures trace == old(trace) + Releasing(old(Outputs()))
      ensures holds == old(holds)
      ensures old(Outputs()) == Off ==> forall i :: old(|trace|) <= i < |trace| ==> trace[i] == Off
    {
      TransitionsSafe(Outputs());
      Write(AIN1, false);
      Write(AIN2, false);
      Write(BIN1, false);
      Write(BIN2, false);
    }

    /** Sets the pins to `p` in the order AIN1, AIN2, BIN1, BIN2, holds for `t`, then stops. */
    method Run(p: Pins, t: real)
      requires Valid() && Safe(p) && t >= 0.0
      modifies this
      ensures Valid()
      ensures trace == old(trace) + Energizing(p) + Releasing(p)
      ensures holds == old(holds) + [Hold(p, t)]
    {
      TransitionsSafe(p);
      Write(AIN1, p.ain1);
      Write(AIN2, p.ain2);
      Write(BIN1, p.bin1);
      Write(BIN2, p.bin2);
      assert trace == old(trace) + Energizing(p);
      Sleep(t);
      Stop();
    }

    /** `forward(t)`: pins (on,off,on,off) for `t` seconds, then all off. */
    method Forward(t: real)
      requires Valid() && t >= 0.0
      modifies this
      ensures Valid()
      ensures trace == old(trace) + Energizing(Pattern(Direction.Forward)) + Releasing(Pattern(Direction.Forward))
      ensures holds == old(holds) + [Hold(Pattern(Direction.Forward), t)]
    {
      Run(Pins(true, false, true, false), t);
    }

    /** `backward(t)`: pins (off,on,off,on) for `t` seconds, then all off. */
    method Backward(t: real)
      requires Valid() && t >= 0.0
      modifies this
      ensures Valid()
      ensures trace == old(trace) + Energizing(Pattern(Direction.Backward)) + Releasing(Pattern(Direction.Backward))
      ensures holds == old(holds) + [Hold(Pattern(Direction.Backward), t)]
    {
      Run(Pins(false, true, false, true), t);
    }

    /** `left(t)`: pins (off,on,on,off) for `t` seconds, then all off. */
    method Left(t: real)
      requires Valid() && t >= 0.0
      modifies this
      ensures Valid()
      ensures trace == old(trace) + Energizing(Pattern(Direction.Left)) + Releasing(Pattern(Direction.Left))
      ensures holds == old(holds) + [Hold(Pattern(Direction.Left), t)]
    {
      Run(Pins(false, true, true, false), t);
    }

    /** `right(t)`: pins (on,off,off,on) for `t` seconds, then all off. */
    method Right(t: real)
      requires Valid() && t >= 0.0
      modifies this
      ensures Valid()
      ensures trace == old(trace) + Energizing(Pattern(Direction.Right)) + Releasing(Pattern(Direction.Right))
      ensures holds == old(holds) + [Hold(Pattern(Direction.Right), t)]
    {
      Run(Pins(true, false, false, true), t);
    }
  }
}
