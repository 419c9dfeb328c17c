/**
 * The PWM buzzer (buzzer.h, buzzer.cpp). setTone either stops the buzzer
 * (zero frequency or zero duty) or programs the PWM slice with a wrap value
 * in [1, 0xFFFF] and a compare level derived from the clamped duty cycle.
 *
 * The clock-divider arithmetic that picks the wrap value from the system
 * clock and the frequency is floating point and is not modelled: the wrap it
 * produces is the parameter `derivedWrap`. The pin and PWM-slice state the
 * SDK calls program is kept in fields beside the `playing` flag.
 */
module Buzzers {
  /** uint8_t and uint32_t. */
  type UInt8 = x: nat | x < 0x100
  type UInt32 = x: nat | x < 0x1_0000_0000

  const MAX_DUTY: nat := 100
  const MAX_WRAP: nat := 0xFFFF

  /** The duty after the clamp: at most 100 percent. */
  function ClampDuty(duty: UInt8): (r: nat)
    ensures r <= MAX_DUTY
    ensures r == duty || (duty > MAX_DUTY && r == MAX_DUTY)
  {
    if duty > MAX_DUTY then MAX_DUTY else duty
  }

  /** The wrap after the two safety clamps: 0 becomes 1, anything above 0xFFFF becomes 0xFFFF. */
  function ClampWrap(wrap: UInt32): (r: nat)
    ensures 1 <= r <= MAX_WRAP
    ensures 1 <= wrap <= MAX_WRAP ==> r == wrap
  {
    if wrap == 0 then 1 else if wrap > MAX_WRAP then MAX_WRAP else wrap
  }

  /** The compare level: (wrap + 1) * duty / 100 in 64-bit arithmetic, capped at wrap. */
  function Level(wrap: nat, duty: nat): (r: nat)
    requires 1 <= wrap <= MAX_WRAP && duty <= MAX_DUTY
    ensures r <= wrap
    ensures r == wrap || r == (wrap + 1) * duty / 100
  {
    var level := (wrap + 1) * duty / 100;
    if level > wrap then wrap else level
  }

  /**
   * The cap only ever bites at full duty: below 100 percent the level is the
   * unclamped product, and at 100 percent it is exactly wrap. The product of
   * two values below 2^17 and 2^7 never leaves 64 bits.
   */
  lemma LevelCapOnlyAtFullDuty(wrap: nat, duty: nat)
    requires 1 <= wrap <= MAX_WRAP && duty <= MAX_DUTY
    ensures duty < MAX_DUTY ==> Level(wrap, duty) == (wrap + 1) * duty / 100
    ensures duty == MAX_DUTY ==> Level(wrap, duty) == wrap
    ensures (wrap + 1) * duty < 0x1_0000_0000_0000_0000
  {
    var p := (wrap + 1) * duty;
    MulMono(wrap + 1, duty, MAX_DUTY);
    if duty < MAX_DUTY {
      MulMono(wrap + 1, duty, 99);
      assert p <= 100 * wrap + 99;
    } else {
      assert p == 100 * (wrap + 1);
    }
  }

  lemma MulMono(a: nat, b: nat, c: nat)
    requires b <= c
    ensures a * b <= a * c
  {
  }

  class Buzzer {
    var playing: bool
    /** The pin is routed to the PWM slice (GPIO_FUNC_PWM) rather than driven low as SIO. */
    var pinIsPwm: bool
    var pwmEnabled: bool
    var wrap: nat
    var level: nat

    /** The pin starts as a low SIO output and the buzzer is not playing. */
    constructor ()
      ensures !playing && !pinIsPwm && !pwmEnabled
    {
      playing := false;
      pinIsPwm := false;
      pwmEnabled, wrap, level := false, 0, 0;
    }

    /** stop: PWM off, pin back to a low SIO output, not playing. */
    method Stop()
      modifies this`playing, this`pinIsPwm, this`pwmEnabled
      ensures !playing && !pinIsPwm && !pwmEnabled
    {
      pwmEnabled := false;
      pinIsPwm := false;
      playing := false;
    }

    /**
     * setTone: zero frequency or zero duty is stop. Otherwise the PWM slice
     * gets the clamped wrap and the level of the clamped duty, and the
     * buzzer is playing.
     */
    method SetTone(freqHz: UInt32, dutyPercent: UInt8, derivedWrap: UInt32)
      modifies this
      ensures freqHz == 0 || dutyPercent == 0 ==>
                !playing && !pinIsPwm && !pwmEnabled && wrap == old(wrap) && level == old(level)
      ensures freqHz != 0 && dutyPercent != 0 ==>
                playing && pinIsPwm && pwmEnabled &&
                wrap == ClampWrap(derivedWrap) && level == Level(wrap, ClampDuty(dutyPercent))
      ensures freqHz != 0 && dutyPercent != 0 ==> 1 <= wrap <= MAX_WRAP && level <= wrap
    {
      if freqHz == 0 || dutyPercent == 0 {
        Stop();
        return;
      }
      var duty: nat := dutyPercent;
      if duty > MAX_DUTY {
        duty := MAX_DUTY;
      }
      var w: nat := derivedWrap;
      if w == 0 {
        w := 1;
      }
      if w > MAX_WRAP {
        w := MAX_WRAP;
      }
      assert duty == ClampDuty(dutyPercent) && w == ClampWrap(derivedWrap);
      wrap := w;
      pinIsPwm := true;
      var l := (w + 1) * duty / 100;
      if l > w {
        l := w;
      }
      assert l == Level(w, duty);
      level := l;
      pwmEnabled := true;
      playing := true;
    }

    /** isPlaying: the playing flag. */
    method IsPlaying() returns (r: bool)
      ensures r == playing
    {
      r := playing;
    }
  }
}
