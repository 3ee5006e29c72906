/** The pin modes and status codes the three RP2040 drivers share.

    The enumerations live in headers that are not part of this model, so
    their numeric values are not known. The constructors are listed in the
    order the drivers rely on: the seven concrete modes and `Hold` lie below
    `ModeError`; `OutOfRange` stands for any value of the C enumeration type
    that names no mode. */
module Modes {

  datatype Mode =
    | Uninit                 // IOuninit
    | Input                  // IOmodeInput
    | InputPullUp            // IOmodeInputWithPullUpResistor
    | InputPullDown          // IOmodeInputWithPullDownResistor
    | PushPull               // IOmodePushPull
    | OpenDrain              // IOmodeOpenDrain
    | QuasiBidirectional     // IOmodeQuasiBidirectional
    | Hold                   // IOmodeHold: keep the current mode
    | ModeError              // IOmodeError
    | OutOfRange             // a value outside the enumeration

  /** `(uint8_t)mode < (uint8_t)IOmodeError`. */
  predicate BelowError(m: Mode)
    ensures m.Uninit? || IsPinMode(m) || m.Hold? ==> BelowError(m)
    ensures m.ModeError? ==> !BelowError(m)
  {
    !m.ModeError? && !m.OutOfRange?
  }

  /** Modes whose logical output is carried by GPIO_OE ("virtual" pins). */
  predicate IsVirtualMode(m: Mode)
  {
    m.OpenDrain? || m.QuasiBidirectional?
  }

  predicate IsInputMode(m: Mode)
  {
    m.Input? || m.InputPullUp? || m.InputPullDown?
  }

  /** The six modes a pin can be put into. */
  predicate IsPinMode(m: Mode)
  {
    IsInputMode(m) || m.PushPull? || IsVirtualMode(m)
  }

  /** Modes that enable the pad pull-up (PUE). */
  predicate PullUpFor(m: Mode)
  {
    m.InputPullUp? || m.QuasiBidirectional?
  }

  /** Modes that enable the pad pull-down (PDE). */
  predicate PullDownFor(m: Mode)
  {
    m.InputPullDown?
  }

  /** The status codes the legacy drivers return. */
  datatype Status = Success | HardwareUnsupportedError
}
