/** The legacy gpio driver (voile_gpio_rp2040): `Init` with a mode and an
    initial value, and the inline `Write`, `Read`, `ReadToReturn` and
    `Taggle`.

    In this variant the initial value is written after the mode switch,
    for the input modes as well as for the output modes. */
module GpioRp2040 {
  import opened Words
  import opened Modes
  import opened Registers
  import opened OutputDriver
  import opened LegacyInit
  import PinRp2040
  import IoPinRp2040

  /** The state `IOpin_gpio_rp2040_Init` leaves: a refused pin or mode
      changes nothing; otherwise the switch arm for the mode runs, `value`
      is written, and the pad and CTRL words are finalized. */
  function InitState(r: Regs, p: Pin, mode: Mode, value: bool): (s: Regs)
    requires r.WellFormed() && (p < PinCount || PinCheckRejects(p))
    ensures s.WellFormed()
  {
    if InitRefused(p, mode) then r
    else Finalized(Written(Configured(r, p, mode), p, value), p)
  }

  /** The SIO words, the pads and IO banks, and the driver's registry
      `IO_RP2040_IsOpenDrainMask`. */
  class Chip {
    const gpioIn: Word        // SIO GPIO_IN: no operation writes it
    var gpioOut: Word         // SIO GPIO_OUT
    var gpioOe: Word          // SIO GPIO_OE
    var registry: Word        // IO_RP2040_IsOpenDrainMask
    const pads: array<Word>   // PADS_BANK0 GPIO0..GPIO29
    const ctrl: array<Word>   // IO_BANK0 GPIO0..GPIO29 CTRL

    /** The banks have thirty entries, and every virtual pin keeps its
        GPIO_OUT bit at 0. */
    ghost predicate Valid()
      reads this
    {
      pads.Length == PinCount && ctrl.Length == PinCount && pads != ctrl
      && registry * gpioOut == {}
    }

    ghost function Regs(): Regs
      reads this, pads, ctrl
    {
      Registers.Regs(gpioIn, gpioOut, gpioOe, registry, pads[..], ctrl[..])
    }

    /** Reset: the registry starts empty (`IO_RP2040_IsOpenDrainMask = 0`);
        the registers hold whatever the hardware holds. */
    constructor (gpioIn: Word, gpioOut: Word, gpioOe: Word, pads: seq<Word>, ctrl: seq<Word>)
      requires |pads| == PinCount && |ctrl| == PinCount
      ensures Valid() && fresh(this.pads) && fresh(this.ctrl)
      ensures Regs() == Registers.Regs(gpioIn, gpioOut, gpioOe, {}, pads, ctrl)
    {
      this.gpioIn := gpioIn;
      this.gpioOut := gpioOut;
      this.gpioOe := gpioOe;
      this.registry := {};
      this.pads := new Word[|pads|](i requires 0 <= i < |pads| => pads[i]);
      this.ctrl := new Word[|ctrl|](i requires 0 <= i < |ctrl| => ctrl[i]);
    }

    /** `IOpin_gpio_rp2040_Init`. */
    method Init(pin: Pin, mode: Mode, value: bool) returns (status: Status)
      requires Valid() && (pin < PinCount || PinCheckRejects(pin))
      modifies this, pads, ctrl
      ensures Valid() && Regs() == InitState(old(Regs()), pin, mode, value)
      ensures status == InitStatus(pin, mode)
    {
      if pin > 32 {
        return HardwareUnsupportedError;
      }
      if !IsPinMode(mode) {
        return HardwareUnsupportedError;   // default: of the mode switch
      }
      ghost var r0 := Regs();
      SwitchArm(pin, mode);
      ConfiguredKeepsParked(r0, pin, mode);
      var _ := Write(pin, value);           // after the switch, for every mode
      Finalize(pin);
      status := Success;
    }

    /** The writes after Init's mode switch. */
    method Finalize(pin: Pin)
      requires pads.Length == PinCount && ctrl.Length == PinCount && pads != ctrl && pin < PinCount
      modifies pads, ctrl
      ensures Regs() == Finalized(old(Regs()), pin)
    {
      pads[pin] := pads[pin] + {PadIe};     // input enable
      pads[pin] := pads[pin] - {PadOd};     // output enable
      ctrl[pin] := FuncselSio;              // ctrl = 5
    }

    /** The register writes of one arm of Init's mode switch. Each arm writes the SIO words and the
        registry on one side and the pad word on the other; the two groups
        touch different registers, so they are performed one after the
        other. */
    method SwitchArm(pin: Pin, mode: Mode)
      requires Valid() && pin < PinCount && IsPinMode(mode)
      modifies this, pads
      ensures Regs() == Configured(old(Regs()), pin, mode)
    {
      ghost var r0 := Regs();
      ArmRole(pin, mode);
      ArmPulls(pin, mode);
      ConfiguredUnique(r0, Regs(), pin, mode);
    }

    /** The SIO and registry writes of the arm for `mode`. */
    method ArmRole(pin: Pin, mode: Mode)
      requires IsPinMode(mode)
      modifies this
      ensures Role(pin in gpioOut, pin in gpioOe, pin in registry)
              == ConfiguredRole(Role(pin in old(gpioOut), pin in old(gpioOe), pin in old(registry)), mode)
      ensures gpioOut - {pin} == old(gpioOut) - {pin} && gpioOe - {pin} == old(gpioOe) - {pin}
      ensures registry - {pin} == old(registry) - {pin}
    {
      var mask := Mask(pin);
      match mode {
        case Input | InputPullUp | InputPullDown =>
          gpioOe := gpioOe - mask;              // GPIO_OE_CLR
          registry := registry - mask;
        case QuasiBidirectional | OpenDrain =>
          gpioOut := gpioOut - mask;            // GPIO_OUT_CLR
          registry := registry + mask;
        case PushPull =>
          registry := registry - mask;
          gpioOe := gpioOe + mask;              // GPIO_OE_SET
      }
    }

    /** The pad writes of the arm for `mode`: PUE and PDE. */
    method ArmPulls(pin: Pin, mode: Mode)
      requires pads.Length == PinCount && pin < PinCount && IsPinMode(mode)
      modifies pads
      ensures pads[..] == old(pads[..])[pin := WithPulls(old(pads[pin]), PullUpFor(mode), PullDownFor(mode))]
    {
      match mode {
        case Input | PushPull | OpenDrain =>
          pads[pin] := pads[pin] - {PadPue};
          pads[pin] := pads[pin] - {PadPde};
        case InputPullUp | QuasiBidirectional =>
          pads[pin] := pads[pin] + {PadPue};
          pads[pin] := pads[pin] - {PadPde};
        case InputPullDown =>
          pads[pin] := pads[pin] - {PadPue};
          pads[pin] := pads[pin] + {PadPde};
      }
    }

    /** `ioPin_gpio_rp2040_Write`. */
    method Write(pin: Pin, value: bool) returns (status: Status)
      requires Valid() && pin < PinCount
      modifies this
      ensures Valid() && Regs() == Written(old(Regs()), pin, value)
      ensures status == Success
    {
      ghost var r0 := Regs();
      WrittenByAliases(r0, pin, value);
      var mask := Mask(pin);
      if value {
        gpioOut := gpioOut + (mask - registry);    // GPIO_OUT_SET = mask & ~registry
        gpioOe := gpioOe - (mask * registry);      // GPIO_OE_CLR = mask & registry
      } else {
        gpioOut := gpioOut - (mask - registry);    // GPIO_OUT_CLR = mask & ~registry
        gpioOe := gpioOe + (mask * registry);      // GPIO_OE_SET = mask & registry
      }
      WriteKeepsParked(r0, pin, value);
      status := Success;
    }

    /** `ioPin_gpio_rp2040_Read`: the line level through the out-pointer. */
    method Read(pin: Pin) returns (status: Status, level: bool)
      requires Valid() && pin < PinCount
      ensures status == Success && level == (pin in Regs().gpioIn)
    {
      level := Mask(pin) * gpioIn != {};
      status := Success;
    }

    /** `ioPin_gpio_rp2040_Taggle`. */
    method Toggle(pin: Pin) returns (status: Status)
      requires Valid() && pin < PinCount
      modifies this
      ensures Valid() && Regs() == Toggled(old(Regs()), pin)
      ensures status == Success
    {
      ghost var r0 := Regs();
      ToggledByAliases(r0, pin);
      var mask := Mask(pin);
      gpioOut := Xor(gpioOut, mask - registry);    // GPIO_OUT_XOR = mask & ~registry
      gpioOe := Xor(gpioOe, mask * registry);      // GPIO_OE_XOR = mask & registry
      ToggleKeepsParked(r0, pin);
      status := Success;
    }

    /** `ioPin_gpio_rp2040_ReadToReturn`: the line level as the return
        value. */
    method ReadToReturn(pin: Pin) returns (level: bool)
      requires Valid() && pin < PinCount
      ensures level == (pin in Regs().gpioIn)
    {
      level := Mask(pin) * gpioIn != {};
    }
  }

  // ---------------------------------------------------------------------
  // Init

  /** A pin above 32 or a mode outside the switch returns
      hardwareUnsupportedError and touches no register. */
  lemma InitRefusedLeavesState(r: Regs, p: Pin, mode: Mode, value: bool)
    requires r.WellFormed() && (p < PinCount || PinCheckRejects(p)) && InitRefused(p, mode)
    ensures InitState(r, p, mode, value) == r
    ensures InitStatus(p, mode) == HardwareUnsupportedError
  {
  }

  /** Every one of the six modes leaves the pin reading back the initial
      value: the input modes with the registry bit and GPIO_OE cleared and
      GPIO_OUT = value, push-pull with GPIO_OE set and GPIO_OUT = value,
      open-drain and quasi-bidirectional with the registry bit set, GPIO_OUT
      parked at 0 and GPIO_OE = !value. */
  lemma InitTakesValue(r: Regs, p: Pin, mode: Mode, value: bool)
    requires r.WellFormed() && p < PinCount && IsPinMode(mode)
    ensures var s := InitState(r, p, mode, value);
      ReadBack(s, p) == value
      && (IsInputMode(mode) ==> !IsVirtual(s, p) && p !in s.oe && (p in s.out) == value)
      && (mode.PushPull? ==> !IsVirtual(s, p) && p in s.oe && (p in s.out) == value)
      && (IsVirtualMode(mode) ==> IsVirtual(s, p) && p !in s.out && (p in s.oe) == !value)
  {
  }

  /** A successful Init sets the pulls for the mode, IE = 1 and OD = 0 in
      the pad word, writes 5 to CTRL, and touches no other pin, pad bit,
      pad word or CTRL word. */
  lemma InitPadsAndFrame(r: Regs, p: Pin, mode: Mode, value: bool)
    requires r.WellFormed() && p < PinCount && IsPinMode(mode)
    ensures InitStatus(p, mode) == Success
    ensures var s := InitState(r, p, mode, value);
      (PadPue in s.pads[p]) == PullUpFor(mode) && (PadPde in s.pads[p]) == PullDownFor(mode)
      && PadIe in s.pads[p] && PadOd !in s.pads[p]
      && s.pads[p] - {PadPue, PadPde, PadIe, PadOd} == r.pads[p] - {PadPue, PadPde, PadIe, PadOd}
      && s.ctrl[p] == FuncselSio
      && s.pads == r.pads[p := s.pads[p]] && s.ctrl == r.ctrl[p := s.ctrl[p]]
      && s.gpioIn == r.gpioIn
      && s.out - {p} == r.out - {p} && s.oe - {p} == r.oe - {p}
      && s.registry - {p} == r.registry - {p}
  {
    var c := Configured(r, p, mode);
    ConfiguredFrame(r, p, mode);
    FinalizedFrame(Written(c, p, value), p);
    assert InitState(r, p, mode, value).pads[p] - {PadPue, PadPde, PadIe, PadOd}
      == (c.pads[p] - {PadPue, PadPde}) - {PadIe, PadOd};
  }

  /** Init keeps every virtual pin's GPIO_OUT bit at 0. */
  lemma InitKeepsParked(r: Regs, p: Pin, mode: Mode, value: bool)
    requires r.WellFormed() && (p < PinCount || PinCheckRejects(p)) && OutputParked(r)
    ensures OutputParked(InitState(r, p, mode, value))
  {
    if !InitRefused(p, mode) {
      ConfiguredKeepsParked(r, p, mode);
      WriteKeepsParked(Configured(r, p, mode), p, value);
    }
  }

  /** After a successful Init the current driver's getMode reports the
      mode that was applied. */
  lemma InitThenGetMode(r: Regs, p: Pin, mode: Mode, value: bool)
    requires r.WellFormed() && p < PinCount && IsPinMode(mode)
    ensures PinRp2040.ModeOf(InitState(r, p, mode, value), p) == mode
  {
    InitPadsAndFrame(r, p, mode, value);
  }

  /** The two legacy Init functions agree on the output modes; on the input
      modes this one also writes the initial value into GPIO_OUT, where the
      ioPin variant leaves GPIO_OUT alone. */
  lemma AgreesWithIoPinInit(r: Regs, p: Pin, mode: Mode, value: bool)
    requires r.WellFormed() && (p < PinCount || PinCheckRejects(p))
    ensures var g := InitState(r, p, mode, value);
      var i := IoPinRp2040.InitState(r, p, mode, value);
      (!IsInputMode(mode) ==> g == i)
      && (IsInputMode(mode) && !PinCheckRejects(p) ==> g == i.(out := WithBit(i.out, p, value)))
  {
    if IsInputMode(mode) && !PinCheckRejects(p) {
      var g := InitState(r, p, mode, value);
      var i := IoPinRp2040.InitState(r, p, mode, value);
      WordExtensionality(g.out, WithBit(i.out, p, value), p);
    }
  }

  /** Initialising a pin a second time with the same mode and value
      changes nothing. */
  lemma {:induction false} InitIdempotent(r: Regs, p: Pin, mode: Mode, value: bool)
    requires r.WellFormed() && (p < PinCount || PinCheckRejects(p))
    ensures InitState(InitState(r, p, mode, value), p, mode, value) == InitState(r, p, mode, value)
  {
    if !InitRefused(p, mode) {
      var s := InitState(r, p, mode, value);
      var t := InitState(s, p, mode, value);
      InitPadsAndFrame(r, p, mode, value);
      InitPadsAndFrame(s, p, mode, value);
      InitTakesValue(r, p, mode, value);
      InitTakesValue(s, p, mode, value);
      WordExtensionality(t.out, s.out, p);
      WordExtensionality(t.oe, s.oe, p);
      WordExtensionality(t.registry, s.registry, p);
      WordsAgree(t.pads[p], s.pads[p], {PadPue, PadPde, PadIe, PadOd});
      assert t.pads == s.pads;
      assert t.ctrl == s.ctrl;
    }
  }
}
