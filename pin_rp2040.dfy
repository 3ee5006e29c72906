/** The current RP2040 pin driver (voile_pin_rp2040): init, setMode with
    role migration, getMode, and the inline write, read, toggle and
    readRegister.

    The functions below give, for each operation, the register state it
    leaves behind; the class `Chip` performs the operations step by step on
    its fields and is proved to reach exactly those states. */
module PinRp2040 {
  import opened Words
  import opened Modes
  import opened Registers
  import opened OutputDriver

  /** The mode `voile_static_pin_getMode` reconstructs from FUNCSEL, the
      registry, GPIO_OE and the pull bits. A pin not routed to SIO reads as
      IOuninit; a pin routed to SIO reads as one of the six pin modes, and
      its registry bit is set exactly when that mode is open-drain or
      quasi-bidirectional. */
  function ModeOf(r: Regs, p: nat): (m: Mode)
    requires r.WellFormed() && p < PinCount
    ensures m.Uninit? <==> !SelectsSio(r, p)
    ensures SelectsSio(r, p) ==> IsPinMode(m) && (IsVirtual(r, p) <==> IsVirtualMode(m))
  {
    if !SelectsSio(r, p) then Uninit
    else if IsVirtual(r, p) then
      (if PadPue in r.pads[p] then QuasiBidirectional else OpenDrain)
    else if p in r.oe then PushPull
    else if PadPue in r.pads[p] then InputPullUp
    else if PadPde in r.pads[p] then InputPullDown
    else Input
  }

  /** Modes that get past the input check and the Hold test and reach the
      pull-resistor switch. */
  predicate Configures(m: Mode)
  {
    BelowError(m) && !m.Hold?
  }

  /** The state `voile_pin_rp2040_init` leaves: a rejected pin changes
      nothing; otherwise the pad gets IE = 1 and OD = 0 and FUNCSEL becomes 5. */
  function Initialized(r: Regs, p: Pin): (s: Regs)
    requires r.WellFormed() && (p < PinCount || PinCheckRejects(p))
    ensures s.WellFormed()
  {
    if PinCheckRejects(p) then r
    else r.(pads := r.pads[p := PadEnabled(r.pads[p])],
            ctrl := r.ctrl[p := SelectSio(r.ctrl[p])])
  }

  /** The role the second switch of `voile_pin_rp2040_setMode` leaves the
      pin in, as written. Push-pull and the inputs clear the registry bit,
      first copying GPIO_OE into GPIO_OUT on a virtual pin (as is for
      push-pull, inverted for the inputs), then enable the output for
      push-pull and disable it for the inputs. Open-drain and
      quasi-bidirectional set the registry bit, first copying the inverted
      GPIO_OUT into GPIO_OE on a non-virtual pin, then clear GPIO_OUT.
      IOuninit keeps the role. */
  function Migrated(role: Role, mode: Mode): (c: Role)
    ensures IsPinMode(mode) ==> c.virt == IsVirtualMode(mode) && c.Parked()
    ensures !IsPinMode(mode) ==> c == role
    ensures c.Value() == if role.virt && mode.PushPull? then !role.Value() else role.Value()
  {
    if mode.PushPull? then Role(if role.virt then role.oe else role.out, true, false)
    else if IsInputMode(mode) then Role(if role.virt then !role.oe else role.out, false, false)
    else if IsVirtualMode(mode) then Role(false, if role.virt then role.oe else !role.out, true)
    else role
  }

  /** Pin `p` with its pulls set for `mode` and its role replaced. */
  function Reconfigured(r: Regs, p: nat, mode: Mode, role: Role): (s: Regs)
    requires r.WellFormed() && p < PinCount
    ensures s.WellFormed() && RoleOf(s, p) == role
    ensures (PadPue in s.pads[p]) == PullUpFor(mode) && (PadPde in s.pads[p]) == PullDownFor(mode)
  {
    WithRole(r.(pads := r.pads[p := WithPulls(r.pads[p], PullUpFor(mode), PullDownFor(mode))]),
             p, role)
  }

  /** The state `voile_pin_rp2040_setMode` leaves: nothing changes for a
      refused mode or Hold; otherwise the pulls are set for the mode and the
      role migrates. */
  function ModeSet(r: Regs, p: nat, mode: Mode): (s: Regs)
    requires r.WellFormed() && p < PinCount
    ensures s.WellFormed()
  {
    if !Configures(mode) then r
    else Reconfigured(r, p, mode, Migrated(RoleOf(r, p), mode))
  }

  /** What `voile_pin_rp2040_setMode` returns, as written: the current mode
      when the request is refused or is Hold, and IOmodeError otherwise. */
  function ModeSetResult(r: Regs, p: nat, mode: Mode): (m: Mode)
    requires r.WellFormed() && p < PinCount
    ensures !Configures(mode) ==> m == ModeOf(r, p)
  {
    if Configures(mode) then ModeError else ModeOf(r, p)
  }

  /** The pin operations a client issues, for reasoning about sequences. */
  datatype Op =
    | InitOp(pin: Pin)
    | SetModeOp(pin: Pin, mode: Mode)
    | WriteOp(pin: Pin, value: bool)
    | ToggleOp(pin: Pin)

  predicate Issuable(op: Op)
  {
    op.pin < PinCount || (op.InitOp? && PinCheckRejects(op.pin))
  }

  function Step(r: Regs, op: Op): (s: Regs)
    requires r.WellFormed() && Issuable(op)
    ensures s.WellFormed()
  {
    match op
    case InitOp(p) => Initialized(r, p)
    case SetModeOp(p, m) => ModeSet(r, p, m)
    case WriteOp(p, v) => Written(r, p, v)
    case ToggleOp(p) => Toggled(r, p)
  }

  function Run(r: Regs, ops: seq<Op>): (s: Regs)
    requires r.WellFormed() && forall i :: 0 <= i < |ops| ==> Issuable(ops[i])
    ensures s.WellFormed()
    decreases |ops|
  {
    if ops == [] then r else Run(Step(r, ops[0]), ops[1..])
  }

  /** The SIO words, the pads and IO banks of the chip, and the driver's
      registry `IO_RP2040_IsOpenDrainMask`. */
  class Chip {
    const gpioIn: Word        // SIO GPIO_IN: no operation writes it
    var gpioOut: Word         // SIO GPIO_OUT
    var gpioOe: Word          // SIO GPIO_OE
    var registry: Word        // IO_RP2040_IsOpenDrainMask
    const pads: array<Word>   // PADS_BANK0 GPIO0..GPIO29
    const ctrl: array<Word>   // IO_BANK0 GPIO0..GPIO29 CTRL

    /** The banks have thirty entries, and every virtual pin keeps its
        GPIO_OUT bit at 0. */
    ghost predicate Valid()
      reads this
    {
      pads.Length == PinCount && ctrl.Length == PinCount && pads != ctrl
      && registry * gpioOut == {}
    }

    ghost function Regs(): Regs
      reads this, pads, ctrl
    {
      Registers.Regs(gpioIn, gpioOut, gpioOe, registry, pads[..], ctrl[..])
    }

    /** Reset: the registry starts empty (`IO_RP2040_IsOpenDrainMask = 0`);
        the registers hold whatever the hardware holds. */
    constructor (gpioIn: Word, gpioOut: Word, gpioOe: Word, pads: seq<Word>, ctrl: seq<Word>)
      requires |pads| == PinCount && |ctrl| == PinCount
      ensures Valid() && fresh(this.pads) && fresh(this.ctrl)
      ensures Regs() == Registers.Regs(gpioIn, gpioOut, gpioOe, {}, pads, ctrl)
    {
      this.gpioIn := gpioIn;
      this.gpioOut := gpioOut;
      this.gpioOe := gpioOe;
      this.registry := {};
      this.pads := new Word[|pads|](i requires 0 <= i < |pads| => pads[i]);
      this.ctrl := new Word[|ctrl|](i requires 0 <= i < |ctrl| => ctrl[i]);
    }

    /** `voile_pin_rp2040_init`. */
    method Init(pin: Pin)
      requires Valid() && (pin < PinCount || PinCheckRejects(pin))
      modifies pads, ctrl
      ensures Valid() && Regs() == Initialized(old(Regs()), pin)
    {
      if pin > 32 {
        return;   // microVerrorno_error(configError, ...)
      }
      pads[pin] := pads[pin] + {PadIe};     // IE = 1
      pads[pin] := pads[pin] - {PadOd};     // OD = 0
      ctrl[pin] := SelectSio(ctrl[pin]);    // FUNCSEL = 5
    }

    /** `voile_static_pin_getMode`. */
    method GetMode(pin: Pin) returns (mode: Mode)
      requires Valid() && pin < PinCount
      ensures mode == ModeOf(Regs(), pin)
    {
      if Funcsel(ctrl[pin]) != FuncselSio {
        return Uninit;
      }
      var mask := Mask(pin);
      if registry * mask != {} {
        if PadPue in pads[pin] {
          mode := QuasiBidirectional;
        } else {
          mode := OpenDrain;
        }
      } else if gpioOe * mask != {} {
        mode := PushPull;
      } else if PadPue in pads[pin] {
        mode := InputPullUp;
      } else if PadPde in pads[pin] {
        mode := InputPullDown;
      } else {
        mode := Input;
      }
    }

    /** `voile_pin_rp2040_setMode`. */
    method SetMode(pin: Pin, mode: Mode) returns (result: Mode)
      requires Valid() && pin < PinCount
      modifies this, pads
      ensures Valid()
      ensures Regs() == ModeSet(old(Regs()), pin, mode)
      ensures result == ModeSetResult(old(Regs()), pin, mode)
    {
      // microVerrorno_cheakInput hands back its third argument
      if !BelowError(mode) {
        result := GetMode(pin);
        return;
      }
      if mode == Hold {
        result := GetMode(pin);
        return;
      }
      ghost var r0 := Regs();

      // Pull-up and pull-down resistors
      SetPulls(pin, mode);
      ghost var pulled := Regs();

      // Move the logical output between GPIO_OUT and GPIO_OE
      MoveOutput(pin, mode);
      WithRoleUnique(pulled, Regs(), pin);
      ModeSetKeepsParked(r0, pin, mode);
      result := ModeError;
    }

    /** The first switch of `voile_pin_rp2040_setMode`: PUE and PDE of pad
        word `pin` are set for the mode. */
    method SetPulls(pin: Pin, mode: Mode)
      requires Valid() && pin < PinCount && Configures(mode)
      modifies pads
      ensures pads[..] == old(pads[..])[pin := WithPulls(old(pads[pin]), PullUpFor(mode), PullDownFor(mode))]
    {
      match mode {
        case Uninit | Input | PushPull | OpenDrain =>
          pads[pin] := pads[pin] - {PadPue};
          pads[pin] := pads[pin] - {PadPde};
        case InputPullUp | QuasiBidirectional =>
          pads[pin] := pads[pin] + {PadPue};
          pads[pin] := pads[pin] - {PadPde};
        case InputPullDown =>
          pads[pin] := pads[pin] - {PadPue};
          pads[pin] := pads[pin] + {PadPde};
        case _ =>
          // unreachable: every mode below IOmodeError other than Hold is
          // listed above
          assert false;
      }
    }

    /** The second switch of `voile_pin_rp2040_setMode`: the logical output
        moves between GPIO_OUT and GPIO_OE when the pin changes family, and
        the registry bit follows. Only bit `pin` of the three words moves. */
    method MoveOutput(pin: Pin, mode: Mode)
      requires Configures(mode)
      modifies this
      ensures Role(pin in gpioOut, pin in gpioOe, pin in registry)
              == Migrated(Role(pin in old(gpioOut), pin in old(gpioOe), pin in old(registry)), mode)
      ensures gpioOut - {pin} == old(gpioOut) - {pin} && gpioOe - {pin} == old(gpioOe) - {pin}
      ensures registry - {pin} == old(registry) - {pin}
    {
      var mask := Mask(pin);
      match mode {
        case PushPull =>
          if registry * mask != {} {
            if gpioOe * mask != {} {
              gpioOut := gpioOut + mask;             // GPIO_OUT_SET
            } else {
              gpioOut := gpioOut - mask;             // GPIO_OUT_CLR
            }
            registry := registry - mask;
          }
          gpioOe := gpioOe + mask;                   // GPIO_OE_SET
        case Input | InputPullUp | InputPullDown =>
          if registry * mask != {} {
            if gpioOe * mask != {} {
              gpioOut := gpioOut - mask;             // GPIO_OUT_CLR
            } else {
              gpioOut := gpioOut + mask;             // GPIO_OUT_SET
            }
            registry := registry - mask;
          }
          gpioOe := gpioOe - mask;                   // GPIO_OE_CLR
        case OpenDrain | QuasiBidirectional =>
          if registry * mask == {} {
            if gpioOut * mask != {} {
              gpioOe := gpioOe - mask;               // GPIO_OE_CLR
            } else {
              gpioOe := gpioOe + mask;               // GPIO_OE_SET
            }
            registry := registry + mask;
          }
          gpioOut := gpioOut - mask;                 // GPIO_OUT_CLR
        case _ =>
      }
    }

    /** `voile_pin_rp2040_write`. */
    method Write(pin: Pin, value: bool)
      requires Valid() && pin < PinCount
      modifies this
      ensures Valid() && Regs() == Written(old(Regs()), pin, value)
    {
      ghost var r0 := Regs();
      WrittenByAliases(r0, pin, value);
      var mask := Mask(pin);
      if value {
        gpioOut := gpioOut + (mask - registry);    // GPIO_OUT_SET = mask & ~registry
        gpioOe := gpioOe - (mask * registry);      // GPIO_OE_CLR = mask & registry
      } else {
        gpioOut := gpioOut - (mask - registry);    // GPIO_OUT_CLR = mask & ~registry
        gpioOe := gpioOe + (mask * registry);      // GPIO_OE_SET = mask & registry
      }
      WriteKeepsParked(r0, pin, value);
    }

    /** `voile_pin_rp2040_read`: the line level, bit `pin` of GPIO_IN. */
    method Read(pin: Pin) returns (level: bool)
      requires Valid() && pin < PinCount
      ensures level == (pin in Regs().gpioIn)
    {
      level := Mask(pin) * gpioIn != {};
    }

    /** `voile_pin_rp2040_taggle`. */
    method Toggle(pin: Pin)
      requires Valid() && pin < PinCount
      modifies this
      ensures Valid() && Regs() == Toggled(old(Regs()), pin)
    {
      ghost var r0 := Regs();
      ToggledByAliases(r0, pin);
      var mask := Mask(pin);
      gpioOut := Xor(gpioOut, mask - registry);    // GPIO_OUT_XOR = mask & ~registry
      gpioOe := Xor(gpioOe, mask * registry);      // GPIO_OE_XOR = mask & registry
      ToggleKeepsParked(r0, pin);
    }

    /** `voile_pin_rp2040_readRegister`: the value the pin was last asked
        to drive. */
    method ReadRegister(pin: Pin) returns (value: bool)
      requires Valid() && pin < PinCount
      ensures value == ReadBack(Regs(), pin)
    {
      var mask := Mask(pin);
      if registry * mask != {} {
        value := gpioOe * mask == {};
      } else {
        value := gpioOut * mask != {};
      }
    }
  }

  // ---------------------------------------------------------------------
  // init

  /** A rejected pin is left alone; an accepted one gets IE = 1, OD = 0 and
      FUNCSEL = 5, with no SIO or registry bit and no other pad or CTRL word
      touched. */
  lemma InitEffect(r: Regs, p: Pin)
    requires r.WellFormed() && (p < PinCount || PinCheckRejects(p))
    ensures var s := Initialized(r, p);
      (PinCheckRejects(p) ==> s == r)
      && (p < PinCount ==>
            PadIe in s.pads[p] && PadOd !in s.pads[p]
            && s.pads[p] - {PadIe, PadOd} == r.pads[p] - {PadIe, PadOd}
            && SelectsSio(s, p) && s.ctrl[p] - FuncselField == r.ctrl[p] - FuncselField
            && s.pads == r.pads[p := s.pads[p]] && s.ctrl == r.ctrl[p := s.ctrl[p]]
            && s.gpioIn == r.gpioIn && s.out == r.out && s.oe == r.oe
            && s.registry == r.registry)
  {
  }

  // ---------------------------------------------------------------------
  // setMode

  /** An out-of-range mode or Hold returns the current mode and changes
      nothing. */
  lemma SetModeRefused(r: Regs, p: nat, mode: Mode)
    requires r.WellFormed() && p < PinCount && !Configures(mode)
    ensures ModeSet(r, p, mode) == r
    ensures ModeSetResult(r, p, mode) == ModeOf(r, p)
  {
  }

  /** Every request that gets through returns IOmodeError. */
  lemma SetModeReturnsModeError(r: Regs, p: nat, mode: Mode)
    requires r.WellFormed() && p < PinCount && Configures(mode)
    ensures ModeSetResult(r, p, mode) == ModeError
    ensures ModeSetResult(r, p, mode) != ModeOf(ModeSet(r, p, mode), p)
  {
  }

  /** The pulls after setMode: (PUE, PDE) is (1, 0) for pull-up and
      quasi-bidirectional, (0, 1) for pull-down and (0, 0) for IOuninit,
      input, push-pull and open-drain; no other pad bit moves. */
  lemma SetModePulls(r: Regs, p: nat, mode: Mode)
    requires r.WellFormed() && p < PinCount && Configures(mode)
    ensures var s := ModeSet(r, p, mode);
      (PadPue in s.pads[p]) == (mode.InputPullUp? || mode.QuasiBidirectional?)
      && (PadPde in s.pads[p]) == mode.InputPullDown?
      && s.pads[p] - {PadPue, PadPde} == r.pads[p] - {PadPue, PadPde}
  {
  }

  /** The role each mode leaves the pin in: virtual modes set the registry
      bit and park GPIO_OUT at 0; the others clear the registry bit, with
      the output enabled for push-pull and disabled for the inputs; IOuninit
      touches neither SIO word nor the registry. */
  lemma SetModeRoles(r: Regs, p: nat, mode: Mode)
    requires r.WellFormed() && p < PinCount
    ensures var s := ModeSet(r, p, mode);
      (IsVirtualMode(mode) ==> IsVirtual(s, p) && p !in s.out)
      && (IsInputMode(mode) ==> !IsVirtual(s, p) && p !in s.oe)
      && (mode.PushPull? ==> !IsVirtual(s, p) && p in s.oe)
      && (mode.Uninit? ==> s.out == r.out && s.oe == r.oe && s.registry == r.registry)
  {
    if mode.Uninit? {
      WithOwnRole(r.(pads := ModeSet(r, p, mode).pads), p);
    }
  }

  /** setMode touches bit `p` of GPIO_OUT, GPIO_OE and the registry and pad
      word `p`, and nothing else. */
  lemma SetModeFrame(r: Regs, p: nat, mode: Mode)
    requires r.WellFormed() && p < PinCount
    ensures var s := ModeSet(r, p, mode);
      s.out - {p} == r.out - {p} && s.oe - {p} == r.oe - {p}
      && s.registry - {p} == r.registry - {p}
      && s.pads == r.pads[p := s.pads[p]] && s.ctrl == r.ctrl && s.gpioIn == r.gpioIn
  {
  }

  /** Once FUNCSEL selects SIO, getMode reports each of the six pin modes
      setMode applied. */
  lemma SetModeThenGetMode(r: Regs, p: nat, mode: Mode)
    requires r.WellFormed() && p < PinCount && SelectsSio(r, p) && IsPinMode(mode)
    ensures ModeOf(ModeSet(r, p, mode), p) == mode
  {
    SetModePulls(r, p, mode);
    SetModeRoles(r, p, mode);
  }

  /** IOuninit keeps the registry and GPIO_OE, so on a pin routed to SIO
      getMode never reports it back. */
  lemma UninitDoesNotRoundTrip(r: Regs, p: nat)
    requires r.WellFormed() && p < PinCount && SelectsSio(r, p)
    ensures ModeOf(ModeSet(r, p, Uninit), p) ==
      (if IsVirtual(r, p) then OpenDrain else if p in r.oe then PushPull else Input)
  {
    SetModePulls(r, p, Uninit);
    SetModeRoles(r, p, Uninit);
  }

  /** The value read back after setMode: kept by every change of mode except
      the move from a virtual pin to push-pull, which inverts it. */
  lemma SetModeReadBack(r: Regs, p: nat, mode: Mode)
    requires r.WellFormed() && p < PinCount
    ensures ReadBack(ModeSet(r, p, mode), p) ==
      if IsVirtual(r, p) && mode.PushPull? then !ReadBack(r, p) else ReadBack(r, p)
  {
  }

  /** No migration inside a family: open-drain and quasi-bidirectional
      keep GPIO_OE as it is, input and push-pull keep GPIO_OUT. */
  lemma SameFamilyKeepsCarrier(r: Regs, p: nat, mode: Mode)
    requires r.WellFormed() && p < PinCount
    ensures IsVirtual(r, p) && IsVirtualMode(mode) ==> ModeSet(r, p, mode).oe == r.oe
    ensures !IsVirtual(r, p) && (IsInputMode(mode) || mode.PushPull?) ==>
              ModeSet(r, p, mode).out == r.out
  {
    var s := ModeSet(r, p, mode);
    if IsVirtual(r, p) && IsVirtualMode(mode) {
      WordExtensionality(s.oe, r.oe, p);
    }
    if !IsVirtual(r, p) && (IsInputMode(mode) || mode.PushPull?) {
      WordExtensionality(s.out, r.out, p);
    }
  }

  /** setMode keeps every virtual pin's GPIO_OUT bit at 0. */
  lemma ModeSetKeepsParked(r: Regs, p: nat, mode: Mode)
    requires r.WellFormed() && p < PinCount && OutputParked(r)
    ensures OutputParked(ModeSet(r, p, mode))
  {
    if Configures(mode) {
      ParkedAt(r, p);
      var pulled := r.(pads := r.pads[p := WithPulls(r.pads[p], PullUpFor(mode), PullDownFor(mode))]);
      WithRoleKeepsParked(pulled, p, Migrated(RoleOf(r, p), mode));
    }
  }

  // ---------------------------------------------------------------------
  // sequences of operations

  lemma StepKeepsParked(r: Regs, op: Op)
    requires r.WellFormed() && Issuable(op) && OutputParked(r)
    ensures OutputParked(Step(r, op))
  {
    match op
    case InitOp(p) =>
    case SetModeOp(p, m) => ModeSetKeepsParked(r, p, m);
    case WriteOp(p, v) => WriteKeepsParked(r, p, v);
    case ToggleOp(p) => ToggleKeepsParked(r, p);
  }

  /** Whatever a client does, virtual pins keep GPIO_OUT at 0. */
  lemma {:induction false} RunKeepsParked(r: Regs, ops: seq<Op>)
    requires r.WellFormed() && forall i :: 0 <= i < |ops| ==> Issuable(ops[i])
    requires OutputParked(r)
    ensures OutputParked(Run(r, ops))
    decreases |ops|
  {
    if ops != [] {
      StepKeepsParked(r, ops[0]);
      RunKeepsParked(Step(r, ops[0]), ops[1..]);
    }
  }

  /** Push-pull, write `v`, open-drain, push-pull again: the pin reads back
      `!v`, not the value that was written. */
  lemma ModeRoundTripInvertsValue(r: Regs, p: nat, v: bool)
    requires r.WellFormed() && p < PinCount
    ensures var s1 := ModeSet(r, p, PushPull);
      var s2 := Written(s1, p, v);
      ReadBack(ModeSet(ModeSet(s2, p, OpenDrain), p, PushPull), p) == !v
  {
    var s1 := ModeSet(r, p, PushPull);
    var s2 := Written(s1, p, v);
    var s3 := ModeSet(s2, p, OpenDrain);
    SetModeRoles(r, p, PushPull);
    WriteThenReadBack(s1, p, v);
    SetModeReadBack(s2, p, OpenDrain);
    SetModeRoles(s2, p, OpenDrain);
    SetModeReadBack(s3, p, PushPull);
  }

  // ---------------------------------------------------------------------
  // the corrected setMode

  /** The migration with the virtual-to-push-pull branch copying the
      logical value (the inverted GPIO_OE bit) into GPIO_OUT, as the input
      branch does. */
  function MigratedIntended(role: Role, mode: Mode): (c: Role)
    ensures IsPinMode(mode) ==> c.virt == IsVirtualMode(mode) && c.Parked()
    ensures c.Value() == role.Value()
  {
    if mode.PushPull? then Role(role.Value(), true, false)
    else Migrated(role, mode)
  }

  /** setMode with the corrected migration. */
  function ModeSetIntended(r: Regs, p: nat, mode: Mode): (s: Regs)
    requires r.WellFormed() && p < PinCount
    ensures s.WellFormed()
  {
    if !Configures(mode) then r
    else Reconfigured(r, p, mode, MigratedIntended(RoleOf(r, p), mode))
  }

  /** setMode returning the mode now in effect instead of IOmodeError. */
  function ModeSetResultIntended(r: Regs, p: nat, mode: Mode): (m: Mode)
    requires r.WellFormed() && p < PinCount
    ensures !Configures(mode) ==> m == ModeOf(r, p)
  {
    ModeOf(ModeSetIntended(r, p, mode), p)
  }

  /** The corrected setMode differs from the written one only in GPIO_OUT,
      and only when a virtual pin moves to push-pull. */
  lemma IntendedDiffersOnlyThere(r: Regs, p: nat, mode: Mode)
    requires r.WellFormed() && p < PinCount
    ensures !(IsVirtual(r, p) && mode.PushPull?) ==>
              ModeSetIntended(r, p, mode) == ModeSet(r, p, mode)
    ensures ModeSetIntended(r, p, mode).(out := ModeSet(r, p, mode).out) == ModeSet(r, p, mode)
  {
  }

  /** With the correction every change of mode keeps the value read back,
      and getMode still round-trips. */
  lemma IntendedSetModeKeepsValue(r: Regs, p: nat, mode: Mode)
    requires r.WellFormed() && p < PinCount
    ensures ReadBack(ModeSetIntended(r, p, mode), p) == ReadBack(r, p)
    ensures SelectsSio(r, p) && IsPinMode(mode) ==>
              ModeOf(ModeSetIntended(r, p, mode), p) == mode
  {
    SetModeReadBack(r, p, mode);
    IntendedDiffersOnlyThere(r, p, mode);
    if SelectsSio(r, p) && IsPinMode(mode) {
      SetModeThenGetMode(r, p, mode);
    }
  }

  /** The corrected result reports the applied mode, and a refused request
      reports the unchanged current mode. */
  lemma IntendedResultReportsMode(r: Regs, p: nat, mode: Mode)
    requires r.WellFormed() && p < PinCount
    ensures SelectsSio(r, p) && IsPinMode(mode) ==> ModeSetResultIntended(r, p, mode) == mode
    ensures !Configures(mode) ==> ModeSetResultIntended(r, p, mode) == ModeOf(r, p)
  {
    IntendedSetModeKeepsValue(r, p, mode);
  }

  /** The round trip of `ModeRoundTripInvertsValue` keeps the written value. */
  lemma IntendedModeRoundTripKeepsValue(r: Regs, p: nat, v: bool)
    requires r.WellFormed() && p < PinCount
    ensures var s1 := ModeSetIntended(r, p, PushPull);
      var s2 := Written(s1, p, v);
      ReadBack(ModeSetIntended(ModeSetIntended(s2, p, OpenDrain), p, PushPull), p) == v
  {
    var s1 := ModeSetIntended(r, p, PushPull);
    var s2 := Written(s1, p, v);
    WriteThenReadBack(s1, p, v);
    IntendedSetModeKeepsValue(s2, p, OpenDrain);
    IntendedSetModeKeepsValue(ModeSetIntended(s2, p, OpenDrain), p, PushPull);
  }
}
