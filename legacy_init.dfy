/** What the two legacy `Init` functions (voile_iopin_rp2040 and
    voile_gpio_rp2040) share: the pin check, the mode switch and the final
    pad and CTRL writes. The switch is the same in both files except for
    where the initial value is written, which each variant's module states.

    Unlike the current driver's setMode, the legacy switch does not migrate
    the logical output: it sets the registry bit and the output enable for
    the mode and leaves the initial value to a following write. */
module LegacyInit {
  import opened Words
  import opened Modes
  import opened Registers

  /** The role an arm of the mode switch leaves the pin in, before any
      write of the initial value: the inputs clear GPIO_OE and the registry
      bit; push-pull clears the registry bit and sets GPIO_OE; open-drain and
      quasi-bidirectional clear GPIO_OUT and set the registry bit. */
  function ConfiguredRole(role: Role, mode: Mode): (c: Role)
    requires IsPinMode(mode)
    ensures c.virt == IsVirtualMode(mode) && c.Parked()
  {
    if IsInputMode(mode) then Role(role.out, false, false)
    else if mode.PushPull? then Role(role.out, true, false)
    else Role(false, role.oe, true)
  }

  /** The state an arm of the mode switch leaves: the pulls set for the mode
      and the role above. */
  function Configured(r: Regs, p: nat, mode: Mode): (s: Regs)
    requires r.WellFormed() && p < PinCount && IsPinMode(mode)
    ensures s.WellFormed()
  {
    WithRole(r.(pads := r.pads[p := WithPulls(r.pads[p], PullUpFor(mode), PullDownFor(mode))]),
             p, ConfiguredRole(RoleOf(r, p), mode))
  }

  /** The writes after the switch: pad bit 6 (IE) set, pad bit 7 (OD)
      cleared, and the whole CTRL word set to 5. */
  function Finalized(r: Regs, p: nat): (s: Regs)
    requires r.WellFormed() && p < PinCount
    ensures s.WellFormed()
  {
    r.(pads := r.pads[p := PadEnabled(r.pads[p])], ctrl := r.ctrl[p := FuncselSio])
  }

  /** Init refuses a pin the check rejects and any mode outside the six
      cases of the switch. */
  predicate InitRefused(p: Pin, mode: Mode)
  {
    PinCheckRejects(p) || !IsPinMode(mode)
  }

  /** The status both legacy Init functions return. */
  function InitStatus(p: Pin, mode: Mode): (st: Status)
    ensures st.Success? <==> !PinCheckRejects(p) && IsPinMode(mode)
  {
    if InitRefused(p, mode) then HardwareUnsupportedError else Success
  }

  /** A state that differs from `r` only in pin `p`'s role bits and in the
      pulls of pad word `p`, with the role and pulls `mode` calls for, is the
      state the switch arm for `mode` leaves. */
  lemma ConfiguredUnique(r: Regs, s: Regs, p: nat, mode: Mode)
    requires r.WellFormed() && p < PinCount && IsPinMode(mode)
    requires s.out - {p} == r.out - {p} && s.oe - {p} == r.oe - {p}
    requires s.registry - {p} == r.registry - {p}
    requires s.gpioIn == r.gpioIn && s.ctrl == r.ctrl
    requires s.pads == r.pads[p := WithPulls(r.pads[p], PullUpFor(mode), PullDownFor(mode))]
    requires RoleOf(s, p) == ConfiguredRole(RoleOf(r, p), mode)
    ensures s == Configured(r, p, mode)
  {
    var pulled := r.(pads := s.pads);
    WithRoleUnique(pulled, s, p);
  }

  /** The switch sets PUE and PDE for the mode and no other pad bit, and
      changes bit `p` of GPIO_OUT, GPIO_OE and the registry only. */
  lemma ConfiguredFrame(r: Regs, p: nat, mode: Mode)
    requires r.WellFormed() && p < PinCount && IsPinMode(mode)
    ensures var s := Configured(r, p, mode);
      (PadPue in s.pads[p]) == (mode.InputPullUp? || mode.QuasiBidirectional?)
      && (PadPde in s.pads[p]) == mode.InputPullDown?
      && s.pads[p] - {PadPue, PadPde} == r.pads[p] - {PadPue, PadPde}
      && s.pads == r.pads[p := s.pads[p]] && s.ctrl == r.ctrl && s.gpioIn == r.gpioIn
      && s.out - {p} == r.out - {p} && s.oe - {p} == r.oe - {p}
      && s.registry - {p} == r.registry - {p}
  {
  }

  /** The switch leaves the state parked. */
  lemma ConfiguredKeepsParked(r: Regs, p: nat, mode: Mode)
    requires r.WellFormed() && p < PinCount && IsPinMode(mode) && OutputParked(r)
    ensures OutputParked(Configured(r, p, mode))
  {
    var pulled := r.(pads := r.pads[p := WithPulls(r.pads[p], PullUpFor(mode), PullDownFor(mode))]);
    WithRoleKeepsParked(pulled, p, ConfiguredRole(RoleOf(r, p), mode));
  }

  /** The final writes set IE, clear OD, write 5 to CTRL and touch nothing
      else. */
  lemma FinalizedFrame(r: Regs, p: nat)
    requires r.WellFormed() && p < PinCount
    ensures var s := Finalized(r, p);
      PadIe in s.pads[p] && PadOd !in s.pads[p]
      && s.pads[p] - {PadIe, PadOd} == r.pads[p] - {PadIe, PadOd}
      && s.ctrl[p] == FuncselSio && SelectsSio(s, p)
      && s.pads == r.pads[p := s.pads[p]] && s.ctrl == r.ctrl[p := s.ctrl[p]]
      && RoleOf(s, p) == RoleOf(r, p)
      && s.gpioIn == r.gpioIn && s.out == r.out && s.oe == r.oe && s.registry == r.registry
  {
  }
}
