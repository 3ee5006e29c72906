/** The register state every RP2040 pin driver works on, as one value.

    - `gpioIn`, `out`, `oe`: the SIO words GPIO_IN (read-only), GPIO_OUT and
      GPIO_OE; the drivers write the last two only through their SET, CLR
      and XOR aliases.
    - `registry`: the driver's `IO_RP2040_IsOpenDrainMask`, one bit per pin,
      set while the pin is "virtual" (open-drain or quasi-bidirectional) and
      its logical output is carried by GPIO_OE.
    - `pads`: the thirty PADS_BANK0 GPIO words.
    - `ctrl`: the thirty IO_BANK0 GPIO CTRL words. */
module Registers {
  import opened Words

  /** A pin number, as the drivers' `uint8_t pin` fields hold it. */
  type Pin = p: nat | p < 256

  /** The RP2040 has thirty user GPIOs; the pad and IO banks have 30 entries. */
  const PinCount: nat := 30

  /** Bit positions in a PADS_BANK0 GPIO word. */
  const PadPde: nat := 2   // pull-down enable
  const PadPue: nat := 3   // pull-up enable
  const PadIe: nat := 6    // input enable
  const PadOd: nat := 7    // output disable

  /** CTRL.FUNCSEL occupies bits 4..0; the value 5 (0b00101) selects SIO. */
  const FuncselField: Word := {0, 1, 2, 3, 4}
  const FuncselSio: Word := {0, 2}

  datatype Regs = Regs(gpioIn: Word, out: Word, oe: Word, registry: Word,
                       pads: seq<Word>, ctrl: seq<Word>)
  {
    predicate WellFormed()
    {
      |pads| == PinCount && |ctrl| == PinCount
    }
  }

  /** The registry marks pin `p` as virtual. */
  predicate IsVirtual(r: Regs, p: nat)
  {
    p in r.registry
  }

  /** The three bits that decide what pin `p` drives: its GPIO_OUT bit, its
      GPIO_OE bit and its registry bit. */
  datatype Role = Role(out: bool, oe: bool, virt: bool)
  {
    /** The logical output the pin carries: the inverted GPIO_OE bit on a
        virtual pin (enabled means driven low), the GPIO_OUT bit otherwise. */
    function Value(): bool
    {
      if virt then !oe else out
    }

    /** GPIO_OUT is held at 0 while the pin is virtual. */
    predicate Parked()
    {
      virt ==> !out
    }
  }

  function RoleOf(r: Regs, p: nat): Role
  {
    Role(p in r.out, p in r.oe, p in r.registry)
  }

  /** `r` with pin `p`'s three role bits replaced; nothing else changes. */
  function WithRole(r: Regs, p: nat, role: Role): (s: Regs)
    ensures RoleOf(s, p) == role
    ensures s.out - {p} == r.out - {p} && s.oe - {p} == r.oe - {p}
    ensures s.registry - {p} == r.registry - {p}
    ensures s.gpioIn == r.gpioIn && s.pads == r.pads && s.ctrl == r.ctrl
  {
    r.(out := WithBit(r.out, p, role.out), oe := WithBit(r.oe, p, role.oe),
       registry := WithBit(r.registry, p, role.virt))
  }

  /** A state that agrees with `r` everywhere except on pin `p`'s role bits
      is `r` with that role installed. */
  lemma WithRoleUnique(r: Regs, s: Regs, p: nat)
    requires s.out - {p} == r.out - {p} && s.oe - {p} == r.oe - {p}
    requires s.registry - {p} == r.registry - {p}
    requires s.gpioIn == r.gpioIn && s.pads == r.pads && s.ctrl == r.ctrl
    ensures s == WithRole(r, p, RoleOf(s, p))
  {
    var t := WithRole(r, p, RoleOf(s, p));
    WordExtensionality(s.out, t.out, p);
    WordExtensionality(s.oe, t.oe, p);
    WordExtensionality(s.registry, t.registry, p);
  }

  /** Installing the role a pin already has changes nothing. */
  lemma WithOwnRole(r: Regs, p: nat)
    ensures WithRole(r, p, RoleOf(r, p)) == r
  {
    var s := WithRole(r, p, RoleOf(r, p));
    WordExtensionality(s.out, r.out, p);
    WordExtensionality(s.oe, r.oe, p);
    WordExtensionality(s.registry, r.registry, p);
  }

  /** The roles of the other pins survive. */
  lemma WithRoleElsewhere(r: Regs, p: nat, role: Role, q: nat)
    requires q != p
    ensures RoleOf(WithRole(r, p, role), q) == RoleOf(r, q)
  {
    var s := WithRole(r, p, role);
    assert q in s.out - {p} <==> q in r.out - {p};
    assert q in s.oe - {p} <==> q in r.oe - {p};
    assert q in s.registry - {p} <==> q in r.registry - {p};
  }

  /** The sentinel the drivers keep: GPIO_OUT is 0 at every virtual pin, so
      that enabling the output driver there always pulls the line low. */
  predicate OutputParked(r: Regs)
  {
    r.registry * r.out == {}
  }

  lemma ParkedAt(r: Regs, p: nat)
    requires OutputParked(r)
    ensures RoleOf(r, p).Parked()
  {
    assert p !in r.registry * r.out;
  }

  /** Installing a parked role keeps the whole state parked. */
  lemma WithRoleKeepsParked(r: Regs, p: nat, role: Role)
    requires OutputParked(r) && role.Parked()
    ensures OutputParked(WithRole(r, p, role))
  {
    var s := WithRole(r, p, role);
    assert s.registry * s.out <= (r.registry - {p}) * (r.out - {p});
  }

  /** The CTRL.FUNCSEL field of a CTRL word. */
  function Funcsel(ctrl: Word): Word
  {
    ctrl * FuncselField
  }

  /** Pin `p` is routed to SIO: its FUNCSEL field holds 5. */
  predicate SelectsSio(r: Regs, p: nat)
    requires r.WellFormed() && p < PinCount
  {
    Funcsel(r.ctrl[p]) == FuncselSio
  }

  /** A write of 5 to the CTRL.FUNCSEL bit-field of `ctrl`. */
  function SelectSio(ctrl: Word): (c: Word)
    ensures Funcsel(c) == FuncselSio
    ensures c - FuncselField == ctrl - FuncselField
  {
    (ctrl - FuncselField) + FuncselSio
  }

  /** Pad word with PUE set to `up` and PDE set to `down`, all other pad
      bits kept. */
  function WithPulls(pad: Word, up: bool, down: bool): (q: Word)
    ensures (PadPue in q) == up && (PadPde in q) == down
    ensures q - {PadPue, PadPde} == pad - {PadPue, PadPde}
  {
    WithBit(WithBit(pad, PadPue, up), PadPde, down)
  }

  /** Pad word with the input buffer enabled (IE = 1) and the output driver
      not disabled (OD = 0), all other pad bits kept. */
  function PadEnabled(pad: Word): (q: Word)
    ensures PadIe in q && PadOd !in q
    ensures q - {PadIe, PadOd} == pad - {PadIe, PadOd}
  {
    WithBit(WithBit(pad, PadIe, true), PadOd, false)
  }

  /** The drivers' pin check, `pin > 32`, as written. */
  predicate PinCheckRejects(p: Pin)
    ensures PinCheckRejects(p) ==> p >= PinCount
  {
    p > 32
  }

  /** The check lets through 30, 31 and 32, which have no pad or CTRL word:
      a call with one of them indexes past the end of both banks. */
  lemma PinCheckAdmitsMissingPins(r: Regs, p: Pin)
    requires r.WellFormed() && PinCount <= p <= 32
    ensures !PinCheckRejects(p)
    ensures p >= |r.pads| && p >= |r.ctrl|
  {
  }

  /** The check the banks call for: reject every pin without a pad. */
  predicate PinCheckRejectsIntended(p: Pin)
  {
    p >= PinCount
  }

  /** The intended check admits exactly the pins both banks can index. */
  lemma IntendedPinCheckGuardsBanks(r: Regs, p: Pin)
    requires r.WellFormed()
    ensures !PinCheckRejectsIntended(p) <==> p < |r.pads| && p < |r.ctrl|
    ensures PinCheckRejects(p) ==> PinCheckRejectsIntended(p)
  {
  }
}
