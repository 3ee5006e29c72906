/** The output driver of the RP2040 variants: write and toggle of one pin,
    routed through the open-drain registry, which the three headers write
    with the same alias operations, and the read-back of the logical value,
    which only the current driver (`voile_pin_rp2040_readRegister`) offers.

    `1ul << pin` is split by the registry into `mask & ~registry`, which
    reaches GPIO_OUT, and `mask & registry`, which reaches GPIO_OE with the
    opposite polarity. The functions here say what that achieves in terms of
    the pin's role; each variant's methods are proved to achieve it. */
module OutputDriver {
  import opened Words
  import opened Registers

  /** What the pin was last asked to drive (`voile_pin_rp2040_readRegister`):
      the inverted GPIO_OE bit on a virtual pin, the GPIO_OUT bit otherwise. */
  function ReadBack(r: Regs, p: nat): (v: bool)
    ensures v == RoleOf(r, p).Value()
  {
    if IsVirtual(r, p) then p !in r.oe else p in r.out
  }

  /** The state after a write of `v` to pin `p`: the GPIO_OE bit becomes `!v`
      on a virtual pin, the GPIO_OUT bit becomes `v` otherwise. */
  function Written(r: Regs, p: nat, v: bool): (w: Regs)
    ensures RoleOf(w, p).Value() == v && RoleOf(w, p).virt == RoleOf(r, p).virt
  {
    if IsVirtual(r, p) then r.(oe := WithBit(r.oe, p, !v))
    else r.(out := WithBit(r.out, p, v))
  }

  /** The state after a toggle of pin `p`: the register carrying the pin's
      value has that bit inverted. */
  function Toggled(r: Regs, p: nat): (t: Regs)
    ensures RoleOf(t, p).Value() == !RoleOf(r, p).Value() && RoleOf(t, p).virt == RoleOf(r, p).virt
  {
    if IsVirtual(r, p) then r.(oe := WithBit(r.oe, p, p !in r.oe))
    else r.(out := WithBit(r.out, p, p !in r.out))
  }

  /** The four alias writes of `voile_pin_rp2040_write`, with `1ul << p`
      split by the registry, produce `Written`: on a virtual pin the GPIO_OUT
      operand is 0, otherwise the GPIO_OE operand is. */
  lemma WrittenByAliases(r: Regs, p: nat, v: bool)
    ensures Written(r, p, v) ==
      if v then r.(out := r.out + (Mask(p) - r.registry), oe := r.oe - (Mask(p) * r.registry))
      else r.(out := r.out - (Mask(p) - r.registry), oe := r.oe + (Mask(p) * r.registry))
  {
    var toOut, toOe := Mask(p) - r.registry, Mask(p) * r.registry;
    if IsVirtual(r, p) {
      assert toOut == {} && toOe == {p};
      assert r.out + toOut == r.out && r.out - toOut == r.out;
    } else {
      assert toOut == {p} && toOe == {};
      assert r.oe + toOe == r.oe && r.oe - toOe == r.oe;
    }
  }

  /** The two XOR-alias writes of `voile_pin_rp2040_taggle` produce
      `Toggled`. */
  lemma ToggledByAliases(r: Regs, p: nat)
    ensures Toggled(r, p) ==
      r.(out := Xor(r.out, Mask(p) - r.registry), oe := Xor(r.oe, Mask(p) * r.registry))
  {
    if IsVirtual(r, p) {
      assert Mask(p) - r.registry == {} && Mask(p) * r.registry == {p};
      XorMaskInverts(r.oe, p);
    } else {
      assert Mask(p) - r.registry == {p} && Mask(p) * r.registry == {};
      XorMaskInverts(r.out, p);
    }
  }

  /** A write is read back, whether or not the pin is virtual. */
  lemma WriteThenReadBack(r: Regs, p: nat, v: bool)
    ensures ReadBack(Written(r, p, v), p) == v
  {
  }

  /** A write changes one bit of one register: GPIO_OE on a virtual pin,
      GPIO_OUT otherwise; the registry, GPIO_IN, pads and CTRL stay. */
  lemma WriteFrame(r: Regs, p: nat, v: bool)
    ensures var w := Written(r, p, v);
      w.gpioIn == r.gpioIn && w.registry == r.registry
      && w.pads == r.pads && w.ctrl == r.ctrl
      && w.out - {p} == r.out - {p} && w.oe - {p} == r.oe - {p}
      && (IsVirtual(r, p) ==> w.out == r.out && (p in w.oe) == !v)
      && (!IsVirtual(r, p) ==> w.oe == r.oe && (p in w.out) == v)
  {
  }

  /** Writing the same value twice is writing it once. */
  lemma WriteIdempotent(r: Regs, p: nat, v: bool)
    ensures Written(Written(r, p, v), p, v) == Written(r, p, v)
  {
    var once := Written(r, p, v);
    if IsVirtual(r, p) {
      WordExtensionality(WithBit(once.oe, p, !v), once.oe, p);
    } else {
      WordExtensionality(WithBit(once.out, p, v), once.out, p);
    }
  }

  /** A write leaves every other pin's role and read-back alone. */
  lemma WriteLeavesOtherPins(r: Regs, p: nat, v: bool, q: nat)
    requires q != p
    ensures RoleOf(Written(r, p, v), q) == RoleOf(r, q)
    ensures ReadBack(Written(r, p, v), q) == ReadBack(r, q)
  {
    var w := Written(r, p, v);
    assert q in w.out - {p} <==> q in r.out - {p};
    assert q in w.oe - {p} <==> q in r.oe - {p};
  }

  /** A toggle inverts the read-back value. */
  lemma ToggleNegatesReadBack(r: Regs, p: nat)
    ensures ReadBack(Toggled(r, p), p) == !ReadBack(r, p)
  {
  }

  /** A toggle inverts one bit of one register: GPIO_OE on a virtual pin,
      GPIO_OUT otherwise; the registry, GPIO_IN, pads and CTRL stay. */
  lemma ToggleFrame(r: Regs, p: nat)
    ensures var t := Toggled(r, p);
      t.gpioIn == r.gpioIn && t.registry == r.registry
      && t.pads == r.pads && t.ctrl == r.ctrl
      && t.out - {p} == r.out - {p} && t.oe - {p} == r.oe - {p}
      && (IsVirtual(r, p) ==> t.out == r.out && (p in t.oe) != (p in r.oe))
      && (!IsVirtual(r, p) ==> t.oe == r.oe && (p in t.out) != (p in r.out))
  {
  }

  /** Toggling twice restores GPIO_OUT and GPIO_OE exactly. */
  lemma ToggleTwice(r: Regs, p: nat)
    ensures Toggled(Toggled(r, p), p) == r
  {
    var once := Toggled(r, p);
    if IsVirtual(r, p) {
      WordExtensionality(Toggled(once, p).oe, r.oe, p);
    } else {
      WordExtensionality(Toggled(once, p).out, r.out, p);
    }
  }

  /** A toggle leaves every other pin's role and read-back alone. */
  lemma ToggleLeavesOtherPins(r: Regs, p: nat, q: nat)
    requires q != p
    ensures RoleOf(Toggled(r, p), q) == RoleOf(r, q)
    ensures ReadBack(Toggled(r, p), q) == ReadBack(r, q)
  {
    var t := Toggled(r, p);
    assert q in t.out - {p} <==> q in r.out - {p};
    assert q in t.oe - {p} <==> q in r.oe - {p};
  }

  /** Writes never disturb the GPIO_OUT sentinel of virtual pins. */
  lemma WriteKeepsParked(r: Regs, p: nat, v: bool)
    requires OutputParked(r)
    ensures OutputParked(Written(r, p, v))
  {
    var w := Written(r, p, v);
    assert w.registry * w.out <= r.registry * r.out;
  }

  /** Toggles never disturb the GPIO_OUT sentinel of virtual pins. */
  lemma ToggleKeepsParked(r: Regs, p: nat)
    requires OutputParked(r)
    ensures OutputParked(Toggled(r, p))
  {
    var t := Toggled(r, p);
    assert t.registry * t.out <= r.registry * r.out;
  }
}
