# RP2040 GPIO pin driver — a verified model

This project models the GPIO pin drivers of the voile library for the
Raspberry Pi RP2040, and proves properties of them. Each driver configures a
pin by writing to these registers:

- the SIO words GPIO_OUT and GPIO_OE, through their SET, CLR and XOR
  aliases;
- the read-only GPIO_IN word;
- per pin, the PADS_BANK0 word, with bits PDE (2), PUE (3), IE (6) and
  OD (7);
- per pin, the IO_BANK0 CTRL word, whose FUNCSEL field selects SIO with
  the value 5;
- a global bitmask, `IO_RP2040_IsOpenDrainMask` (the *registry*).

A pin whose registry bit is set is *virtual*: it is open-drain or
quasi-bidirectional. Its logical output is then carried by GPIO_OE with
inverted polarity (output enabled means driven low), and its GPIO_OUT bit
is held at 0. Otherwise GPIO_OUT carries the value.

The repository holds three drivers. They are alternatives, and each has its
own registry, so each is its own module with its own state class:

| module | driver | operations |
|---|---|---|
| `PinRp2040` | current (`voile_pin_rp2040`) | init, setMode with migration of the output between GPIO_OUT and GPIO_OE, getMode, write, read, taggle, readRegister |
| `IoPinRp2040` | legacy ioPin (`voile_iopin_rp2040`) | Init with a mode and an initial value, Write, Read, Taggle, Get_Read |
| `GpioRp2040` | legacy gpio (`voile_gpio_rp2040`) | Init with a mode and an initial value, Write, Read, ReadToReturn, Taggle |

The shared modules are:
- `Words`: register words;
- `Modes`: the mode and status enumerations;
- `Registers`: the register state as one value `Regs`, and a pin's *role* (its GPIO_OUT, GPIO_OE and registry bits);
- `OutputDriver`: write and toggle, which the three headers perform with the same alias operations, and the read-back of the logical value, which only the current driver's `readRegister` offers.
- `LegacyInit`: the mode switch shared by the two legacy `Init` functions.

Each operation has two forms:
- a function on `Regs` that gives the state the operation leaves behind;
- a method of the variant's `Chip` class that performs the C code's writes one at a time on fields and arrays, and is proved to reach exactly that state.

The lemmas state the drivers' properties about those functions:
- frames per pin bit;
- the write/read-back round trip;
- toggle involution;
- write idempotence;
- the setMode/getMode round trip;
- preservation of the read-back value across migration;
- the legacy `Init` effects for each mode.

Every operation the drivers export also preserves the invariant that
GPIO_OUT is 0 at every virtual pin (`OutputParked`); the helper methods
that perform part of an operation do not promise it on their own. For the
current driver, a lemma proves this invariant holds across any sequence of
operations.

**Register words.** A 32-bit word is modelled as the set of the positions
of its 1 bits (`Words.Word = set<nat>`). Every operation the drivers apply
is one of these, with a one-bit mask `1ul << pin` or a small constant:

| C | model |
|---|---|
| `w \| m` (SET alias) | union |
| `w & ~m` (CLR alias) | difference |
| `w ^ m` (XOR alias) | `Xor` |
| `w & m` | intersection |

The drivers only write positions below 30 (pin numbers) and the pad and
CTRL bit positions 0..7, and no property here depends on a word having no
position above 31, so the mapping is exact for what the drivers do.

**Current driver.**
- `Chip.SetMode` follows the code as written, including the two defects listed under Findings.
- `ModeSetIntended` and `ModeSetResultIntended` give the corrected behaviour, and the `Intended…` lemmas prove it.
- setMode's two switches are the helper methods `SetPulls` and `MoveOutput`.

**Legacy drivers.**
- Both `Init` functions reset the role for the mode without migrating the output (`LegacyInit.ConfiguredRole`), then finalize the pad and CTRL words.
- They differ in where the initial value is written:
  - the ioPin driver writes it in its three output arms only;
  - the gpio driver writes it after the switch, for every mode.
- Each switch arm writes the SIO words and the registry (`ArmRole`) and the pad word (`ArmPulls`). These are different registers, so the model performs the two groups one after the other.
- In the gpio driver, `voile_gpio_rp2040.c` defines `IOpin_gpio_rp2040_Init(pin, …)` and calls `IOpin_gpio_rp2040_Write(pin, value)` with a bare pin number. The header declares `ioPin_gpio_rp2040_…` functions that take a struct pointer. The model identifies the two sets of names and passes the pin number.

## Model

| member | source | states |
|---|---|---|
| Words.Mask | library/voile_pin_rp2040.h:42-43 | `1ul << pin` has exactly one bit, at position `pin` |
| Words.Xor | library/voile_pin_rp2040.h:61-64 | an XOR-alias write sets exactly the bits set in one operand but not the other |
| Words.WithBit | library/src/voile_pin_rp2040.c:60-61 | a single-bit write sets that bit as asked and keeps every other bit |
| Words.XorMaskInverts | library/voile_pin_rp2040.h:61-64 | XOR with `1ul << pin` inverts bit `pin` and no other |
| Registers.WithRole | library/src/voile_pin_rp2040.c:87-126 | installing a role sets the pin's GPIO_OUT, GPIO_OE and registry bits and changes nothing else |
| Registers.WithRoleElsewhere | library/src/voile_pin_rp2040.c:87-126 | changing one pin's role leaves every other pin's role alone |
| Registers.WithRoleKeepsParked | library/src/voile_pin_rp2040.c:114-126 | installing a role with GPIO_OUT 0 on a virtual pin keeps every virtual pin's GPIO_OUT at 0 |
| Registers.SelectSio | library/src/voile_pin_rp2040.c:37 | writing 5 to the FUNCSEL bit-field makes FUNCSEL read 5 and keeps the other CTRL bits |
| Registers.WithPulls | library/src/voile_pin_rp2040.c:53-75 | the pull writes set PUE and PDE as asked and keep every other pad bit |
| Registers.PadEnabled | library/src/voile_pin_rp2040.c:35-36 | the init writes leave IE = 1 and OD = 0 and keep every other pad bit |
| Modes.BelowError | library/src/voile_pin_rp2040.c:45-47 | the input check of setMode lets every concrete mode and IOmodeHold through and stops IOmodeError (under the assumed enumeration order); used by PinRp2040.SetModeRefused |
| Registers.PinCheckRejects | library/src/voile_pin_rp2040.c:30 | every pin the check rejects lies outside the banks; Registers.PinCheckAdmitsMissingPins shows the converse fails |
| Registers.PinCheckAdmitsMissingPins | library/src/voile_pin_rp2040.c:30 | the check `pin > 32` lets 30, 31 and 32 through, and none of them has a pad or CTRL word |
| Registers.IntendedPinCheckGuardsBanks | library/src/voile_pin_rp2040.c:30 | the check `pin >= 30` admits exactly the pins both banks can index, and rejects everything `pin > 32` rejects |
| OutputDriver.ReadBack | library/voile_pin_rp2040.h:67-74 | the value readRegister returns; what it means is stated by OutputDriver.WriteThenReadBack (a write is read back), OutputDriver.ToggleNegatesReadBack (taggle negates it) and PinRp2040.SetModeReadBack (which mode changes keep it) |
| OutputDriver.Written | library/voile_pin_rp2040.h:39-52 | after a write the pin's logical value is the value written and its registry bit is unchanged; OutputDriver.WriteFrame, WriteIdempotent and WriteLeavesOtherPins state the rest |
| OutputDriver.Toggled | library/voile_pin_rp2040.h:59-65 | taggle negates the pin's logical value and keeps its registry bit; OutputDriver.ToggleFrame, ToggleTwice and ToggleLeavesOtherPins state the rest |
| OutputDriver.WrittenByAliases | library/voile_pin_rp2040.h:39-52 | the four masked SET/CLR writes put `value` on GPIO_OUT on a plain pin and `!value` on GPIO_OE on a virtual pin |
| OutputDriver.ToggledByAliases | library/voile_pin_rp2040.h:59-65 | the two masked XOR writes invert the bit of whichever register carries the pin's value |
| OutputDriver.WriteThenReadBack | library/voile_pin_rp2040.h:39-74 | write(v) followed by readRegister returns v, whether or not the pin is virtual |
| OutputDriver.WriteFrame | library/voile_pin_rp2040.h:41-51 | a write changes only bit `pin`: of GPIO_OE (set to `!v`) on a virtual pin, of GPIO_OUT (set to `v`) otherwise; registry, GPIO_IN, pads and CTRL unchanged |
| OutputDriver.WriteIdempotent | library/voile_pin_rp2040.h:41-51 | writing the same value twice gives the same state as writing it once |
| OutputDriver.WriteLeavesOtherPins | library/voile_pin_rp2040.h:41-51 | a write leaves every other pin's role and read-back value unchanged |
| OutputDriver.ToggleNegatesReadBack | library/voile_pin_rp2040.h:59-74 | taggle negates the value readRegister returns |
| OutputDriver.ToggleFrame | library/voile_pin_rp2040.h:61-64 | taggle inverts bit `pin` of GPIO_OE on a virtual pin and of GPIO_OUT otherwise, and changes nothing else |
| OutputDriver.ToggleTwice | library/voile_pin_rp2040.h:61-64 | taggle applied twice restores the whole state |
| OutputDriver.ToggleLeavesOtherPins | library/voile_pin_rp2040.h:61-64 | taggle leaves every other pin's role and read-back value unchanged |
| OutputDriver.WriteKeepsParked | library/voile_pin_rp2040.h:42-50 | a write never sets GPIO_OUT at a virtual pin |
| OutputDriver.ToggleKeepsParked | library/voile_pin_rp2040.h:61-64 | taggle never sets GPIO_OUT at a virtual pin |
| PinRp2040.ModeOf | library/src/voile_pin_rp2040.c:135-159 | getMode reports IOuninit exactly when FUNCSEL is not 5; otherwise one of the six pin modes, open-drain or quasi-bidirectional exactly when the registry bit is set |
| PinRp2040.Initialized | library/src/voile_pin_rp2040.c:27-38 | the state init leaves; stated by PinRp2040.InitEffect |
| PinRp2040.Migrated | library/src/voile_pin_rp2040.c:84-130 | each pin mode leaves the registry bit set exactly for open-drain and quasi with GPIO_OUT parked at 0; IOuninit keeps the role; the logical value is kept except from a virtual pin to push-pull, where it is negated |
| PinRp2040.Reconfigured | library/src/voile_pin_rp2040.c:53-130 | the pin ends with the given role and the pulls the mode calls for; PinRp2040.SetModeFrame states that nothing else changes |
| PinRp2040.ModeSet | library/src/voile_pin_rp2040.c:40-133 | the state setMode leaves; stated by PinRp2040.SetModeRefused, SetModePulls, SetModeRoles, SetModeFrame, SetModeThenGetMode, SetModeReadBack and ModeSetKeepsParked |
| PinRp2040.Step | library/src/voile_pin_rp2040.c:27-133 | one call of init, setMode, write or taggle; stated by PinRp2040.StepKeepsParked |
| PinRp2040.Run | library/src/voile_pin_rp2040.c:27-133 | a sequence of such calls; stated by PinRp2040.RunKeepsParked |
| PinRp2040.ModeSetResult | library/src/voile_pin_rp2040.c:45-132 | the value setMode returns; stated by PinRp2040.SetModeRefused (a refused mode or Hold returns getMode and changes nothing) and PinRp2040.SetModeReturnsModeError (every other mode returns IOmodeError, which getMode never reports) |
| PinRp2040.Chip.constructor | library/src/voile_pin_rp2040.c:25 | the registry starts empty; the registers hold the given reset contents |
| PinRp2040.Chip.Init | library/src/voile_pin_rp2040.c:27-38 | init's writes leave exactly the state `Initialized` describes, and keep the class invariant |
| PinRp2040.Chip.GetMode | library/src/voile_pin_rp2040.c:135-159 | the decision tree returns `ModeOf` of the current state and changes nothing |
| PinRp2040.Chip.SetMode | library/src/voile_pin_rp2040.c:40-133 | setMode's writes leave exactly the state `ModeSet` describes, return `ModeSetResult`, and keep GPIO_OUT at 0 on virtual pins |
| PinRp2040.Chip.SetPulls | library/src/voile_pin_rp2040.c:52-80 | the pull switch sets PUE and PDE of pad word `pin` for the mode and changes no other pad word |
| PinRp2040.Chip.MoveOutput | library/src/voile_pin_rp2040.c:83-130 | the migration switch leaves the pin in the role `Migrated` gives and changes no other bit of GPIO_OUT, GPIO_OE or the registry |
| PinRp2040.Chip.Write | library/voile_pin_rp2040.h:39-52 | the alias writes leave exactly the state `Written` describes |
| PinRp2040.Chip.Read | library/voile_pin_rp2040.h:54-57 | read returns bit `pin` of GPIO_IN and changes nothing |
| PinRp2040.Chip.Toggle | library/voile_pin_rp2040.h:59-65 | the XOR writes leave exactly the state `Toggled` describes |
| PinRp2040.Chip.ReadRegister | library/voile_pin_rp2040.h:67-74 | returns `ReadBack` of the current state and changes nothing |
| PinRp2040.InitEffect | library/src/voile_pin_rp2040.c:30-37 | init with `pin > 32` writes nothing; otherwise it sets IE = 1, OD = 0 and FUNCSEL = 5, keeps all other pad and CTRL bits and words, and leaves SIO and the registry alone |
| PinRp2040.SetModeRefused | library/src/voile_pin_rp2040.c:45-50 | a mode not below IOmodeError, or IOmodeHold, changes nothing and returns getMode |
| PinRp2040.SetModeReturnsModeError | library/src/voile_pin_rp2040.c:132 | every request that gets through returns IOmodeError, which is never the mode getMode then reports |
| PinRp2040.SetModePulls | library/src/voile_pin_rp2040.c:53-75 | (PUE, PDE) ends as (1, 0) for pull-up and quasi-bidirectional, (0, 1) for pull-down, (0, 0) for uninit, input, push-pull and open-drain; no other pad bit moves |
| PinRp2040.SetModeRoles | library/src/voile_pin_rp2040.c:84-130 | open-drain and quasi-bidirectional end with the registry bit 1 and GPIO_OUT 0; the inputs with registry 0 and GPIO_OE 0; push-pull with registry 0 and GPIO_OE 1; IOuninit touches neither SIO word nor the registry |
| PinRp2040.SetModeFrame | library/src/voile_pin_rp2040.c:43-130 | setMode changes only bit `pin` of GPIO_OUT, GPIO_OE and the registry, and only pad word `pin` |
| PinRp2040.SetModeThenGetMode | library/src/voile_pin_rp2040.c:53-159 | with FUNCSEL = 5, getMode after setMode(M) returns M for each of the six pin modes |
| PinRp2040.UninitDoesNotRoundTrip | library/src/voile_pin_rp2040.c:128-159 | setMode(IOuninit) keeps the role, so getMode then reports open-drain, push-pull or input, never IOuninit |
| PinRp2040.SetModeReadBack | library/src/voile_pin_rp2040.c:86-126 | every change of mode keeps the read-back value, except virtual to push-pull, which negates it |
| PinRp2040.SameFamilyKeepsCarrier | library/src/voile_pin_rp2040.c:88-117 | no migration within a family: a virtual pin going open-drain or quasi keeps GPIO_OE, a plain pin going input or push-pull keeps GPIO_OUT |
| PinRp2040.ModeSetKeepsParked | library/src/voile_pin_rp2040.c:114-126 | setMode keeps GPIO_OUT at 0 on every virtual pin |
| PinRp2040.StepKeepsParked | library/src/voile_pin_rp2040.c:27-133 | each of init, setMode, write and taggle keeps GPIO_OUT at 0 on every virtual pin |
| PinRp2040.RunKeepsParked | library/src/voile_pin_rp2040.c:27-133 | any sequence of init, setMode, write and taggle calls keeps GPIO_OUT at 0 on every virtual pin |
| PinRp2040.ModeRoundTripInvertsValue | library/src/voile_pin_rp2040.c:88-93 | push-pull, write v, open-drain, push-pull: the pin reads back !v |
| PinRp2040.MigratedIntended | library/src/voile_pin_rp2040.c:86-126 | the corrected migration keeps the logical value for every mode, and every pin mode still sets the registry bit exactly for open-drain and quasi with GPIO_OUT parked |
| PinRp2040.ModeSetIntended | library/src/voile_pin_rp2040.c:40-133 | the corrected setMode; stated by PinRp2040.IntendedDiffersOnlyThere and IntendedSetModeKeepsValue |
| PinRp2040.ModeSetResultIntended | library/src/voile_pin_rp2040.c:132 | the corrected result; a refused request reports the unchanged mode, and PinRp2040.IntendedResultReportsMode states that an applied mode is reported |
| PinRp2040.IntendedDiffersOnlyThere | library/src/voile_pin_rp2040.c:88-93 | the corrected setMode differs from the written one only in GPIO_OUT, and only when a virtual pin moves to push-pull |
| PinRp2040.IntendedSetModeKeepsValue | library/src/voile_pin_rp2040.c:84-130 | the corrected setMode keeps the read-back value for every mode, and getMode still returns each pin mode applied |
| PinRp2040.IntendedResultReportsMode | library/src/voile_pin_rp2040.c:132 | the corrected setMode returns the mode applied, and a refused request returns the unchanged current mode |
| PinRp2040.IntendedModeRoundTripKeepsValue | library/src/voile_pin_rp2040.c:88-93 | with the correction, push-pull, write v, open-drain, push-pull reads back v |
| LegacyInit.ConfiguredRole | library/src/voile_iopin_rp2040.c:28-67 | each arm of the legacy switch sets the registry bit exactly for open-drain and quasi, and leaves GPIO_OUT 0 on a virtual pin |
| LegacyInit.Configured | library/src/voile_iopin_rp2040.c:28-67 | the state an arm of the legacy switch leaves; stated by LegacyInit.ConfiguredFrame and ConfiguredKeepsParked |
| LegacyInit.Finalized | library/src/voile_iopin_rp2040.c:71-73 | the state the final pad and CTRL writes leave; stated by LegacyInit.FinalizedFrame |
| LegacyInit.InitStatus | library/src/voile_iopin_rp2040.c:24-74 | the status both legacy Inits return; stated by IoPinRp2040.InitRefusedLeavesState and GpioRp2040.InitRefusedLeavesState (a refused call returns hardwareUnsupportedError and writes nothing) and by the `InitStatus(p, mode) == Success` clause of the two InitPadsAndFrame lemmas |
| LegacyInit.ConfiguredFrame | library/src/voile_iopin_rp2040.c:29-67 | the switch sets PUE for pull-up and quasi and PDE for pull-down only, keeps every other pad bit and word, and changes only bit `pin` of GPIO_OUT, GPIO_OE and the registry |
| LegacyInit.ConfiguredKeepsParked | library/src/voile_iopin_rp2040.c:47-67 | the switch keeps GPIO_OUT at 0 on every virtual pin |
| LegacyInit.FinalizedFrame | library/src/voile_iopin_rp2040.c:71-73 | the final writes set IE, clear OD and write exactly 5 to CTRL, so the pin is routed to SIO, and change nothing else |
| IoPinRp2040.InitState | library/src/voile_iopin_rp2040.c:23-75 | the state the ioPin Init leaves; stated by IoPinRp2040.InitRefusedLeavesState, InitInputIgnoresValue, InitOutputTakesValue, InitPadsAndFrame, InitKeepsParked, InitThenGetMode and InitIdempotent |
| IoPinRp2040.Chip.constructor | library/src/voile_iopin_rp2040.c:21 | the registry starts empty; the registers hold the given reset contents |
| IoPinRp2040.Chip.Init | library/src/voile_iopin_rp2040.c:23-75 | Init's writes leave exactly the state `InitState` describes, return `InitStatus`, and keep the class invariant |
| IoPinRp2040.Chip.SwitchArm | library/src/voile_iopin_rp2040.c:28-67 | the arm for the mode leaves exactly the state `Configured` describes |
| IoPinRp2040.Chip.ArmRole | library/src/voile_iopin_rp2040.c:29-65 | the SIO and registry writes of the arm give the pin the role `ConfiguredRole` and change no other bit |
| IoPinRp2040.Chip.ArmPulls | library/src/voile_iopin_rp2040.c:31-65 | the pad writes of the arm set PUE and PDE for the mode and touch no other pad word |
| IoPinRp2040.Chip.Finalize | library/src/voile_iopin_rp2040.c:71-73 | the final writes leave exactly the state `Finalized` describes |
| IoPinRp2040.Chip.Write | library/voile_iopin_rp2040.h:124-133 | the alias writes leave exactly the state `Written` describes, and return success |
| IoPinRp2040.Chip.Read | library/voile_iopin_rp2040.h:149-152 | stores bit `pin` of GPIO_IN, returns success, changes nothing |
| IoPinRp2040.Chip.Toggle | library/voile_iopin_rp2040.h:167-171 | the XOR writes leave exactly the state `Toggled` describes, and return success |
| IoPinRp2040.Chip.GetRead | library/voile_iopin_rp2040.h:186-188 | returns bit `pin` of GPIO_IN, the value Read stores, and changes nothing |
| IoPinRp2040.InitRefusedLeavesState | library/src/voile_iopin_rp2040.c:25-69 | `pin > 32` or a mode outside the switch returns hardwareUnsupportedError and writes nothing |
| IoPinRp2040.InitInputIgnoresValue | library/src/voile_iopin_rp2040.c:29-46 | the input modes clear the registry and GPIO_OE bits, leave GPIO_OUT exactly as it was, and ignore the initial value |
| IoPinRp2040.InitOutputTakesValue | library/src/voile_iopin_rp2040.c:47-67 | push-pull ends with registry 0, GPIO_OE 1 and GPIO_OUT = value; open-drain and quasi end with registry 1, GPIO_OUT 0 and GPIO_OE = !value; all three read back the value |
| IoPinRp2040.InitPadsAndFrame | library/src/voile_iopin_rp2040.c:24-74 | a successful Init sets the pulls for the mode, IE = 1, OD = 0 and CTRL = 5, returns success, and changes only bit `pin` of the SIO words and registry and only word `pin` of pads and CTRL |
| IoPinRp2040.InitKeepsParked | library/src/voile_iopin_rp2040.c:28-67 | Init keeps GPIO_OUT at 0 on every virtual pin |
| IoPinRp2040.InitThenGetMode | library/src/voile_iopin_rp2040.c:28-73 | after a successful Init, the current driver's getMode reports the mode applied |
| IoPinRp2040.InitIdempotent | library/src/voile_iopin_rp2040.c:23-75 | initialising again with the same mode and value changes nothing |
| GpioRp2040.InitState | library/src/voile_gpio_rp2040.c:19-69 | the state the gpio Init leaves; stated by GpioRp2040.InitRefusedLeavesState, InitTakesValue, InitPadsAndFrame, InitKeepsParked, InitThenGetMode, AgreesWithIoPinInit and InitIdempotent |
| GpioRp2040.Chip.constructor | library/src/voile_gpio_rp2040.c:17 | the registry starts empty; the registers hold the given reset contents |
| GpioRp2040.Chip.Init | library/src/voile_gpio_rp2040.c:19-69 | Init's writes leave exactly the state `InitState` describes, return `InitStatus`, and keep the class invariant |
| GpioRp2040.Chip.SwitchArm | library/src/voile_gpio_rp2040.c:24-63 | the arm for the mode leaves exactly the state `Configured` describes |
| GpioRp2040.Chip.ArmRole | library/src/voile_gpio_rp2040.c:25-59 | the SIO and registry writes of the arm give the pin the role `ConfiguredRole` and change no other bit |
| GpioRp2040.Chip.ArmPulls | library/src/voile_gpio_rp2040.c:27-59 | the pad writes of the arm set PUE and PDE for the mode and touch no other pad word |
| GpioRp2040.Chip.Finalize | library/src/voile_gpio_rp2040.c:65-67 | the final writes leave exactly the state `Finalized` describes |
| GpioRp2040.Chip.Write | library/voile_gpio_rp2040.h:111-120 | the alias writes leave exactly the state `Written` describes, and return success |
| GpioRp2040.Chip.Read | library/voile_gpio_rp2040.h:137-140 | stores bit `pin` of GPIO_IN, returns success, changes nothing |
| GpioRp2040.Chip.ReadToReturn | library/voile_gpio_rp2040.h:156-158 | returns bit `pin` of GPIO_IN, the value Read stores, and changes nothing |
| GpioRp2040.Chip.Toggle | library/voile_gpio_rp2040.h:173-177 | the XOR writes leave exactly the state `Toggled` describes, and return success |
| GpioRp2040.InitRefusedLeavesState | library/src/voile_gpio_rp2040.c:21-62 | `pin > 32` or a mode outside the switch returns hardwareUnsupportedError and writes nothing, not even the value |
| GpioRp2040.InitTakesValue | library/src/voile_gpio_rp2040.c:25-64 | every mode reads back the initial value: inputs with registry 0, GPIO_OE 0 and GPIO_OUT = value; push-pull with registry 0, GPIO_OE 1 and GPIO_OUT = value; open-drain and quasi with registry 1, GPIO_OUT 0 and GPIO_OE = !value |
| GpioRp2040.InitPadsAndFrame | library/src/voile_gpio_rp2040.c:20-68 | a successful Init sets the pulls for the mode, IE = 1, OD = 0 and CTRL = 5, returns success, and changes only bit `pin` of the SIO words and registry and only word `pin` of pads and CTRL |
| GpioRp2040.InitKeepsParked | library/src/voile_gpio_rp2040.c:24-64 | Init keeps GPIO_OUT at 0 on every virtual pin |
| GpioRp2040.InitThenGetMode | library/src/voile_gpio_rp2040.c:24-67 | after a successful Init, the current driver's getMode reports the mode applied |
| GpioRp2040.AgreesWithIoPinInit | library/src/voile_gpio_rp2040.c:25-64 | this Init and the ioPin Init leave the same state for the output modes and refused calls; for the inputs they differ only in that this one sets GPIO_OUT = value |
| GpioRp2040.InitIdempotent | library/src/voile_gpio_rp2040.c:19-69 | initialising again with the same mode and value changes nothing |

## Left out

- Memory-mapped addresses, `volatile` layouts and the bit-field structures of the register headers: the registers are plain fields. Words are sets of bit positions, not `uint32_t`.
- GPIO_IN's physical behaviour. It is a constant field that no operation writes; line levels, pull strength, `voltage_select` and the IO status register are not modelled.
- Concurrency and interrupts. The registry updates and the pad `|=` / `&=` are read-modify-writes that are not atomic; the model is single-threaded.
- The function-pointer tables and their casts, including the variadic `Init` cast: this is dispatch only.
- `microVerrorno_error` and `microVerrorno_cheakInput` are not part of this model. The error report of init is a plain return. `cheakInput` is assumed to return its third argument, `getMode`, when the check fails.
- The numeric values of the mode and status enumerations are not part of this model. The mode order is assumed to be: the seven pin modes (IOuninit first), then IOmodeHold, then IOmodeError. `OutOfRange` stands for any other value. Under this order, the default arm of setMode's pull switch (library/src/voile_pin_rp2040.c:77-79) cannot be reached.
- Pins 30, 31 and 32 are excluded by every `requires`. The C check lets them through and then indexes past both banks (see Findings). Larger pins are accepted only by the `Init` methods, whose refusal path is modelled.
- The legacy `Init` functions compute `1ul << pin` before the pin check, which is undefined for pins of 32 and above. The model computes the mask only after the check.
- IoPinRp2040.Chip.Read, GpioRp2040.Chip.Read: the out-pointer becomes a second out-parameter.
- Operations on a sequence of calls (`Op`, `Run`) are modelled for the current driver only. For the legacy drivers, the class invariant carries the parked-output property across calls.

## Findings

| source | as written | input that shows it | evidently intended | confidence | as-written member | corrected member |
|---|---|---|---|---|---|---|
| library/src/voile_pin_rp2040.c:88-93 | virtual to push-pull copies the GPIO_OE bit into GPIO_OUT as it is, but GPIO_OE holds the inverted value | pin in push-pull; write 1; setMode(open-drain); setMode(push-pull): readRegister returns 0 | copy the inverted GPIO_OE bit, as the input branch at lines 104-108 does | not executed; high | PinRp2040.ModeRoundTripInvertsValue | PinRp2040.IntendedModeRoundTripKeepsValue |
| library/src/voile_pin_rp2040.c:132 | setMode returns IOmodeError after every successful change | any pin, setMode(push-pull) returns IOmodeError | return the mode now in effect | not executed; medium | PinRp2040.SetModeReturnsModeError | PinRp2040.IntendedResultReportsMode |
| library/src/voile_pin_rp2040.c:30 | the pin check `pin > 32` admits 30, 31 and 32 (the same check is at voile_iopin_rp2040.c:25 and voile_gpio_rp2040.c:21) | pin 30: the check passes and PADS_BANK0 GPIO[30] is past the end of the 30-entry bank | reject `pin >= 30` | not executed; high | Registers.PinCheckAdmitsMissingPins | Registers.IntendedPinCheckGuardsBanks |

The `Chip` classes follow the code as written. The corrected pin check is
what every `requires` of the model enforces. The corrected setMode and
its result are the functions `ModeSetIntended` and `ModeSetResultIntended`.
