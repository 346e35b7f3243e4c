# Mock nRF52840 GPIO port and blinky check, in Dafny

This project models the mock GPIO port that the nRF52840 blinky firmware is
tested against (`scripts/mock_hardware.py`). It also models the blinky routine
that drives the port. The module `MockHardware` in `mock_hardware.dfy` holds:

- **`MockGpio`**: the port object, a class with the same three fields as the
  source.
  - `outRegister` is the 32-bit `OUT` register, a `bv32`.
  - `pinCnf` holds one configuration word per pin, as an `array<int>` of
    length 32. Bit 0 of each word is the direction flag: 1 means output.
  - `toggleCount` counts the `toggle_pin` calls.

  Its methods `ConfigurePin`, `SetPin` and `TogglePin` update these fields in
  place. `GetPinState` is a function that only reads the register.
- **`Port`**: the same state as an immutable value. `MockGpio.State()` maps the
  object to a `Port`.
- **`AfterConfigure`, `AfterSet`, `AfterToggle`**: the effect of each operation
  on a `Port`. Every method states its new state as one of these functions
  applied to its old state.
- **`Op` and `Run`**: sequences of operations on a `Port`, used to state what
  any series of calls does: how the counter grows, and that other pins are
  untouched.
- **`TestBlinkyLogic`**: the blinky routine. It configures pin 13 as an output,
  toggles it ten times and returns 0 when the counter shows ten toggles.

The register's pin levels are read through `Bit`, which shifts the register
right one place at a time and then takes the lowest bit. `BitIsShiftedLevel`
proves this equal to the source's single step `(out_register >> pin) & 1`.
Similarly, `MaskIsShiftedMask` proves that the mask `Mask`, built one place at
a time, equals `1 << pin`. In both, the source's single shift is written with
the pin cast straight to `bv32`. On top of these, `OrLevels`, `AndNotLevels`
and `XorLevels` give the per-pin meaning of `|`, `& ~` and `^`.

Reading of the source:

- Lines 12, 18 and 21 of `scripts/mock_hardware.py` contain stray commas
  (`,[0] * 32` and `self.pin_cnf,[pin]`). As written, the file is not valid
  Python. The model follows the evident reading: a list of 32 zeros, and
  element `pin` of that list.
- Configuration words are unbounded Python integers, so they are `int` here.
  `cnf | 1` is written as `cnf - cnf % 2 + 1` and `cnf & ~1` as `cnf - cnf % 2`.
  Both are exact for every integer, negative ones included: with divisor 2,
  Dafny's `%` gives the same result as Python's.
- The output register only ever has bits 0 to 31 touched, so a `bv32` holds it
  exactly.

## Model

| member | source | states |
|---|---|---|
| MockHardware.MockGpio.constructor | scripts/mock_hardware.py:10-13 | a new port's state is `InitialPort()`, and its configuration list is a fresh array of 32 words |
| MockHardware.InitialPort | scripts/mock_hardware.py:10-13 | every one of the 32 output levels is low, every configuration word is 0, and the toggle counter is 0 |
| MockHardware.ZeroLevels | scripts/mock_hardware.py:11 | the register value `0x00000000` reads low on every pin |
| MockHardware.OrLowBit | scripts/mock_hardware.py:18 | `cnf` or-ed with 1 has bit 0 set and keeps all higher bits (`r / 2 == cnf / 2`) |
| MockHardware.ClearLowBit | scripts/mock_hardware.py:21 | `cnf & ~1` has bit 0 clear and keeps all higher bits |
| MockHardware.AfterConfigure | scripts/mock_hardware.py:15-22 | the pin's direction flag becomes 1 exactly when `direction == 1`, and 0 for any other direction. The word's other bits, the other pins' words, the output register and the counter are unchanged |
| MockHardware.MockGpio.ConfigurePin | scripts/mock_hardware.py:15-22 | updates only the pin's configuration word, and the object's new state is `AfterConfigure` of its old state |
| MockHardware.ConfigureOnlyKeepsOutputs | scripts/mock_hardware.py:15-22 | any sequence of configure calls leaves the output register and the toggle counter as they were |
| MockHardware.MaskIsShiftedMask | scripts/mock_hardware.py:27 | the mask used by the model equals `1 << pin`, with the pin cast straight to a 32-bit shift amount: the mask of lines 27, 30 and 35 |
| MockHardware.ShiftIsCast | scripts/mock_hardware.py:27 | the 32-bit shift amount for a pin is the pin itself, cast to 32 bits |
| MockHardware.MaskLevels | scripts/mock_hardware.py:27 | `1 << pin` is high on `pin` and low on every other pin |
| MockHardware.OrLevels | scripts/mock_hardware.py:27 | a pin of the bitwise or of `a` and `b` is high exactly when that pin of `a` or of `b` is high |
| MockHardware.AndNotLevels | scripts/mock_hardware.py:30 | a pin of `a & ~b` is high exactly when that pin is high in `a` and low in `b` |
| MockHardware.XorLevels | scripts/mock_hardware.py:35 | a pin of `a ^ b` is high exactly when the two levels of that pin differ |
| MockHardware.LevelsAfterOr | scripts/mock_hardware.py:27 | or-ing `1 << pin` into the register raises `pin` and keeps every other level |
| MockHardware.LevelsAfterAndNot | scripts/mock_hardware.py:30 | `reg & ~(1 << pin)` lowers `pin` and keeps every other level |
| MockHardware.LevelsAfterXor | scripts/mock_hardware.py:35 | `reg ^ (1 << pin)` flips `pin` and keeps every other level |
| MockHardware.SetLevel | scripts/mock_hardware.py:24-31 | after `set_pin` the pin's level is 1 when `value` is truthy (non-zero) and 0 otherwise. Every other pin keeps its level |
| MockHardware.AfterSet | scripts/mock_hardware.py:24-31 | `set_pin` replaces the register by `SetLevel` of the old one: only the driven pin's level changes. The configuration words and the toggle counter are unchanged |
| MockHardware.MockGpio.SetPin | scripts/mock_hardware.py:24-31 | the new state is `AfterSet` of the old one, with the same configuration array. Reading the pin back with `GetPinState` returns the truth value written, and every other pin reads as before |
| MockHardware.FlipLevel | scripts/mock_hardware.py:35 | toggling flips the pin's level and keeps every other level |
| MockHardware.FlipTwiceRestores | scripts/mock_hardware.py:35 | toggling the same pin twice gives back the original register |
| MockHardware.AfterToggle | scripts/mock_hardware.py:33-36 | `toggle_pin` replaces the register by `FlipLevel` of the old one, so one level flips and the others stay. It leaves the configuration alone and adds exactly one to the counter |
| MockHardware.ToggleTwiceRestores | scripts/mock_hardware.py:33-36 | two toggles of one pin restore the output register and add two to the counter |
| MockHardware.MockGpio.TogglePin | scripts/mock_hardware.py:33-36 | the new state is `AfterToggle` of the old one. `GetPinState` of the pin is flipped, every other pin reads as before, and the counter has grown by one |
| MockHardware.Bit | scripts/mock_hardware.py:42 | a pin's level is always 0 or 1 |
| MockHardware.BitIsShiftedLevel | scripts/mock_hardware.py:42 | reading the level one shift at a time gives `(out_register >> pin) & 1`, with the pin cast straight to a 32-bit shift amount |
| MockHardware.MockGpio.GetPinState | scripts/mock_hardware.py:40-42 | returns `(out_register >> pin) & 1`, which is 0 or 1. It is a function with no `modifies`, so reading a pin changes nothing |
| MockHardware.RunCountsToggles | scripts/mock_hardware.py:36 | over any sequence of calls, the counter grows by exactly the number of `toggle_pin` calls |
| MockHardware.RunLeavesOtherPins | scripts/mock_hardware.py:15-36 | calls on other pins never change a pin's output level or its configuration word |
| MockHardware.RepeatedToggle | scripts/mock_hardware.py:59-60 | after `n` toggles of one pin, its level is the old level plus `n`, modulo 2. The counter has grown by `n` and the configuration is untouched |
| MockHardware.BlinkyOutcome | scripts/mock_hardware.py:50-60 | on a fresh port with pin 13 configured as an output, ten toggles of pin 13 leave: the counter at 10, every pin low (pin 13 back where it started), and pin 13 still an output |
| MockHardware.TestBlinkyLogic | scripts/mock_hardware.py:44-73 | the routine returns 0. The final port has counter 10, every output low and pin 13 configured as an output |

## Left out

- Console output is not modelled. This covers every `print` call (lines 19, 22, 28, 31, 38, 46-48, 54, 58, 61, 64-66, 69 and 72). It also covers the level computed on line 37, which is only used in a message.
- The script entry point on lines 75-76 (`exit` with the routine's result) is not modelled. `TestBlinkyLogic` returns the code instead.
- Every operation requires `0 <= pin < 32`, the port's 32 pins. Outside that range the source behaves differently per operation, and none of it is modelled:
  - `configure_pin` (lines 18 and 21) indexes the list rather than shifting. A pin of 32 or more raises `IndexError`, as does one below -32. A pin from -32 to -1 raises nothing: Python's negative indexing silently configures pin `32 + pin`.
  - `set_pin` with a pin of 32 or more: when raising (line 27) it sets bit `pin`, so the register can grow past 32 bits; when lowering (line 30) it clears bit `pin`, which is already clear unless an earlier out-of-range `set_pin` or `toggle_pin` raised it.
  - `toggle_pin` with a pin of 32 or more flips bit `pin` beyond bit 31, so the register can grow past 32 bits (or shrink back on a second toggle), and still adds one to the counter (lines 35-36).
  - `get_pin_state` with a pin of 32 or more returns that bit of the unbounded register (line 42). This is 0 unless an earlier out-of-range `set_pin` or `toggle_pin` raised it.
  - `set_pin`, `toggle_pin` and `get_pin_state` with a negative pin raise `ValueError` (negative shift count) before changing anything.
- `value` (line 26) is an `int`, with non-zero meaning truthy. Python's truthiness of other kinds of object is not modelled. Likewise `direction` (line 17) is an `int`, of which only `1` selects output.
- Lines 12, 18 and 21 as written (with the stray commas) do not parse, so only the evident reading is modelled. See the reading notes above.
- TestBlinkyLogic: also returns the final port state as a ghost value, so that its contract can describe it. The source returns only the code.
