/** A model of the mock GPIO port used to check the blinky routine's toggle
    counting: one 32-bit output register, one configuration word per pin whose
    bit 0 is the direction flag, and a running toggle counter. */
module MockHardware {

  /** Number of pins on the simulated port (P0.0 .. P0.31). */
  const PinCount: int := 32
  /** The pin the blinky routine drives. */
  const LedPin: int := 13
  /** Toggles the blinky routine performs (five complete blinks). */
  const BlinkToggles: nat := 10

  predicate IsPin(pin: int) { 0 <= pin < PinCount }

  // ---------------------------------------------------------------------------
  // Bit-level helpers
  // ---------------------------------------------------------------------------

  /** A pin index as a 32-bit shift amount. */
  function Shift(pin: int): bv32
    requires IsPin(pin)
  {
    if pin == 0 then 0 else Shift(pin - 1) + 1
  }

  lemma {:induction false} ShiftValue(pin: int)
    requires IsPin(pin)
    ensures Shift(pin) as int == pin
  {
    if pin > 0 {
      ShiftValue(pin - 1);
    }
  }

  /** Shift amounts stay below the register width. */
  lemma ShiftBelow(pin: int)
    requires IsPin(pin)
    ensures Shift(pin) < 32
    ensures pin < PinCount - 1 ==> Shift(pin) < 31
  {
    ShiftValue(pin);
  }

  /** The single-bit mask `1 << pin`, built by shifting one place at a time. */
  function Mask(pin: int): bv32
    requires IsPin(pin)
    decreases pin
  {
    if pin == 0 then 1 else Mask(pin - 1) << 1
  }

  /** The mask `1 << pin` as the source writes it: one shift by the pin
      index, cast to a 32-bit amount. */
  function ShiftedMask(pin: int): bv32
    requires IsPin(pin)
  {
    (1 as bv32) << (pin as bv32)
  }

  /** The register shifted right by one place. */
  function Shr1(reg: bv32): bv32
  {
    reg >> 1
  }

  /** The level of the lowest bit of a register. */
  function Low(reg: bv32): int
  {
    if reg & 1 == 0 then 0 else 1
  }

  /** Level of `pin` in an output register: the register shifted right `pin`
      places, one place at a time, then its lowest bit. */
  function Bit(reg: bv32, pin: int): (level: int)
    requires IsPin(pin)
    ensures level == 0 || level == 1
    decreases pin
  {
    if pin == 0 then Low(reg) else Bit(Shr1(reg), pin - 1)
  }

  /** The level of `pin` as the source reads it, `(reg >> pin) & 1`: one
      shift by the pin index, cast to a 32-bit amount. */
  function ShiftedLevel(reg: bv32, pin: int): int
    requires IsPin(pin)
  {
    Low(reg >> (pin as bv32))
  }

  // Bit-vector facts the solver decides outright: how a one-place shift and
  // the lowest bit distribute over the operators, and how they see a mask.

  lemma ShrStep(reg: bv32, s: bv32)
    requires s < 31
    ensures reg >> (s + 1) == (reg >> 1) >> s
  {
  }

  lemma OrBitwise(a: bv32, b: bv32)
    ensures Shr1(a | b) == Shr1(a) | Shr1(b)
    ensures Low(a | b) == if Low(a) == 1 || Low(b) == 1 then 1 else 0
  {
  }

  lemma AndNotBitwise(a: bv32, b: bv32)
    ensures Shr1(a & !b) == Shr1(a) & !Shr1(b)
    ensures Low(a & !b) == if Low(a) == 1 && Low(b) == 0 then 1 else 0
  {
  }

  lemma XorBitwise(a: bv32, b: bv32)
    ensures Shr1(a ^ b) == Shr1(a) ^ Shr1(b)
    ensures Low(a ^ b) == if Low(a) == Low(b) then 0 else 1
  {
  }

  lemma SingleBitShl(s: bv32)
    requires s < 31
    ensures ((1 as bv32) << s) << 1 == (1 as bv32) << (s + 1)
  {
  }

  lemma SingleBitShlShr(s: bv32)
    requires s < 31
    ensures (((1 as bv32) << s) << 1) >> 1 == (1 as bv32) << s
  {
  }

  lemma XorTwice(reg: bv32, m: bv32)
    ensures (reg ^ m) ^ m == reg
  {
  }

  // The same facts lifted to pin levels, by induction on the pin.

  lemma ShiftedLevelStep(reg: bv32, pin: int)
    requires IsPin(pin) && pin > 0
    ensures ShiftedLevel(reg, pin) == ShiftedLevel(Shr1(reg), pin - 1)
  {
    ShiftIsCast(pin);
    ShiftIsCast(pin - 1);
    ShiftBelow(pin - 1);
    var s := (pin - 1) as bv32;
    assert pin as bv32 == s + 1;
    ShrStep(reg, s);
  }

  /** `Bit` reads the same level as `(reg >> pin) & 1`. */
  lemma {:induction false} BitIsShiftedLevel(reg: bv32, pin: int)
    requires IsPin(pin)
    ensures Bit(reg, pin) == ShiftedLevel(reg, pin)
    decreases pin
  {
    if pin > 0 {
      ShiftedLevelStep(reg, pin);
      BitIsShiftedLevel(Shr1(reg), pin - 1);
    }
  }

  /** The mask built one place at a time is `1 << pin`. */
  lemma {:induction false} MaskIsShiftedMask(pin: int)
    requires IsPin(pin)
    ensures Mask(pin) == ShiftedMask(pin)
    decreases pin
  {
    if pin > 0 {
      ShiftBelow(pin - 1);
      SingleBitShl(Shift(pin - 1));
      MaskIsShiftedMask(pin - 1);
      ShiftIsCast(pin);
      ShiftIsCast(pin - 1);
    }
  }

  /** `Shift` is the cast of the pin index to a 32-bit amount. */
  lemma ShiftIsCast(pin: int)
    requires IsPin(pin)
    ensures Shift(pin) == pin as bv32
  {
    ShiftValue(pin);
  }

  lemma MaskShr(pin: int)
    requires IsPin(pin) && pin > 0
    ensures Shr1(Mask(pin)) == Mask(pin - 1)
  {
    MaskIsShiftedMask(pin - 1);
    ShiftBelow(pin - 1);
    SingleBitShlShr(Shift(pin - 1));
  }

  lemma {:induction false} ZeroLevels(k: int)
    requires IsPin(k)
    ensures Bit(0, k) == 0
    decreases k
  {
    if k > 0 {
      assert Shr1(0) == 0;
      ZeroLevels(k - 1);
    }
  }

  /** `1 << pin` is high on `pin` and low everywhere else. */
  lemma {:induction false} MaskLevels(pin: int, k: int)
    requires IsPin(pin) && IsPin(k)
    ensures Bit(Mask(pin), k) == if k == pin then 1 else 0
    decreases pin
  {
    if pin == 0 {
      if k > 0 {
        assert Shr1(1) == 0;
        ZeroLevels(k - 1);
      }
    } else if k > 0 {
      MaskShr(pin);
      MaskLevels(pin - 1, k - 1);
    }
  }

  /** A level of `a | b` is high exactly when the level of `a` or of `b` is. */
  lemma {:induction false} OrLevels(a: bv32, b: bv32, k: int)
    requires IsPin(k)
    ensures Bit(a | b, k) == if Bit(a, k) == 1 || Bit(b, k) == 1 then 1 else 0
    decreases k
  {
    OrBitwise(a, b);
    if k > 0 {
      OrLevels(Shr1(a), Shr1(b), k - 1);
    }
  }

  /** A level of `a & ~b` is high exactly when that of `a` is high and that of
      `b` is low. */
  lemma {:induction false} AndNotLevels(a: bv32, b: bv32, k: int)
    requires IsPin(k)
    ensures Bit(a & !b, k) == if Bit(a, k) == 1 && Bit(b, k) == 0 then 1 else 0
    decreases k
  {
    AndNotBitwise(a, b);
    if k > 0 {
      AndNotLevels(Shr1(a), Shr1(b), k - 1);
    }
  }

  /** A level of `a ^ b` is high exactly when the levels of `a` and `b` differ. */
  lemma {:induction false} XorLevels(a: bv32, b: bv32, k: int)
    requires IsPin(k)
    ensures Bit(a ^ b, k) == if Bit(a, k) == Bit(b, k) then 0 else 1
    decreases k
  {
    XorBitwise(a, b);
    if k > 0 {
      XorLevels(Shr1(a), Shr1(b), k - 1);
    }
  }

  lemma LevelAfterOr(reg: bv32, pin: int, k: int)
    requires IsPin(pin) && IsPin(k)
    ensures Bit(reg | Mask(pin), k) == if k == pin then 1 else Bit(reg, k)
  {
    OrLevels(reg, Mask(pin), k);
    MaskLevels(pin, k);
  }

  lemma LevelAfterAndNot(reg: bv32, pin: int, k: int)
    requires IsPin(pin) && IsPin(k)
    ensures Bit(reg & !Mask(pin), k) == if k == pin then 0 else Bit(reg, k)
  {
    AndNotLevels(reg, Mask(pin), k);
    MaskLevels(pin, k);
  }

  lemma LevelAfterXor(reg: bv32, pin: int, k: int)
    requires IsPin(pin) && IsPin(k)
    ensures Bit(reg ^ Mask(pin), k) == if k == pin then 1 - Bit(reg, k) else Bit(reg, k)
  {
    XorLevels(reg, Mask(pin), k);
    MaskLevels(pin, k);
  }

  /** Raising `pin` with `reg | (1 << pin)` changes no other level. */
  lemma LevelsAfterOr(reg: bv32, pin: int)
    requires IsPin(pin)
    ensures forall k :: IsPin(k) ==> Bit(reg | Mask(pin), k) == if k == pin then 1 else Bit(reg, k)
  {
    forall k | IsPin(k) {
      LevelAfterOr(reg, pin, k);
    }
  }

  /** Lowering `pin` with `reg & ~(1 << pin)` changes no other level. */
  lemma LevelsAfterAndNot(reg: bv32, pin: int)
    requires IsPin(pin)
    ensures forall k :: IsPin(k) ==> Bit(reg & !Mask(pin), k) == if k == pin then 0 else Bit(reg, k)
  {
    forall k | IsPin(k) {
      LevelAfterAndNot(reg, pin, k);
    }
  }

  /** Flipping `pin` with `reg ^ (1 << pin)` changes no other level. */
  lemma LevelsAfterXor(reg: bv32, pin: int)
    requires IsPin(pin)
    ensures forall k :: IsPin(k) ==> Bit(reg ^ Mask(pin), k) == if k == pin then 1 - Bit(reg, k) else Bit(reg, k)
  {
    forall k | IsPin(k) {
      LevelAfterXor(reg, pin, k);
    }
  }

  /** The register after `set_pin`: `reg | (1 << pin)` when `value` is non-zero
      (truthy), `reg & ~(1 << pin)` otherwise. */
  function SetLevel(reg: bv32, pin: int, value: int): (r: bv32)
    requires IsPin(pin)
    ensures Bit(r, pin) == (if value != 0 then 1 else 0)
    ensures forall k :: IsPin(k) && k != pin ==> Bit(r, k) == Bit(reg, k)
  {
    if value != 0 then
      LevelsAfterOr(reg, pin);
      reg | Mask(pin)
    else
      LevelsAfterAndNot(reg, pin);
      reg & !Mask(pin)
  }

  /** The register after `toggle_pin`: `reg ^ (1 << pin)`. */
  function FlipLevel(reg: bv32, pin: int): (r: bv32)
    requires IsPin(pin)
    ensures Bit(r, pin) == 1 - Bit(reg, pin)
    ensures forall k :: IsPin(k) && k != pin ==> Bit(r, k) == Bit(reg, k)
  {
    LevelsAfterXor(reg, pin);
    reg ^ Mask(pin)
  }

  /** Toggling the same pin twice gives back the register: XOR with one mask
      is an involution. */
  lemma FlipTwiceRestores(reg: bv32, pin: int)
    requires IsPin(pin)
    ensures FlipLevel(FlipLevel(reg, pin), pin) == reg
  {
    XorTwice(reg, Mask(pin));
  }

  /** Python's `cnf | 1` on an arbitrary integer: bit 0 set, higher bits kept. */
  function OrLowBit(cnf: int): (r: int)
    ensures r % 2 == 1
    ensures r / 2 == cnf / 2
  {
    cnf - cnf % 2 + 1
  }

  /** Python's `cnf & ~1` on an arbitrary integer: bit 0 cleared, higher bits kept. */
  function ClearLowBit(cnf: int): (r: int)
    ensures r % 2 == 0
    ensures r / 2 == cnf / 2
  {
    cnf - cnf % 2
  }

  /** The direction flag of a configuration word: 1 = output, 0 = input. */
  function DirBit(cnf: int): int
  {
    cnf % 2
  }

  // ---------------------------------------------------------------------------
  // The port as a value, and the effect of each operation on it
  // ---------------------------------------------------------------------------

  datatype Port = Port(outRegister: bv32, pinCnf: seq<int>, toggleCount: nat)
  {
    predicate Valid() { |pinCnf| == PinCount }
  }

  /** The port as the constructor leaves it. */
  function InitialPort(): (p: Port)
    ensures p.Valid() && p.toggleCount == 0
    ensures forall pin :: IsPin(pin) ==> Bit(p.outRegister, pin) == 0
    ensures forall pin :: IsPin(pin) ==> p.pinCnf[pin] == 0
  {
    forall pin | IsPin(pin) {
      ZeroLevels(pin);
    }
    Port(0, seq(PinCount, _ => 0), 0)
  }

  /** Effect of configuring `pin`: only `direction == 1` selects output. */
  function AfterConfigure(p: Port, pin: int, direction: int): (q: Port)
    requires p.Valid() && IsPin(pin)
    ensures q.Valid()
    ensures DirBit(q.pinCnf[pin]) == (if direction == 1 then 1 else 0)
    ensures q.pinCnf[pin] / 2 == p.pinCnf[pin] / 2
    ensures forall k :: IsPin(k) && k != pin ==> q.pinCnf[k] == p.pinCnf[k]
    ensures q.outRegister == p.outRegister && q.toggleCount == p.toggleCount
  {
    var cnf := p.pinCnf[pin];
    p.(pinCnf := p.pinCnf[pin := if direction == 1 then OrLowBit(cnf) else ClearLowBit(cnf)])
  }

  /** Effect of driving `pin` to the truth value of `value` (non-zero = high). */
  function AfterSet(p: Port, pin: int, value: int): (q: Port)
    requires p.Valid() && IsPin(pin)
    ensures q.Valid()
    ensures q.outRegister == SetLevel(p.outRegister, pin, value)
    ensures q.pinCnf == p.pinCnf && q.toggleCount == p.toggleCount
  {
    p.(outRegister := SetLevel(p.outRegister, pin, value))
  }

  /** Effect of toggling `pin`: its level flips and the counter goes up by one. */
  function AfterToggle(p: Port, pin: int): (q: Port)
    requires p.Valid() && IsPin(pin)
    ensures q.Valid()
    ensures q.outRegister == FlipLevel(p.outRegister, pin)
    ensures q.pinCnf == p.pinCnf && q.toggleCount == p.toggleCount + 1
  {
    p.(outRegister := FlipLevel(p.outRegister, pin), toggleCount := p.toggleCount + 1)
  }

  /** Toggling the same pin twice restores the output register. */
  lemma ToggleTwiceRestores(p: Port, pin: int)
    requires p.Valid() && IsPin(pin)
    ensures AfterToggle(AfterToggle(p, pin), pin).outRegister == p.outRegister
    ensures AfterToggle(AfterToggle(p, pin), pin).toggleCount == p.toggleCount + 2
  {
    FlipTwiceRestores(p.outRegister, pin);
  }

  // ---------------------------------------------------------------------------
  // Sequences of operations
  // ---------------------------------------------------------------------------

  datatype Op = Configure(pin: int, direction: int) | Set(pin: int, value: int) | Toggle(pin: int)

  predicate ValidOps(ops: seq<Op>)
  {
    forall i :: 0 <= i < |ops| ==> IsPin(ops[i].pin)
  }

  function Apply(p: Port, op: Op): Port
    requires p.Valid() && IsPin(op.pin)
  {
    match op
    case Configure(pin, direction) => AfterConfigure(p, pin, direction)
    case Set(pin, value) => AfterSet(p, pin, value)
    case Toggle(pin) => AfterToggle(p, pin)
  }

  /** Performs `ops` in order on `p`. */
  function Run(p: Port, ops: seq<Op>): (q: Port)
    requires p.Valid() && ValidOps(ops)
    ensures q.Valid()
    decreases |ops|
  {
    if ops == [] then p else Run(Apply(p, ops[0]), ops[1..])
  }

  /** Number of toggles in `ops`. */
  function ToggleCount(ops: seq<Op>): nat
  {
    if ops == [] then 0 else (if ops[0].Toggle? then 1 else 0) + ToggleCount(ops[1..])
  }

  /** `n` toggles of `pin`. */
  function Toggles(pin: int, n: nat): (ops: seq<Op>)
    ensures |ops| == n
  {
    seq(n, _ => Toggle(pin))
  }

  /** One more toggle appended to `n` toggles is `n + 1` toggles. */
  lemma TogglesSnoc(pin: int, n: nat)
    ensures Toggles(pin, n) + [Toggle(pin)] == Toggles(pin, n + 1)
  {
    assert forall i :: 0 <= i < n + 1 ==> (Toggles(pin, n) + [Toggle(pin)])[i] == Toggle(pin);
  }

  /** Running `ops` and then `op` is running `ops + [op]`. */
  lemma {:induction false} RunSnoc(p: Port, ops: seq<Op>, op: Op)
    requires p.Valid() && ValidOps(ops) && IsPin(op.pin)
    ensures ValidOps(ops + [op])
    ensures Run(p, ops + [op]) == Apply(Run(p, ops), op)
    decreases |ops|
  {
    if ops != [] {
      assert (ops + [op])[1..] == ops[1..] + [op];
      RunSnoc(Apply(p, ops[0]), ops[1..], op);
    }
  }

  /** The counter grows by exactly the number of toggles performed, whatever
      else is done and on whichever pins. */
  lemma {:induction false} RunCountsToggles(p: Port, ops: seq<Op>)
    requires p.Valid() && ValidOps(ops)
    ensures Run(p, ops).toggleCount == p.toggleCount + ToggleCount(ops)
    decreases |ops|
  {
    if ops != [] {
      RunCountsToggles(Apply(p, ops[0]), ops[1..]);
    }
  }

  /** Operations on other pins leave the level and configuration of `b` alone. */
  lemma {:induction false} RunLeavesOtherPins(p: Port, ops: seq<Op>, b: int)
    requires p.Valid() && ValidOps(ops) && IsPin(b)
    requires forall i :: 0 <= i < |ops| ==> ops[i].pin != b
    ensures Bit(Run(p, ops).outRegister, b) == Bit(p.outRegister, b)
    ensures Run(p, ops).pinCnf[b] == p.pinCnf[b]
    decreases |ops|
  {
    if ops != [] {
      RunLeavesOtherPins(Apply(p, ops[0]), ops[1..], b);
    }
  }

  /** Configuration alone never changes the output register or the counter. */
  lemma {:induction false} ConfigureOnlyKeepsOutputs(p: Port, ops: seq<Op>)
    requires p.Valid() && ValidOps(ops)
    requires forall i :: 0 <= i < |ops| ==> ops[i].Configure?
    ensures Run(p, ops).outRegister == p.outRegister
    ensures Run(p, ops).toggleCount == p.toggleCount
    decreases |ops|
  {
    if ops != [] {
      ConfigureOnlyKeepsOutputs(Apply(p, ops[0]), ops[1..]);
    }
  }

  /** After `n` toggles of `pin` its level has flipped `n` times, the counter has
      grown by `n` and the configuration is untouched. */
  lemma {:induction false} RepeatedToggle(p: Port, pin: int, n: nat)
    requires p.Valid() && IsPin(pin)
    ensures ValidOps(Toggles(pin, n))
    ensures Bit(Run(p, Toggles(pin, n)).outRegister, pin) == (Bit(p.outRegister, pin) + n) % 2
    ensures Run(p, Toggles(pin, n)).toggleCount == p.toggleCount + n
    ensures Run(p, Toggles(pin, n)).pinCnf == p.pinCnf
    decreases n
  {
    if n > 0 {
      assert Toggles(pin, n)[0] == Toggle(pin);
      assert Toggles(pin, n)[1..] == Toggles(pin, n - 1);
      RepeatedToggle(AfterToggle(p, pin), pin, n - 1);
    }
  }

  // ---------------------------------------------------------------------------
  // The mock port object
  // ---------------------------------------------------------------------------

  class MockGpio {
    var outRegister: bv32
    var pinCnf: array<int>
    var toggleCount: nat

    ghost predicate Valid()
      reads this
    {
      pinCnf.Length == PinCount
    }

    /** The object's state as a `Port` value. */
    ghost function State(): (p: Port)
      reads this, pinCnf
      requires Valid()
      ensures p.Valid()
    {
      Port(outRegister, pinCnf[..], toggleCount)
    }

    constructor ()
      ensures Valid() && fresh(pinCnf)
      ensures State() == InitialPort()
    {
      outRegister := 0;
      pinCnf := new int[PinCount](_ => 0);
      toggleCount := 0;
    }

    method ConfigurePin(pin: int, direction: int)
      requires Valid() && IsPin(pin)
      modifies pinCnf
      ensures Valid()
      ensures State() == AfterConfigure(old(State()), pin, direction)
    {
      if direction == 1 {
        pinCnf[pin] := OrLowBit(pinCnf[pin]);
      } else {
        pinCnf[pin] := ClearLowBit(pinCnf[pin]);
      }
    }

    method SetPin(pin: int, value: int)
      requires Valid() && IsPin(pin)
      modifies this
      ensures Valid() && pinCnf == old(pinCnf)
      ensures State() == AfterSet(old(State()), pin, value)
      ensures GetPinState(pin) == (if value != 0 then 1 else 0)
      ensures forall k :: IsPin(k) && k != pin ==> GetPinState(k) == old(GetPinState(k))
    {
      if value != 0 {
        outRegister := outRegister | Mask(pin);
      } else {
        outRegister := outRegister & !Mask(pin);
      }
      assert outRegister == SetLevel(old(outRegister), pin, value);
      assert pinCnf[..] == old(pinCnf[..]);
    }

    method TogglePin(pin: int)
      requires Valid() && IsPin(pin)
      modifies this
      ensures Valid() && pinCnf == old(pinCnf)
      ensures State() == AfterToggle(old(State()), pin)
      ensures GetPinState(pin) == 1 - old(GetPinState(pin))
      ensures forall k :: IsPin(k) && k != pin ==> GetPinState(k) == old(GetPinState(k))
    {
      outRegister := outRegister ^ Mask(pin);
      toggleCount := toggleCount + 1;
      assert outRegister == FlipLevel(old(outRegister), pin);
      assert pinCnf[..] == old(pinCnf[..]);
    }

    /** Current level of `pin`, `(out_register >> pin) & 1`; reads the
        register only. */
    function GetPinState(pin: int): (level: int)
      reads this
      requires IsPin(pin)
      ensures level == ShiftedLevel(outRegister, pin)
      ensures level == 0 || level == 1
    {
      BitIsShiftedLevel(outRegister, pin);
      Bit(outRegister, pin)
    }
  }

  // ---------------------------------------------------------------------------
  // The blinky driver
  // ---------------------------------------------------------------------------

  /** From a fresh port with the LED pin configured as output, ten toggles of
      that pin leave the counter at ten, every output low (five full blinks)
      and the LED pin still an output. */
  lemma BlinkyOutcome(configured: Port)
    requires configured == AfterConfigure(InitialPort(), LedPin, 1)
    ensures ValidOps(Toggles(LedPin, BlinkToggles))
    ensures Run(configured, Toggles(LedPin, BlinkToggles)).toggleCount == BlinkToggles
    ensures DirBit(Run(configured, Toggles(LedPin, BlinkToggles)).pinCnf[LedPin]) == 1
    ensures forall pin :: IsPin(pin) ==> Bit(Run(configured, Toggles(LedPin, BlinkToggles)).outRegister, pin) == 0
  {
    RepeatedToggle(configured, LedPin, BlinkToggles);
    var final := Run(configured, Toggles(LedPin, BlinkToggles));
    forall k | IsPin(k) && k != LedPin
      ensures Bit(final.outRegister, k) == 0
    {
      RunLeavesOtherPins(configured, Toggles(LedPin, BlinkToggles), k);
    }
  }

  /** Configures the LED pin as output, toggles it ten times and reports 0 when
      the counter shows ten toggles, 1 otherwise. `final` is the port's state at
      the end. */
  method TestBlinkyLogic() returns (code: int, ghost final: Port)
    ensures code == 0
    ensures final.Valid() && final.toggleCount == BlinkToggles
    ensures DirBit(final.pinCnf[LedPin]) == 1
    ensures forall pin :: IsPin(pin) ==> Bit(final.outRegister, pin) == 0
  {
    var gpio := new MockGpio();
    gpio.ConfigurePin(LedPin, 1);
    ghost var configured := gpio.State();
    for i := 0 to BlinkToggles
      invariant gpio.Valid()
      invariant ValidOps(Toggles(LedPin, i))
      invariant gpio.State() == Run(configured, Toggles(LedPin, i))
    {
      gpio.TogglePin(LedPin);
      RunSnoc(configured, Toggles(LedPin, i), Toggle(LedPin));
      TogglesSnoc(LedPin, i);
    }
    final := gpio.State();
    BlinkyOutcome(configured);
    if gpio.toggleCount == BlinkToggles {
      code := 0;
    } else {
      code := 1;
    }
  }
}
