/**
  The touchpad object: its registry shared with the interrupt handler, the
  ready flag the handler raises, and the update that serves one communication
  window (read the finger count, then close the window).

  Pin levels and bus replies are parameters: the handler is given the set of
  pins that read high, and update is given what the bus answers.
 */
module Touchpads {
  import opened I2CHelpers
  import opened IQSRegisters

  /** The four registers of one finger, as selected by the constructor. */
  datatype FingerRegisters = FingerRegisters(x: Register, y: Register, strength: Register, area: Register)

  /** The catalog entries of finger `k` (0-based): Absolute X, Absolute Y, Touch Strength, Touch Area. */
  function FingerRegistersOf(k: nat): FingerRegisters
    requires k < 5
  {
    var i := FingerIndex(k);
    FingerRegisters(Catalog[i], Catalog[i + 1], Catalog[i + 2], Catalog[i + 3])
  }

  /**
    The constructor's four lookups of one finger's registers, at the addresses
    of finger `k`'s Absolute X, Absolute Y, Touch Strength and Touch Area.
   */
  method LookupFingerRegisters(x: int, y: int, strength: int, area: int, ghost k: nat)
    returns (regs: FingerRegisters)
    requires k < 5 && x == 0x0016 + 7 * k && y == x + 2 && strength == x + 4 && area == x + 6
    ensures regs == FingerRegistersOf(k)
    ensures regs.x.numBytes == 2 && regs.y.numBytes == 2 && regs.strength.numBytes == 2 && regs.area.numBytes == 1
    ensures regs.x.name == FingerName(k, "Absolute X") && regs.y.name == FingerName(k, "Absolute Y")
    ensures regs.strength.name == FingerName(k, "Touch Strength") && regs.area.name == FingerName(k, "Touch Area")
  {
    FingerStride();
    assert FingerRegistersAt(Catalog, k);
    var rx := GetRegisterByAddress(x);
    var ry := GetRegisterByAddress(y);
    var rs := GetRegisterByAddress(strength);
    var ra := GetRegisterByAddress(area);
    regs := FingerRegisters(rx, ry, rs, ra);
  }

  /** The list of all touchpads the interrupt handler visits (the static _touchpads). */
  class TouchpadRegistry {
    var touchpads: seq<IQSTouchpad>

    constructor ()
      ensures touchpads == []
    {
      touchpads := [];
    }
  }

  class IQSTouchpad {
    const pinRdy: int
    const pinRst: int
    const i2cAddress: Byte
    const numFingersReg: Register
    const fingerRegs: seq<FingerRegisters>
    var ready: bool
    var numFingers: int

    /** The registers chosen by the constructor are the catalog's finger-count and finger entries. */
    ghost predicate Valid()
    {
      && numFingersReg == Catalog[7]
      && fingerRegs == [FingerRegistersOf(0), FingerRegistersOf(1), FingerRegistersOf(2),
                        FingerRegistersOf(3), FingerRegistersOf(4)]
    }

    /**
      Stores the pins and the bus address, selects the registers by address
      and appends the new touchpad to the registry.
     */
    constructor (pinRdy: int, pinRst: int, i2cAddress: Byte, registry: TouchpadRegistry)
      modifies registry
      ensures this.pinRdy == pinRdy && this.pinRst == pinRst && this.i2cAddress == i2cAddress
      ensures Valid()
      ensures numFingersReg.address == 0x0011 && numFingersReg.numBytes == 1
      ensures !ready
      ensures registry.touchpads == old(registry.touchpads) + [this]
    {
      this.pinRdy := pinRdy;
      this.pinRst := pinRst;
      this.i2cAddress := i2cAddress;

      var fingerCountReg := GetRegisterByAddress(0x0011);
      assert Catalog[7].address == 0x0011;

      var f1 := LookupFingerRegisters(0x0016, 0x0018, 0x001A, 0x001C, 0);
      var f2 := LookupFingerRegisters(0x001D, 0x001F, 0x0021, 0x0023, 1);
      var f3 := LookupFingerRegisters(0x0024, 0x0026, 0x0028, 0x002A, 2);
      var f4 := LookupFingerRegisters(0x002B, 0x002D, 0x002F, 0x0031, 3);
      var f5 := LookupFingerRegisters(0x0032, 0x0034, 0x0036, 0x0038, 4);

      numFingersReg := fingerCountReg;
      fingerRegs := [f1, f2, f3, f4, f5];
      ready := false;
      this.numFingers := 0;
      new;
      registry.touchpads := registry.touchpads + [this];
    }

    /** endCommunicationWindow: closes the window; the code of the transaction is dropped. */
    method EndCommunicationWindow(stopError: Byte) returns (sent: seq<BusEvent>)
      ensures sent == [Transmit(i2cAddress, [0xEE, 0xEE, 0x00], true)]
    {
      var ignored;
      ignored, sent := EndCommunication(i2cAddress, stopError);
    }

    /**
      update: when ready, reads the one-byte finger count at 0x0011 into a
      local buffer, stores its first byte and closes the window; in every case
      clears the ready flag. The read's error code is not looked at, so when
      no byte arrives the count is whatever the buffer held (`stale`).
     */
    method Update(addrError: Byte, available: seq<Byte>, stale: Byte, stopError: Byte)
      returns (sent: seq<BusEvent>)
      requires Valid()
      modifies this
      ensures !ready
      ensures !old(ready) ==> sent == [] && numFingers == old(numFingers)
      ensures old(ready) ==>
        sent == [Transmit(i2cAddress, [0x00, 0x11], false)]
                + (if addrError == 0 then [Request(i2cAddress, 1, false)] else [])
                + [Transmit(i2cAddress, [0xEE, 0xEE, 0x00], true)]
      ensures old(ready) ==>
        numFingers == if addrError == 0 && |available| > 0 then available[0] else stale
    {
      sent := [];
      if ready {
        var buf := new Byte[1];
        buf[0] := stale;
        var error, readSent := numFingersReg.Read(i2cAddress, buf, addrError, available);
        assert ToTwoBytes(0x0011) == [0x00, 0x11];
        numFingers := buf[0];
        var endSent := EndCommunicationWindow(stopError);
        sent := readSent + endSent;
      }
      ready := false;
    }
  }

  /**
    IQSInterruptHandler: raises the ready flag of every registered touchpad
    whose RDY pin reads high (`high` is the set of pins that do); never clears
    a flag and changes nothing else.
   */
  method InterruptHandler(registry: TouchpadRegistry, high: set<int>)
    modifies registry.touchpads
    ensures forall t | t in registry.touchpads :: t.ready == (old(t.ready) || t.pinRdy in high)
    ensures forall t | t in registry.touchpads :: t.numFingers == old(t.numFingers)
  {
    var ts := registry.touchpads;
    for i := 0 to |ts|
      invariant forall t | t in ts :: t.ready == (old(t.ready) || (t.pinRdy in high && t in ts[..i]))
      invariant forall t | t in ts :: t.numFingers == old(t.numFingers)
    {
      assert ts[..i + 1] == ts[..i] + [ts[i]];
      var touchpad := ts[i];
      if touchpad.pinRdy in high {
        if !touchpad.ready {
          touchpad.ready := true;
        }
      }
    }
    assert ts[..|ts|] == ts;
  }

  /** Running the handler twice on the same pin levels has the effect of running it once. */
  method InterruptHandlerTwice(registry: TouchpadRegistry, high: set<int>)
    modifies registry.touchpads
    ensures forall t | t in registry.touchpads :: t.ready == (old(t.ready) || t.pinRdy in high)
    ensures forall t | t in registry.touchpads :: t.numFingers == old(t.numFingers)
  {
    InterruptHandler(registry, high);
    InterruptHandler(registry, high);
  }

  /**
    One readiness cycle of an idle touchpad: the interrupt, then update. A
    window is served (a read and a close) exactly when its RDY pin was high,
    and the touchpad is idle again afterwards.
   */
  method InterruptThenUpdate(registry: TouchpadRegistry, tp: IQSTouchpad, high: set<int>,
                             addrError: Byte, available: seq<Byte>, stale: Byte, stopError: Byte)
    returns (sent: seq<BusEvent>)
    requires tp in registry.touchpads && tp.Valid() && !tp.ready
    modifies registry.touchpads
    ensures !tp.ready
    ensures tp.pinRdy in high ==>
      sent == [Transmit(tp.i2cAddress, [0x00, 0x11], false)]
              + (if addrError == 0 then [Request(tp.i2cAddress, 1, false)] else [])
              + [Transmit(tp.i2cAddress, [0xEE, 0xEE, 0x00], true)]
    ensures tp.pinRdy in high ==>
      tp.numFingers == if addrError == 0 && |available| > 0 then available[0] else stale
    ensures tp.pinRdy !in high ==> sent == [] && tp.numFingers == old(tp.numFingers)
  {
    InterruptHandler(registry, high);
    sent := tp.Update(addrError, available, stale, stopError);
  }
}
