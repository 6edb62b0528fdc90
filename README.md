# IQS5xx touchpad driver — Dafny model

A model of the core of an Arduino driver for the Azoteq IQS5xx capacitive
touch controller, which is reached over I2C. The model covers four parts:

- **I2CHelpers** (`i2c_helpers.dfy`). The big-endian codec (`intToTwoByteArray`,
  `byteArrayToInt`) and the two bus transactions. `readFromRegister` sends the
  2-byte register address with a repeated start, then copies the bytes the
  device offers into a caller buffer. A byte beyond the requested count is
  error 6. `endCommunication` writes one byte to register 0xEEEE and ends with
  a STOP, which closes the communication window.
- **IQSRegisters** (`iqs_registers.dfy`). The register descriptor
  (address, width, name, description), the constant catalog of 30 registers,
  and the lookups by address and by name. A lookup returns the first match, or
  the width-0 sentinel "Unknown". The catalog facts are proved: widths are 1
  or 2; entries never overlap, so addresses strictly increase; the finger-data
  block 0x0011..0x0038 has no gaps; the per-finger registers repeat every
  7 bytes; names are distinct and none is "Unknown".
- **Fingers** (`finger.dfy`). A finger slot, as a class. `Update` reports the
  displacement from the previous position only when the finger was touching
  both before and now; otherwise it reports 0. It then stores the new contact.
  A pure `Step` function specifies it. Lemmas about `Step` cover the first
  update, independence from the old force and area, and a telescoping fact:
  over an unbroken contact the reported displacements add up to the distance
  moved.
- **Touchpads** (`iqs_touchpad.dfy`). The touchpad object and the registry the
  interrupt handler walks. `Update` acts only when the ready flag is set: it
  reads the 1-byte finger count at 0x0011, stores it, and closes the window.
  It always clears the flag. The interrupt handler raises the flag of each
  registered touchpad whose RDY pin reads high.

The Arduino Wire object and the GPIO pins are replaced by parameters:

- what the bus answers: the address-phase code, the bytes available, the
  code of the closing STOP;
- which pins read high (a set of pin numbers).

Each transaction returns the list of bus events it issued (`Transmit` with its
payload and STOP flag, `Request` with its byte count), so the model can state
what goes on the wire. Bytes are the subset type `Byte` of `int` (0..255).

`IQSRegister` is immutable: its constructor and getters (`getAddress`,
`getNumBytes`, `getName`, `getDescription`) are the datatype `Register`'s
constructor and fields. The touchpad getters `getI2CAddress`, `getPIN_RDY`,
`getPIN_RST` and `isReady` are the fields `i2cAddress`, `pinRdy`, `pinRst`
and `ready`.

IQSTouchpad.h and IQSTouchpad.cpp come from different revisions; the model
follows IQSTouchpad.cpp. That revision's `update` reads only the finger count. It
has no bulk touch-frame decoding, no deferred command queues and no
initialization gate. Its constructor takes `(PIN_RDY, PIN_RST, i2cAddress)`,
which does not match the declaration in IQSTouchpad.h.

The static `_touchpads` vector (IQSTouchpad.cpp:8) is an explicit
`TouchpadRegistry` object, passed to the touchpad constructor and to the
interrupt handler, so the model's constructor has one parameter more than the
C++ one. The model allows several registries; the source has exactly one.

## Model

| member | source | states |
|---|---|---|
| I2CHelpers.IntToTwoByteArray | I2CHelpers.cpp:4-8 | cell 0 gets `(v >> 8) & 0xFF`, cell 1 gets `v & 0xFF`, every other cell of the array is unchanged |
| I2CHelpers.ByteArrayToInt | I2CHelpers.cpp:10-18 | the result is the big-endian value of the first `numBytes` bytes (0 when `numBytes <= 0`) and lies in [0, 256^numBytes) |
| I2CHelpers.BigEndianBound | I2CHelpers.cpp:10-18 | an n-byte big-endian value is below 256^n |
| I2CHelpers.ToTwoBytesLow16 | I2CHelpers.cpp:4-18 | decoding the two bytes written for any `int` gives its low 16 bits |
| I2CHelpers.TwoBytesRoundTrip | I2CHelpers.cpp:4-18 | for 0 <= v < 65536, decoding the two bytes of v gives v back |
| I2CHelpers.BytesRoundTrip | I2CHelpers.cpp:4-18 | decoding any two bytes and encoding the result gives the same two bytes |
| I2CHelpers.ReadFromRegister | I2CHelpers.cpp:20-57 | the address phase sends the register's two big-endian bytes without a STOP. A nonzero address-phase code is returned as is, with the buffer untouched and no request. Otherwise the first min(available, requested) bytes are copied in order, the rest of the buffer is unchanged, and the result is 6 exactly when more bytes are available than were requested (a short read gives 0) |
| I2CHelpers.EndCommunication | I2CHelpers.cpp:59-84 | exactly one transmission of the bytes 0xEE 0xEE 0x00 ending with a STOP, whose code is returned |
| IQSRegisters.Register.AddressAsByteArray | IQSRegisters.cpp:27-30 | the array starts with the big-endian two bytes of the register's address; the other cells are unchanged |
| IQSRegisters.Register.Read | IQSRegisters.cpp:42-45 | behaves exactly as readFromRegister on the register's address and width |
| IQSRegisters.GetRegisterByAddress | IQSRegisters.cpp:47-57 | returns the first entry at the address, or the sentinel `(0, 0, "Unknown", "Unknown")` when there is none. The result has width 0 exactly when the address is not in the catalog |
| IQSRegisters.GetRegisterByName | IQSRegisters.cpp:59-69 | returns the first entry with the name, or the same sentinel when there is none. The result has width 0 exactly when the name is not in the catalog |
| IQSRegisters.LookupsAgree | IQSRegisters.cpp:47-69 | for every catalog entry, the lookup by its address and the lookup by its name both return that entry |
| IQSRegisters.LookupAddressZero | IQSRegisters.cpp:47-57 | looking up address 0 returns the 2-byte "Product Number", not the sentinel, even though the sentinel also has address 0 |
| IQSRegisters.LookupUnknownName | IQSRegisters.cpp:59-69 | looking up the name "Unknown" returns the sentinel, with width 0 |
| IQSRegisters.CatalogWidths | IQSRegisters.h:27-71 | the catalog has 30 entries, each 1 or 2 bytes wide |
| IQSRegisters.CatalogAdjacentDisjoint | IQSRegisters.h:27-71 | each entry ends at or before the start of the next one |
| IQSRegisters.AdjacentDisjointImpliesDisjoint | IQSRegisters.h:27-71 | in any table with widths 1 or 2, if neighbouring entries do not overlap then no two entries overlap |
| IQSRegisters.CatalogAddressesIncreasing | IQSRegisters.h:27-71 | no two catalog entries overlap, and addresses strictly increase, so they are pairwise distinct |
| IQSRegisters.ContiguousSpan | IQSRegisters.h:41-69 | in a gap-free run of registers, the widths add up to the distance from the first start to the last end |
| IQSRegisters.FingerBlockTiles | IQSRegisters.h:41-69 | the entries from 0x0011 to the last one tile 40 bytes with no gap |
| IQSRegisters.FingerStride | IQSRegisters.h:43-69 | for finger k in 0..4 the catalog holds "Finger k+1 Absolute X" (2 bytes) at 0x0016 + 7k, then "Finger k+1 Absolute Y" (2) at +2, "Finger k+1 Touch Strength" (2) at +4 and "Finger k+1 Touch Area" (1) at +6, at consecutive catalog indices from 10 + 4k |
| IQSRegisters.CatalogNamesDistinct | IQSRegisters.h:30-69 | no two catalog entries have the same name |
| IQSRegisters.CatalogNamesNotUnknown | IQSRegisters.h:30-69 | no catalog entry is called "Unknown" |
| Fingers.Finger.constructor | Finger.cpp:3-6 | a new finger has the given id, is not touching, and has position, force, area and displacement all 0 |
| Fingers.Finger.Update | Finger.cpp:8-28 | the new state is `Step` of the old state and the arguments; the id is a constant |
| Fingers.StepRelative | Finger.cpp:10-21 | when the finger was touching and still is, the displacement is the new position minus the old one; otherwise it is (0, 0) |
| Fingers.StepStores | Finger.cpp:23-27 | after the update the touch flag, x, y, force and area are the arguments |
| Fingers.FirstUpdateHasNoDisplacement | Finger.cpp:8-21 | the first update after construction reports (0, 0) whatever its arguments |
| Fingers.StepDependsOnPositionAndTouch | Finger.cpp:10-21 | the result depends on the previous state only through its touch flag and position |
| Fingers.DisplacementsTelescope | Finger.cpp:10-15 | over updates that all keep touching, the reported displacements add up, per axis, to the final position minus the starting one |
| Fingers.TwoTouchesExample | Finger.cpp:8-28 | a new finger touched at (100, 100) and then at (130, 90) reports (0, 0) and then (30, -10) |
| Touchpads.TouchpadRegistry.constructor | IQSTouchpad.cpp:8 | the registry starts empty |
| Touchpads.LookupFingerRegisters | IQSTouchpad.cpp:19-47 | the four lookups for one finger return that finger's catalog entries, named its Absolute X, Absolute Y, Touch Strength and Touch Area, with widths 2, 2, 2 and 1 |
| Touchpads.IQSTouchpad.constructor | IQSTouchpad.cpp:10-51 | stores the pins and the bus address. Selects the catalog entry 0x0011 (1 byte) as the finger-count register and each finger's four catalog entries. The flag starts clear. Appends the new touchpad to the end of the registry, keeping the earlier entries |
| Touchpads.IQSTouchpad.EndCommunicationWindow | IQSTouchpad.cpp:92-96 | sends exactly the end-of-window frame to the touchpad's bus address |
| Touchpads.IQSTouchpad.Update | IQSTouchpad.cpp:118-147 | the ready flag is false afterwards. If it was false, nothing is sent and the finger count is unchanged. If it was true, the bus sees the address phase of 0x0011, a 1-byte request only when the address phase succeeded, then the end-of-window frame, in that order. The finger count becomes the first byte of the buffer whatever the read's code was: the received byte, or the buffer's previous content when none arrived |
| Touchpads.InterruptHandler | IQSTouchpad.cpp:53-67 | every registered touchpad ends with its flag set exactly when it was already set or its RDY pin reads high. No flag is cleared, the finger counts are unchanged, and objects outside the registry are not touched |
| Touchpads.InterruptHandlerTwice | IQSTouchpad.cpp:53-67 | running the handler twice with the same pin levels leaves the same flags as running it once |
| Touchpads.InterruptThenUpdate | IQSTouchpad.cpp:118-147 | for an idle registered touchpad, an interrupt followed by update leaves it idle. If its RDY pin was high, the bus sees the address phase of 0x0011, the 1-byte request when that succeeded, and the end-of-window frame, and the finger count becomes the received byte (or the buffer's old content); if not, nothing is sent and the count is unchanged |

## Left out

- GPIO and timing: `reset` (IQSTouchpad.cpp:69-76) and the pin setup in `begin` (IQSTouchpad.cpp:78-90). These are platform I/O. `begin` also calls `Wire.begin` and `attachInterrupt`, which are left out for the same reason.
- The Wire library itself (`beginTransmission`, `write`, `endTransmission`, `requestFrom`, `available`, `read`). It is replaced by the parameters and bus events described above.
- The interrupt running asynchronously, and the `volatile` flag. The handler is modelled as a sequential method over one snapshot of the pin levels.
- Operations that IQSTouchpad.h declares and IQSTouchpad.cpp does not define: `_readTouchData`, the `queueRead`/`queueWrite` overloads, `setResolution`, `setReportRate`, `setXYConfig0`, `setMaxFingers`, `getFinger`, `begin(freq)`, `_setDefaultReadAddress`. IQSQueue.h holds only callback structs with no logic. Their bodies are not part of this model.
- The `_fingers` array and the gesture and system flags of IQSTouchpad.h. No method in IQSTouchpad.cpp updates them.
- The default constructor `IQSRegister()` (IQSRegisters.cpp:4-7). It leaves `_address` and `_numBytes` indeterminate (its `std::string` fields start empty), and the driver never uses it.
- Touchpads.IQSTouchpad.constructor: the .cpp constructor does not initialize `numFingers`. The model sets it to 0 but states nothing about its initial value.
- I2CHelpers.ByteArrayToInt: restricted to `numBytes <= 3`. With 4 or more bytes the signed shift in C++ can overflow `int`, so that case is left out.
- I2CHelpers.IntToTwoByteArray: assumes `>>` on a negative `int` is an arithmetic shift, which C++ leaves to the implementation. Values are unbounded integers, so an `int` outside the target's range is not modelled.
- Fingers.Finger.Update: the subtraction `x - this->x` is on unbounded integers. Overflow of a 32-bit `int` is not modelled, since positions come from 16-bit registers.
