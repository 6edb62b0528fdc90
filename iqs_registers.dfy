/**
  Register descriptors of the IQS5xx, the constant catalog of the registers the
  driver uses, and the two lookups over it (by address and by name).
 */
module IQSRegisters {
  import opened I2CHelpers

  /** IQSRegister: an immutable descriptor; the constructor and the getters are this datatype's. */
  datatype Register = Register(address: int, numBytes: int, name: string, description: string)
  {
    /** getAddressAsByteArray: the big-endian two bytes of the address. */
    method AddressAsByteArray(bytes: array<Byte>)
      requires bytes.Length >= 2
      modifies bytes
      ensures bytes[..2] == ToTwoBytes(address)
      ensures bytes[2..] == old(bytes[2..])
    {
      IntToTwoByteArray(address, bytes);
    }

    /** read: an addressed read of `numBytes` bytes of this register into `buf`. */
    method Read(device: int, buf: array<Byte>, addrError: Byte, available: seq<Byte>)
      returns (error: Byte, sent: seq<BusEvent>)
      requires 0 <= numBytes <= buf.Length
      modifies buf
      ensures ReadFromRegisterSpec(device, address, numBytes, addrError, available,
                                   old(buf[..]), buf[..], error, sent)
    {
      error, sent := ReadFromRegister(device, address, numBytes, buf, addrError, available);
    }
  }

  /** What a failed lookup returns. Its address 0 is also that of "Product Number". */
  const Unknown: Register := Register(0, 0, "Unknown", "Unknown")

  /** IMPORTANT_IQS_REGISTERS, in declaration order. */
  const Catalog: seq<Register> := [
    // board info
    Register(0x0000, 2, "Product Number", "Product Number"),
    Register(0x0002, 2, "Project Number", "Project Number"),
    Register(0x0004, 1, "Major Version", "Major Version"),
    Register(0x0005, 1, "Minor Version", "Minor Version"),
    Register(0x0006, 1, "Bootloader Status", "Bootloader Status"),
    // misc board status info
    Register(0x000B, 1, "Max Touch", "First four bits: max touch column. Last four bits: max touch row."),
    Register(0x000C, 1, "Previous Cycle Time", "Previous Cycle Time (ms)"),
    // finger touch data
    Register(0x0011, 1, "Number of Finger Touches", "Number of Finger Touches"),
    // finger 1 (only finger 1 has relative x/y data)
    Register(0x0012, 2, "Finger 1 Relative X", "Finger 1 Relative X (pixels)"),
    Register(0x0014, 2, "Finger 1 Relative Y", "Finger 1 Relative Y (pixels)"),
    Register(0x0016, 2, "Finger 1 Absolute X", "Finger 1 Absolute X (pixels)"),
    Register(0x0018, 2, "Finger 1 Absolute Y", "Finger 1 Absolute Y (pixels)"),
    Register(0x001A, 2, "Finger 1 Touch Strength", "Finger 1 Touch Strength"),
    Register(0x001C, 1, "Finger 1 Touch Area", "Finger 1 Touch Area"),
    // finger 2
    Register(0x001D, 2, "Finger 2 Absolute X", "Finger 2 Absolute X (pixels)"),
    Register(0x001F, 2, "Finger 2 Absolute Y", "Finger 2 Absolute Y (pixels)"),
    Register(0x0021, 2, "Finger 2 Touch Strength", "Finger 2 Touch Strength"),
    Register(0x0023, 1, "Finger 2 Touch Area", "Finger 2 Touch Area"),
    // finger 3
    Register(0x0024, 2, "Finger 3 Absolute X", "Finger 3 Absolute X (pixels)"),
    Register(0x0026, 2, "Finger 3 Absolute Y", "Finger 3 Absolute Y (pixels)"),
    Register(0x0028, 2, "Finger 3 Touch Strength", "Finger 3 Touch Strength"),
    Register(0x002A, 1, "Finger 3 Touch Area", "Finger 3 Touch Area"),
    // finger 4
    Register(0x002B, 2, "Finger 4 Absolute X", "Finger 4 Absolute X (pixels)"),
    Register(0x002D, 2, "Finger 4 Absolute Y", "Finger 4 Absolute Y (pixels)"),
    Register(0x002F, 2, "Finger 4 Touch Strength", "Finger 4 Touch Strength"),
    Register(0x0031, 1, "Finger 4 Touch Area", "Finger 4 Touch Area"),
    // finger 5
    Register(0x0032, 2, "Finger 5 Absolute X", "Finger 5 Absolute X (pixels)"),
    Register(0x0034, 2, "Finger 5 Absolute Y", "Finger 5 Absolute Y (pixels)"),
    Register(0x0036, 2, "Finger 5 Touch Strength", "Finger 5 Touch Strength"),
    Register(0x0038, 1, "Finger 5 Touch Area", "Finger 5 Touch Area")
  ]

  // ---------------------------------------------------------------------------
  // Lookups
  // ---------------------------------------------------------------------------

  /** Entry `i` is the first one of `table` at `address`. */
  ghost predicate IsFirstByAddress(table: seq<Register>, address: int, i: int)
  {
    0 <= i < |table| && table[i].address == address &&
    forall j | 0 <= j < i :: table[j].address != address
  }

  /** Entry `i` is the first one of `table` called `name`. */
  ghost predicate IsFirstByName(table: seq<Register>, name: string, i: int)
  {
    0 <= i < |table| && table[i].name == name &&
    forall j | 0 <= j < i :: table[j].name != name
  }

  /**
    The search loop of getRegister(int) over `table`: the first entry at
    `address`, or Unknown when there is none.
   */
  method FirstByAddress(table: seq<Register>, address: int) returns (r: Register)
    ensures forall i | IsFirstByAddress(table, address, i) :: r == table[i]
    ensures (forall i | 0 <= i < |table| :: table[i].address != address) ==> r == Unknown
  {
    for i := 0 to |table|
      invariant forall j | 0 <= j < i :: table[j].address != address
    {
      if table[i].address == address {
        return table[i];
      }
    }
    return Unknown;
  }

  /** The search loop of getRegister(std::string) over `table`: the first entry called `name`, or Unknown. */
  method FirstByName(table: seq<Register>, name: string) returns (r: Register)
    ensures forall i | IsFirstByName(table, name, i) :: r == table[i]
    ensures (forall i | 0 <= i < |table| :: table[i].name != name) ==> r == Unknown
  {
    for i := 0 to |table|
      invariant forall j | 0 <= j < i :: table[j].name != name
    {
      if table[i].name == name {
        return table[i];
      }
    }
    return Unknown;
  }

  /**
    getRegister(int): the first catalog entry at `address`, or Unknown.
    Because every entry is 1 or 2 bytes wide, a width of 0 means "not found";
    the address alone cannot tell, since 0 is a real address.
   */
  method GetRegisterByAddress(address: int) returns (r: Register)
    ensures forall i | IsFirstByAddress(Catalog, address, i) :: r == Catalog[i]
    ensures (forall i | 0 <= i < |Catalog| :: Catalog[i].address != address) ==> r == Unknown
    ensures forall i | 0 <= i < |Catalog| && Catalog[i].address == address :: r == Catalog[i]
    ensures r.numBytes == 0 <==> forall i | 0 <= i < |Catalog| :: Catalog[i].address != address
  {
    r := FirstByAddress(Catalog, address);
    CatalogWidths();
    CatalogAddressesIncreasing();
    FirstMatchByDistinctAddress(Catalog, address);
  }

  /** getRegister(std::string): the first catalog entry called `name`, or Unknown. */
  method GetRegisterByName(name: string) returns (r: Register)
    ensures forall i | IsFirstByName(Catalog, name, i) :: r == Catalog[i]
    ensures (forall i | 0 <= i < |Catalog| :: Catalog[i].name != name) ==> r == Unknown
    ensures forall i | 0 <= i < |Catalog| && Catalog[i].name == name :: r == Catalog[i]
    ensures r.numBytes == 0 <==> forall i | 0 <= i < |Catalog| :: Catalog[i].name != name
  {
    r := FirstByName(Catalog, name);
    CatalogWidths();
    CatalogNamesDistinct();
    FirstMatchByDistinctName(Catalog, name);
  }

  /** In a table of distinct addresses, any entry at `address` is the first one there. */
  lemma FirstMatchByDistinctAddress(table: seq<Register>, address: int)
    requires forall i, j | 0 <= i < j < |table| :: table[i].address < table[j].address
    ensures forall i | 0 <= i < |table| && table[i].address == address :: IsFirstByAddress(table, address, i)
  {
  }

  /** In a table of distinct names, any entry called `name` is the first one so called. */
  lemma FirstMatchByDistinctName(table: seq<Register>, name: string)
    requires forall i, j | 0 <= i < j < |table| :: table[i].name != table[j].name
    ensures forall i | 0 <= i < |table| && table[i].name == name :: IsFirstByName(table, name, i)
  {
  }

  /** Looking an entry up by its own address, or by its own name, gives that entry back. */
  method LookupsAgree(i: nat) returns (byAddress: Register, byName: Register)
    requires i < |Catalog|
    ensures byAddress == Catalog[i] && byName == Catalog[i]
  {
    byAddress := GetRegisterByAddress(Catalog[i].address);
    byName := GetRegisterByName(Catalog[i].name);
  }

  /** Looking up address 0 finds the two-byte "Product Number", not the sentinel. */
  method LookupAddressZero() returns (r: Register)
    ensures r.numBytes == 2 && r.name == "Product Number" && r != Unknown
  {
    r := GetRegisterByAddress(0);
    assert Catalog[0].address == 0;
  }

  /** A name missing from the catalog gives the sentinel, whose width is 0. */
  method LookupUnknownName() returns (r: Register)
    ensures r == Unknown && r.numBytes == 0
  {
    CatalogNamesNotUnknown();
    r := GetRegisterByName("Unknown");
  }

  // ---------------------------------------------------------------------------
  // Properties of the catalog
  // ---------------------------------------------------------------------------

  ghost predicate WidthsAreOneOrTwo(table: seq<Register>)
  {
    forall i | 0 <= i < |table| :: table[i].numBytes == 1 || table[i].numBytes == 2
  }

  /** Each entry ends at or before the start of the next one. */
  ghost predicate AdjacentDisjoint(table: seq<Register>)
  {
    forall i | 0 <= i < |table| - 1 :: table[i].address + table[i].numBytes <= table[i + 1].address
  }

  /** Any earlier entry ends at or before the start of any later one. */
  ghost predicate Disjoint(table: seq<Register>)
  {
    forall i, j | 0 <= i < j < |table| :: table[i].address + table[i].numBytes <= table[j].address
  }

  /** Each entry ends exactly where the next one starts. */
  ghost predicate Contiguous(table: seq<Register>)
  {
    forall i | 0 <= i < |table| - 1 :: table[i].address + table[i].numBytes == table[i + 1].address
  }

  function TotalWidth(table: seq<Register>): int
  {
    if table == [] then 0 else table[0].numBytes + TotalWidth(table[1..])
  }

  lemma CatalogWidths()
    ensures |Catalog| == 30
    ensures WidthsAreOneOrTwo(Catalog)
  {
  }

  lemma CatalogAdjacentDisjoint()
    ensures AdjacentDisjoint(Catalog)
  {
  }

  /** Disjointness of neighbours extends to every pair when widths are positive. */
  lemma {:induction false} AdjacentDisjointImpliesDisjoint(table: seq<Register>)
    requires WidthsAreOneOrTwo(table) && AdjacentDisjoint(table)
    ensures Disjoint(table)
  {
    if |table| > 1 {
      var rest := table[1..];
      assert WidthsAreOneOrTwo(rest) && AdjacentDisjoint(rest) by {
        forall i | 0 <= i < |rest| - 1
          ensures rest[i].address + rest[i].numBytes <= rest[i + 1].address
        {
          assert rest[i] == table[i + 1] && rest[i + 1] == table[i + 2];
        }
      }
      AdjacentDisjointImpliesDisjoint(rest);
      forall i, j | 0 <= i < j < |table|
        ensures table[i].address + table[i].numBytes <= table[j].address
      {
        if i > 0 {
          assert table[i] == rest[i - 1] && table[j] == rest[j - 1];
        } else if j > 1 {
          assert table[1] == rest[0] && table[j] == rest[j - 1];
        }
      }
    }
  }

  /** No two catalog entries overlap, so addresses strictly increase and are pairwise distinct. */
  lemma CatalogAddressesIncreasing()
    ensures Disjoint(Catalog)
    ensures forall i, j | 0 <= i < j < |Catalog| :: Catalog[i].address < Catalog[j].address
  {
    CatalogWidths();
    CatalogAdjacentDisjoint();
    AdjacentDisjointImpliesDisjoint(Catalog);
  }

  /** The width of a contiguous run is the distance from its first start to its last end. */
  lemma {:induction false} ContiguousSpan(table: seq<Register>)
    requires |table| > 0 && Contiguous(table)
    ensures TotalWidth(table) == table[|table| - 1].address + table[|table| - 1].numBytes - table[0].address
  {
    if |table| > 1 {
      var rest := table[1..];
      assert Contiguous(rest) by {
        forall i | 0 <= i < |rest| - 1
          ensures rest[i].address + rest[i].numBytes == rest[i + 1].address
        {
          assert rest[i] == table[i + 1] && rest[i + 1] == table[i + 2];
        }
      }
      ContiguousSpan(rest);
      assert rest[|rest| - 1] == table[|table| - 1] && rest[0] == table[1];
    }
  }

  /** From entry `lo` on, each entry ends exactly where the next one starts. */
  ghost predicate ContiguousFrom(table: seq<Register>, lo: nat)
  {
    forall i | lo <= i < |table| - 1 :: table[i].address + table[i].numBytes == table[i + 1].address
  }

  lemma ContiguousFromSlice(table: seq<Register>, lo: nat)
    requires lo <= |table| && ContiguousFrom(table, lo)
    ensures Contiguous(table[lo..])
  {
    var block := table[lo..];
    forall i | 0 <= i < |block| - 1
      ensures block[i].address + block[i].numBytes == block[i + 1].address
    {
      assert block[i] == table[lo + i] && block[i + 1] == table[lo + i + 1];
    }
  }

  lemma CatalogContiguousFromFingerCount()
    ensures ContiguousFrom(Catalog, 7)
  {
  }

  /** Entries 0x0011 through 0x0038 tile the 40 bytes 0x0011..0x0038 without a gap. */
  lemma FingerBlockTiles()
    ensures Catalog[7].address == 0x0011
    ensures Contiguous(Catalog[7..])
    ensures TotalWidth(Catalog[7..]) == 40
  {
    CatalogContiguousFromFingerCount();
    ContiguousFromSlice(Catalog, 7);
    var block := Catalog[7..];
    ContiguousSpan(block);
    assert block[0] == Catalog[7] && block[|block| - 1] == Catalog[29];
  }

  /** Index in the catalog of the Absolute X register of finger `k` (0-based). */
  function FingerIndex(k: nat): nat
  {
    10 + 4 * k
  }

  /** The digit that names finger `k` (0-based) in the catalog: '1' to '5'. */
  function FingerDigit(k: nat): char
    requires k < 5
  {
    (('1' as int) + k) as char
  }

  /** The catalog name of a register of finger `k` (0-based), such as "Finger 1 Absolute X". */
  function FingerName(k: nat, field: string): string
    requires k < 5
  {
    "Finger " + [FingerDigit(k)] + " " + field
  }

  /**
    The four registers of finger `k`: Absolute X, Absolute Y and Touch
    Strength (2 bytes each), then Touch Area (1 byte), from 0x0016 + 7k.
   */
  ghost predicate FingerRegistersAt(table: seq<Register>, k: nat)
  {
    FingerAddressesAt(table, k) && FingerNamesAt(table, k)
  }

  /** The addresses and widths of finger `k`'s four registers. */
  ghost predicate FingerAddressesAt(table: seq<Register>, k: nat)
  {
    var i := FingerIndex(k);
    var base := 0x0016 + 7 * k;
    i + 3 < |table| &&
    table[i].address == base && table[i].numBytes == 2 &&
    table[i + 1].address == base + 2 && table[i + 1].numBytes == 2 &&
    table[i + 2].address == base + 4 && table[i + 2].numBytes == 2 &&
    table[i + 3].address == base + 6 && table[i + 3].numBytes == 1
  }

  /** The four registers of finger `k` are its Absolute X, Absolute Y, Touch Strength and Touch Area. */
  ghost predicate FingerNamesAt(table: seq<Register>, k: nat)
  {
    var i := FingerIndex(k);
    k < 5 && i + 3 < |table| &&
    table[i].name == FingerName(k, "Absolute X") &&
    table[i + 1].name == FingerName(k, "Absolute Y") &&
    table[i + 2].name == FingerName(k, "Touch Strength") &&
    table[i + 3].name == FingerName(k, "Touch Area")
  }

  lemma FingerNamesAtCatalog(k: nat)
    requires k < 5
    ensures FingerNamesAt(Catalog, k)
  {
    if k == 0 {
      Finger1Names();
    } else if k == 1 {
      Finger2Names();
    } else if k == 2 {
      Finger3Names();
    } else if k == 3 {
      Finger4Names();
    } else {
      Finger5Names();
    }
  }

  lemma Finger1Spelled()
    ensures FingerName(0, "Absolute X") == "Finger 1 Absolute X"
    ensures FingerName(0, "Absolute Y") == "Finger 1 Absolute Y"
    ensures FingerName(0, "Touch Strength") == "Finger 1 Touch Strength"
    ensures FingerName(0, "Touch Area") == "Finger 1 Touch Area"
  {
  }

  lemma Finger1Names()
    ensures FingerNamesAt(Catalog, 0)
  {
    Finger1Spelled();
  }

  lemma Finger2Spelled()
    ensures FingerName(1, "Absolute X") == "Finger 2 Absolute X"
    ensures FingerName(1, "Absolute Y") == "Finger 2 Absolute Y"
    ensures FingerName(1, "Touch Strength") == "Finger 2 Touch Strength"
    ensures FingerName(1, "Touch Area") == "Finger 2 Touch Area"
  {
  }

  lemma Finger2Names()
    ensures FingerNamesAt(Catalog, 1)
  {
    Finger2Spelled();
  }

  lemma Finger3Spelled()
    ensures FingerName(2, "Absolute X") == "Finger 3 Absolute X"
    ensures FingerName(2, "Absolute Y") == "Finger 3 Absolute Y"
    ensures FingerName(2, "Touch Strength") == "Finger 3 Touch Strength"
    ensures FingerName(2, "Touch Area") == "Finger 3 Touch Area"
  {
  }

  lemma Finger3Names()
    ensures FingerNamesAt(Catalog, 2)
  {
    Finger3Spelled();
  }

  lemma Finger4Spelled()
    ensures FingerName(3, "Absolute X") == "Finger 4 Absolute X"
    ensures FingerName(3, "Absolute Y") == "Finger 4 Absolute Y"
    ensures FingerName(3, "Touch Strength") == "Finger 4 Touch Strength"
    ensures FingerName(3, "Touch Area") == "Finger 4 Touch Area"
  {
  }

  lemma Finger4Names()
    ensures FingerNamesAt(Catalog, 3)
  {
    Finger4Spelled();
  }

  lemma Finger5Spelled()
    ensures FingerName(4, "Absolute X") == "Finger 5 Absolute X"
    ensures FingerName(4, "Absolute Y") == "Finger 5 Absolute Y"
    ensures FingerName(4, "Touch Strength") == "Finger 5 Touch Strength"
    ensures FingerName(4, "Touch Area") == "Finger 5 Touch Area"
  {
  }

  lemma Finger5Names()
    ensures FingerNamesAt(Catalog, 4)
  {
    Finger5Spelled();
  }

  lemma FingerStrideAt(k: nat)
    requires k < 5
    ensures FingerAddressesAt(Catalog, k)
  {
    if k == 0 {
      assert FingerAddressesAt(Catalog, 0);
    } else if k == 1 {
      assert FingerAddressesAt(Catalog, 1);
    } else if k == 2 {
      assert FingerAddressesAt(Catalog, 2);
    } else if k == 3 {
      assert FingerAddressesAt(Catalog, 3);
    } else {
      assert FingerAddressesAt(Catalog, 4);
    }
  }

  /** The per-finger registers repeat with a stride of 7 bytes for fingers 0 to 4. */
  lemma FingerStride()
    ensures forall k | 0 <= k < 5 :: FingerRegistersAt(Catalog, k)
  {
    forall k | 0 <= k < 5
      ensures FingerRegistersAt(Catalog, k)
    {
      FingerStrideAt(k);
      FingerNamesAtCatalog(k);
    }
  }

  lemma CatalogNamesDistinct()
    ensures forall i, j | 0 <= i < j < |Catalog| :: Catalog[i].name != Catalog[j].name
  {
  }

  lemma CatalogNamesNotUnknown()
    ensures forall i | 0 <= i < |Catalog| :: Catalog[i].name != "Unknown"
  {
  }
}
