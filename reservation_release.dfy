/** The Reservation Release command (opcode 0x15): a 64-byte command block
    whose dword 10 carries three named fields, written and read through the
    command base class's single-bit primitives.

      CDW10 bits 30-31  CPTPL  2-bit code
      CDW10 bit  3      IEKEY  1-bit flag
      CDW10 bits 0-2    RREGA  3-bit action code

    The base class's Init and SetPrpAllowed and its bit primitives are written
    into the class here, since the command is the only one modelled. */
module ReservationReleaseCmd {
  import opened BitCodec

  const OPCODE: U8 := 0x15
  /** The command block size in bytes; the buffer holds it as 16 dwords. */
  const CMD_SIZE: nat := 64

  const CDW10: nat := 10
  const CPTPL_LO: nat := 30
  const CPTPL_WIDTH: nat := 2
  const IEKEY_BIT: nat := 3
  const RREGA_LO: nat := 0
  const RREGA_WIDTH: nat := 3

  /** The direction of a command's data transfer. */
  datatype DataDir = NoData | ToDevice | FromDevice | Bidirectional

  /** The memory-pointer fields a command may carry: the first and second PRP
      entries, each as a single page or as a list, and the metadata pointer. */
  datatype PrpField = Prp1Page | Prp1List | Prp2Page | Prp2List | MetaPtr

  class ReservationRelease {
    var opcode: U8
    var dataDir: DataDir
    /** Size of the command block in bytes. */
    var cmdSize: nat
    /** The memory-pointer fields this command is allowed to use. */
    var prpAllowed: set<PrpField>
    /** The command block, dword 0 first. */
    var buf: array<Dword>

    /** The identity a reservation release command keeps for its lifetime. */
    ghost predicate Valid()
      reads this
    {
      opcode == OPCODE && dataDir == ToDevice && cmdSize == CMD_SIZE &&
      buf.Length == CMD_SIZE / 4 && prpAllowed == {Prp1Page}
    }

    /** A new command: opcode 0x15, data sent to the device, a 64-byte block,
        and the first PRP entry as a single page as the only pointer allowed. */
    constructor ()
      ensures Valid() && fresh(buf)
      ensures opcode == 0x15 && dataDir == ToDevice
      ensures cmdSize == 64 && buf.Length == 16
      ensures prpAllowed == {Prp1Page}
    {
      // Init(Opcode, DATADIR_TO_DEVICE, 64)
      opcode, dataDir, cmdSize := OPCODE, ToDevice, CMD_SIZE;
      buf := new Dword[CMD_SIZE / 4](_ => ZeroDword());
      // SetPrpAllowed(MASK_PRP1_PAGE)
      prpAllowed := {Prp1Page};
    }

    /** The base class's bit read: bit `bit` of dword `dw`. */
    function GetBit(dw: nat, bit: nat): (b: bool)
      reads this, buf
      requires dw < buf.Length && bit < DWORD_BITS
      ensures b <==> FieldOf(buf[dw], bit, 1) == 1
    {
      buf[dw][bit]
    }

    /** The base class's bit write: set bit `bit` of dword `dw` when `val`
        holds, clear it otherwise, and change nothing else. */
    method SetBit(val: bool, dw: nat, bit: nat)
      requires dw < buf.Length && bit < DWORD_BITS
      modifies buf
      ensures buf[dw] == old(buf[dw])[bit := val]
      ensures forall d | 0 <= d < buf.Length && d != dw :: buf[d] == old(buf[d])
    {
      buf[dw] := buf[dw][bit := val];
    }

    /** Write the low two bits of `val` into CDW10 bits 30-31. */
    method SetCPTPL(val: U8)
      requires Valid()
      modifies buf
      ensures Valid()
      ensures buf[CDW10] == DepositField(old(buf[CDW10]), CPTPL_LO, CPTPL_WIDTH, val)
      ensures forall d, k | 0 <= d < buf.Length && 0 <= k < DWORD_BITS &&
                            !(d == CDW10 && CPTPL_LO <= k < CPTPL_LO + CPTPL_WIDTH) ::
                buf[d][k] == old(buf[d][k])
      ensures GetCPTPL() == val % 4
      ensures GetIEKEY() == old(GetIEKEY()) && GetRREGA() == old(GetRREGA())
    {
      ghost var w := buf[CDW10];
      // a nonzero `val & 0x1`, `val & 0x2` sets the bit
      SetBit(ValueBit(val, 0), CDW10, 30);
      SetBit(ValueBit(val, 1), CDW10, 31);
      assert buf[CDW10] == DepositField(w, CPTPL_LO, CPTPL_WIDTH, val);
      FieldRoundTrip(w, CPTPL_LO, CPTPL_WIDTH, val);
      DisjointFieldUnchanged(w, CPTPL_LO, CPTPL_WIDTH, val, RREGA_LO, RREGA_WIDTH);
    }

    /** CDW10 bits 30-31 as a number. */
    function GetCPTPL(): (r: U8)
      reads this, buf
      requires Valid()
      ensures r <= 3
      ensures r == FieldOf(buf[CDW10], CPTPL_LO, CPTPL_WIDTH)
    {
      // `bit30 | (bit31 << 1)`: the two bits do not overlap, so the or is a sum
      BitValue(GetBit(CDW10, 30)) + BitValue(GetBit(CDW10, 31)) * 2
    }

    /** Set CDW10 bit 3 to `val`. */
    method SetIEKEY(val: bool)
      requires Valid()
      modifies buf
      ensures Valid()
      ensures buf[CDW10] == old(buf[CDW10])[IEKEY_BIT := val]
      ensures buf[CDW10] == DepositField(old(buf[CDW10]), IEKEY_BIT, 1, BitValue(val))
      ensures forall d, k | 0 <= d < buf.Length && 0 <= k < DWORD_BITS &&
                            !(d == CDW10 && k == IEKEY_BIT) ::
                buf[d][k] == old(buf[d][k])
      ensures GetIEKEY() == val
      ensures GetCPTPL() == old(GetCPTPL()) && GetRREGA() == old(GetRREGA())
    {
      ghost var w := buf[CDW10];
      SetBit(val, CDW10, 3);
      assert forall k | 0 <= k < DWORD_BITS ::
        buf[CDW10][k] == DepositField(w, IEKEY_BIT, 1, BitValue(val))[k];
      OtherBitLeavesField(w, IEKEY_BIT, val, CPTPL_LO, CPTPL_WIDTH);
      OtherBitLeavesField(w, IEKEY_BIT, val, RREGA_LO, RREGA_WIDTH);
    }

    /** CDW10 bit 3. */
    function GetIEKEY(): (r: bool)
      reads this, buf
      requires Valid()
      ensures r == (FieldOf(buf[CDW10], IEKEY_BIT, 1) == 1)
    {
      GetBit(CDW10, 3)
    }

    /** Write the low three bits of `val` into CDW10 bits 0-2. */
    method SetRREGA(val: U8)
      requires Valid()
      modifies buf
      ensures Valid()
      ensures buf[CDW10] == DepositField(old(buf[CDW10]), RREGA_LO, RREGA_WIDTH, val)
      ensures forall d, k | 0 <= d < buf.Length && 0 <= k < DWORD_BITS &&
                            !(d == CDW10 && RREGA_LO <= k < RREGA_LO + RREGA_WIDTH) ::
                buf[d][k] == old(buf[d][k])
      ensures GetRREGA() == val % 8
      ensures GetCPTPL() == old(GetCPTPL()) && GetIEKEY() == old(GetIEKEY())
    {
      ghost var w := buf[CDW10];
      // a nonzero `val & 0x1`, `val & 0x2`, `val & 0x4` sets the bit
      SetBit(ValueBit(val, 0), CDW10, 0);
      SetBit(ValueBit(val, 1), CDW10, 1);
      SetBit(ValueBit(val, 2), CDW10, 2);
      assert buf[CDW10] == DepositField(w, RREGA_LO, RREGA_WIDTH, val);
      FieldRoundTrip(w, RREGA_LO, RREGA_WIDTH, val);
      DisjointFieldUnchanged(w, RREGA_LO, RREGA_WIDTH, val, CPTPL_LO, CPTPL_WIDTH);
    }

    /** CDW10 bits 0-2 as a number. */
    function GetRREGA(): (r: U8)
      reads this, buf
      requires Valid()
      ensures r <= 7
      ensures r == FieldOf(buf[CDW10], RREGA_LO, RREGA_WIDTH)
    {
      // `bit0 | (bit1 << 1) | (bit2 << 2)`: the bits do not overlap, so the ors are sums
      BitValue(GetBit(CDW10, 0)) + BitValue(GetBit(CDW10, 1)) * 2 + BitValue(GetBit(CDW10, 2)) * 4
    }
  }

  /** Setting CPTPL twice leaves the command as one setting of the later value
      would: the later call fully overwrites the field, and repeating a value
      changes nothing. */
  method SetCPTPLTwice(c: ReservationRelease, u: U8, v: U8)
    requires c.Valid()
    modifies c.buf
    ensures c.buf[CDW10] == DepositField(old(c.buf[CDW10]), CPTPL_LO, CPTPL_WIDTH, v)
    ensures forall d | 0 <= d < c.buf.Length && d != CDW10 :: c.buf[d] == old(c.buf[d])
    ensures c.GetCPTPL() == v % 4
  {
    ghost var w := c.buf[CDW10];
    c.SetCPTPL(u);
    c.SetCPTPL(v);
    LastDepositWins(w, CPTPL_LO, CPTPL_WIDTH, u, v);
  }

  /** Setting IEKEY twice leaves the command as one setting of the later value
      would. */
  method SetIEKEYTwice(c: ReservationRelease, u: bool, v: bool)
    requires c.Valid()
    modifies c.buf
    ensures c.buf[CDW10] == old(c.buf[CDW10])[IEKEY_BIT := v]
    ensures forall d | 0 <= d < c.buf.Length && d != CDW10 :: c.buf[d] == old(c.buf[d])
    ensures c.GetIEKEY() == v
  {
    c.SetIEKEY(u);
    c.SetIEKEY(v);
  }

  /** Setting RREGA twice leaves the command as one setting of the later value
      would: the later call fully overwrites the field, and repeating a value
      changes nothing. */
  method SetRREGATwice(c: ReservationRelease, u: U8, v: U8)
    requires c.Valid()
    modifies c.buf
    ensures c.buf[CDW10] == DepositField(old(c.buf[CDW10]), RREGA_LO, RREGA_WIDTH, v)
    ensures forall d | 0 <= d < c.buf.Length && d != CDW10 :: c.buf[d] == old(c.buf[d])
    ensures c.GetRREGA() == v % 8
  {
    ghost var w := c.buf[CDW10];
    c.SetRREGA(u);
    c.SetRREGA(v);
    LastDepositWins(w, RREGA_LO, RREGA_WIDTH, u, v);
  }
}
