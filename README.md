# Reservation Release command encoder

This project models the command object a storage-protocol compliance harness
builds for the Reservation Release command (opcode 0x15 of the NVM Express
NVM command set). The command is a fixed 64-byte block (16 dwords). When it is
constructed, it fixes its opcode, its data direction (to the device) and its
size. It also records which memory-pointer fields it may use: only the first
PRP entry, as a single page.

Three named fields live in command dword 10 (CDW10):

| field | CDW10 bits | meaning in the code |
|---|---|---|
| CPTPL | 31:30 | 2-bit code |
| IEKEY | 3 | 1-bit flag |
| RREGA | 2:0 | 3-bit action code |

Each setter writes its field one bit at a time through the command base
class's `SetBit(val, dw, bit)`. That call sets the bit for any nonzero value
and clears it for zero. Each getter reassembles its field from `GetBit(dw, bit)`
results with shifts and ors.

These positions and names (CPTPL, RREGA) are those of the Reservation
*Register* command's CDW10 in NVM Express. The model follows the code as
written.

Layout of the project:

- `bit_codec.dfy`, module `BitCodec`: a dword as its 32 bits, and the
  generic `width`-bit field codec. `FieldOf` reads a field as a number.
  `DepositField` writes a number's low bits into a field, one bit at a time
  and lowest bit first. The module proves the codec's laws: round trip,
  frame, non-interference of disjoint fields, and last-write-wins.
- `reservation_release.dfy`, module `ReservationReleaseCmd`: the command as a
  class. It holds the opcode, data direction, size, allowed pointer set and a
  16-dword buffer. Its setters are methods that change the buffer in place.
  Its getters are functions of the buffer. Each setter and getter is proved
  equal to the codec at its field's position; for the 1-bit IEKEY field the
  codec's write is shown to be the same as a single-bit write. Three small
  methods apply each setter twice, to state the overwrite law for the
  command itself.

Conventions:

- The setters mask one bit per call (`val & 0x1`, `val & 0x2`, `val & 0x4`)
  and pass the result where a bool is expected; `ValueBit(val, k)` is that
  nonzero test. The combined effect of the per-bit masks, `val & 0x3` for
  CPTPL and `val & 0x7` for RREGA, is written `val % 4` and `val % 8`.
- The ors in the getters combine bits that do not overlap, so they are
  written as sums.

## Model

| member | source | states |
|---|---|---|
| ReservationReleaseCmd.ReservationRelease.constructor | Cmds/reservationRelease.cpp:24-31 | a new command has opcode 0x15, data direction to-device, size 64 bytes (a 16-dword buffer), and exactly the first PRP entry as a single page as its allowed pointer set; no other pointer field is allowed |
| ReservationReleaseCmd.ReservationRelease.SetBit | Cmds/reservationRelease.cpp:41-42 | the base-class bit write: the addressed bit becomes `val`, and every other bit of the buffer keeps its value |
| ReservationReleaseCmd.ReservationRelease.GetBit | Cmds/reservationRelease.cpp:49 | the base-class bit read: bit `bit` of dword `dw` (true exactly when the 1-bit field there reads 1), with no effect on the command |
| BitCodec.ValueBit | Cmds/reservationRelease.cpp:41-42 | the nonzero test applied to `val & (1 << k)` when it is passed to SetBit as a bool: true exactly when `val` masked to `k + 1` bits is at least 2^k |
| ReservationReleaseCmd.ReservationRelease.SetCPTPL | Cmds/reservationRelease.cpp:37-43 | CDW10 bits 30-31 receive the low two bits of `val`; every other buffer bit is unchanged; afterwards GetCPTPL is `val & 0x3`, and GetIEKEY and GetRREGA return what they returned before; the command keeps its identity |
| ReservationReleaseCmd.ReservationRelease.GetCPTPL | Cmds/reservationRelease.cpp:45-50 | the result is at most 3 and equals the 2-bit field at CDW10 bit 30 |
| ReservationReleaseCmd.ReservationRelease.SetIEKEY | Cmds/reservationRelease.cpp:53-58 | CDW10 bit 3 becomes `val`, which equals writing the 1-bit field at bit 3 with the codec; every other buffer bit is unchanged; afterwards GetIEKEY is `val`, and GetCPTPL and GetRREGA return what they returned before |
| ReservationReleaseCmd.ReservationRelease.GetIEKEY | Cmds/reservationRelease.cpp:61-66 | the result holds exactly when the 1-bit field at CDW10 bit 3 is 1 |
| ReservationReleaseCmd.ReservationRelease.SetRREGA | Cmds/reservationRelease.cpp:69-76 | CDW10 bits 0-2 receive the low three bits of `val`; every other buffer bit is unchanged; afterwards GetRREGA is `val & 0x7`, and GetCPTPL and GetIEKEY return what they returned before |
| ReservationReleaseCmd.ReservationRelease.GetRREGA | Cmds/reservationRelease.cpp:79-84 | the result is at most 7 and equals the 3-bit field at CDW10 bit 0 |
| BitCodec.FieldOf | Cmds/reservationRelease.cpp:83 | a `width`-bit field, read bit by bit and weighted by position, is a number below 2^width |
| BitCodec.DepositField | Cmds/reservationRelease.cpp:73-75 | writing a field bit by bit, lowest bit first, puts bit `k - lo` of the value at every bit `k` inside the field and leaves every bit outside it as it was |
| BitCodec.FieldOfOnlyReadsField | Cmds/reservationRelease.cpp:49 | a field's value depends only on the bits inside the field: two dwords that agree there read the same |
| BitCodec.FieldRoundTrip | Cmds/reservationRelease.cpp:37-50 | reading a field after writing `v` into it yields `v` masked to the field's width, whatever the dword held before |
| BitCodec.DisjointFieldUnchanged | Cmds/reservationRelease.cpp:69-84 | writing one field leaves the value of every field that does not overlap it unchanged |
| BitCodec.OtherBitLeavesField | Cmds/reservationRelease.cpp:53-58 | writing one bit outside a field leaves that field's value unchanged |
| BitCodec.LastDepositWins | Cmds/reservationRelease.cpp:69-76 | a later write of a field fully overwrites an earlier one: writing `u` then `v` equals writing `v` alone |
| BitCodec.DepositIdempotent | Cmds/reservationRelease.cpp:37-43 | writing the same value into a field twice gives the same dword as writing it once |
| ReservationReleaseCmd.SetCPTPLTwice | Cmds/reservationRelease.cpp:37-43 | calling SetCPTPL with `u` and then `v` leaves CDW10 exactly as one call with `v` would, every other dword unchanged, and GetCPTPL returning `v & 0x3`; with `u == v` this is idempotence |
| ReservationReleaseCmd.SetIEKEYTwice | Cmds/reservationRelease.cpp:53-58 | calling SetIEKEY with `u` and then `v` leaves CDW10 exactly as one call with `v` would, every other dword unchanged, and GetIEKEY returning `v` |
| ReservationReleaseCmd.SetRREGATwice | Cmds/reservationRelease.cpp:69-76 | calling SetRREGA with `u` and then `v` leaves CDW10 exactly as one call with `v` would, every other dword unchanged, and GetRREGA returning `v & 0x7`; with `u == v` this is idempotence |

## Left out

- GrpInformative/dumpGetFeatures_r10b.cpp is not part of this model. It is test orchestration over queue objects, a resource manager and a status validator whose implementations are not visible. Its kernel-metrics dumps, timed hardware poll and process-wide singleton write cannot be modelled faithfully either.
- The `LOG_NRM` calls in the setters and getters are left out. They only log and do not touch the buffer.
- The static `NullReservationReleasePtr` and the object-tracking tag passed to the base constructor are left out. They are shared-pointer and bookkeeping plumbing.
- The destructor is left out because it is empty.
- The base-class `Init`, `SetPrpAllowed`, `SetBit` and `GetBit` are not visible. `Init` and `SetPrpAllowed` are modelled as the field assignments they name. `SetBit` and `GetBit` are modelled by the contract their callers rely on: a single-bit write that changes no other bit, and a single-bit read.
- A bit address outside the buffer is a fatal programming error in the harness. Here it is a precondition of `SetBit` and `GetBit`, and every call in the command meets it with constants.
- ReservationReleaseCmd.ReservationRelease.constructor: does not state the initial buffer contents. The base-class `Init` that fills the buffer is not visible.
- The order in which dword 10 maps onto bytes 40-43 is not modelled. The model stays at dword and bit granularity.
- The numeric encoding of the allowed-pointer bitmask is not modelled. The mask is a set of pointer-field names. Only the first PRP entry as a single page appears in the command's code.
