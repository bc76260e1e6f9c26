/**
 The values a cache bank handles: sectors of bytes, word requests and their
 answers, line fills and line requests to the memory port.
 */
module CacheTypes {

  datatype Option<+T> = None | Some(value: T)

  /** The error slot of a response: a Go error value is an opaque code. */
  datatype Status = Ok | Failed(code: nat)

  const SECTOR_BYTES: nat := 64
  const ADDRESS_SPACE: nat := 0x1_0000_0000

  function Zeros(n: nat): (r: seq<bv8>)
    ensures |r| == n && forall i | 0 <= i < n :: r[i] == 0
  {
    if n == 0 then [] else Zeros(n - 1) + [0]
  }

  type Address = a: nat | a < ADDRESS_SPACE
  type Sector = s: seq<bv8> | |s| == SECTOR_BYTES witness Zeros(SECTOR_BYTES)
  type Word = s: seq<bv8> | |s| == 8 witness Zeros(8)
  type Enables = s: seq<bool> | |s| == 8 witness [false, false, false, false, false, false, false, false]

  const ZERO_SECTOR: Sector := Zeros(SECTOR_BYTES)
  const ZERO_WORD: Word := Zeros(8)

  /** Backing bytes by line address; a line nobody wrote holds zeroes. */
  type Memory = map<nat, Sector>

  function Get(m: Memory, line: nat): Sector {
    if line in m then m[line] else ZERO_SECTOR
  }

  /** The 64-byte line an address lies in. */
  function LineOf(a: nat): nat {
    a - a % SECTOR_BYTES
  }

  /** One word transfer. `id` stands for the identity and tag, which the bank copies and never reads. */
  datatype Request = Request(id: nat, address: Address, write: bool, enables: Enables, data: Word)

  /** One word answer. */
  datatype Response = Response(id: nat, data: Word, status: Status)

  datatype PortResponse = PortResponse(port: nat, response: Response)

  /** A miss-register slot together with the generation that owns it. */
  datatype Handle = Handle(slot: nat, generation: nat)

  /** A line returned by the memory port for the miss register `handle`. */
  datatype Fill = Fill(handle: Handle, data: Sector, status: Status)

  /** What a bank sends to the memory port. */
  datatype LineRequest =
    | ReadLine(line: nat, handle: Handle)
    | WriteLine(line: nat, data: Sector)

  const NO_REQUEST: Request := Request(0, 0, false, [false, false, false, false, false, false, false, false], ZERO_WORD)
  const NO_HANDLE: Handle := Handle(0, 0)
  const NO_FILL: Fill := Fill(NO_HANDLE, ZERO_SECTOR, Ok)
}
