/** The R-APS protocol data unit: constants, bit fields and accessors. */
module Raps {
  import opened NodeIds

  const OPCODE: bv8 := 0x28
  const FLAGS: bv8 := 0x00
  /** Size in bytes of the R-APS specific information that precedes the end TLV. */
  const TLV_OFFSET: bv8 := 32

  const RB: bv8 := 0x80
  const DNF: bv8 := 0x40
  const BPR: bv8 := 0x20

  const NR: bv8 := 0x00
  const MS: bv8 := 0x07
  const SF: bv8 := 0x0b
  const FS: bv8 := 0x0d
  const EVENT: bv8 := 0x0e

  const VERSION_1: bv8 := 0
  const VERSION_2: bv8 := 1

  const SUBCODE_MASK: bv8 := 0x0f
  const SC_FLUSH_REQ: bv8 := 0

  /** The parts of a PDU that the state machine changes. */
  datatype PduMut = PduMut(rsSc: bv8, status: bv8)
  {
    predicate HasRb() { status & RB != 0 }
  }

  datatype Pdu = Pdu(melVer: bv8, opcode: bv8, flags: bv8, tlvOff: bv8,
                     rsSc: bv8, status: bv8, nodeId: NodeId)
  {
    function ReqState(): bv8 { rsSc >> 4 }

    function Subcode(): bv8 { rsSc & SUBCODE_MASK }

    predicate Rb() { status & RB != 0 }

    predicate Dnf() { status & DNF != 0 }

    predicate Bpr() { status & BPR != 0 }
  }

  function RsSc(reqState: bv8, subcode: bv8): bv8 {
    (reqState << 4) | subcode
  }
}
