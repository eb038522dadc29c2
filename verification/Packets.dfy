// The messages of the remote protocol: DmqHeader and its payload.

module Packets {
  const HEADER_MARKER: nat := 0xAA55
  const ACK_REMOTE_ID: nat := 0

  type Id = n: nat | n < 0x1_0000
  type SeqNum = n: nat | n < 0x1_0000
  type Bytes = seq<bv8>

  datatype Header = Header(marker: nat, id: Id, seqNum: SeqNum, length: nat)

  // A message as a transport sends and receives it.
  datatype Packet = Packet(header: Header, payload: Bytes)
}
