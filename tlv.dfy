/** The generic TLV block tree every packet entity is mapped to and from.
    The block primitive itself (its wire serialiser and parser) is not part of
    this model: operations that need it take it as a function parameter. */
module Tlv {

  datatype Option<+T> = None | Some(value: T)

  /** Swift's `UInt8`: one byte, compared as an unsigned value. */
  type UInt8 = x: nat | x < 256

  /** A TLV block: a type tag and a value that is either raw bytes or a
      sequence of child blocks. */
  datatype Block = Block(tlvType: nat, value: Value)

  datatype Value = RawBytes(bytes: seq<UInt8>) | Blocks(blocks: seq<Block>)

  /** `Block(type:)` followed by `appendBlock`: a nested block grows by one
      child at the end. */
  function AppendBlock(blk: Block, child: Block): Block
    requires blk.value.Blocks?
  {
    Block(blk.tlvType, Blocks(blk.value.blocks + [child]))
  }

  /** `Tlv.wireEncode()`: the entity's block, serialised by `wire`, or
      nothing when the entity has no block. */
  function WireEncode(blk: Option<Block>, wire: Block -> seq<UInt8>): (r: Option<seq<UInt8>>)
    ensures r.Some? <==> blk.Some?
    ensures r.Some? ==> r.value == wire(blk.value)
  {
    match blk
    case None => None
    case Some(b) => Some(wire(b))
  }
}

/** The eleven TLV type numbers the packet entities use (the values of the
    NDN packet format); the model relies only on their being distinct. */
module TypeCode {
  const Data: nat := 6
  const Name: nat := 7
  const NameComponent: nat := 8
  const MetaInfo: nat := 20
  const Content: nat := 21
  const SignatureInfo: nat := 22
  const SignatureValue: nat := 23
  const ContentType: nat := 24
  const FreshnessPeriod: nat := 25
  const SignatureType: nat := 27
  const KeyLocator: nat := 28
}
