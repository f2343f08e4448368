/** The Data packet: a fixed five-slot composite of Name, MetaInfo, Content,
    SignatureInfo and SignatureValue, its TLV encoding and decoding, the
    signed portion, and the mutable `Data` object with its accessors
    (SwiftNDN/Data.swift). */
module DataPacket {
  import opened Tlv
  import opened Buffer
  import opened Names
  import opened MetaInfos
  import opened Signatures
  import TypeCode

  datatype Content = Content(value: seq<UInt8>)

  /** `Content.block`: never fails, raw bytes under the Content tag. */
  function ContentBlock(c: Content): (r: Option<Block>)
    ensures r.Some? && r.value.tlvType == TypeCode.Content
    ensures r.value.value == RawBytes(c.value)
  {
    Some(Block(TypeCode.Content, RawBytes(c.value)))
  }

  /** `Content.init?(block:)`: succeeds exactly on raw-bytes Content blocks,
      giving back the content that encodes to it. */
  function ContentFromBlock(b: Block): (r: Option<Content>)
    ensures r.Some? <==> b.tlvType == TypeCode.Content && b.value.RawBytes?
    ensures r.Some? ==> ContentBlock(r.value) == Some(b)
  {
    if b.tlvType != TypeCode.Content then None
    else
      match b.value
      case RawBytes(bytes) => Some(Content(bytes))
      case Blocks(_) => None
  }

  /** The value of a Data object: its five fields. */
  datatype Packet = Packet(name: Name, metaInfo: MetaInfo, content: Content,
                           signatureInfo: SignatureInfo, signatureValue: SignatureValue)

  /** The fields of `Data()`. */
  const DefaultPacket := Packet(Name([]), EmptyMetaInfo, Content([]), DefaultSignatureInfo, SignatureValue([]))

  /** `Data.block`: the five field blocks in fixed order under the Data tag.
      Of the five, only the Name can fail to encode; so the whole fails
      exactly when the Name has no components. */
  function PacketBlock(p: Packet): (r: Option<Block>)
    ensures r.None? <==> IsEmpty(p.name)
    ensures r.Some? ==> r.value.tlvType == TypeCode.Data && r.value.value.Blocks?
    ensures r.Some? ==> r.value.value.blocks == [NameBlock(p.name).value, MetaInfoBlock(p.metaInfo).value,
                                                 ContentBlock(p.content).value,
                                                 SignatureInfoBlock(p.signatureInfo).value,
                                                 SignatureValueBlock(p.signatureValue).value]
  {
    // MetaInfo, Content, SignatureInfo and SignatureValue always have a
    // block (their encoders' postconditions), so only the Name can fail.
    match NameBlock(p.name)
    case None => None
    case Some(nb) =>
      Some(Block(TypeCode.Data, Blocks([nb, MetaInfoBlock(p.metaInfo).value, ContentBlock(p.content).value,
                                        SignatureInfoBlock(p.signatureInfo).value,
                                        SignatureValueBlock(p.signatureValue).value])))
  }

  /** `Data.init?(block:)`: a nested Data block with exactly five children,
      decoded by position as Name, MetaInfo, Content, SignatureInfo and
      SignatureValue; any failure voids the whole packet. */
  function PacketFromBlock(b: Block): (r: Option<Packet>)
    ensures r.Some? <==> b.tlvType == TypeCode.Data && b.value.Blocks? && |b.value.blocks| == 5 &&
                         NameFromBlock(b.value.blocks[0]).Some? &&
                         MetaInfoFromBlock(b.value.blocks[1]).Some? &&
                         ContentFromBlock(b.value.blocks[2]).Some? &&
                         SignatureInfoFromBlock(b.value.blocks[3]).Some? &&
                         SignatureValueFromBlock(b.value.blocks[4]).Some?
    ensures r.Some? ==> Some(r.value.name) == NameFromBlock(b.value.blocks[0]) &&
                        Some(r.value.metaInfo) == MetaInfoFromBlock(b.value.blocks[1]) &&
                        Some(r.value.content) == ContentFromBlock(b.value.blocks[2]) &&
                        Some(r.value.signatureInfo) == SignatureInfoFromBlock(b.value.blocks[3]) &&
                        Some(r.value.signatureValue) == SignatureValueFromBlock(b.value.blocks[4])
  {
    if b.tlvType != TypeCode.Data then None
    else
      match b.value
      case RawBytes(_) => None
      case Blocks(bs) =>
        if |bs| != 5 then None
        else
          match NameFromBlock(bs[0])
          case None => None
          case Some(name) =>
            match MetaInfoFromBlock(bs[1])
            case None => None
            case Some(meta) =>
              match ContentFromBlock(bs[2])
              case None => None
              case Some(content) =>
                match SignatureInfoFromBlock(bs[3])
                case None => None
                case Some(si) =>
                  match SignatureValueFromBlock(bs[4])
                  case None => None
                  case Some(sv) => Some(Packet(name, meta, content, si, sv))
  }

  /** A Data block whose child count is not five never decodes, whatever
      the children are. */
  lemma WrongChildCountFails(bs: seq<Block>)
    requires |bs| != 5
    ensures PacketFromBlock(Block(TypeCode.Data, Blocks(bs))).None?
  {
  }

  /** Encoding then decoding gives back every field of a packet whose Name
      is non-empty and whose KeyLocator, if any, wraps a non-empty Name. */
  lemma PacketRoundTrip(p: Packet)
    requires !IsEmpty(p.name) && KeyLocatorEncodable(p.signatureInfo)
    ensures PacketFromBlock(PacketBlock(p).value) == Some(p)
  {
    var b := PacketBlock(p).value;
    var bs := b.value.blocks;
    assert bs[0] == NameBlock(p.name).value;
    NameRoundTrip(p.name);
    assert NameFromBlock(bs[0]) == Some(p.name);
    assert bs[1] == MetaInfoBlock(p.metaInfo).value;
    assert MetaInfoFromBlock(bs[1]) == Some(p.metaInfo);
    assert ContentFromBlock(bs[2]) == Some(p.content);
    SignatureInfoRoundTrip(p.signatureInfo);
    assert SignatureInfoFromBlock(bs[3]) == Some(p.signatureInfo);
    assert SignatureValueFromBlock(bs[4]) == Some(p.signatureValue);
    DecodeFromFields(b, p);
  }

  /** A Data block whose five children decode, in order, to the fields of
      `p` decodes to `p`. */
  lemma DecodeFromFields(b: Block, p: Packet)
    requires b.tlvType == TypeCode.Data && b.value.Blocks? && |b.value.blocks| == 5
    requires NameFromBlock(b.value.blocks[0]) == Some(p.name)
    requires MetaInfoFromBlock(b.value.blocks[1]) == Some(p.metaInfo)
    requires ContentFromBlock(b.value.blocks[2]) == Some(p.content)
    requires SignatureInfoFromBlock(b.value.blocks[3]) == Some(p.signatureInfo)
    requires SignatureValueFromBlock(b.value.blocks[4]) == Some(p.signatureValue)
    ensures PacketFromBlock(b) == Some(p)
  {
  }

  /** A KeyLocator wrapping an empty Name is lost on the way through the
      wire: the packet decodes, but without the KeyLocator. */
  lemma EmptyKeyLocatorIsDropped(p: Packet)
    requires !IsEmpty(p.name) && !KeyLocatorEncodable(p.signatureInfo)
    ensures PacketFromBlock(PacketBlock(p).value) ==
            Some(p.(signatureInfo := p.signatureInfo.(keyLocator := None)))
  {
    NameRoundTrip(p.name);
    var si := p.signatureInfo;
    assert SignatureInfoBlock(si) == SignatureInfoBlock(si.(keyLocator := None));
    SignatureInfoRoundTrip(si.(keyLocator := None));
    DecodeFromFields(PacketBlock(p).value, p.(signatureInfo := si.(keyLocator := None)));
  }

  /** `Data.getSignedPortion()`: the serialised Name, MetaInfo, Content and
      SignatureInfo blocks, in that order, leaving out the Data wrapper and
      the SignatureValue; nothing when the Name or the SignatureInfo has no
      block. `wire` is the block serialiser `Block.wireEncode`. */
  function SignedPortion(p: Packet, wire: Block -> seq<UInt8>): (r: Option<seq<UInt8>>)
    ensures r.None? <==> NameBlock(p.name).None? || SignatureInfoBlock(p.signatureInfo).None?
    ensures r.Some? ==> r.value == wire(NameBlock(p.name).value) + wire(MetaInfoBlock(p.metaInfo).value) +
                                   wire(ContentBlock(p.content).value) +
                                   wire(SignatureInfoBlock(p.signatureInfo).value)
  {
    match WireEncode(NameBlock(p.name), wire)
    case None => None
    case Some(nameEncode) =>
      match WireEncode(SignatureInfoBlock(p.signatureInfo), wire)
      case None => None
      case Some(sigInfoEncode) =>
        // The forced unwraps of the source: MetaInfo and Content always have a block.
        var metaEncode := wire(MetaInfoBlock(p.metaInfo).value);
        var contentEncode := wire(ContentBlock(p.content).value);
        Some(nameEncode + metaEncode + contentEncode + sigInfoEncode)
  }

  /** The signed portion exists exactly when the packet can be encoded, and
      is then the serialisation of the first four children of the Data
      block, in order. */
  lemma SignedPortionIsDataPrefix(p: Packet, wire: Block -> seq<UInt8>)
    ensures SignedPortion(p, wire).Some? <==> PacketBlock(p).Some?
    ensures PacketBlock(p).Some? ==>
      var bs := PacketBlock(p).value.value.blocks;
      SignedPortion(p, wire) == Some(wire(bs[0]) + wire(bs[1]) + wire(bs[2]) + wire(bs[3]))
  {
  }

  /** The signed portion does not depend on the SignatureValue. */
  lemma SignedPortionIgnoresSignatureValue(p: Packet, v: SignatureValue, wire: Block -> seq<UInt8>)
    ensures SignedPortion(p.(signatureValue := v), wire) == SignedPortion(p, wire)
  {
  }

  /** `Data.wireDecode(bytes)`: parse one leading block (`parse` is
      `Block.wireDecode`, whose consumed-byte count is discarded) and decode
      it as a Data packet; fails if either step fails. */
  function WireDecode(bytes: seq<UInt8>, parse: seq<UInt8> -> (Option<Block>, nat)): (r: Option<Packet>)
    ensures r.Some? <==> parse(bytes).0.Some? && PacketFromBlock(parse(bytes).0.value).Some?
    ensures r.Some? ==> r == PacketFromBlock(parse(bytes).0.value)
  {
    var (block, _) := parse(bytes);
    match block
    case None => None
    case Some(blk) => PacketFromBlock(blk)
  }

  /** With a parser that reads back what the serialiser wrote, every packet
      that survives the block round trip survives the wire round trip. */
  lemma WireRoundTrip(p: Packet, wire: Block -> seq<UInt8>, parse: seq<UInt8> -> (Option<Block>, nat))
    requires !IsEmpty(p.name) && KeyLocatorEncodable(p.signatureInfo)
    requires parse(wire(PacketBlock(p).value)).0 == PacketBlock(p)
    ensures WireDecode(wire(PacketBlock(p).value), parse) == Some(p)
  {
    PacketRoundTrip(p);
  }

  /** The decoding steps of `Data.init?(block:)`, with the loops of the Name
      and MetaInfo decoders: check the tag, the shape and the child count,
      then decode the five children in order, stopping at the first failure. */
  method DecodePacket(b: Block) returns (r: Option<Packet>)
    ensures r == PacketFromBlock(b)
  {
    if b.tlvType != TypeCode.Data || b.value.RawBytes? || |b.value.blocks| != 5 {
      return None;
    }
    var blocks := b.value.blocks;
    var name := DecodeName(blocks[0]);
    if name.None? {
      return None;
    }
    var meta := DecodeMetaInfo(blocks[1]);
    if meta.None? {
      return None;
    }
    var content := ContentFromBlock(blocks[2]);
    if content.None? {
      return None;
    }
    var si := SignatureInfoFromBlock(blocks[3]);
    if si.None? {
      return None;
    }
    var sv := SignatureValueFromBlock(blocks[4]);
    if sv.None? {
      return None;
    }
    r := Some(Packet(name.value, meta.value, content.value, si.value, sv.value));
    DecodeFromFields(b, r.value);
  }

  /** The Data object; its fields are updated in place by the setters. */
  class Data {
    var name: Name
    var metaInfo: MetaInfo
    var content: Content
    var signatureInfo: SignatureInfo
    var signatureValue: SignatureValue

    /** The packet this object currently holds. */
    function State(): Packet
      reads this
    {
      Packet(name, metaInfo, content, signatureInfo, signatureValue)
    }

    /** `Data()`: empty Name, empty MetaInfo and Content, default
        SignatureInfo, empty SignatureValue. */
    constructor ()
      ensures State() == DefaultPacket
    {
      name := Name([]);
      metaInfo := EmptyMetaInfo;
      content := Content([]);
      signatureInfo := DefaultSignatureInfo;
      signatureValue := SignatureValue([]);
    }

    /** `Data.init?(block:)`: a new object holding the decoded packet, or
        nothing when the block does not decode. */
    static method FromBlock(b: Block) returns (d: Data?)
      ensures d == null <==> PacketFromBlock(b).None?
      ensures d != null ==> fresh(d) && Some(d.State()) == PacketFromBlock(b)
    {
      var p := DecodePacket(b);
      if p.None? {
        return null;
      }
      d := new Data();
      d.name, d.metaInfo, d.content := p.value.name, p.value.metaInfo, p.value.content;
      d.signatureInfo, d.signatureValue := p.value.signatureInfo, p.value.signatureValue;
    }

    /** `Data.wireDecode(bytes)` as a class function. */
    static method FromWire(bytes: seq<UInt8>, parse: seq<UInt8> -> (Option<Block>, nat)) returns (d: Data?)
      ensures d == null <==> WireDecode(bytes, parse).None?
      ensures d != null ==> fresh(d) && Some(d.State()) == WireDecode(bytes, parse)
    {
      var (block, _) := parse(bytes);
      if block.None? {
        return null;
      }
      d := FromBlock(block.value);
    }

    function GetContent(): seq<UInt8>
      reads this
    {
      content.value
    }

    function GetFreshnessPeriod(): Option<UInt64>
      reads this
    {
      if metaInfo.freshnessPeriod.Some? then Some(metaInfo.freshnessPeriod.value.value) else None
    }

    function GetContentType(): Option<UInt64>
      reads this
    {
      if metaInfo.contentType.Some? then Some(metaInfo.contentType.value.value) else None
    }

    function GetSignature(): seq<UInt8>
      reads this
    {
      signatureValue.value
    }

    /** `setContent`: replaces the Content, nothing else. */
    method SetContent(value: seq<UInt8>)
      modifies this
      ensures GetContent() == value
      ensures State() == old(State()).(content := Content(value))
    {
      content := Content(value);
    }

    /** `setFreshnessPeriod`: sets the MetaInfo's freshness period, nothing else. */
    method SetFreshnessPeriod(value: UInt64)
      modifies this
      ensures GetFreshnessPeriod() == Some(value)
      ensures GetContentType() == old(GetContentType())
      ensures State() == old(State()).(metaInfo := old(metaInfo).(freshnessPeriod := Some(FreshnessPeriod(value))))
    {
      metaInfo := metaInfo.(freshnessPeriod := Some(FreshnessPeriod(value)));
    }

    /** `setContentType`: sets the MetaInfo's content type, nothing else. */
    method SetContentType(value: UInt64)
      modifies this
      ensures GetContentType() == Some(value)
      ensures GetFreshnessPeriod() == old(GetFreshnessPeriod())
      ensures State() == old(State()).(metaInfo := old(metaInfo).(contentType := Some(ContentType(value))))
    {
      metaInfo := metaInfo.(contentType := Some(ContentType(value)));
    }

    /** `setSignature`: replaces the SignatureValue, nothing else; the signed
        portion is unchanged. */
    method SetSignature(value: seq<UInt8>)
      modifies this
      ensures GetSignature() == value
      ensures State() == old(State()).(signatureValue := SignatureValue(value))
      ensures forall wire: Block -> seq<UInt8> :: SignedPortion(State(), wire) == SignedPortion(old(State()), wire)
    {
      signatureValue := SignatureValue(value);
    }
  }
}
