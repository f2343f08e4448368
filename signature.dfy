/** Signature metadata and value of a Data packet: SignatureInfo with its
    SignatureType and optional KeyLocator, and SignatureValue
    (SwiftNDN/Data.swift). */
module Signatures {
  import opened Tlv
  import opened Buffer
  import opened Names
  import TypeCode

  /** The SignatureType values of the source. */
  const DigestSha256: UInt64 := 0
  const SignatureSha256WithRsa: UInt64 := 1
  const SignatureSha256WithEcdsa: UInt64 := 3

  datatype SignatureType = SignatureType(value: UInt64)

  /** A KeyLocator wraps one Name (the KeyDigest form is not supported). */
  datatype KeyLocator = KeyLocator(name: Name)

  datatype SignatureInfo = SignatureInfo(signatureType: SignatureType, keyLocator: Option<KeyLocator>)

  datatype SignatureValue = SignatureValue(value: seq<UInt8>)

  /** `SignatureInfo()`: SignatureSha256WithRsa and no KeyLocator. */
  const DefaultSignatureInfo := SignatureInfo(SignatureType(SignatureSha256WithRsa), None)

  /** `SignatureType.block`: never fails, and decodes back to the same value. */
  function SignatureTypeBlock(t: SignatureType): (r: Option<Block>)
    ensures r.Some? && r.value.tlvType == TypeCode.SignatureType
    ensures SignatureTypeFromBlock(r.value) == Some(t)
  {
    Some(Block(TypeCode.SignatureType, RawBytes(NonNegativeIntegerToByteArray(t.value))))
  }

  /** `SignatureType.init?(block:)`: any raw-bytes SignatureType block; the
      value is not checked against the known signature types. */
  function SignatureTypeFromBlock(b: Block): (r: Option<SignatureType>)
    ensures r.Some? <==> b.tlvType == TypeCode.SignatureType && b.value.RawBytes?
  {
    if b.tlvType != TypeCode.SignatureType then None
    else
      match b.value
      case RawBytes(bytes) => Some(SignatureType(ByteArrayToNonNegativeInteger(bytes)))
      case Blocks(_) => None
  }

  /** `KeyLocator.block`: fails exactly when the wrapped Name is empty;
      otherwise the single child is the Name's block. */
  function KeyLocatorBlock(k: KeyLocator): (r: Option<Block>)
    ensures r.None? <==> IsEmpty(k.name)
    ensures r.Some? ==> r.value.tlvType == TypeCode.KeyLocator && r.value.value.Blocks?
    ensures r.Some? ==> r.value.value.blocks == [NameBlock(k.name).value]
  {
    match NameBlock(k.name)
    case None => None
    case Some(nb) => Some(Block(TypeCode.KeyLocator, Blocks([nb])))
  }

  /** `KeyLocator.init?(block:)`: a nested KeyLocator block with exactly one
      child, which must decode as a Name. */
  function KeyLocatorFromBlock(b: Block): (r: Option<KeyLocator>)
    ensures r.Some? <==> b.tlvType == TypeCode.KeyLocator && b.value.Blocks? &&
                         |b.value.blocks| == 1 && NameFromBlock(b.value.blocks[0]).Some?
    ensures r.Some? ==> Some(r.value.name) == NameFromBlock(b.value.blocks[0])
  {
    if b.tlvType != TypeCode.KeyLocator then None
    else
      match b.value
      case RawBytes(_) => None
      case Blocks(bs) =>
        if |bs| != 1 then None
        else
          match NameFromBlock(bs[0])
          case None => None
          case Some(n) => Some(KeyLocator(n))
  }

  /** Every KeyLocator that can be encoded survives the round trip. */
  lemma KeyLocatorRoundTrip(k: KeyLocator)
    requires !IsEmpty(k.name)
    ensures KeyLocatorFromBlock(KeyLocatorBlock(k).value) == Some(k)
  {
    NameRoundTrip(k.name);
  }

  /** True when the KeyLocator of `si`, if any, has a block. */
  predicate KeyLocatorEncodable(si: SignatureInfo)
  {
    si.keyLocator.None? || !IsEmpty(si.keyLocator.value.name)
  }

  /** `SignatureInfo.block`: never fails; the SignatureType child comes
      first, and the KeyLocator child follows only when there is a
      KeyLocator and it has a block (a KeyLocator without one is dropped). */
  function SignatureInfoBlock(si: SignatureInfo): (r: Option<Block>)
    ensures r.Some? && r.value.tlvType == TypeCode.SignatureInfo && r.value.value.Blocks?
    ensures |r.value.value.blocks| == (if si.keyLocator.Some? && KeyLocatorEncodable(si) then 2 else 1)
    ensures SignatureTypeFromBlock(r.value.value.blocks[0]) == Some(si.signatureType)
    ensures |r.value.value.blocks| == 2 ==> KeyLocatorFromBlock(r.value.value.blocks[1]) == si.keyLocator
  {
    var stb := SignatureTypeBlock(si.signatureType).value;
    var klb := if si.keyLocator.Some? then KeyLocatorBlock(si.keyLocator.value) else None;
    if klb.Some? then
      KeyLocatorRoundTrip(si.keyLocator.value);
      Some(Block(TypeCode.SignatureInfo, Blocks([stb, klb.value])))
    else
      Some(Block(TypeCode.SignatureInfo, Blocks([stb])))
  }

  /** `SignatureInfo.init?(block:)`: fails on a wrong tag, a raw-bytes value,
      no children, or a first child that is not a SignatureType. A
      KeyLocator is attached only when there are exactly two children and
      the second decodes as one; otherwise it is silently left out. */
  function SignatureInfoFromBlock(b: Block): (r: Option<SignatureInfo>)
    ensures r.Some? <==> b.tlvType == TypeCode.SignatureInfo && b.value.Blocks? &&
                         |b.value.blocks| >= 1 && SignatureTypeFromBlock(b.value.blocks[0]).Some?
    ensures r.Some? ==> Some(r.value.signatureType) == SignatureTypeFromBlock(b.value.blocks[0])
    ensures r.Some? ==> (r.value.keyLocator.Some? <==>
                         |b.value.blocks| == 2 && KeyLocatorFromBlock(b.value.blocks[1]).Some?)
    ensures r.Some? && r.value.keyLocator.Some? ==> r.value.keyLocator == KeyLocatorFromBlock(b.value.blocks[1])
  {
    if b.tlvType != TypeCode.SignatureInfo then None
    else
      match b.value
      case RawBytes(_) => None
      case Blocks(bs) =>
        if |bs| < 1 then None
        else
          match SignatureTypeFromBlock(bs[0])
          case None => None
          case Some(st) =>
            var kl := if |bs| == 2 then KeyLocatorFromBlock(bs[1]) else None;
            Some(SignatureInfo(st, kl))
  }

  /** A SignatureInfo survives encoding and decoding exactly when its
      KeyLocator, if any, wraps a non-empty Name. */
  lemma SignatureInfoRoundTrip(si: SignatureInfo)
    ensures SignatureInfoFromBlock(SignatureInfoBlock(si).value) == Some(si) <==> KeyLocatorEncodable(si)
  {
  }

  /** `SignatureValue.block`: never fails, raw bytes under the SignatureValue tag. */
  function SignatureValueBlock(v: SignatureValue): (r: Option<Block>)
    ensures r.Some? && r.value.tlvType == TypeCode.SignatureValue
    ensures r.value.value == RawBytes(v.value)
  {
    Some(Block(TypeCode.SignatureValue, RawBytes(v.value)))
  }

  /** `SignatureValue.init?(block:)`: succeeds exactly on raw-bytes
      SignatureValue blocks, giving back the value that encodes to it. */
  function SignatureValueFromBlock(b: Block): (r: Option<SignatureValue>)
    ensures r.Some? <==> b.tlvType == TypeCode.SignatureValue && b.value.RawBytes?
    ensures r.Some? ==> SignatureValueBlock(r.value) == Some(b)
  {
    if b.tlvType != TypeCode.SignatureValue then None
    else
      match b.value
      case RawBytes(bytes) => Some(SignatureValue(bytes))
      case Blocks(_) => None
  }
}
