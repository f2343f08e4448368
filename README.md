# SwiftNDN Name and Data packets, in Dafny

This project models the object model of two Named-Data-Networking packet
entities from SwiftNDN and how they map to and from a generic nested TLV
block tree:

- **Name** (SwiftNDN/Name.swift): a Name is an ordered sequence of
  Components, and a Component is an opaque byte string. The model covers
  their encoding to and decoding from blocks and structural equality. It
  also covers the canonical ordering: a shorter component is less, equal
  lengths compare byte by byte unsigned, and Names compare component by
  component with a strict prefix being less.
- **Data** (SwiftNDN/Data.swift): a packet with five slots in a fixed order:
  Name, MetaInfo (optional ContentType and FreshnessPeriod), Content,
  SignatureInfo (SignatureType and an optional KeyLocator wrapping a Name)
  and SignatureValue. The model covers the positional, all-or-nothing
  decoder and the encoder. It covers the signed portion, meaning the bytes a
  signature covers. It also covers the mutable `Data` object with its
  getters and setters.

Layout, one module per file:

| file | module | contents |
|---|---|---|
| tlv.dfy | `Tlv`, `TypeCode` | `Option`, `Block` = type tag + raw bytes or child blocks, `appendBlock`, `Tlv.wireEncode`; the eleven type numbers |
| buffer.dfy | `Buffer` | `UInt64` and the non-negative integer conversions |
| name.dfy | `Names` | Component and Name: codecs, equality, ordering, accessors; the loops of `Name.block` and `Name.init?(block:)` |
| meta_info.dfy | `MetaInfos` | ContentType, FreshnessPeriod, MetaInfo; the loop of `MetaInfo.init?(block:)` |
| signature.dfy | `Signatures` | SignatureType, KeyLocator, SignatureInfo, SignatureValue |
| data.dfy | `DataPacket` | Content, the five-slot `Packet`, its codec, the signed portion, `wireDecode`, and the `Data` class |

Entities that the source never changes after construction are datatypes. The
`Data` object has setters that update its fields in place, so it is a class.
`State()` gives its value as a `Packet`. Every encoder returns
`Option<Block>`, like `var block: Block?`, and every decoder maps a block to
`Option<entity>`, like `init?(block:)`. The loops that build a Name block
or fill in a Name or MetaInfo are methods (`Names.EncodeName`,
`Names.DecodeName`, `MetaInfos.DecodeMetaInfo`), each proved equal to a pure
function, and the properties are proved about those functions. The
read-only comparison and equality loops of `Component.compare`,
`Name.compare` and the Name `==` are recursive functions
(`Names.CompareBytes`, `Names.CompareComponentSeqs`, `Names.ComponentsEq`)
with lemmas about them.

Collaborators that are not in the two files:

- `Block.wireEncode` is the parameter `wire: Block -> seq<UInt8>`.
- `Block.wireDecode` is the parameter `parse`. It returns the block and the
  number of bytes consumed; `wireDecode` discards that number.
- The `TypeCode` constants take the NDN packet format's numbers. The proofs
  use only the fact that they are distinct.
- `Buffer.nonNegativeIntegerToByteArray` and `byteArrayToNonNegativeInteger`
  are replaced by a stand-in. It encodes big-endian in 1, 2, 4 or 8 bytes,
  which is the NDN NonNegativeInteger encoding. It decodes any byte string
  big-endian and keeps the low 64 bits. The round trip proved is that of
  the stand-in, not of the real conversions.

Lenient and asymmetric behaviour of the source, kept as is:

- MetaInfo decoding is lenient. Unknown children are skipped, and the last
  ContentType or FreshnessPeriod child wins (`ContentTypeLastWins`,
  `FreshnessPeriodLastWins`, `UnknownChildIgnored`).
- SignatureInfo decoding is lenient. A second child that is not a KeyLocator,
  or a third child, only drops the KeyLocator.
- A Name block with zero children decodes to the empty Name, but the empty
  Name has no block. Because of this, a KeyLocator around an empty Name decodes
  successfully and is then dropped when it is encoded again.
  `EmptyKeyLocatorIsDropped` shows what a Data packet loses this way.
  `SignatureInfoRoundTrip` states exactly when a SignatureInfo survives.

## Model

| member | source | states |
|---|---|---|
| `Names.ComponentBlock` | SwiftNDN/Name.swift:17-19 | a component always has a block: raw bytes, equal to its value, under the NameComponent tag |
| `Names.ComponentFromBlock` | SwiftNDN/Name.swift:25-35 | succeeds iff the tag is NameComponent and the value is raw bytes; the result encodes back to the same block |
| `Names.ComponentCodecInverse` | SwiftNDN/Name.swift:17-35 | decoding `b` gives `c` iff `c` encodes to `b` |
| `Names.CompareBytes` | SwiftNDN/Name.swift:74-84 | equal-length byte comparison gives -1, 0 or 1, and gives 0 iff the bytes are identical |
| `Names.CompareComponents` | SwiftNDN/Name.swift:69-85 | gives -1, 0 or 1; a shorter component is less and a longer one greater, whatever the bytes; 0 iff the components are equal |
| `Names.CompareBytesFirstDifference` | SwiftNDN/Name.swift:74-84 | with equal lengths, the first differing byte, compared unsigned, decides |
| `Names.CompareBytesAntisymmetric` | SwiftNDN/Name.swift:74-84 | swapping the operands negates the byte comparison |
| `Names.CompareBytesTransitive` | SwiftNDN/Name.swift:74-84 | the byte comparison is transitive |
| `Names.ComponentEqIffCompareZero` | SwiftNDN/Name.swift:205-207 | component `==` holds iff `compare` is 0, and iff the components are structurally equal |
| `Names.ComponentCompareAntisymmetric` | SwiftNDN/Name.swift:69-85 | `compare(a,b) == -compare(b,a)` |
| `Names.ComponentCompareTransitive` | SwiftNDN/Name.swift:69-85 | component `<` is transitive |
| `Names.ComponentTrichotomy` | SwiftNDN/Name.swift:205-215 | exactly one of component `<`, `==`, `>` holds |
| `Names.IsEmpty` | SwiftNDN/Name.swift:106-112 | a Name is empty iff its size is 0, iff it has no block |
| `Names.GetComponentByIndex` | SwiftNDN/Name.swift:166-168 | an index in range always gives a component; an index out of range is excluded because the source traps on it |
| `Names.AppendComponent` | SwiftNDN/Name.swift:162-164 | appending grows the size by one and puts the new component last; earlier components are unchanged and the result is non-empty |
| `Names.NameBlock` | SwiftNDN/Name.swift:90-104 | gives nothing iff the Name has no components; otherwise gives a nested Name block whose children are the component blocks in order |
| `Names.DecodeComponents` | SwiftNDN/Name.swift:125-132 | succeeds iff every child decodes as a component; each decoded component encodes back to its child |
| `Names.NameFromBlock` | SwiftNDN/Name.swift:118-136 | fails on a wrong tag, a raw-bytes value, or any child that is not a raw NameComponent block; an empty result comes only from a childless Name block, and any other result encodes back to the input block |
| `Names.NameRoundTrip` | SwiftNDN/Name.swift:90-136 | a non-empty Name decodes from its own block to itself |
| `Names.EncodeName` | SwiftNDN/Name.swift:90-104 | the loop that appends the component blocks computes `NameBlock` |
| `Names.DecodeName` | SwiftNDN/Name.swift:118-136 | the loop that collects components and stops at the first failure computes `NameFromBlock` |
| `Names.ComponentsEq` | SwiftNDN/Name.swift:222-228 | the pairwise check holds iff every pair of components has the same bytes |
| `Names.NameEq` | SwiftNDN/Name.swift:217-229 | Name `==` holds iff the component counts match and every pair of components has the same bytes |
| `Names.CompareComponentSeqs` | SwiftNDN/Name.swift:184-202 | the Name comparison over component sequences gives -1, 0 or 1 |
| `Names.CompareNames` | SwiftNDN/Name.swift:183-202 | `Name.compare` gives -1, 0 or 1 |
| `Names.CompareNamesFirstDifference` | SwiftNDN/Name.swift:186-193 | after a common prefix, the first differing component decides, by the component order |
| `Names.StrictPrefixIsLess` | SwiftNDN/Name.swift:195-196 | a strict prefix of a Name is `<` that Name |
| `Names.NameEqIffCompareZero` | SwiftNDN/Name.swift:217-229 | Name `==` holds iff the Names are structurally equal, and iff `compare` is 0 |
| `Names.NameCompareAntisymmetric` | SwiftNDN/Name.swift:231-237 | `compare(a,b) == -compare(b,a)` for Names, so `a > b` exactly when `b < a` |
| `Names.NameCompareTransitive` | SwiftNDN/Name.swift:231-233 | Name `<` is transitive |
| `Buffer.NonNegativeIntegerToByteArray` | SwiftNDN/Data.swift:26-27 | the stand-in integer encoding uses 1, 2, 4 or 8 bytes, and `byteArrayToNonNegativeInteger` reads it back to the same value |
| `Buffer.BigEndianRoundTrip` | SwiftNDN/Data.swift:45 | a value that fits in n ≤ 8 big-endian bytes reads back unchanged |
| `MetaInfos.ContentTypeBlock` | SwiftNDN/Data.swift:25-28 | never fails, uses the ContentType tag, and decodes back to the same value |
| `MetaInfos.ContentTypeFromBlock` | SwiftNDN/Data.swift:38-48 | succeeds iff the tag is ContentType and the value is raw bytes; the value range is not checked |
| `MetaInfos.FreshnessPeriodBlock` | SwiftNDN/Data.swift:71-74 | never fails, uses the FreshnessPeriod tag, and decodes back to the same value |
| `MetaInfos.FreshnessPeriodFromBlock` | SwiftNDN/Data.swift:59-69 | succeeds iff the tag is FreshnessPeriod and the value is raw bytes |
| `MetaInfos.MetaInfoBlock` | SwiftNDN/Data.swift:103-112 | never fails; emits only the set fields, ContentType first and FreshnessPeriod last; decodes back to the same MetaInfo |
| `MetaInfos.MetaInfoFromBlock` | SwiftNDN/Data.swift:84-101 | fails only on a wrong tag or a raw-bytes value; any sequence of children decodes |
| `MetaInfos.ContentTypeLastWins` | SwiftNDN/Data.swift:92-98 | a content type is set iff some child decodes as one, and it is the value of the last such child |
| `MetaInfos.FreshnessPeriodLastWins` | SwiftNDN/Data.swift:92-98 | a freshness period is set iff some child decodes as one, and it is the value of the last such child |
| `MetaInfos.UnknownChildIgnored` | SwiftNDN/Data.swift:92-98 | inserting a child that is neither field, anywhere, does not change the decoded MetaInfo |
| `MetaInfos.DecodeMetaInfo` | SwiftNDN/Data.swift:84-101 | the loop that overwrites fields child by child computes `MetaInfoFromBlock` |
| `Signatures.SignatureTypeBlock` | SwiftNDN/Data.swift:176-179 | never fails, uses the SignatureType tag, and decodes back to the same value |
| `Signatures.SignatureTypeFromBlock` | SwiftNDN/Data.swift:164-174 | succeeds iff the tag is SignatureType and the value is raw bytes; the value is not checked against the known types |
| `Signatures.KeyLocatorBlock` | SwiftNDN/Data.swift:214-222 | fails iff the wrapped Name is empty; otherwise the only child is the Name's block |
| `Signatures.KeyLocatorFromBlock` | SwiftNDN/Data.swift:195-212 | succeeds iff the tag is KeyLocator, the value is nested, there is exactly one child, and that child decodes as a Name; the result wraps that Name |
| `Signatures.KeyLocatorRoundTrip` | SwiftNDN/Data.swift:195-222 | a KeyLocator around a non-empty Name decodes from its own block to itself |
| `Signatures.SignatureInfoBlock` | SwiftNDN/Data.swift:256-267 | never fails; SignatureType is first; the KeyLocator follows only when present and encodable, and is dropped otherwise |
| `Signatures.SignatureInfoFromBlock` | SwiftNDN/Data.swift:232-254 | fails on a wrong tag, a raw-bytes value, no children, or a first child that is not a SignatureType; a KeyLocator is attached iff there are exactly two children and the second decodes as one |
| `Signatures.SignatureInfoRoundTrip` | SwiftNDN/Data.swift:232-267 | a SignatureInfo decodes from its own block to itself iff its KeyLocator, if any, wraps a non-empty Name |
| `Signatures.SignatureValueBlock` | SwiftNDN/Data.swift:274-276 | never fails; the value's bytes become raw bytes under the SignatureValue tag |
| `Signatures.SignatureValueFromBlock` | SwiftNDN/Data.swift:286-296 | succeeds iff the tag is SignatureValue and the value is raw bytes; the result encodes back to the block |
| `DataPacket.ContentBlock` | SwiftNDN/Data.swift:119-121 | never fails; the content bytes become raw bytes under the Content tag |
| `DataPacket.ContentFromBlock` | SwiftNDN/Data.swift:131-141 | succeeds iff the tag is Content and the value is raw bytes; the result encodes back to the block |
| `DataPacket.PacketBlock` | SwiftNDN/Data.swift:348-376 | gives nothing iff the Name is empty; otherwise a Data block with exactly five children: Name, MetaInfo, Content, SignatureInfo, SignatureValue |
| `DataPacket.PacketFromBlock` | SwiftNDN/Data.swift:309-346 | succeeds iff the tag is Data, the value is nested, there are exactly five children, and each decodes as its slot's entity; each field is its child's decoding |
| `DataPacket.DecodePacket` | SwiftNDN/Data.swift:309-346 | the early-return decoding steps (tag, nested value, five children, then each child in order) give exactly `PacketFromBlock` |
| `DataPacket.WrongChildCountFails` | SwiftNDN/Data.swift:314-318 | a Data block without exactly five children never decodes, whatever the children are |
| `DataPacket.PacketRoundTrip` | SwiftNDN/Data.swift:309-376 | a packet with a non-empty Name and an encodable KeyLocator decodes from its own block to itself |
| `DataPacket.EmptyKeyLocatorIsDropped` | SwiftNDN/Data.swift:263-265 | a KeyLocator around an empty Name is lost through encode and decode; every other field survives |
| `DataPacket.SignedPortion` | SwiftNDN/Data.swift:410-419 | gives nothing iff the Name or the SignatureInfo has no block; otherwise gives wire(Name) + wire(MetaInfo) + wire(Content) + wire(SignatureInfo) |
| `DataPacket.SignedPortionIsDataPrefix` | SwiftNDN/Data.swift:410-419 | the signed portion exists iff the Data block does, and it is then the serialisation of the Data block's first four children |
| `DataPacket.SignedPortionIgnoresSignatureValue` | SwiftNDN/Data.swift:402-419 | changing the SignatureValue leaves the signed portion unchanged |
| `DataPacket.WireDecode` | SwiftNDN/Data.swift:421-428 | succeeds iff one block parses and decodes as a Data packet; the result is that decoding |
| `DataPacket.WireRoundTrip` | SwiftNDN/Data.swift:421-428 | if the parser reads back what the serialiser wrote, an encodable packet comes back from its wire bytes |
| `DataPacket.Data.constructor` | SwiftNDN/Data.swift:299-307 | a new Data holds an empty Name, an empty MetaInfo, empty Content, a SignatureSha256WithRsa SignatureInfo without a KeyLocator, and an empty SignatureValue |
| `DataPacket.Data.FromBlock` | SwiftNDN/Data.swift:309-346 | gives no object iff the block does not decode; otherwise gives a fresh object holding the decoded packet |
| `DataPacket.Data.FromWire` | SwiftNDN/Data.swift:421-428 | gives no object iff `WireDecode` fails; otherwise gives a fresh object holding its packet |
| `DataPacket.Data.SetContent` | SwiftNDN/Data.swift:378-384 | `getContent` then returns the new bytes; no other field changes |
| `DataPacket.Data.SetFreshnessPeriod` | SwiftNDN/Data.swift:386-392 | `getFreshnessPeriod` then returns the value; the content type and every other field are unchanged |
| `DataPacket.Data.SetContentType` | SwiftNDN/Data.swift:394-400 | `getContentType` then returns the value; the freshness period and every other field are unchanged |
| `DataPacket.Data.SetSignature` | SwiftNDN/Data.swift:402-408 | `getSignature` then returns the new bytes; no other field changes, and the signed portion is the same for every serialiser |

## Left out

- URI handling is not modelled: `Component.init?(url:)`, `Component.toUri`,
  `Name.init?(url:)` and `Name.toUri` (SwiftNDN/Name.swift:37-66, 138-160,
  170-180). They depend on NSURL path splitting, ASCII conversion and
  percent-encoding, whose behaviour is not visible in these files.
- Serialising a block to bytes and parsing bytes to a block (`Block.wireEncode`,
  `Block.wireDecode`) are not modelled. Block.swift is not part of this
  model, so the operations that need it take it as a parameter. Only
  `WireRoundTrip` assumes anything about it, and only about one block.
- The real `Buffer` integer conversions are not modelled. Buffer.swift is not
  part of this model, and `Buffer` is a stand-in. A real implementation that
  decodes lengths other than 1, 2, 4 and 8 differently may give different
  values for hand-made blocks. The integer round trips assume that the
  real conversions read back every UInt64 they write, as the stand-in does;
  nothing about the real `Buffer` is proved. The decode-back clauses of
  `MetaInfos.ContentTypeBlock`, `MetaInfos.FreshnessPeriodBlock`,
  `Signatures.SignatureTypeBlock` and `MetaInfos.MetaInfoBlock`, and the
  lemmas `Signatures.SignatureInfoRoundTrip`, `DataPacket.PacketRoundTrip`
  and `DataPacket.WireRoundTrip` built on them, hold for the source only
  under that assumption.
- `Block(type:)` and `appendBlock` are a guess. Block.swift is not part of
  this model; `Tlv.AppendBlock` assumes a new block starts with no children
  and `appendBlock` adds a child at the end.
- `Tlv.wireEncode()` is a guess for the same reason. `Tlv.WireEncode`
  assumes it serialises the entity's block when there is one, and gives
  nothing when there is none.
- Names.AppendComponent: the source mutates the Name object's `components`
  array in place. The model returns the extended Name as a new value. A Name
  or MetaInfo object shared between several owners, and changed through one
  of them, is not captured: `Data` holds its fields as values.
- DataPacket.Data.SetFreshnessPeriod: the source assigns into the nested
  MetaInfo object. The model replaces the MetaInfo value held by `Data`, so
  aliasing of that object is not captured.
- The failure branches after `Component.block`, `MetaInfo.block`,
  `Content.block`, `SignatureType.block` and `SignatureValue.block` (in
  `Name.block`, `Data.block` and `SignatureInfo.block`) are not written out.
  Those encoders are proved never to fail, so the branches cannot be
  reached.
- Cryptographic signing and verification, Interest packets and transport are
  not modelled; they are not in these files.
