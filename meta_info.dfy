/** The optional metadata of a Data packet: MetaInfo with its ContentType
    and FreshnessPeriod fields (SwiftNDN/Data.swift). */
module MetaInfos {
  import opened Tlv
  import opened Buffer
  import TypeCode

  /** The ContentType values of the source. */
  const Blob: UInt64 := 0
  const Link: UInt64 := 1
  const Key: UInt64 := 2

  datatype ContentType = ContentType(value: UInt64)

  /** Freshness period, in milliseconds. */
  datatype FreshnessPeriod = FreshnessPeriod(value: UInt64)

  datatype MetaInfo = MetaInfo(contentType: Option<ContentType>, freshnessPeriod: Option<FreshnessPeriod>)

  /** `MetaInfo()`: neither field set. */
  const EmptyMetaInfo := MetaInfo(None, None)

  /** `ContentType.block`: never fails, and decodes back to the same value. */
  function ContentTypeBlock(t: ContentType): (r: Option<Block>)
    ensures r.Some? && r.value.tlvType == TypeCode.ContentType
    ensures ContentTypeFromBlock(r.value) == Some(t)
  {
    Some(Block(TypeCode.ContentType, RawBytes(NonNegativeIntegerToByteArray(t.value))))
  }

  /** `ContentType.init?(block:)`: any raw-bytes ContentType block; the value
      range is not checked. */
  function ContentTypeFromBlock(b: Block): (r: Option<ContentType>)
    ensures r.Some? <==> b.tlvType == TypeCode.ContentType && b.value.RawBytes?
  {
    if b.tlvType != TypeCode.ContentType then None
    else
      match b.value
      case RawBytes(bytes) => Some(ContentType(ByteArrayToNonNegativeInteger(bytes)))
      case Blocks(_) => None
  }

  /** `FreshnessPeriod.block`: never fails, and decodes back to the same value. */
  function FreshnessPeriodBlock(f: FreshnessPeriod): (r: Option<Block>)
    ensures r.Some? && r.value.tlvType == TypeCode.FreshnessPeriod
    ensures FreshnessPeriodFromBlock(r.value) == Some(f)
  {
    Some(Block(TypeCode.FreshnessPeriod, RawBytes(NonNegativeIntegerToByteArray(f.value))))
  }

  /** `FreshnessPeriod.init?(block:)`: any raw-bytes FreshnessPeriod block. */
  function FreshnessPeriodFromBlock(b: Block): (r: Option<FreshnessPeriod>)
    ensures r.Some? <==> b.tlvType == TypeCode.FreshnessPeriod && b.value.RawBytes?
  {
    if b.tlvType != TypeCode.FreshnessPeriod then None
    else
      match b.value
      case RawBytes(bytes) => Some(FreshnessPeriod(ByteArrayToNonNegativeInteger(bytes)))
      case Blocks(_) => None
  }

  /** The encoded fields of `m`: ContentType first, then FreshnessPeriod,
      each only when set. */
  function MetaInfoChildren(m: MetaInfo): (r: seq<Block>)
    ensures |r| == (if m.contentType.Some? then 1 else 0) + (if m.freshnessPeriod.Some? then 1 else 0)
  {
    (if m.contentType.Some? then [ContentTypeBlock(m.contentType.value).value] else []) +
    (if m.freshnessPeriod.Some? then [FreshnessPeriodBlock(m.freshnessPeriod.value).value] else [])
  }

  /** `MetaInfo.block`: never fails, whatever fields are set; the ContentType
      child comes first and the FreshnessPeriod child last, and the block
      decodes back to `m`. */
  function MetaInfoBlock(m: MetaInfo): (r: Option<Block>)
    ensures r.Some? && r.value.tlvType == TypeCode.MetaInfo && r.value.value.Blocks?
    ensures |r.value.value.blocks| == (if m.contentType.Some? then 1 else 0) + (if m.freshnessPeriod.Some? then 1 else 0)
    ensures m.contentType.Some? ==> ContentTypeFromBlock(r.value.value.blocks[0]) == m.contentType
    ensures m.freshnessPeriod.Some? ==>
      FreshnessPeriodFromBlock(r.value.value.blocks[|r.value.value.blocks| - 1]) == m.freshnessPeriod
    ensures MetaInfoFromBlock(r.value) == Some(m)
  {
    var bs := MetaInfoChildren(m);
    ScanMetaInfoChildren(m);
    Some(Block(TypeCode.MetaInfo, Blocks(bs)))
  }

  /** One iteration of the decoding loop of `MetaInfo.init?(block:)`: a
      ContentType child replaces the content type, else a FreshnessPeriod
      child replaces the freshness period, else the child is ignored. */
  function MetaInfoStep(m: MetaInfo, blk: Block): MetaInfo
  {
    match ContentTypeFromBlock(blk)
    case Some(ct) => m.(contentType := Some(ct))
    case None =>
      match FreshnessPeriodFromBlock(blk)
      case Some(fp) => m.(freshnessPeriod := Some(fp))
      case None => m
  }

  /** The decoding loop over all children, from the empty MetaInfo. */
  function ScanMetaInfo(bs: seq<Block>): MetaInfo
  {
    if bs == [] then EmptyMetaInfo
    else MetaInfoStep(ScanMetaInfo(bs[..|bs| - 1]), bs[|bs| - 1])
  }

  /** `MetaInfo.init?(block:)`: fails only on a wrong tag or a raw-bytes
      value; unknown children never make it fail. */
  function MetaInfoFromBlock(b: Block): (r: Option<MetaInfo>)
    ensures r.Some? <==> b.tlvType == TypeCode.MetaInfo && b.value.Blocks?
  {
    if b.tlvType != TypeCode.MetaInfo then None
    else
      match b.value
      case RawBytes(_) => None
      case Blocks(bs) => Some(ScanMetaInfo(bs))
  }

  lemma ScanMetaInfoChildren(m: MetaInfo)
    ensures ScanMetaInfo(MetaInfoChildren(m)) == m
  {
    var bs := MetaInfoChildren(m);
    if m.contentType.Some? && m.freshnessPeriod.Some? {
      assert bs[..1] == [ContentTypeBlock(m.contentType.value).value];
      assert bs[..1][..0] == [];
    } else if bs != [] {
      assert bs[..0] == [];
    }
  }

  /** The content type decoded is that of the LAST ContentType child; there
      is one exactly when some child decodes as a ContentType. */
  lemma {:induction false} ContentTypeLastWins(bs: seq<Block>)
    ensures ScanMetaInfo(bs).contentType.Some? <==>
            exists i :: 0 <= i < |bs| && ContentTypeFromBlock(bs[i]).Some?
    ensures ScanMetaInfo(bs).contentType.Some? ==>
            exists i :: 0 <= i < |bs| && ContentTypeFromBlock(bs[i]) == ScanMetaInfo(bs).contentType &&
                        forall j :: i < j < |bs| ==> ContentTypeFromBlock(bs[j]).None?
  {
    if bs != [] {
      var front, last := bs[..|bs| - 1], bs[|bs| - 1];
      ContentTypeLastWins(front);
      assert forall i :: 0 <= i < |front| ==> front[i] == bs[i];
      if ContentTypeFromBlock(last).None? {
        if ScanMetaInfo(bs).contentType.Some? {
          var i :| 0 <= i < |front| && ContentTypeFromBlock(front[i]) == ScanMetaInfo(front).contentType &&
                   forall j :: i < j < |front| ==> ContentTypeFromBlock(front[j]).None?;
          assert forall j :: i < j < |bs| ==> ContentTypeFromBlock(bs[j]).None?;
        }
      } else {
        assert ContentTypeFromBlock(bs[|bs| - 1]) == ScanMetaInfo(bs).contentType;
      }
    }
  }

  /** The freshness period decoded is that of the LAST FreshnessPeriod child;
      there is one exactly when some child decodes as a FreshnessPeriod. */
  lemma {:induction false} FreshnessPeriodLastWins(bs: seq<Block>)
    ensures ScanMetaInfo(bs).freshnessPeriod.Some? <==>
            exists i :: 0 <= i < |bs| && FreshnessPeriodFromBlock(bs[i]).Some?
    ensures ScanMetaInfo(bs).freshnessPeriod.Some? ==>
            exists i :: 0 <= i < |bs| && FreshnessPeriodFromBlock(bs[i]) == ScanMetaInfo(bs).freshnessPeriod &&
                        forall j :: i < j < |bs| ==> FreshnessPeriodFromBlock(bs[j]).None?
  {
    if bs != [] {
      var front, last := bs[..|bs| - 1], bs[|bs| - 1];
      FreshnessPeriodLastWins(front);
      assert forall i :: 0 <= i < |front| ==> front[i] == bs[i];
      if FreshnessPeriodFromBlock(last).None? {
        if ScanMetaInfo(bs).freshnessPeriod.Some? {
          var i :| 0 <= i < |front| && FreshnessPeriodFromBlock(front[i]) == ScanMetaInfo(front).freshnessPeriod &&
                   forall j :: i < j < |front| ==> FreshnessPeriodFromBlock(front[j]).None?;
          assert forall j :: i < j < |bs| ==> FreshnessPeriodFromBlock(bs[j]).None?;
        }
      } else {
        assert ContentTypeFromBlock(last).None?;
        assert FreshnessPeriodFromBlock(bs[|bs| - 1]) == ScanMetaInfo(bs).freshnessPeriod;
      }
    }
  }

  /** A child that is neither a ContentType nor a FreshnessPeriod, wherever
      it stands, does not change what is decoded. */
  lemma {:induction false} UnknownChildIgnored(xs: seq<Block>, u: Block, ys: seq<Block>)
    requires ContentTypeFromBlock(u).None? && FreshnessPeriodFromBlock(u).None?
    ensures ScanMetaInfo(xs + [u] + ys) == ScanMetaInfo(xs + ys)
  {
    if ys == [] {
      assert (xs + [u] + ys)[..|xs| + 1 - 1] == xs;
      assert xs + ys == xs;
    } else {
      var ys', y := ys[..|ys| - 1], ys[|ys| - 1];
      UnknownChildIgnored(xs, u, ys');
      assert (xs + [u] + ys)[..|xs + [u] + ys| - 1] == xs + [u] + ys';
      assert (xs + ys)[..|xs + ys| - 1] == xs + ys';
    }
  }

  /** The loop of `MetaInfo.init?(block:)`: each child overwrites the field
      it decodes as, unknown children are skipped. */
  method DecodeMetaInfo(b: Block) returns (r: Option<MetaInfo>)
    ensures r == MetaInfoFromBlock(b)
  {
    if b.tlvType != TypeCode.MetaInfo || b.value.RawBytes? {
      return None;
    }
    var blocks := b.value.blocks;
    var m := EmptyMetaInfo;
    for i := 0 to |blocks|
      invariant m == ScanMetaInfo(blocks[..i])
    {
      assert blocks[..i + 1][..i] == blocks[..i];
      var ct := ContentTypeFromBlock(blocks[i]);
      if ct.Some? {
        m := m.(contentType := ct);
      } else {
        var fp := FreshnessPeriodFromBlock(blocks[i]);
        if fp.Some? {
          m := m.(freshnessPeriod := fp);
        }
      }
    }
    assert blocks[..|blocks|] == blocks;
    return Some(m);
  }
}
