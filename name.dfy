/** NDN names: a Name is an ordered sequence of Components, each an opaque
    byte string. Covers their TLV encoding and decoding, structural equality
    and the canonical ordering (SwiftNDN/Name.swift). */
module Names {
  import opened Tlv
  import TypeCode

  datatype Component = Component(value: seq<UInt8>)

  datatype Name = Name(components: seq<Component>)

  // ---------------------------------------------------------------------
  // Component encoding

  /** `Component.block`: a raw-bytes NameComponent block; it never fails. */
  function ComponentBlock(c: Component): (r: Option<Block>)
    ensures r.Some? && r.value.tlvType == TypeCode.NameComponent
    ensures r.value.value.RawBytes? && r.value.value.bytes == c.value
  {
    Some(Block(TypeCode.NameComponent, RawBytes(c.value)))
  }

  /** `Component.init?(block:)`: succeeds exactly on raw-bytes NameComponent
      blocks, and then gives back the one component encoding to that block. */
  function ComponentFromBlock(b: Block): (r: Option<Component>)
    ensures r.Some? <==> b.tlvType == TypeCode.NameComponent && b.value.RawBytes?
    ensures r.Some? ==> ComponentBlock(r.value) == Some(b)
  {
    if b.tlvType != TypeCode.NameComponent then None
    else
      match b.value
      case RawBytes(bytes) => Some(Component(bytes))
      case Blocks(_) => None
  }

  /** Decoding is the exact inverse of encoding on components. */
  lemma ComponentCodecInverse(c: Component, b: Block)
    ensures ComponentFromBlock(b) == Some(c) <==> ComponentBlock(c) == Some(b)
  {
  }

  // ---------------------------------------------------------------------
  // Component ordering

  /** The byte-by-byte part of `Component.compare`: the first differing
      byte, compared unsigned, decides. */
  function CompareBytes(a: seq<UInt8>, b: seq<UInt8>): (r: int)
    requires |a| == |b|
    ensures -1 <= r <= 1
    ensures r == 0 <==> a == b
  {
    if |a| == 0 then 0
    else if a[0] < b[0] then -1
    else if a[0] > b[0] then 1
    else
      assert a == [a[0]] + a[1..] && b == [b[0]] + b[1..];
      CompareBytes(a[1..], b[1..])
  }

  /** `Component.compare`: -1, 0 or 1; a shorter component is less whatever
      its bytes, equal lengths compare byte by byte. */
  function CompareComponents(a: Component, b: Component): (r: int)
    ensures -1 <= r <= 1
    ensures |a.value| < |b.value| ==> r == -1
    ensures |a.value| > |b.value| ==> r == 1
    ensures r == 0 <==> a == b
  {
    if |a.value| < |b.value| then -1
    else if |a.value| > |b.value| then 1
    else CompareBytes(a.value, b.value)
  }

  /** The `==` operator on components. */
  predicate ComponentEq(a: Component, b: Component)
  {
    a.value == b.value
  }

  /** The `<` operator on components. */
  predicate ComponentLess(a: Component, b: Component)
  {
    CompareComponents(a, b) == -1
  }

  /** The `>` operator on components. */
  predicate ComponentGreater(a: Component, b: Component)
  {
    CompareComponents(a, b) == 1
  }

  /** Equal-length components: the first differing byte decides, compared
      as an unsigned value. */
  lemma {:induction false} CompareBytesFirstDifference(a: seq<UInt8>, b: seq<UInt8>, k: nat)
    requires |a| == |b| && k < |a|
    requires a[..k] == b[..k] && a[k] != b[k]
    ensures CompareBytes(a, b) == if a[k] < b[k] then -1 else 1
  {
    if k > 0 {
      assert a[0] == a[..k][0] && b[0] == b[..k][0];
      assert a[1..][..k - 1] == a[..k][1..] && b[1..][..k - 1] == b[..k][1..];
      CompareBytesFirstDifference(a[1..], b[1..], k - 1);
    }
  }

  lemma {:induction false} CompareBytesAntisymmetric(a: seq<UInt8>, b: seq<UInt8>)
    requires |a| == |b|
    ensures CompareBytes(a, b) == -CompareBytes(b, a)
  {
    if |a| > 0 {
      CompareBytesAntisymmetric(a[1..], b[1..]);
    }
  }

  lemma {:induction false} CompareBytesTransitive(a: seq<UInt8>, b: seq<UInt8>, c: seq<UInt8>)
    requires |a| == |b| == |c|
    requires CompareBytes(a, b) == -1 && CompareBytes(b, c) == -1
    ensures CompareBytes(a, c) == -1
  {
    if a[0] == b[0] && b[0] == c[0] {
      CompareBytesTransitive(a[1..], b[1..], c[1..]);
    }
  }

  /** Component equality, the `==` operator and `compare == 0` agree. */
  lemma ComponentEqIffCompareZero(a: Component, b: Component)
    ensures ComponentEq(a, b) <==> CompareComponents(a, b) == 0
    ensures ComponentEq(a, b) <==> a == b
  {
  }

  lemma ComponentCompareAntisymmetric(a: Component, b: Component)
    ensures CompareComponents(a, b) == -CompareComponents(b, a)
  {
    if |a.value| == |b.value| {
      CompareBytesAntisymmetric(a.value, b.value);
    }
  }

  lemma ComponentCompareTransitive(a: Component, b: Component, c: Component)
    requires ComponentLess(a, b) && ComponentLess(b, c)
    ensures ComponentLess(a, c)
  {
    if |a.value| == |b.value| == |c.value| {
      CompareBytesTransitive(a.value, b.value, c.value);
    }
  }

  /** Exactly one of `<`, `==`, `>` holds between two components. */
  lemma ComponentTrichotomy(a: Component, b: Component)
    ensures ComponentLess(a, b) || ComponentEq(a, b) || ComponentGreater(a, b)
    ensures !(ComponentLess(a, b) && ComponentGreater(a, b))
    ensures ComponentEq(a, b) ==> !ComponentLess(a, b) && !ComponentGreater(a, b)
  {
  }

  // ---------------------------------------------------------------------
  // Name accessors

  /** `Name.size`. */
  function Size(n: Name): nat
  {
    |n.components|
  }

  /** `Name.isEmpty`: a Name is empty exactly when it cannot be encoded. */
  function IsEmpty(n: Name): (r: bool)
    ensures r <==> Size(n) == 0
    ensures r <==> NameBlock(n).None?
  {
    |n.components| == 0
  }

  /** `Name.getComponentByIndex`; the source traps on an index out of range. */
  function GetComponentByIndex(n: Name, index: nat): (r: Option<Component>)
    requires index < Size(n)
    ensures r.Some?
  {
    Some(n.components[index])
  }

  /** `Name.appendComponent`: one more component, placed last, the earlier
      ones unchanged. */
  function AppendComponent(n: Name, c: Component): (r: Name)
    ensures Size(r) == Size(n) + 1
    ensures GetComponentByIndex(r, Size(n)) == Some(c)
    ensures forall i :: 0 <= i < Size(n) ==> GetComponentByIndex(r, i) == GetComponentByIndex(n, i)
    ensures !IsEmpty(r)
  {
    Name(n.components + [c])
  }

  // ---------------------------------------------------------------------
  // Name encoding and decoding

  /** The component blocks of `cs`, in order. */
  function ComponentBlocks(cs: seq<Component>): (r: seq<Block>)
    ensures |r| == |cs|
    ensures forall i :: 0 <= i < |cs| ==> Some(r[i]) == ComponentBlock(cs[i])
  {
    if cs == [] then []
    else ComponentBlocks(cs[..|cs| - 1]) + [ComponentBlock(cs[|cs| - 1]).value]
  }

  /** `Name.block`: nothing for the empty Name; otherwise a nested Name block
      whose children are the component blocks in order. */
  function NameBlock(n: Name): (r: Option<Block>)
    ensures r.None? <==> |n.components| == 0
    ensures r.Some? ==> r.value.tlvType == TypeCode.Name && r.value.value.Blocks?
    ensures r.Some? ==> |r.value.value.blocks| == |n.components|
    ensures r.Some? ==> forall i :: 0 <= i < |n.components| ==>
      r.value.value.blocks[i] == Block(TypeCode.NameComponent, RawBytes(n.components[i].value))
  {
    if |n.components| == 0 then None
    else Some(Block(TypeCode.Name, Blocks(ComponentBlocks(n.components))))
  }

  /** The children of a Name block decoded as components; any failing child
      voids the whole sequence. */
  function DecodeComponents(bs: seq<Block>): (r: Option<seq<Component>>)
    ensures r.Some? <==> forall i :: 0 <= i < |bs| ==> ComponentFromBlock(bs[i]).Some?
    ensures r.Some? ==> |r.value| == |bs|
    ensures r.Some? ==> forall i :: 0 <= i < |bs| ==> ComponentBlock(r.value[i]) == Some(bs[i])
  {
    if bs == [] then Some([])
    else
      match DecodeComponents(bs[..|bs| - 1])
      case None => None
      case Some(cs) =>
        match ComponentFromBlock(bs[|bs| - 1])
        case None => None
        case Some(c) => Some(cs + [c])
  }

  /** `Name.init?(block:)`: fails on a wrong tag, on a raw-bytes value and
      on any child that is not a raw-bytes NameComponent block. A block
      without children decodes to the empty Name; any other result encodes
      back to the very block it came from. */
  function NameFromBlock(b: Block): (r: Option<Name>)
    ensures r.Some? <==> (b.tlvType == TypeCode.Name && b.value.Blocks? &&
                          forall i :: 0 <= i < |b.value.blocks| ==> ComponentFromBlock(b.value.blocks[i]).Some?)
    ensures r.Some? && IsEmpty(r.value) ==> b == Block(TypeCode.Name, Blocks([]))
    ensures r.Some? && !IsEmpty(r.value) ==> NameBlock(r.value) == Some(b)
  {
    if b.tlvType != TypeCode.Name then None
    else
      match b.value
      case RawBytes(_) => None
      case Blocks(bs) =>
        match DecodeComponents(bs)
        case None => None
        case Some(cs) =>
          assert cs == [] ==> bs == [];
          assert cs != [] ==> NameBlock(Name(cs)).value.value.blocks == bs by {
            if cs != [] {
              var bs' := NameBlock(Name(cs)).value.value.blocks;
              assert |bs'| == |bs|;
              forall i | 0 <= i < |bs| ensures bs'[i] == bs[i] {
                assert ComponentBlock(cs[i]) == Some(bs[i]);
              }
            }
          }
          Some(Name(cs))
  }

  /** Every non-empty Name survives encoding followed by decoding. */
  lemma NameRoundTrip(n: Name)
    requires !IsEmpty(n)
    ensures NameFromBlock(NameBlock(n).value) == Some(n)
  {
    var bs := NameBlock(n).value.value.blocks;
    var cs := DecodeComponents(bs).value;
    assert |cs| == |n.components|;
    forall i | 0 <= i < |cs| ensures cs[i] == n.components[i] {
      assert ComponentBlock(cs[i]) == Some(bs[i]) == ComponentBlock(n.components[i]);
    }
    assert cs == n.components;
  }

  /** The loop of `Name.block`: appends each component's block to a Name
      block, giving up on a component without a block. */
  method EncodeName(n: Name) returns (r: Option<Block>)
    ensures r == NameBlock(n)
  {
    if |n.components| == 0 {
      return None;
    }
    var blk := Block(TypeCode.Name, Blocks([]));
    for i := 0 to |n.components|
      invariant blk == Block(TypeCode.Name, Blocks(ComponentBlocks(n.components[..i])))
    {
      // Component.block never fails, so the failure branch of the source
      // is unreachable here.
      var compBlock := ComponentBlock(n.components[i]).value;
      assert n.components[..i + 1][..i] == n.components[..i];
      blk := AppendBlock(blk, compBlock);
    }
    assert n.components[..|n.components|] == n.components;
    return Some(blk);
  }

  /** The loop of `Name.init?(block:)`: decodes the children one by one and
      gives up at the first one that is not a component. */
  method DecodeName(b: Block) returns (r: Option<Name>)
    ensures r == NameFromBlock(b)
  {
    if b.tlvType != TypeCode.Name || b.value.RawBytes? {
      return None;
    }
    var blocks := b.value.blocks;
    var comps: seq<Component> := [];
    for i := 0 to |blocks|
      invariant DecodeComponents(blocks[..i]) == Some(comps)
    {
      assert blocks[..i + 1][..i] == blocks[..i];
      var c := ComponentFromBlock(blocks[i]);
      if c.None? {
        assert DecodeComponents(blocks[..i + 1]).None?;
        DecodeComponentsPrefix(blocks, i + 1);
        return None;
      }
      comps := comps + [c.value];
    }
    assert blocks[..|blocks|] == blocks;
    return Some(Name(comps));
  }

  /** A failing prefix voids the whole sequence of children. */
  lemma DecodeComponentsPrefix(bs: seq<Block>, k: nat)
    requires k <= |bs| && DecodeComponents(bs[..k]).None?
    ensures DecodeComponents(bs).None?
  {
    var i :| 0 <= i < k && ComponentFromBlock(bs[..k][i]).None?;
    assert bs[..k][i] == bs[i];
  }

  // ---------------------------------------------------------------------
  // Name equality and ordering

  /** The pairwise part of the Name `==` operator. */
  function ComponentsEq(x: seq<Component>, y: seq<Component>): (r: bool)
    requires |x| == |y|
    ensures r <==> forall i :: 0 <= i < |x| ==> x[i].value == y[i].value
  {
    if |x| == 0 then true
    else if !ComponentEq(x[0], y[0]) then false
    else
      assert forall i :: 1 <= i < |x| ==> x[i] == x[1..][i - 1] && y[i] == y[1..][i - 1];
      ComponentsEq(x[1..], y[1..])
  }

  /** The Name `==` operator: the component counts agree and every pair of
      components has the same bytes. */
  function NameEq(a: Name, b: Name): (r: bool)
    ensures r <==> (|a.components| == |b.components| &&
                    forall i :: 0 <= i < |a.components| ==> a.components[i].value == b.components[i].value)
  {
    if |a.components| != |b.components| then false
    else ComponentsEq(a.components, b.components)
  }

  /** The comparison loop of `Name.compare`, on component sequences. */
  function CompareComponentSeqs(x: seq<Component>, y: seq<Component>): (r: int)
    ensures -1 <= r <= 1
  {
    if |x| == 0 || |y| == 0 then
      if |x| < |y| then -1 else if |x| > |y| then 1 else 0
    else if ComponentLess(x[0], y[0]) then -1
    else if ComponentGreater(x[0], y[0]) then 1
    else CompareComponentSeqs(x[1..], y[1..])
  }

  /** `Name.compare`: -1, 0 or 1. */
  function CompareNames(a: Name, b: Name): (r: int)
    ensures -1 <= r <= 1
  {
    CompareComponentSeqs(a.components, b.components)
  }

  /** The `<` operator on Names. */
  predicate NameLess(a: Name, b: Name)
  {
    CompareNames(a, b) == -1
  }

  /** The `>` operator on Names. */
  predicate NameGreater(a: Name, b: Name)
  {
    CompareNames(a, b) == 1
  }

  /** The first differing component decides, by the component order. */
  lemma {:induction false} CompareNamesFirstDifference(a: Name, b: Name, k: nat)
    requires k < |a.components| && k < |b.components|
    requires a.components[..k] == b.components[..k]
    requires a.components[k] != b.components[k]
    ensures CompareNames(a, b) == CompareComponents(a.components[k], b.components[k])
  {
    SeqFirstDifference(a.components, b.components, k);
  }

  lemma {:induction false} SeqFirstDifference(x: seq<Component>, y: seq<Component>, k: nat)
    requires k < |x| && k < |y| && x[..k] == y[..k] && x[k] != y[k]
    ensures CompareComponentSeqs(x, y) == CompareComponents(x[k], y[k])
  {
    if k > 0 {
      assert x[0] == x[..k][0] && y[0] == y[..k][0];
      assert CompareComponents(x[0], y[0]) == 0;
      assert x[1..][..k - 1] == x[..k][1..] && y[1..][..k - 1] == y[..k][1..];
      SeqFirstDifference(x[1..], y[1..], k - 1);
    }
  }

  /** A strict prefix of a Name is less than it. */
  lemma {:induction false} StrictPrefixIsLess(a: Name, b: Name)
    requires |a.components| < |b.components|
    requires a.components == b.components[..|a.components|]
    ensures NameLess(a, b)
  {
    SeqStrictPrefixIsLess(a.components, b.components);
  }

  lemma {:induction false} SeqStrictPrefixIsLess(x: seq<Component>, y: seq<Component>)
    requires |x| < |y| && x == y[..|x|]
    ensures CompareComponentSeqs(x, y) == -1
  {
    if |x| > 0 {
      assert x[0] == y[0];
      assert x[1..] == y[1..][..|x| - 1];
      SeqStrictPrefixIsLess(x[1..], y[1..]);
    }
  }

  lemma {:induction false} SeqCompareZeroIffEqual(x: seq<Component>, y: seq<Component>)
    ensures CompareComponentSeqs(x, y) == 0 <==> x == y
  {
    if |x| > 0 && |y| > 0 {
      SeqCompareZeroIffEqual(x[1..], y[1..]);
      assert x == [x[0]] + x[1..] && y == [y[0]] + y[1..];
    }
  }

  /** Name equality, the `==` operator and `compare == 0` all agree. */
  lemma NameEqIffCompareZero(a: Name, b: Name)
    ensures NameEq(a, b) <==> a == b
    ensures NameEq(a, b) <==> CompareNames(a, b) == 0
  {
    SeqCompareZeroIffEqual(a.components, b.components);
    if NameEq(a, b) {
      assert |a.components| == |b.components|;
      forall i | 0 <= i < |a.components| ensures a.components[i] == b.components[i] {
        assert a.components[i].value == b.components[i].value;
      }
      assert a.components == b.components;
    }
  }

  lemma {:induction false} SeqCompareAntisymmetric(x: seq<Component>, y: seq<Component>)
    ensures CompareComponentSeqs(x, y) == -CompareComponentSeqs(y, x)
  {
    if |x| > 0 && |y| > 0 {
      ComponentCompareAntisymmetric(x[0], y[0]);
      SeqCompareAntisymmetric(x[1..], y[1..]);
    }
  }

  lemma NameCompareAntisymmetric(a: Name, b: Name)
    ensures CompareNames(a, b) == -CompareNames(b, a)
    ensures NameGreater(a, b) <==> NameLess(b, a)
  {
    SeqCompareAntisymmetric(a.components, b.components);
  }

  lemma {:induction false} SeqCompareTransitive(x: seq<Component>, y: seq<Component>, z: seq<Component>)
    requires CompareComponentSeqs(x, y) == -1 && CompareComponentSeqs(y, z) == -1
    ensures CompareComponentSeqs(x, z) == -1
  {
    if |x| > 0 && |y| > 0 && |z| > 0 {
      var c1, c2 := CompareComponents(x[0], y[0]), CompareComponents(y[0], z[0]);
      if c1 == -1 && c2 == -1 {
        ComponentCompareTransitive(x[0], y[0], z[0]);
      } else if c1 == 0 && c2 == 0 {
        SeqCompareTransitive(x[1..], y[1..], z[1..]);
      }
    }
  }

  lemma NameCompareTransitive(a: Name, b: Name, c: Name)
    requires NameLess(a, b) && NameLess(b, c)
    ensures NameLess(a, c)
  {
    SeqCompareTransitive(a.components, b.components, c.components);
  }
}
