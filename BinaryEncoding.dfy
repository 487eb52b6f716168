/**
 * The output layout and the per-instance encoding of the supervised
 * nominal-to-binary filter.  With a nominal class, a nominal attribute with
 * k values becomes k indicator attributes (one per value); with a numeric
 * class it becomes k-1 cumulative indicators over the values sorted by their
 * average class value, the scheme of Breiman et al., "Classification and
 * Regression Trees".  Every other attribute, and the class, is copied.
 *
 * Both layout and encoding are a concatenation of one block per input
 * attribute; the generic lemmas on Flatten say where each block lands.
 */
module BinaryEncoding {

  /** An attribute of a dataset header; `Text` is a string attribute. */
  datatype Attribute =
    | Numeric(name: string)
    | Nominal(name: string, values: seq<string>)
    | Text(name: string)

  /** A dataset header: its attributes and the class index (negative if unset). */
  datatype Header = Header(attributes: seq<Attribute>, classIndex: int)

  /** An attribute value; nominal values are indices into the attribute's values. */
  datatype Value = Missing | Val(x: int)

  /** A weighted instance. */
  datatype Instance = Instance(weight: real, values: seq<Value>)

  // ---------------------------------------------------------------------
  // Concatenation of blocks

  function Flatten<T>(bs: seq<seq<T>>): seq<T>
  {
    if |bs| == 0 then [] else Flatten(bs[..|bs| - 1]) + bs[|bs| - 1]
  }

  lemma FlattenSnoc<T>(bs: seq<seq<T>>, j: nat)
    requires j < |bs|
    ensures Flatten(bs[..j + 1]) == Flatten(bs[..j]) + bs[j]
  {
    assert bs[..j + 1][..j] == bs[..j];
  }

  lemma {:induction false} FlattenPrefix<T>(bs: seq<seq<T>>, j: nat, m: nat)
    requires j <= m <= |bs|
    ensures |Flatten(bs[..j])| <= |Flatten(bs[..m])|
    ensures Flatten(bs[..m])[..|Flatten(bs[..j])|] == Flatten(bs[..j])
  {
    if j < m {
      FlattenPrefix(bs, j, m - 1);
      FlattenSnoc(bs, m - 1);
    }
  }

  /** Block j of the concatenation starts right after blocks 0..j-1. */
  lemma BlockAt<T>(bs: seq<seq<T>>, j: nat, k: nat)
    requires j < |bs| && k < |bs[j]|
    ensures |Flatten(bs[..j])| + k < |Flatten(bs)|
    ensures Flatten(bs)[|Flatten(bs[..j])| + k] == bs[j][k]
  {
    FlattenSnoc(bs, j);
    FlattenPrefix(bs, j + 1, |bs|);
    assert bs[..|bs|] == bs;
  }

  /** The sum of (width - 1) over the first m blocks. */
  function Shift<T>(bs: seq<seq<T>>, m: nat): int
    requires m <= |bs|
  {
    if m == 0 then 0 else Shift(bs, m - 1) + |bs[m - 1]| - 1
  }

  lemma {:induction false} FlattenLength<T>(bs: seq<seq<T>>, m: nat)
    requires m <= |bs|
    ensures |Flatten(bs[..m])| == m + Shift(bs, m)
  {
    if m > 0 {
      FlattenLength(bs, m - 1);
      FlattenSnoc(bs, m - 1);
    }
  }

  lemma {:induction false} SameWidths<A, B>(xs: seq<seq<A>>, ys: seq<seq<B>>, m: nat)
    requires |xs| == |ys| && m <= |xs|
    requires forall j :: 0 <= j < |xs| ==> |xs[j]| == |ys[j]|
    ensures |Flatten(xs[..m])| == |Flatten(ys[..m])|
  {
    if m > 0 {
      SameWidths(xs, ys, m - 1);
      FlattenSnoc(xs, m - 1);
      FlattenSnoc(ys, m - 1);
    }
  }

  /** The class attribute lands at index classIndex + Shift: the class index of the output format. */
  lemma ClassLands(bs: seq<seq<Attribute>>, classIndex: nat, att: Attribute)
    requires classIndex < |bs| && bs[classIndex] == [att]
    ensures 0 <= classIndex + Shift(bs, classIndex) < |Flatten(bs)|
    ensures Flatten(bs)[classIndex + Shift(bs, classIndex)] == att
  {
    FlattenLength(bs, classIndex);
    BlockAt(bs, classIndex, 0);
  }

  // ---------------------------------------------------------------------
  // Headers and instances

  predicate WellFormed(h: Header)
  {
    h.classIndex < |h.attributes|
  }

  function NumValues(att: Attribute): nat
  {
    if att.Nominal? then |att.values| else 0
  }

  /** The instance has one value per attribute, and nominal values are valid indices. */
  predicate Fits(h: Header, inst: Instance)
  {
    && |inst.values| == |h.attributes|
    && forall j :: 0 <= j < |h.attributes| && h.attributes[j].Nominal? && inst.values[j].Val? ==>
         0 <= inst.values[j].x < |h.attributes[j].values|
  }

  /** A binary output attribute: numeric, or nominal with values f and t. */
  function BinaryAttribute(name: string, numeric: bool): Attribute
  {
    if numeric then Numeric(name) else Nominal(name, ["f", "t"])
  }

  /** Attribute j is copied unchanged (it is not nominal, or it is the class). */
  predicate Copied(h: Header, j: nat)
    requires j < |h.attributes|
  {
    !h.attributes[j].Nominal? || j == h.classIndex
  }

  // ---------------------------------------------------------------------
  // Nominal class: one indicator per value

  /** With a nominal class, attribute j is expanded into one attribute per value. */
  predicate Expanded(h: Header, j: nat, transformAll: bool)
    requires j < |h.attributes|
  {
    !Copied(h, j) && (|h.attributes[j].values| > 2 || transformAll)
  }

  function NominalBlock(h: Header, j: nat, numeric: bool, transformAll: bool): (b: seq<Attribute>)
    requires j < |h.attributes|
    ensures |b| == if Expanded(h, j, transformAll) then |h.attributes[j].values| else 1
  {
    var att := h.attributes[j];
    if Copied(h, j) then [att]
    else if !Expanded(h, j, transformAll) then [if numeric then Numeric(att.name) else att]
    else seq(|att.values|, k requires 0 <= k < |att.values| => BinaryAttribute(att.name + "=" + att.values[k], numeric))
  }

  function NominalBlocks(h: Header, numeric: bool, transformAll: bool): seq<seq<Attribute>>
  {
    seq(|h.attributes|, j requires 0 <= j < |h.attributes| => NominalBlock(h, j, numeric, transformAll))
  }

  function NominalFormat(h: Header, numeric: bool, transformAll: bool): Header
    requires 0 <= h.classIndex < |h.attributes|
  {
    var bs := NominalBlocks(h, numeric, transformAll);
    Header(Flatten(bs), h.classIndex + Shift(bs, h.classIndex))
  }

  /**
   * setOutputFormatNominal: builds the attribute list and moves the class
   * index past the extra attributes of every expanded attribute before it;
   * the class attribute is found at the new class index.
   */
  method BuildNominalFormat(h: Header, numeric: bool, transformAll: bool) returns (format: Header)
    requires 0 <= h.classIndex < |h.attributes|
    ensures format == NominalFormat(h, numeric, transformAll)
    ensures 0 <= format.classIndex < |format.attributes|
    ensures format.attributes[format.classIndex] == h.attributes[h.classIndex]
  {
    ghost var bs := NominalBlocks(h, numeric, transformAll);
    var newClassIndex := h.classIndex;
    var newAtts: seq<Attribute> := [];
    var j := 0;
    while j < |h.attributes|
      invariant 0 <= j <= |h.attributes|
      invariant newAtts == Flatten(bs[..j])
      invariant newClassIndex == h.classIndex + Shift(bs, if j < h.classIndex then j else h.classIndex)
    {
      newAtts, newClassIndex := NominalStep(h, numeric, transformAll, j, newAtts, newClassIndex);
      j := j + 1;
    }
    assert bs[..j] == bs;
    format := Header(newAtts, newClassIndex);
    NominalClassLands(h, numeric, transformAll);
  }

  /** One iteration of setOutputFormatNominal's loop: appends attribute j's block and moves the class index. */
  method NominalStep(h: Header, numeric: bool, transformAll: bool, j: nat, newAtts: seq<Attribute>, newClassIndex: int)
    returns (newAtts': seq<Attribute>, newClassIndex': int)
    requires 0 <= h.classIndex < |h.attributes| && j < |h.attributes|
    requires newAtts == Flatten(NominalBlocks(h, numeric, transformAll)[..j])
    requires newClassIndex == h.classIndex + Shift(NominalBlocks(h, numeric, transformAll), if j < h.classIndex then j else h.classIndex)
    ensures newAtts' == Flatten(NominalBlocks(h, numeric, transformAll)[..j + 1])
    ensures newClassIndex' == h.classIndex + Shift(NominalBlocks(h, numeric, transformAll), if j + 1 < h.classIndex then j + 1 else h.classIndex)
  {
    FlattenSnoc(NominalBlocks(h, numeric, transformAll), j);
    var block := NominalAttributes(h, j, numeric, transformAll);
    newClassIndex' := newClassIndex;
    if Expanded(h, j, transformAll) && j < h.classIndex {
      newClassIndex' := newClassIndex + NumValues(h.attributes[j]) - 1;
    }
    newAtts' := newAtts + block;
  }

  /** The class attribute of the input is found at the class index of the nominal-class layout. */
  lemma NominalClassLands(h: Header, numeric: bool, transformAll: bool)
    requires 0 <= h.classIndex < |h.attributes|
    ensures var format := NominalFormat(h, numeric, transformAll);
      0 <= format.classIndex < |format.attributes| && format.attributes[format.classIndex] == h.attributes[h.classIndex]
  {
    ClassLands(NominalBlocks(h, numeric, transformAll), h.classIndex, h.attributes[h.classIndex]);
  }

  /** The attributes setOutputFormatNominal appends for input attribute j. */
  method NominalAttributes(h: Header, j: nat, numeric: bool, transformAll: bool) returns (block: seq<Attribute>)
    requires j < |h.attributes|
    ensures block == NominalBlock(h, j, numeric, transformAll)
  {
    var att := h.attributes[j];
    if !att.Nominal? || j == h.classIndex {
      block := [att];
    } else if |att.values| <= 2 && !transformAll {
      if numeric {
        block := [Numeric(att.name)];
      } else {
        block := [att];
      }
    } else {
      ghost var spec := NominalBlock(h, j, numeric, transformAll);
      block := [];
      var k := 0;
      while k < |att.values|
        invariant 0 <= k <= |att.values|
        invariant block == spec[..k]
      {
        var attributeName := att.name + "=" + att.values[k];
        assert spec[..k + 1] == spec[..k] + [BinaryAttribute(attributeName, numeric)];
        block := block + [BinaryAttribute(attributeName, numeric)];
        k := k + 1;
      }
      assert spec[..k] == spec;
    }
  }

  /** The values instance `inst` contributes for attribute j (nominal class). */
  function NominalCode(h: Header, transformAll: bool, inst: Instance, j: nat): (c: seq<Value>)
    requires |inst.values| == |h.attributes| && j < |h.attributes|
    ensures |c| == |NominalBlock(h, j, false, transformAll)|
  {
    var v := inst.values[j];
    var n := NumValues(h.attributes[j]);
    if !Expanded(h, j, transformAll) then [v]
    else if v.Missing? then seq(n, k => Missing)
    else seq(n, k => if k == v.x then Val(1) else Val(0))
  }

  function NominalCodes(h: Header, transformAll: bool, inst: Instance): seq<seq<Value>>
    requires |inst.values| == |h.attributes|
  {
    seq(|h.attributes|, j requires 0 <= j < |h.attributes| => NominalCode(h, transformAll, inst, j))
  }

  function EncodeNominal(h: Header, transformAll: bool, inst: Instance): Instance
    requires |inst.values| == |h.attributes|
  {
    Instance(inst.weight, Flatten(NominalCodes(h, transformAll, inst)))
  }

  /** Start of the block of attribute j in the nominal-class layout. */
  function NominalOffset(h: Header, transformAll: bool, j: nat): nat
    requires j <= |h.attributes|
  {
    |Flatten(NominalBlocks(h, false, transformAll)[..j])|
  }

  /**
   * The encoding lines up with the layout: it has one value per output
   * attribute, and the block of attribute j starts at the same offset in
   * both, whatever the binary attributes' type.
   */
  lemma NominalAligned(h: Header, numeric: bool, transformAll: bool, inst: Instance, j: nat)
    requires |inst.values| == |h.attributes| && j <= |h.attributes|
    ensures |Flatten(NominalCodes(h, transformAll, inst)[..j])| == NominalOffset(h, transformAll, j)
    ensures |Flatten(NominalBlocks(h, numeric, transformAll)[..j])| == NominalOffset(h, transformAll, j)
    ensures |EncodeNominal(h, transformAll, inst).values| == |Flatten(NominalBlocks(h, numeric, transformAll))|
  {
    var cs := NominalCodes(h, transformAll, inst);
    var bs := NominalBlocks(h, numeric, transformAll);
    var fs := NominalBlocks(h, false, transformAll);
    SameWidths(cs, fs, j);
    SameWidths(bs, fs, j);
    SameWidths(cs, bs, |cs|);
    assert cs[..|cs|] == cs && bs[..|bs|] == bs;
  }

  /**
   * An expanded attribute with a value present is one-hot: its block holds
   * 1 exactly at the value's position and 0 elsewhere.
   */
  lemma NominalOneHot(h: Header, transformAll: bool, inst: Instance, j: nat, k: nat)
    requires |inst.values| == |h.attributes| && j < |h.attributes|
    requires Expanded(h, j, transformAll) && inst.values[j].Val?
    requires k < |h.attributes[j].values|
    ensures NominalOffset(h, transformAll, j) + k < |EncodeNominal(h, transformAll, inst).values|
    ensures EncodeNominal(h, transformAll, inst).values[NominalOffset(h, transformAll, j) + k]
            == if k == inst.values[j].x then Val(1) else Val(0)
  {
    NominalAligned(h, false, transformAll, inst, j);
    BlockAt(NominalCodes(h, transformAll, inst), j, k);
  }

  /** A missing value of an expanded attribute makes its whole block missing. */
  lemma NominalMissingBlock(h: Header, transformAll: bool, inst: Instance, j: nat, k: nat)
    requires |inst.values| == |h.attributes| && j < |h.attributes|
    requires Expanded(h, j, transformAll) && inst.values[j].Missing?
    requires k < |h.attributes[j].values|
    ensures NominalOffset(h, transformAll, j) + k < |EncodeNominal(h, transformAll, inst).values|
    ensures EncodeNominal(h, transformAll, inst).values[NominalOffset(h, transformAll, j) + k] == Missing
  {
    NominalAligned(h, false, transformAll, inst, j);
    BlockAt(NominalCodes(h, transformAll, inst), j, k);
  }

  /** An attribute that is not expanded keeps its value, at its offset. */
  lemma NominalCopiesValue(h: Header, transformAll: bool, inst: Instance, j: nat)
    requires |inst.values| == |h.attributes| && j < |h.attributes|
    requires !Expanded(h, j, transformAll)
    ensures NominalOffset(h, transformAll, j) < |EncodeNominal(h, transformAll, inst).values|
    ensures EncodeNominal(h, transformAll, inst).values[NominalOffset(h, transformAll, j)] == inst.values[j]
  {
    NominalAligned(h, false, transformAll, inst, j);
    BlockAt(NominalCodes(h, transformAll, inst), j, 0);
  }

  /** convertInstanceNominal: fills `vals` block by block, advancing the cursor attSoFar. */
  method ConvertInstanceNominal(h: Header, numeric: bool, transformAll: bool, outputFormat: Header, inst: Instance)
    returns (r: Instance)
    requires 0 <= h.classIndex < |h.attributes| && |inst.values| == |h.attributes|
    requires outputFormat == NominalFormat(h, numeric, transformAll)
    ensures r == EncodeNominal(h, transformAll, inst)
    ensures |r.values| == |outputFormat.attributes| && r.weight == inst.weight
  {
    ghost var cs := NominalCodes(h, transformAll, inst);
    NominalAligned(h, numeric, transformAll, inst, |h.attributes|);
    assert cs[..|cs|] == cs;
    var vals := new Value[|outputFormat.attributes|];
    var attSoFar := 0;
    var j := 0;
    while j < |h.attributes|
      invariant 0 <= j <= |h.attributes|
      invariant attSoFar == |Flatten(cs[..j])| <= vals.Length
      invariant vals[..attSoFar] == Flatten(cs[..j])
    {
      attSoFar := NominalBlockStep(h, transformAll, inst, j, vals, attSoFar);
      j := j + 1;
    }
    assert vals[..] == vals[..attSoFar];
    r := Instance(inst.weight, vals[..]);
  }

  /** One iteration of convertInstanceNominal's loop, stated on the blocks: the first j+1 blocks are in place. */
  method NominalBlockStep(h: Header, transformAll: bool, inst: Instance, j: nat, vals: array<Value>, attSoFar: nat) returns (next: nat)
    requires |inst.values| == |h.attributes| && j < |h.attributes|
    requires |Flatten(NominalCodes(h, transformAll, inst))| <= vals.Length
    requires attSoFar == |Flatten(NominalCodes(h, transformAll, inst)[..j])| <= vals.Length
    requires vals[..attSoFar] == Flatten(NominalCodes(h, transformAll, inst)[..j])
    modifies vals
    ensures next == |Flatten(NominalCodes(h, transformAll, inst)[..j + 1])| <= vals.Length
    ensures vals[..next] == Flatten(NominalCodes(h, transformAll, inst)[..j + 1])
  {
    ghost var cs := NominalCodes(h, transformAll, inst);
    FlattenSnoc(cs, j);
    FlattenPrefix(cs, j + 1, |cs|);
    assert cs[..|cs|] == cs;
    next := PutNominalCode(h, transformAll, inst, j, vals, attSoFar);
  }

  /** One iteration of convertInstanceNominal's loop: writes attribute j's values at attSoFar. */
  method PutNominalCode(h: Header, transformAll: bool, inst: Instance, j: nat, vals: array<Value>, attSoFar: nat)
    returns (next: nat)
    requires |inst.values| == |h.attributes| && j < |h.attributes|
    requires attSoFar + |NominalCode(h, transformAll, inst, j)| <= vals.Length
    modifies vals
    ensures next == attSoFar + |NominalCode(h, transformAll, inst, j)|
    ensures vals[..next] == old(vals[..attSoFar]) + NominalCode(h, transformAll, inst, j)
  {
    ghost var code := NominalCode(h, transformAll, inst, j);
    var att := h.attributes[j];
    if !att.Nominal? || j == h.classIndex {
      vals[attSoFar] := inst.values[j];
      next := attSoFar + 1;
    } else if |att.values| <= 2 && !transformAll {
      vals[attSoFar] := inst.values[j];
      next := attSoFar + 1;
    } else {
      var k := 0;
      while k < |att.values|
        invariant 0 <= k <= |att.values|
        invariant vals[..attSoFar + k] == old(vals[..attSoFar]) + code[..k]
      {
        var x := if inst.values[j].Missing? then Missing
                 else if k == inst.values[j].x then Val(1) else Val(0);
        vals[attSoFar + k] := x;
        assert code[..k + 1] == code[..k] + [x];
        assert vals[..attSoFar + k + 1] == vals[..attSoFar + k] + [x];
        k := k + 1;
      }
      assert code[..k] == code;
      next := attSoFar + |att.values|;
    }
  }

  // ---------------------------------------------------------------------
  // Numeric class: k-1 cumulative indicators over sorted values

  /**
   * Number of attributes a nominal attribute with n values becomes.  The
   * source advances its cursor by n-1 even when n is 0; see
   * NumericCursorAsWritten.
   */
  function NumericWidth(n: nat): nat
  {
    if n == 0 then 0 else n - 1
  }

  /** `p` lists 0..n-1, each exactly once. */
  predicate IsPermutation(p: seq<int>, n: nat)
  {
    && |p| == n
    && (forall i :: 0 <= i < n ==> 0 <= p[i] < n)
    && (forall i, k :: 0 <= i < k < n ==> p[i] != p[k])
    && (forall v :: 0 <= v < n ==> v in p)
  }

  /** What the sorting step produces: one permutation per nominal attribute. */
  predicate SortedIndices(h: Header, indices: seq<seq<int>>)
  {
    && |indices| == |h.attributes|
    && forall j :: 0 <= j < |h.attributes| && h.attributes[j].Nominal? && j != h.classIndex ==>
         IsPermutation(indices[j], |h.attributes[j].values|)
  }

  /** Naming the numeric-class attributes reads indices[j][1..n-1], all valid value indices. */
  predicate CoversAttribute(att: Attribute, p: seq<int>)
  {
    att.Nominal? && |att.values| >= 2 ==>
      |p| >= |att.values| && forall l :: 1 <= l < |att.values| ==> 0 <= p[l] < |att.values|
  }

  predicate CoversNames(h: Header, indices: seq<seq<int>>)
  {
    forall j :: 0 <= j < |h.attributes| && h.attributes[j].Nominal? && j != h.classIndex && |h.attributes[j].values| >= 2 ==>
      j < |indices| && CoversAttribute(h.attributes[j], indices[j])
  }

  lemma SortedCovers(h: Header, indices: seq<seq<int>>)
    requires SortedIndices(h, indices)
    ensures CoversNames(h, indices)
  {
  }

  /** Values joined with commas, as the attribute-name loop appends them. */
  function JoinComma(s: seq<string>): string
  {
    if |s| == 0 then "" else JoinComma(s[..|s| - 1]) + (if |s| > 1 then "," else "") + s[|s| - 1]
  }

  /** The values named by output attribute k (1 <= k < n): those at sorted positions k..n-1. */
  function NamedValues(att: Attribute, p: seq<int>, k: nat): seq<string>
    requires att.Nominal? && CoversAttribute(att, p) && 1 <= k < |att.values|
  {
    seq(|att.values| - k, l requires 0 <= l < |att.values| - k => att.values[p[k + l]])
  }

  function NumericBlock(h: Header, indices: seq<seq<int>>, j: nat, numeric: bool): (b: seq<Attribute>)
    requires j < |h.attributes| && CoversNames(h, indices)
    ensures |b| == if Copied(h, j) then 1 else NumericWidth(|h.attributes[j].values|)
  {
    var att := h.attributes[j];
    if Copied(h, j) then [att]
    else
      var n := |att.values|;
      seq(NumericWidth(n), t requires 0 <= t < NumericWidth(n) =>
        BinaryAttribute(att.name + "=" + JoinComma(NamedValues(att, indices[j], t + 1)), numeric))
  }

  function NumericBlocks(h: Header, indices: seq<seq<int>>, numeric: bool): seq<seq<Attribute>>
    requires CoversNames(h, indices)
  {
    seq(|h.attributes|, j requires 0 <= j < |h.attributes| => NumericBlock(h, indices, j, numeric))
  }

  function NumericFormat(h: Header, indices: seq<seq<int>>, numeric: bool): Header
    requires 0 <= h.classIndex < |h.attributes| && CoversNames(h, indices)
  {
    var bs := NumericBlocks(h, indices, numeric);
    Header(Flatten(bs), h.classIndex + Shift(bs, h.classIndex))
  }

  /**
   * setOutputFormatNumeric (given the sorted indices): each nominal
   * attribute becomes its cumulative indicators, named from the values at
   * sorted positions k..n-1, and the class attribute is found at the new
   * class index.
   */
  method BuildNumericFormat(h: Header, indices: seq<seq<int>>, numeric: bool) returns (format: Header)
    requires 0 <= h.classIndex < |h.attributes| && CoversNames(h, indices)
    ensures format == NumericFormat(h, indices, numeric)
    ensures 0 <= format.classIndex < |format.attributes|
    ensures format.attributes[format.classIndex] == h.attributes[h.classIndex]
  {
    ghost var bs := NumericBlocks(h, indices, numeric);
    var newClassIndex := h.classIndex;
    var newAtts: seq<Attribute> := [];
    var j := 0;
    while j < |h.attributes|
      invariant 0 <= j <= |h.attributes|
      invariant newAtts == Flatten(bs[..j])
      invariant newClassIndex == h.classIndex + Shift(bs, if j < h.classIndex then j else h.classIndex)
    {
      newAtts, newClassIndex := NumericStep(h, indices, numeric, j, newAtts, newClassIndex);
      j := j + 1;
    }
    assert bs[..j] == bs;
    format := Header(newAtts, newClassIndex);
    NumericClassLands(h, indices, numeric);
  }

  /** One iteration of setOutputFormatNumeric's loop: appends attribute j's block and moves the class index. */
  method NumericStep(h: Header, indices: seq<seq<int>>, numeric: bool, j: nat, newAtts: seq<Attribute>, newClassIndex: int)
    returns (newAtts': seq<Attribute>, newClassIndex': int)
    requires 0 <= h.classIndex < |h.attributes| && j < |h.attributes| && CoversNames(h, indices)
    requires newAtts == Flatten(NumericBlocks(h, indices, numeric)[..j])
    requires newClassIndex == h.classIndex + Shift(NumericBlocks(h, indices, numeric), if j < h.classIndex then j else h.classIndex)
    ensures newAtts' == Flatten(NumericBlocks(h, indices, numeric)[..j + 1])
    ensures newClassIndex' == h.classIndex + Shift(NumericBlocks(h, indices, numeric), if j + 1 < h.classIndex then j + 1 else h.classIndex)
  {
    FlattenSnoc(NumericBlocks(h, indices, numeric), j);
    var block := NumericAttributes(h, indices, j, numeric);
    newClassIndex' := newClassIndex;
    if !Copied(h, j) && j < h.classIndex {
      newClassIndex' := newClassIndex + NumericWidth(NumValues(h.attributes[j])) - 1;
    }
    newAtts' := newAtts + block;
  }

  /** The class attribute of the input is found at the class index of the numeric-class layout. */
  lemma NumericClassLands(h: Header, indices: seq<seq<int>>, numeric: bool)
    requires 0 <= h.classIndex < |h.attributes| && CoversNames(h, indices)
    ensures var format := NumericFormat(h, indices, numeric);
      0 <= format.classIndex < |format.attributes| && format.attributes[format.classIndex] == h.attributes[h.classIndex]
  {
    ClassLands(NumericBlocks(h, indices, numeric), h.classIndex, h.attributes[h.classIndex]);
  }

  /** The attributes setOutputFormatNumeric appends for input attribute j. */
  method NumericAttributes(h: Header, indices: seq<seq<int>>, j: nat, numeric: bool) returns (block: seq<Attribute>)
    requires j < |h.attributes| && CoversNames(h, indices)
    ensures block == NumericBlock(h, indices, j, numeric)
  {
    var att := h.attributes[j];
    if !att.Nominal? || j == h.classIndex {
      block := [att];
    } else {
      ghost var spec := NumericBlock(h, indices, j, numeric);
      var n := |att.values|;
      block := [];
      var k := 1;
      while k < n
        invariant 1 <= k && k - 1 <= |spec|
        invariant block == spec[..k - 1]
      {
        var attributeName := NameOf(att, indices[j], k);
        assert spec[..k] == spec[..k - 1] + [BinaryAttribute(attributeName, numeric)];
        block := block + [BinaryAttribute(attributeName, numeric)];
        k := k + 1;
      }
      assert spec[..NumericWidth(n)] == spec;
    }
  }

  /** The name of output attribute k: the attribute's name, "=", and the values it names. */
  method NameOf(att: Attribute, p: seq<int>, k: nat) returns (attributeName: string)
    requires att.Nominal? && CoversAttribute(att, p) && 1 <= k < |att.values|
    ensures attributeName == att.name + "=" + JoinComma(NamedValues(att, p, k))
  {
    ghost var named := NamedValues(att, p, k);
    var n := |att.values|;
    attributeName := att.name + "=";
    var l := k;
    while l < n
      invariant k <= l <= n
      invariant attributeName == att.name + "=" + JoinComma(named[..l - k])
    {
      assert named[..l - k + 1][..l - k] == named[..l - k];
      if l > k {
        attributeName := attributeName + ",";
      }
      attributeName := attributeName + att.values[p[l]];
      l := l + 1;
    }
    assert named[..l - k] == named;
  }

  /** Position of v in p: where the source's first `while` loop stops. */
  function Position(p: seq<int>, v: int): (r: nat)
    requires v in p
    ensures r < |p| && p[r] == v
    ensures forall i :: 0 <= i < r ==> p[i] != v
  {
    if p[0] == v then 0 else 1 + Position(p[1..], v)
  }

  /** The values instance `inst` contributes for attribute j (numeric class). */
  function NumericCode(h: Header, indices: seq<seq<int>>, inst: Instance, j: nat): (c: seq<Value>)
    requires Fits(h, inst) && SortedIndices(h, indices) && j < |h.attributes|
    ensures |c| == |NumericBlock(h, indices, j, true)|
  {
    SortedCovers(h, indices);
    var v := inst.values[j];
    var n := NumValues(h.attributes[j]);
    if Copied(h, j) then [v]
    else if v.Missing? then seq(NumericWidth(n), k => Missing)
    else
      var p := Position(indices[j], v.x);
      seq(NumericWidth(n), k => if k < p then Val(1) else Val(0))
  }

  function NumericCodes(h: Header, indices: seq<seq<int>>, inst: Instance): seq<seq<Value>>
    requires Fits(h, inst) && SortedIndices(h, indices)
  {
    seq(|h.attributes|, j requires 0 <= j < |h.attributes| => NumericCode(h, indices, inst, j))
  }

  function EncodeNumeric(h: Header, indices: seq<seq<int>>, inst: Instance): Instance
    requires Fits(h, inst) && SortedIndices(h, indices)
  {
    Instance(inst.weight, Flatten(NumericCodes(h, indices, inst)))
  }

  /** Start of the block of attribute j in the numeric-class layout. */
  function NumericOffset(h: Header, indices: seq<seq<int>>, j: nat): nat
    requires j <= |h.attributes| && SortedIndices(h, indices)
  {
    SortedCovers(h, indices);
    |Flatten(NumericBlocks(h, indices, true)[..j])|
  }

  lemma NumericAligned(h: Header, indices: seq<seq<int>>, numeric: bool, inst: Instance, j: nat)
    requires Fits(h, inst) && SortedIndices(h, indices) && j <= |h.attributes|
    ensures CoversNames(h, indices)
    ensures |Flatten(NumericCodes(h, indices, inst)[..j])| == NumericOffset(h, indices, j)
    ensures |Flatten(NumericBlocks(h, indices, numeric)[..j])| == NumericOffset(h, indices, j)
    ensures |EncodeNumeric(h, indices, inst).values| == |Flatten(NumericBlocks(h, indices, numeric))|
  {
    SortedCovers(h, indices);
    var cs := NumericCodes(h, indices, inst);
    var bs := NumericBlocks(h, indices, numeric);
    var ts := NumericBlocks(h, indices, true);
    SameWidths(cs, ts, j);
    SameWidths(bs, ts, j);
    SameWidths(cs, bs, |cs|);
    assert cs[..|cs|] == cs && bs[..|bs|] == bs;
  }

  /**
   * For a present value v of a nominal attribute with n values, slot k-1 of
   * its block is 1 exactly when v is among the values output attribute k
   * names (those at sorted positions k..n-1): the block is p ones followed
   * by zeros, p being v's sorted position.
   */
  lemma NumericThermometer(h: Header, indices: seq<seq<int>>, inst: Instance, j: nat, k: nat)
    requires Fits(h, inst) && SortedIndices(h, indices) && j < |h.attributes|
    requires !Copied(h, j) && inst.values[j].Val?
    requires 1 <= k < |h.attributes[j].values|
    ensures CoversNames(h, indices)
    ensures NumericOffset(h, indices, j) + k - 1 < |EncodeNumeric(h, indices, inst).values|
    ensures EncodeNumeric(h, indices, inst).values[NumericOffset(h, indices, j) + k - 1]
            == if inst.values[j].x in indices[j][k..] then Val(1) else Val(0)
    ensures EncodeNumeric(h, indices, inst).values[NumericOffset(h, indices, j) + k - 1]
            == if k <= Position(indices[j], inst.values[j].x) then Val(1) else Val(0)
  {
    NumericAligned(h, indices, true, inst, j);
    BlockAt(NumericCodes(h, indices, inst), j, k - 1);
    var p := indices[j];
    var v := inst.values[j].x;
    var n := |h.attributes[j].values|;
    var pos := Position(p, v);
    if v in p[k..] {
      var i :| 0 <= i < |p[k..]| && p[k..][i] == v;
      assert p[k + i] == v;
    }
  }

  /** A missing value makes the whole numeric-class block missing. */
  lemma NumericMissingBlock(h: Header, indices: seq<seq<int>>, inst: Instance, j: nat, k: nat)
    requires Fits(h, inst) && SortedIndices(h, indices) && j < |h.attributes|
    requires !Copied(h, j) && inst.values[j].Missing?
    requires k < NumericWidth(|h.attributes[j].values|)
    ensures NumericOffset(h, indices, j) + k < |EncodeNumeric(h, indices, inst).values|
    ensures EncodeNumeric(h, indices, inst).values[NumericOffset(h, indices, j) + k] == Missing
  {
    NumericAligned(h, indices, true, inst, j);
    BlockAt(NumericCodes(h, indices, inst), j, k);
  }

  /** convertInstanceNumeric: fills `vals` block by block, advancing the cursor attSoFar. */
  method ConvertInstanceNumeric(h: Header, indices: seq<seq<int>>, numeric: bool, outputFormat: Header, inst: Instance)
    returns (r: Instance)
    requires 0 <= h.classIndex < |h.attributes| && Fits(h, inst) && SortedIndices(h, indices)
    requires CoversNames(h, indices) && outputFormat == NumericFormat(h, indices, numeric)
    ensures r == EncodeNumeric(h, indices, inst)
    ensures |r.values| == |outputFormat.attributes| && r.weight == inst.weight
  {
    ghost var cs := NumericCodes(h, indices, inst);
    NumericAligned(h, indices, numeric, inst, |h.attributes|);
    assert cs[..|cs|] == cs;
    var vals := new Value[|outputFormat.attributes|];
    var attSoFar := 0;
    var j := 0;
    while j < |h.attributes|
      invariant 0 <= j <= |h.attributes|
      invariant attSoFar == |Flatten(cs[..j])| <= vals.Length
      invariant vals[..attSoFar] == Flatten(cs[..j])
    {
      attSoFar := NumericBlockStep(h, indices, inst, j, vals, attSoFar);
      j := j + 1;
    }
    assert vals[..] == vals[..attSoFar];
    r := Instance(inst.weight, vals[..]);
  }

  /** One iteration of convertInstanceNumeric's loop, stated on the blocks: the first j+1 blocks are in place. */
  method NumericBlockStep(h: Header, indices: seq<seq<int>>, inst: Instance, j: nat, vals: array<Value>, attSoFar: nat) returns (next: nat)
    requires Fits(h, inst) && SortedIndices(h, indices) && j < |h.attributes|
    requires |Flatten(NumericCodes(h, indices, inst))| <= vals.Length
    requires attSoFar == |Flatten(NumericCodes(h, indices, inst)[..j])| <= vals.Length
    requires vals[..attSoFar] == Flatten(NumericCodes(h, indices, inst)[..j])
    modifies vals
    ensures next == |Flatten(NumericCodes(h, indices, inst)[..j + 1])| <= vals.Length
    ensures vals[..next] == Flatten(NumericCodes(h, indices, inst)[..j + 1])
  {
    ghost var cs := NumericCodes(h, indices, inst);
    FlattenSnoc(cs, j);
    FlattenPrefix(cs, j + 1, |cs|);
    assert cs[..|cs|] == cs;
    next := PutNumericCode(h, indices, inst, j, vals, attSoFar);
  }

  /** One iteration of convertInstanceNumeric's loop: writes attribute j's values at attSoFar. */
  method PutNumericCode(h: Header, indices: seq<seq<int>>, inst: Instance, j: nat, vals: array<Value>, attSoFar: nat)
    returns (next: nat)
    requires Fits(h, inst) && SortedIndices(h, indices) && j < |h.attributes|
    requires attSoFar + |NumericCode(h, indices, inst, j)| <= vals.Length
    modifies vals
    ensures next == attSoFar + |NumericCode(h, indices, inst, j)|
    ensures vals[..next] == old(vals[..attSoFar]) + NumericCode(h, indices, inst, j)
  {
    var att := h.attributes[j];
    if !att.Nominal? || j == h.classIndex {
      vals[attSoFar] := inst.values[j];
      next := attSoFar + 1;
    } else {
      var n := |att.values|;
      if inst.values[j].Missing? {
        PutMissing(vals, attSoFar, n);
      } else {
        PutCumulative(vals, attSoFar, n, indices[j], inst.values[j].x);
      }
      next := attSoFar + NumericWidth(n);
    }
  }

  /** A missing value: n-1 missing values at attSoFar. */
  method PutMissing(vals: array<Value>, attSoFar: nat, n: nat)
    requires attSoFar + NumericWidth(n) <= vals.Length
    modifies vals
    ensures vals[..attSoFar + NumericWidth(n)] == old(vals[..attSoFar]) + seq(NumericWidth(n), i => Missing)
  {
    ghost var code := seq(NumericWidth(n), i => Missing);
    var k := 0;
    while k < n - 1
      invariant 0 <= k <= NumericWidth(n)
      invariant vals[..attSoFar + k] == old(vals[..attSoFar]) + code[..k]
    {
      vals[attSoFar + k] := Missing;
      assert code[..k + 1] == code[..k] + [Missing];
      assert vals[..attSoFar + k + 1] == vals[..attSoFar + k] + [Missing];
      k := k + 1;
    }
    assert code[..k] == code;
  }

  /** A present value v: ones up to v's position in the sorted order p, then zeros up to n-1. */
  method PutCumulative(vals: array<Value>, attSoFar: nat, n: nat, p: seq<int>, v: int)
    requires IsPermutation(p, n) && 0 <= v < n
    requires attSoFar + NumericWidth(n) <= vals.Length
    modifies vals
    ensures vals[..attSoFar + NumericWidth(n)]
            == old(vals[..attSoFar]) + seq(NumericWidth(n), i => if i < Position(p, v) then Val(1) else Val(0))
  {
    ghost var pos := Position(p, v);
    ghost var code := seq(NumericWidth(n), i => if i < pos then Val(1) else Val(0));
    var k := 0;
    while v != p[k]
      invariant 0 <= k <= pos
      invariant vals[..attSoFar + k] == old(vals[..attSoFar]) + code[..k]
      decreases pos - k
    {
      vals[attSoFar + k] := Val(1);
      assert code[..k + 1] == code[..k] + [Val(1)];
      assert vals[..attSoFar + k + 1] == vals[..attSoFar + k] + [Val(1)];
      k := k + 1;
    }
    while k < n - 1
      invariant pos <= k <= NumericWidth(n)
      invariant vals[..attSoFar + k] == old(vals[..attSoFar]) + code[..k]
    {
      vals[attSoFar + k] := Val(0);
      assert code[..k + 1] == code[..k] + [Val(0)];
      assert vals[..attSoFar + k + 1] == vals[..attSoFar + k] + [Val(0)];
      k := k + 1;
    }
    assert code[..k] == code;
  }

  // ---------------------------------------------------------------------
  // The counters as the source writes them, for a nominal attribute with no values

  /**
   * newClassIndex as setOutputFormatNumeric computes it: numValues-2 per
   * nominal attribute before the class.  While every nominal attribute has
   * a value, each attribute before the class moves it down by at most one,
   * so it stays a valid index; see EmptyNominalCounterexample otherwise.
   */
  function NumericClassIndexAsWritten(h: Header, j: nat): (r: int)
    requires j <= |h.attributes|
    ensures 0 <= h.classIndex && (forall i :: 0 <= i < j && h.attributes[i].Nominal? ==> |h.attributes[i].values| >= 1)
            ==> r >= h.classIndex - (if j < h.classIndex then j else h.classIndex) >= 0
  {
    if j == 0 then h.classIndex
    else NumericClassIndexAsWritten(h, j - 1)
         + (if !Copied(h, j - 1) && j - 1 < h.classIndex then |h.attributes[j - 1].values| - 2 else 0)
  }

  /**
   * attSoFar as convertInstanceNumeric computes it: numValues-1 per nominal
   * attribute.  Each attribute moves it back by at most one, and it never
   * goes below 0 while every nominal attribute has a value.
   */
  function NumericCursorAsWritten(h: Header, j: nat): (r: int)
    requires j <= |h.attributes|
    ensures r >= -(j as int)
    ensures (forall i :: 0 <= i < j && h.attributes[i].Nominal? ==> |h.attributes[i].values| >= 1) ==> r >= 0
  {
    if j == 0 then 0
    else NumericCursorAsWritten(h, j - 1) + (if Copied(h, j - 1) then 1 else |h.attributes[j - 1].values| - 1)
  }

  /**
   * A nominal attribute with no values, before a numeric class: the layout
   * has the class attribute at index 0, but the source's class index is -1
   * and its cursor is at -1 when the class value is written.
   */
  lemma EmptyNominalCounterexample()
    ensures var h := Header([Nominal("a", []), Numeric("c")], 1);
      && SortedIndices(h, [[], []])
      && NumericFormat(h, [[], []], true).classIndex == 0
      && NumericFormat(h, [[], []], true).attributes == [Numeric("c")]
      && NumericClassIndexAsWritten(h, 2) == -1
      && NumericCursorAsWritten(h, 1) == -1
      && NumericOffset(h, [[], []], 1) == 0
  {
    var h := Header([Nominal("a", []), Numeric("c")], 1);
    var bs := NumericBlocks(h, [[], []], true);
    assert bs[0] == [] && bs[1] == [Numeric("c")];
    assert bs[..1] == [bs[0]];
    assert bs[..2] == bs;
    assert Flatten(bs[..1]) == [];
    assert Flatten(bs) == [Numeric("c")];
  }

  /** With at least one value per nominal attribute the source's counters agree with the layout. */
  lemma {:induction false} CountersAgree(h: Header, indices: seq<seq<int>>, j: nat)
    requires 0 <= h.classIndex < |h.attributes| && SortedIndices(h, indices) && j <= |h.attributes|
    requires forall i :: 0 <= i < |h.attributes| && h.attributes[i].Nominal? ==> |h.attributes[i].values| >= 1
    ensures CoversNames(h, indices)
    ensures NumericCursorAsWritten(h, j) == NumericOffset(h, indices, j)
    ensures NumericClassIndexAsWritten(h, j)
            == h.classIndex + Shift(NumericBlocks(h, indices, true), if j < h.classIndex then j else h.classIndex)
  {
    SortedCovers(h, indices);
    if j > 0 {
      CountersAgree(h, indices, j - 1);
      CountersStep(h, indices, j - 1);
    }
  }

  /** Attribute j moves both counters of the source by the width of its block. */
  lemma CountersStep(h: Header, indices: seq<seq<int>>, j: nat)
    requires 0 <= h.classIndex < |h.attributes| && SortedIndices(h, indices) && j < |h.attributes|
    requires h.attributes[j].Nominal? ==> |h.attributes[j].values| >= 1
    ensures CoversNames(h, indices)
    ensures NumericOffset(h, indices, j + 1) == NumericOffset(h, indices, j) + |NumericBlocks(h, indices, true)[j]|
    ensures NumericCursorAsWritten(h, j + 1) - NumericCursorAsWritten(h, j) == |NumericBlocks(h, indices, true)[j]|
    ensures NumericClassIndexAsWritten(h, j + 1) - NumericClassIndexAsWritten(h, j)
            == if j < h.classIndex then |NumericBlocks(h, indices, true)[j]| - 1 else 0
  {
    SortedCovers(h, indices);
    FlattenSnoc(NumericBlocks(h, indices, true), j);
  }
}
