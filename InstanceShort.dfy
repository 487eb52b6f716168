/**
 * A dense data instance whose attribute values are 16-bit integers, with
 * Short.MIN_VALUE as the code for "missing".  The attribute vector is an
 * array that the instance replaces by a fresh copy before each change, so
 * that instances sharing one vector (shallow copies) never see each other's
 * updates.
 */
module WekaCore {

  /** Java's `short`. */
  newtype Short = x: int | -32768 <= x < 32768

  /** Short.MIN_VALUE, the code for a missing value. */
  const MissingValue: Short := -32768

  /** How a call ends: normally, or with the exception the source throws. */
  datatype Outcome =
    | Done
    | RuntimeError          // RuntimeException: the instance has access to a dataset
    | IllegalArgument       // IllegalArgumentException
    | IndexOutOfBounds      // thrown by System.arraycopy / array allocation
    | UnassignedDataset     // UnassignedDatasetException

  /** Sequence-level meaning of inserting a missing value at `pos`. */
  function InsertedAt(s: seq<Short>, pos: nat): (r: seq<Short>)
    requires pos <= |s|
    ensures |r| == |s| + 1 && r[pos] == MissingValue
    ensures forall i :: 0 <= i < pos ==> r[i] == s[i]
    ensures forall i :: pos < i < |r| ==> r[i] == s[i - 1]
  {
    s[..pos] + [MissingValue] + s[pos..]
  }

  /** Sequence-level meaning of deleting the value at `pos`. */
  function DeletedAt(s: seq<Short>, pos: nat): (r: seq<Short>)
    requires pos < |s|
    ensures |r| == |s| - 1
    ensures forall i :: 0 <= i < pos ==> r[i] == s[i]
    ensures forall i :: pos <= i < |r| ==> r[i] == s[i + 1]
  {
    s[..pos] + s[pos + 1..]
  }

  /** Deleting the slot just inserted gives back the original vector. */
  lemma DeleteUndoesInsert(s: seq<Short>, pos: nat)
    requires pos <= |s|
    ensures DeletedAt(InsertedAt(s, pos), pos) == s
  {
    var t := InsertedAt(s, pos);
    assert DeletedAt(t, pos) == t[..pos] + t[pos + 1..];
    assert t[..pos] == s[..pos];
    assert t[pos + 1..] == s[pos..];
    assert s[..pos] + s[pos..] == s;
  }

  /** Every missing slot takes the replacement value; the others stay. */
  function ReplacedMissing(s: seq<Short>, a: seq<Short>): (r: seq<Short>)
    requires |a| == |s|
    ensures |r| == |s|
    ensures forall i :: 0 <= i < |s| && s[i] == MissingValue ==> r[i] == a[i]
    ensures forall i :: 0 <= i < |s| && s[i] != MissingValue ==> r[i] == s[i]
  {
    seq(|s|, i requires 0 <= i < |s| => if s[i] == MissingValue then a[i] else s[i])
  }

  /**
   * Stand-in for InstancesShort, the dataset an instance may point to.  It is
   * not part of this model beyond its identity and its class index.
   */
  class Dataset {
    const classIndex: int

    constructor (classIndex: int)
      ensures this.classIndex == classIndex
    {
      this.classIndex := classIndex;
    }
  }

  /** System.arraycopy(src, srcPos, dst, dstPos, len) for in-range arguments. */
  method ArrayCopy(src: array<Short>, srcPos: nat, dst: array<Short>, dstPos: nat, len: nat)
    requires src != dst
    requires srcPos + len <= src.Length && dstPos + len <= dst.Length
    modifies dst
    ensures forall i :: dstPos <= i < dstPos + len ==> dst[i] == src[i - dstPos + srcPos]
    ensures forall i :: 0 <= i < dst.Length && !(dstPos <= i < dstPos + len) ==> dst[i] == old(dst[i])
  {
    var k := 0;
    while k < len
      invariant 0 <= k <= len
      invariant forall i :: dstPos <= i < dstPos + k ==> dst[i] == src[i - dstPos + srcPos]
      invariant forall i :: 0 <= i < dst.Length && !(dstPos <= i < dstPos + k) ==> dst[i] == old(dst[i])
    {
      dst[dstPos + k] := src[srcPos + k];
      k := k + 1;
    }
  }

  class InstanceShort {
    /** The dataset the instance has access to; null if none. */
    var dataset: Dataset?
    /** The attribute values; possibly shared with other instances. */
    var attValues: array<Short>
    /** The instance's weight (a Java float). */
    var weight: real

    /** The attribute vector as a value. */
    function Values(): seq<Short>
      reads this, attValues
    {
      attValues[..]
    }

    /** numAttributes() and numValues(). */
    function NumAttributes(): nat
      reads this
    {
      attValues.Length
    }

    /** isMissing(attIndex): the stored value is the missing code. */
    function IsMissing(attIndex: nat): (missing: bool)
      requires attIndex < attValues.Length
      reads this, attValues
      ensures missing <==> Values()[attIndex] == MissingValue
    {
      attValues[attIndex] == MissingValue
    }

    /**
     * The protected copy constructor: shares the attribute vector and the
     * weight of `instance` and has no dataset.
     */
    constructor FromInstance(instance: InstanceShort)
      ensures attValues == instance.attValues && weight == instance.weight
      ensures dataset == null
    {
      attValues := instance.attValues;
      weight := instance.weight;
      dataset := null;
    }

    /** InstanceShort(weight, attValues): keeps a reference to `attValues`. */
    constructor FromValues(weight: real, attValues: array<Short>)
      ensures this.attValues == attValues && this.weight == weight
      ensures dataset == null
    {
      this.attValues := attValues;
      this.weight := weight;
      dataset := null;
    }

    /** InstanceShort(numAttributes): all values missing, weight one, no dataset. */
    constructor Missing(numAttributes: nat)
      ensures fresh(attValues) && attValues.Length == numAttributes
      ensures forall i :: 0 <= i < numAttributes ==> IsMissing(i)
      ensures weight == 1.0 && dataset == null
    {
      var vals := new Short[numAttributes];
      var i := 0;
      while i < vals.Length
        invariant 0 <= i <= vals.Length
        invariant forall k :: 0 <= k < i ==> vals[k] == MissingValue
      {
        vals[i] := MissingValue;
        i := i + 1;
      }
      attValues := vals;
      weight := 1.0;
      dataset := null;
    }

    /** copy(): a shallow copy that shares the vector and the dataset. */
    method Copy() returns (r: InstanceShort)
      ensures fresh(r)
      ensures r.attValues == attValues && r.weight == weight && r.dataset == dataset
    {
      r := new InstanceShort.FromInstance(this);
      r.dataset := dataset;
    }

    /** toShortArray(): a fresh array with the same values. */
    method ToShortArray() returns (newValues: array<Short>)
      ensures fresh(newValues) && newValues[..] == Values()
    {
      newValues := new Short[attValues.Length];
      ArrayCopy(attValues, 0, newValues, 0, attValues.Length);
      assert newValues[..] == attValues[..];
    }

    /** freshAttributeVector(): replaces the vector by a private copy of it. */
    method FreshAttributeVector()
      modifies this
      ensures fresh(attValues) && Values() == old(Values())
      ensures weight == old(weight) && dataset == old(dataset)
    {
      attValues := ToShortArray();
    }

    /** forceDeleteAttributeAt(position). */
    method ForceDeleteAttributeAt(position: nat)
      requires position < attValues.Length
      modifies this
      ensures fresh(attValues) && Values() == DeletedAt(old(Values()), position)
      ensures weight == old(weight) && dataset == old(dataset)
    {
      var newValues := new Short[attValues.Length - 1];
      ArrayCopy(attValues, 0, newValues, 0, position);
      if position < attValues.Length - 1 {
        ArrayCopy(attValues, position + 1, newValues, position, attValues.Length - (position + 1));
      }
      assert newValues[..] == DeletedAt(attValues[..], position);
      attValues := newValues;
    }

    /** forceInsertAttributeAt(position): the new slot is missing. */
    method ForceInsertAttributeAt(position: nat)
      requires position <= attValues.Length
      modifies this
      ensures fresh(attValues) && Values() == InsertedAt(old(Values()), position)
      ensures weight == old(weight) && dataset == old(dataset)
    {
      var newValues := new Short[attValues.Length + 1];
      ArrayCopy(attValues, 0, newValues, 0, position);
      newValues[position] := MissingValue;
      ArrayCopy(attValues, position, newValues, position + 1, attValues.Length - position);
      assert newValues[..] == InsertedAt(attValues[..], position);
      attValues := newValues;
    }

    /**
     * deleteAttributeAt(position).  It refuses when the instance HAS a
     * dataset, so under its own JML precondition (dataset != null) it always
     * throws; a position out of range makes System.arraycopy (or the
     * allocation of a negative-length array) throw before anything changes.
     */
    method DeleteAttributeAt(position: int) returns (outcome: Outcome)
      modifies this
      ensures old(dataset) != null ==> outcome == RuntimeError
      ensures old(dataset) == null && !(0 <= position < old(attValues.Length)) ==> outcome == IndexOutOfBounds
      ensures old(dataset) == null && 0 <= position < old(attValues.Length) ==> outcome == Done
      ensures outcome == Done ==> fresh(attValues) && Values() == DeletedAt(old(Values()), position)
      ensures outcome != Done ==> attValues == old(attValues)
      ensures weight == old(weight) && dataset == old(dataset)
    {
      if dataset != null {
        return RuntimeError;
      }
      if !(0 <= position < attValues.Length) {
        return IndexOutOfBounds;
      }
      ForceDeleteAttributeAt(position);
      outcome := Done;
    }

    /** insertAttributeAt(position). */
    method InsertAttributeAt(position: int) returns (outcome: Outcome)
      modifies this
      ensures old(dataset) != null ==> outcome == RuntimeError
      ensures old(dataset) == null && !(0 <= position <= old(attValues.Length)) ==> outcome == IllegalArgument
      ensures old(dataset) == null && 0 <= position <= old(attValues.Length) ==> outcome == Done
      ensures outcome == Done ==> fresh(attValues) && Values() == InsertedAt(old(Values()), position)
      ensures outcome != Done ==> attValues == old(attValues)
      ensures weight == old(weight) && dataset == old(dataset)
    {
      if dataset != null {
        return RuntimeError;
      }
      if position < 0 || position > attValues.Length {
        return IllegalArgument;
      }
      ForceInsertAttributeAt(position);
      outcome := Done;
    }

    /**
     * hasMissingValue(): some attribute other than the class attribute is
     * missing.  Throws when the instance has no dataset.
     */
    method HasMissingValue() returns (outcome: Outcome, found: bool)
      ensures outcome == (if dataset == null then UnassignedDataset else Done)
      ensures outcome == Done ==>
        (found <==> exists i :: 0 <= i < attValues.Length && i != dataset.classIndex && attValues[i] == MissingValue)
    {
      if dataset == null {
        return UnassignedDataset, false;
      }
      var i := 0;
      while i < attValues.Length
        invariant 0 <= i <= attValues.Length
        invariant forall k :: 0 <= k < i && k != dataset.classIndex ==> attValues[k] != MissingValue
      {
        if i != dataset.classIndex {
          if IsMissing(i) {
            return Done, true;
          }
        }
        i := i + 1;
      }
      return Done, false;
    }

    /** mergeInstance(inst): the concatenation, weight one, no dataset. */
    method MergeInstance(inst: InstanceShort) returns (r: InstanceShort)
      ensures fresh(r) && fresh(r.attValues)
      ensures r.Values() == Values() + inst.Values()
      ensures r.weight == 1.0 && r.dataset == null
    {
      var m := 0;
      var newVals := new Short[attValues.Length + inst.attValues.Length];
      var j := 0;
      while j < attValues.Length
        invariant 0 <= j <= attValues.Length && m == j
        invariant forall k :: 0 <= k < j ==> newVals[k] == attValues[k]
      {
        newVals[m] := attValues[j];
        j, m := j + 1, m + 1;
      }
      j := 0;
      while j < inst.attValues.Length
        invariant 0 <= j <= inst.attValues.Length && m == attValues.Length + j
        invariant forall k :: 0 <= k < attValues.Length ==> newVals[k] == attValues[k]
        invariant forall k :: 0 <= k < j ==> newVals[attValues.Length + k] == inst.attValues[k]
      {
        newVals[m] := inst.attValues[j];
        j, m := j + 1, m + 1;
      }
      assert newVals[..] == attValues[..] + inst.attValues[..];
      r := new InstanceShort.FromValues(1.0, newVals);
    }

    /**
     * replaceMissingValues(array): refuses a null array or one of another
     * length; otherwise copies the vector and fills each missing slot.
     */
    method ReplaceMissingValues(replacement: array?<Short>) returns (outcome: Outcome)
      modifies this
      ensures outcome == (if replacement == null || replacement.Length != old(attValues.Length) then IllegalArgument else Done)
      ensures outcome == Done ==> fresh(attValues) && Values() == ReplacedMissing(old(Values()), replacement[..])
      ensures outcome != Done ==> attValues == old(attValues)
      ensures weight == old(weight) && dataset == old(dataset)
    {
      if replacement == null || replacement.Length != attValues.Length {
        return IllegalArgument;
      }
      ghost var before := Values();
      FreshAttributeVector();
      var vals := attValues;
      var i := 0;
      while i < attValues.Length
        invariant attValues == vals && fresh(vals) && weight == old(weight) && dataset == old(dataset)
        invariant 0 <= i <= attValues.Length == |before|
        invariant forall k :: 0 <= k < i ==> attValues[k] == ReplacedMissing(before, replacement[..])[k]
        invariant forall k :: i <= k < attValues.Length ==> attValues[k] == before[k]
      {
        if IsMissing(i) {
          attValues[i] := replacement[i];
        }
        i := i + 1;
      }
      assert Values() == ReplacedMissing(before, replacement[..]);
      outcome := Done;
    }

    /**
     * setValue(attIndex, value): copies the vector first, so the array it
     * had before (which a copy may share) is not written.
     */
    method SetValue(attIndex: nat, value: Short)
      requires attIndex < attValues.Length
      modifies this
      ensures fresh(attValues) && Values() == old(Values())[attIndex := value]
      ensures weight == old(weight) && dataset == old(dataset)
    {
      FreshAttributeVector();
      attValues[attIndex] := value;
    }
  }

  /**
   * A shallow copy keeps its values when the original is changed with
   * setValue: `copied` is the copy's vector afterwards, `changed` the
   * original's.
   */
  method SetValueAfterCopy(vals: seq<Short>, attIndex: nat, value: Short)
    returns (copied: seq<Short>, changed: seq<Short>)
    requires attIndex < |vals|
    ensures copied == vals
    ensures changed == vals[attIndex := value]
  {
    var arr := new Short[|vals|](i requires 0 <= i < |vals| => vals[i]);
    var original := new InstanceShort.FromValues(1.0, arr);
    var copy := original.Copy();
    original.SetValue(attIndex, value);
    copied := copy.Values();
    changed := original.Values();
  }

  /**
   * The array handed to InstanceShort(weight, attValues) is shared, yet a
   * later setValue on the instance leaves that array as it was.
   */
  method SetValueKeepsCallerArray(vals: seq<Short>, attIndex: nat, value: Short)
    returns (callerArray: seq<Short>, instanceValues: seq<Short>)
    requires attIndex < |vals|
    ensures callerArray == vals
    ensures instanceValues == vals[attIndex := value]
  {
    var arr := new Short[|vals|](i requires 0 <= i < |vals| => vals[i]);
    var inst := new InstanceShort.FromValues(2.0, arr);
    inst.SetValue(attIndex, value);
    callerArray := arr[..];
    instanceValues := inst.Values();
  }

  /** Inserting at a position and then deleting there restores the vector. */
  method InsertThenDelete(vals: seq<Short>, position: nat) returns (after: seq<Short>, missingAt: bool)
    requires position <= |vals|
    ensures missingAt
    ensures after == vals
  {
    var arr := new Short[|vals|](i requires 0 <= i < |vals| => vals[i]);
    var inst := new InstanceShort.FromValues(1.0, arr);
    var o1 := inst.InsertAttributeAt(position);
    missingAt := inst.IsMissing(position);
    var o2 := inst.DeleteAttributeAt(position);
    after := inst.Values();
    DeleteUndoesInsert(vals, position);
  }
}
