/**
 * The supervised NominalToBinary filter as a state machine.  With a nominal
 * class the output format is known as soon as the input format is, and every
 * instance is converted on input.  With a numeric class the value orderings
 * (m_Indices) need the whole first batch: instances are buffered, and
 * batchFinished fixes the ordering, builds the output format and converts
 * everything buffered.
 */
module SupervisedAttribute {
  import opened BinaryEncoding

  datatype Option<T> = None | Some(value: T)

  /** The exceptions the filter raises. */
  datatype FilterError = IllegalState | UnassignedClass | IndexOutOfBounds

  datatype Result<T> = Ok(value: T) | Err(error: FilterError)

  /** The class attribute of a header whose class index is set. */
  function ClassAttribute(h: Header): Attribute
    requires 0 <= h.classIndex < |h.attributes|
  {
    h.attributes[h.classIndex]
  }

  /** Every pending instance, converted for a numeric class. */
  function EncodeAllNumeric(h: Header, indices: seq<seq<int>>, insts: seq<Instance>): seq<Instance>
    requires SortedIndices(h, indices)
    requires forall i :: 0 <= i < |insts| ==> Fits(h, insts[i])
  {
    seq(|insts|, i requires 0 <= i < |insts| => EncodeNumeric(h, indices, insts[i]))
  }

  /** The conversion loop of batchFinished: every pending instance, converted for a numeric class, in order. */
  method ConvertAllNumeric(h: Header, indices: seq<seq<int>>, numeric: bool, format: Header, insts: seq<Instance>)
    returns (converted: seq<Instance>)
    requires 0 <= h.classIndex < |h.attributes| && SortedIndices(h, indices) && CoversNames(h, indices)
    requires format == NumericFormat(h, indices, numeric)
    requires forall i :: 0 <= i < |insts| ==> Fits(h, insts[i])
    ensures converted == EncodeAllNumeric(h, indices, insts)
  {
    converted := [];
    var i := 0;
    while i < |insts|
      invariant 0 <= i <= |insts|
      invariant converted == EncodeAllNumeric(h, indices, insts[..i])
    {
      var c := ConvertInstanceNumeric(h, indices, numeric, format, insts[i]);
      assert insts[..i + 1] == insts[..i] + [insts[i]];
      converted := converted + [c];
      i := i + 1;
    }
    assert insts[..i] == insts;
  }

  class NominalToBinary {
    /** Binary attributes are numeric rather than nominal (option -N clears it). */
    var numeric: bool
    /** Every nominal attribute is expanded, even with two values (option -A). */
    var transformAll: bool
    var inputFormat: Option<Header>
    /** The instances buffered in the input format, awaiting batchFinished. */
    var pending: seq<Instance>
    /** The sorted value orderings m_Indices, one per attribute. */
    var indices: Option<seq<seq<int>>>
    var outputFormat: Option<Header>
    /** The converted instances awaiting collection. */
    var queue: seq<Instance>
    var newBatch: bool

    /** The output format matches the input format and the orderings. */
    ghost predicate Valid()
      reads this
    {
      inputFormat.Some? ==>
        var h := inputFormat.value;
        && WellFormed(h)
        && (forall i :: 0 <= i < |pending| ==> Fits(h, pending[i]))
        && (0 <= h.classIndex && ClassAttribute(h).Nominal? ==>
              indices.None? && outputFormat == Some(NominalFormat(h, numeric, transformAll)))
        && (0 <= h.classIndex && indices.Some? ==>
              && ClassAttribute(h).Numeric?
              && SortedIndices(h, indices.value)
              && CoversNames(h, indices.value)
              && outputFormat == Some(NumericFormat(h, indices.value, numeric)))
    }

    constructor(numeric: bool, transformAll: bool)
      ensures Valid()
      ensures this.numeric == numeric && this.transformAll == transformAll
      ensures inputFormat.None? && indices.None? && outputFormat.None?
      ensures pending == [] && queue == [] && newBatch
    {
      this.numeric := numeric;
      this.transformAll := transformAll;
      inputFormat := None;
      pending := [];
      indices := None;
      outputFormat := None;
      queue := [];
      newBatch := true;
    }

    /**
     * setInputFormat: resets the filter to the new header, then fails if no
     * class is set; otherwise builds the output format (from the orderings
     * left by an earlier batch, if any, when the class is not nominal),
     * forgets the orderings and says whether the output format is known.
     */
    method SetInputFormat(h: Header) returns (r: Result<bool>)
      requires WellFormed(h)
      modifies this
      ensures inputFormat == Some(h) && pending == [] && queue == [] && newBatch
      ensures numeric == old(numeric) && transformAll == old(transformAll)
      ensures h.classIndex < 0 ==>
        r == Err(UnassignedClass) && outputFormat.None? && indices == old(indices) && Valid()
      ensures 0 <= h.classIndex && ClassAttribute(h).Nominal? ==>
        r == Ok(true) && outputFormat == Some(NominalFormat(h, numeric, transformAll)) && indices.None? && Valid()
      ensures 0 <= h.classIndex && !ClassAttribute(h).Nominal? && old(indices).None? ==>
        r == Ok(false) && outputFormat.None? && indices.None? && Valid()
      ensures 0 <= h.classIndex && !ClassAttribute(h).Nominal? && old(indices).Some? ==>
        if CoversNames(h, old(indices).value) then
          r == Ok(false) && outputFormat == Some(NumericFormat(h, old(indices).value, numeric))
          && indices.None? && Valid()
        else
          r == Err(IndexOutOfBounds) && outputFormat.None? && indices == old(indices)
    {
      inputFormat := Some(h);
      pending := [];
      outputFormat := None;
      queue := [];
      newBatch := true;
      if h.classIndex < 0 {
        return Err(UnassignedClass);
      }
      if ClassAttribute(h).Nominal? {
        var format := BuildNominalFormat(h, numeric, transformAll);
        outputFormat := Some(format);
      } else if indices.Some? {
        if !CoversNames(h, indices.value) {
          return Err(IndexOutOfBounds);
        }
        var format := BuildNumericFormat(h, indices.value, numeric);
        outputFormat := Some(format);
      }
      indices := None;
      r := Ok(ClassAttribute(h).Nominal?);
    }

    /**
     * input: converts the instance at once when the orderings are known or
     * the class is nominal, and buffers it otherwise; a new batch first
     * empties the output queue.
     */
    method Input(inst: Instance) returns (r: Result<bool>)
      requires Valid()
      requires inputFormat.Some? ==> Fits(inputFormat.value, inst)
      modifies this
      ensures Valid()
      ensures inputFormat == old(inputFormat) && indices == old(indices) && outputFormat == old(outputFormat)
      ensures numeric == old(numeric) && transformAll == old(transformAll)
      ensures old(inputFormat).None? ==>
        r == Err(IllegalState) && pending == old(pending) && queue == old(queue) && newBatch == old(newBatch)
      ensures old(inputFormat).Some? ==>
        var h := inputFormat.value;
        var base := if old(newBatch) then [] else old(queue);
        && !newBatch
        && if h.classIndex < 0 then
             r == Err(UnassignedClass) && pending == old(pending) && queue == base
           else if indices.Some? then
             SortedIndices(h, indices.value)
             && r == Ok(true) && pending == old(pending) && queue == base + [EncodeNumeric(h, indices.value, inst)]
           else if ClassAttribute(h).Nominal? then
             r == Ok(true) && pending == old(pending) && queue == base + [EncodeNominal(h, transformAll, inst)]
           else
             r == Ok(false) && pending == old(pending) + [inst] && queue == base
    {
      if inputFormat.None? {
        return Err(IllegalState);
      }
      var h := inputFormat.value;
      if newBatch {
        queue := [];
        newBatch := false;
      }
      if h.classIndex < 0 {
        return Err(UnassignedClass);
      }
      if indices.Some? {
        var converted := ConvertInstanceNumeric(h, indices.value, numeric, outputFormat.value, inst);
        queue := queue + [converted];
        return Ok(true);
      }
      if ClassAttribute(h).Nominal? {
        var converted := ConvertInstanceNominal(h, numeric, transformAll, outputFormat.value, inst);
        queue := queue + [converted];
        return Ok(true);
      }
      pending := pending + [inst];
      r := Ok(false);
    }

    /**
     * batchFinished: with a numeric class and no orderings yet, takes the
     * orderings `sorted` (what averaging the class per value and sorting
     * yields), builds the output format and converts every buffered
     * instance; then empties the buffer and starts a new batch.  Reports
     * whether output is waiting.
     */
    method BatchFinished(sorted: seq<seq<int>>) returns (r: Result<bool>)
      requires Valid()
      requires (inputFormat.Some? && indices.None? && 0 <= inputFormat.value.classIndex
                && ClassAttribute(inputFormat.value).Numeric?) ==> SortedIndices(inputFormat.value, sorted)
      modifies this
      ensures Valid()
      ensures inputFormat == old(inputFormat)
      ensures numeric == old(numeric) && transformAll == old(transformAll)
      ensures old(inputFormat).None? ==>
        r == Err(IllegalState) && unchanged(this)
      ensures old(inputFormat).Some? && old(indices).None? && inputFormat.value.classIndex < 0 ==>
        r == Err(UnassignedClass) && unchanged(this)
      ensures old(inputFormat).Some? && old(indices).None? && 0 <= inputFormat.value.classIndex
              && ClassAttribute(inputFormat.value).Numeric? ==>
        var h := inputFormat.value;
        && SortedIndices(h, sorted)
        && CoversNames(h, sorted)
        && indices == Some(sorted)
        && outputFormat == Some(NumericFormat(h, sorted, numeric))
        && queue == old(queue) + EncodeAllNumeric(h, sorted, old(pending))
        && pending == [] && newBatch && r == Ok(|queue| != 0)
      ensures old(inputFormat).Some? && (old(indices).Some? ||
                (0 <= inputFormat.value.classIndex && !ClassAttribute(inputFormat.value).Numeric?)) ==>
        indices == old(indices) && outputFormat == old(outputFormat) && queue == old(queue)
        && pending == [] && newBatch && r == Ok(|queue| != 0)
    {
      if inputFormat.None? {
        return Err(IllegalState);
      }
      var h := inputFormat.value;
      if indices.None? {
        if h.classIndex < 0 {
          return Err(UnassignedClass);
        }
        if ClassAttribute(h).Numeric? {
          SortedCovers(h, sorted);
          indices := Some(sorted);
          var format := BuildNumericFormat(h, sorted, numeric);
          outputFormat := Some(format);
          var converted := ConvertAllNumeric(h, sorted, numeric, format, pending);
          queue := queue + converted;
        }
      }
      pending := [];
      newBatch := true;
      r := Ok(|queue| != 0);
    }

    /**
     * getOptions as written: a one-slot array into which "-N" and "-A" are
     * both written when both apply; the second write is out of bounds.
     */
    method GetOptionsAsWritten() returns (r: Result<seq<string>>)
      ensures r == Err(IndexOutOfBounds) <==> !numeric && transformAll
      ensures r.Ok? ==> |r.value| == 1
      ensures r.Ok? ==> (r.value[0] == "-N" <==> !numeric) && (r.value[0] == "-A" <==> transformAll)
      ensures r.Ok? ==> r.value == [if !numeric then "-N" else if transformAll then "-A" else ""]
    {
      var options := new string[1];
      var current := 0;
      if !numeric {
        options[current] := "-N";
        current := current + 1;
      }
      if transformAll {
        if current >= options.Length {
          return Err(IndexOutOfBounds);
        }
        options[current] := "-A";
        current := current + 1;
      }
      while current < options.Length
        invariant 0 <= current <= options.Length
        invariant !numeric && current > 0 ==> options[0] == "-N"
        invariant transformAll && current > 0 ==> options[0] == "-A"
        invariant numeric && !transformAll && current > 0 ==> options[0] == ""
      {
        options[current] := "";
        current := current + 1;
      }
      r := Ok(options[..]);
    }

    /**
     * getOptions with room for both flags: "-N" is listed iff binary
     * attributes are nominal, "-A" iff all values are transformed, and the
     * rest is blank.
     */
    method GetOptions() returns (options: seq<string>)
      ensures |options| == 2
      ensures "-N" in options <==> !numeric
      ensures "-A" in options <==> transformAll
      ensures forall i :: 0 <= i < |options| ==> options[i] in {"-N", "-A", ""}
      ensures options == ((if !numeric then ["-N"] else []) + (if transformAll then ["-A"] else []) + ["", ""])[..2]
    {
      var slots := new string[2];
      var current := 0;
      if !numeric {
        slots[current] := "-N";
        current := current + 1;
      }
      if transformAll {
        slots[current] := "-A";
        current := current + 1;
      }
      ghost var written := slots[..current];
      assert written == (if !numeric then ["-N"] else []) + (if transformAll then ["-A"] else []);
      assert "-N" in written <==> !numeric;
      assert "-A" in written <==> transformAll;
      while current < slots.Length
        invariant 0 <= current <= slots.Length
        invariant slots[..|written|] == written
        invariant forall i :: |written| <= i < current ==> slots[i] == ""
      {
        slots[current] := "";
        current := current + 1;
      }
      options := slots[..];
      assert forall i :: 0 <= i < |options| ==> i < |written| || options[i] == "";
    }
  }
}
