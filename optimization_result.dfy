/** OptimizationResult: an immutable record of one optimization attempt and its array form. */
module Results {
  import opened Wrappers
  import opened PhpArrays

  /** The scalar values `toArray` produces. */
  datatype Field = FBool(b: bool) | FInt(i: int) | FReal(r: real) | FString(s: string) | FNull

  /** A datatype value never changes once built, which is what the readonly promoted properties guarantee. */
  datatype OptimizationResult = OptimizationResult(
    success: bool,
    sourcePath: string,
    destinationPath: Option<string>,
    originalSize: int,
    optimizedSize: int,
    compressionRatio: real,
    optimizerClass: Option<string>,
    error: Option<string> := None)
  {
    /** `getSavedBytes()`: negative when the output grew. */
    function SavedBytes(): (saved: int)
      ensures saved + optimizedSize == originalSize
      ensures saved < 0 <==> optimizedSize > originalSize
    {
      originalSize - optimizedSize
    }

    /** `getCompressionPercentage()`. */
    function CompressionPercentage(): real
    {
      compressionRatio * 100.0
    }

    /** `toArray()`. */
    function ToArray(): Entries<Field>
    {
      [ ("success", FBool(success)),
        ("source_path", FString(sourcePath)),
        ("destination_path", NullableString(destinationPath)),
        ("original_size", FInt(originalSize)),
        ("optimized_size", FInt(optimizedSize)),
        ("saved_bytes", FInt(SavedBytes())),
        ("compression_ratio", FReal(compressionRatio)),
        ("compression_percentage", FReal(CompressionPercentage())),
        ("optimizer_class", NullableString(optimizerClass)),
        ("error", NullableString(error)) ]
    }
  }

  const RESULT_KEYS: seq<string> := [
    "success", "source_path", "destination_path", "original_size", "optimized_size",
    "saved_bytes", "compression_ratio", "compression_percentage", "optimizer_class", "error"]

  function NullableString(s: Option<string>): Field
  {
    if s.Some? then FString(s.value) else FNull
  }

  function AsNullableString(f: Field): Option<Option<string>>
  {
    match f
    case FString(s) => Some(Some(s))
    case FNull => Some(None)
    case _ => None
  }

  function AsBool(f: Option<Field>): Option<bool>
  {
    if f.Some? && f.value.FBool? then Some(f.value.b) else None
  }

  function AsInt(f: Option<Field>): Option<int>
  {
    if f.Some? && f.value.FInt? then Some(f.value.i) else None
  }

  function AsReal(f: Option<Field>): Option<real>
  {
    if f.Some? && f.value.FReal? then Some(f.value.r) else None
  }

  function AsString(f: Option<Field>): Option<string>
  {
    if f.Some? && f.value.FString? then Some(f.value.s) else None
  }

  function AsNullable(f: Option<Field>): Option<Option<string>>
  {
    if f.Some? then AsNullableString(f.value) else None
  }

  /** Reads a result back from its array form, from the eight stored fields. */
  function FromArray(a: Entries<Field>): Option<OptimizationResult>
  {
    var success :- AsBool(Get(a, "success"));
    var sourcePath :- AsString(Get(a, "source_path"));
    var destinationPath :- AsNullable(Get(a, "destination_path"));
    var originalSize :- AsInt(Get(a, "original_size"));
    var optimizedSize :- AsInt(Get(a, "optimized_size"));
    var ratio :- AsReal(Get(a, "compression_ratio"));
    var optimizerClass :- AsNullable(Get(a, "optimizer_class"));
    var error :- AsNullable(Get(a, "error"));
    Some(OptimizationResult(success, sourcePath, destinationPath, originalSize, optimizedSize, ratio, optimizerClass, error))
  }

  /**
   * `toArray` has exactly the ten keys, in order and distinct; `saved_bytes`
   * is `getSavedBytes()` and `compression_percentage` is the ratio times 100.
   */
  lemma ToArrayShape(r: OptimizationResult)
    ensures Keys(r.ToArray()) == RESULT_KEYS && DistinctKeys(r.ToArray())
    ensures Get(r.ToArray(), "saved_bytes") == Some(FInt(r.originalSize - r.optimizedSize))
    ensures Get(r.ToArray(), "compression_percentage") == Some(FReal(r.compressionRatio * 100.0))
  {
    var a := r.ToArray();
    assert Keys(a) == RESULT_KEYS;
    GetAt(a, 5);
    GetAt(a, 7);
  }

  /** Each stored field sits under its own key of `toArray`. */
  lemma ToArrayFields(r: OptimizationResult)
    ensures Get(r.ToArray(), "success") == Some(FBool(r.success))
    ensures Get(r.ToArray(), "source_path") == Some(FString(r.sourcePath))
    ensures Get(r.ToArray(), "destination_path") == Some(NullableString(r.destinationPath))
    ensures Get(r.ToArray(), "original_size") == Some(FInt(r.originalSize))
    ensures Get(r.ToArray(), "optimized_size") == Some(FInt(r.optimizedSize))
    ensures Get(r.ToArray(), "compression_ratio") == Some(FReal(r.compressionRatio))
    ensures Get(r.ToArray(), "optimizer_class") == Some(NullableString(r.optimizerClass))
    ensures Get(r.ToArray(), "error") == Some(NullableString(r.error))
  {
    var a := r.ToArray();
    ToArrayShape(r);
    GetAt(a, 0);
    GetAt(a, 1);
    GetAt(a, 2);
    GetAt(a, 3);
    GetAt(a, 4);
    GetAt(a, 6);
    GetAt(a, 8);
    GetAt(a, 9);
  }

  /** Every stored field mirrors into the array: reading the array back gives the same result. */
  lemma ToArrayRoundTrip(r: OptimizationResult)
    ensures FromArray(r.ToArray()) == Some(r)
  {
    var a := r.ToArray();
    ToArrayFields(r);
    assert AsBool(Get(a, "success")) == Some(r.success);
    assert AsString(Get(a, "source_path")) == Some(r.sourcePath);
    assert AsNullable(Get(a, "destination_path")) == Some(r.destinationPath);
    assert AsInt(Get(a, "original_size")) == Some(r.originalSize);
    assert AsInt(Get(a, "optimized_size")) == Some(r.optimizedSize);
    assert AsReal(Get(a, "compression_ratio")) == Some(r.compressionRatio);
    assert AsNullable(Get(a, "optimizer_class")) == Some(r.optimizerClass);
    assert AsNullable(Get(a, "error")) == Some(r.error);
  }
}
