/**
 * Conversion of an element's raw JSON options into the options a shape
 * generator receives: every top-level value that looks like a 3-vector
 * becomes a vector object, everything else is copied as it is.
 */
module DataHelpers {
  import opened Wrappers
  import opened JsValues

  /**
   * The test the conversion applies to one value: an array of length 3 whose
   * first element is a number. The other two elements are not inspected.
   */
  predicate LooksLikeVector(v: Value) {
    v.Arr? && |v.items| == 3 && v.items[0].Num?
  }

  /** One value as conversion leaves it: a vector-like array becomes a vector of its three elements. */
  function ConvertValue(v: Value): Value {
    if LooksLikeVector(v) then Vector3(v.items[0], v.items[1], v.items[2]) else v
  }

  /**
   * The options after conversion. `None` stands for null or undefined
   * options, over which the key loop runs zero times.
   */
  function ProcessedOptions(options: Option<map<string, Value>>): map<string, Value> {
    match options
    case None => map[]
    case Some(fields) => map k | k in fields :: ConvertValue(fields[k])
  }

  /**
   * Builds a fresh dictionary key by key, converting each value. The input
   * is a value and cannot be changed by the call.
   */
  method ProcessOptions(options: Option<map<string, Value>>) returns (processed: map<string, Value>)
    ensures processed == ProcessedOptions(options)
    ensures options.None? ==> processed == map[]
    ensures options.Some? ==> processed.Keys == options.value.Keys
    ensures forall k :: k in processed ==> processed[k] == ConvertValue(options.value[k])
  {
    processed := map[];
    if options.None? {
      return;
    }
    var fields := options.value;
    var pending := fields.Keys;
    while pending != {}
      invariant pending <= fields.Keys
      invariant processed.Keys == fields.Keys - pending
      invariant forall k :: k in processed ==> processed[k] == ConvertValue(fields[k])
      decreases pending
    {
      var key :| key in pending;
      var value := fields[key];
      if LooksLikeVector(value) {
        processed := processed[key := Vector3(value.items[0], value.items[1], value.items[2])];
      } else {
        processed := processed[key := value];
      }
      pending := pending - {key};
    }
  }

  // ---------------------------------------------------------------------------
  // Properties of the conversion
  // ---------------------------------------------------------------------------

  /** A vector object is not an array, so converting again changes nothing. */
  lemma ConvertIdempotent(v: Value)
    ensures ConvertValue(ConvertValue(v)) == ConvertValue(v)
  {
  }

  /** The exact conversion rule, both ways: what becomes a vector and what is copied unchanged. */
  lemma ConvertCases(v: Value)
    ensures ConvertValue(v).Vector3? && !v.Vector3? <==> LooksLikeVector(v)
    ensures LooksLikeVector(v) ==>
      ConvertValue(v) == Vector3(v.items[0], v.items[1], v.items[2])
    ensures !LooksLikeVector(v) ==> ConvertValue(v) == v
  {
  }

  /** Turning vector objects back into 3-element arrays: the inverse of conversion on raw JSON. */
  function VectorToArray(v: Value): Value {
    if v.Vector3? then Arr([v.x, v.y, v.z]) else v
  }

  /** Conversion loses nothing: on a value that is not already a vector object, it can be undone. */
  lemma ConvertRoundTrip(v: Value)
    requires !v.Vector3?
    ensures VectorToArray(ConvertValue(v)) == v
  {
    if LooksLikeVector(v) {
      assert v.items == [v.items[0], v.items[1], v.items[2]];
    }
  }

  /** Processing twice is processing once. */
  lemma ProcessIdempotent(options: Option<map<string, Value>>)
    ensures ProcessedOptions(Some(ProcessedOptions(options))) == ProcessedOptions(options)
  {
    var once := ProcessedOptions(options);
    var twice := ProcessedOptions(Some(once));
    assert twice.Keys == once.Keys;
    forall k | k in once
      ensures twice[k] == once[k]
    {
      ConvertIdempotent(options.value[k]);
    }
  }

  /**
   * Conversion is top level only: a nested object or array is passed through
   * as it is, whatever it contains, and so is any array that is not a 3-array
   * starting with a number.
   */
  lemma ProcessTopLevelOnly(fields: map<string, Value>, k: string)
    requires k in fields && !LooksLikeVector(fields[k])
    ensures k in ProcessedOptions(Some(fields))
    ensures ProcessedOptions(Some(fields))[k] == fields[k]
  {
  }

  /** On raw JSON options (no vector objects), processing can be undone key by key. */
  lemma ProcessRoundTrip(fields: map<string, Value>)
    requires forall k :: k in fields ==> !fields[k].Vector3?
    ensures (map k | k in ProcessedOptions(Some(fields)) :: VectorToArray(ProcessedOptions(Some(fields))[k])) == fields
  {
    var back := map k | k in ProcessedOptions(Some(fields)) :: VectorToArray(ProcessedOptions(Some(fields))[k]);
    forall k | k in fields
      ensures back[k] == fields[k]
    {
      ConvertRoundTrip(fields[k]);
    }
  }
}
