/** The VRAM estimator of GPUme.py: a fixed table from precision label to
    bytes per parameter, an exact membership test on the label, and the
    conversion from billions of parameters to binary gigabytes. Arithmetic
    is over exact reals. */
module GPUme {
  import Text

  datatype Option<T> = None | Some(value: T)

  /** What `calculate_vram` gives back: the estimate in GB, or the
      ValueError it raises for an unknown precision, with its message. */
  datatype VramResult = Ok(gb: real) | InvalidPrecision(message: string)

  /** `precision_map`, in the order its keys are written (and iterated). */
  const PrecisionTable: seq<(string, real)> := [
    ("FP32", 4.0),
    ("FP16", 2.0),
    ("FP8", 1.0),
    ("INT8", 1.0),
    ("FP4", 0.5),
    ("INT4", 0.5)
  ]

  /** Parameters in one "billion" of the input. */
  const ParamsPerBillion: real := 1000000000.0

  /** Bytes in one GB, `1024 ** 3`. */
  const BytesPerGb: real := 1073741824.0

  /** The keys of an ordered table, in table order (`dict.keys()`). */
  function Keys(table: seq<(string, real)>): seq<string> {
    if table == [] then [] else [table[0].0] + Keys(table[1..])
  }

  /** `Keys` lists every entry's key, position by position. */
  lemma {:induction false} KeysInTableOrder(table: seq<(string, real)>)
    ensures |Keys(table)| == |table|
    ensures forall i :: 0 <= i < |table| ==> Keys(table)[i] == table[i].0
  {
    if table != [] {
      KeysInTableOrder(table[1..]);
    }
  }

  /** The value of the first entry whose key is `key`, or None when no entry
      has that key. This is `precision_map[key]` only for a table whose keys
      are distinct (`DistinctKeys`); a Python dict literal with a repeated key
      keeps the last value instead. `TableKeysDistinct` shows that
      `PrecisionTable` has distinct keys. */
  function Lookup(table: seq<(string, real)>, key: string): Option<real> {
    if table == [] then None
    else if table[0].0 == key then Some(table[0].1)
    else Lookup(table[1..], key)
  }

  /** A lookup succeeds exactly for the table's keys (the `in` test), and what
      it finds is stored in the table under that key. */
  lemma {:induction false} LookupSucceedsOnKeys(table: seq<(string, real)>, key: string)
    ensures Lookup(table, key).Some? <==> key in Keys(table)
    ensures Lookup(table, key).Some? ==> (key, Lookup(table, key).value) in table
  {
    if table != [] && table[0].0 != key {
      LookupSucceedsOnKeys(table[1..], key);
    }
  }

  /** No key occurs twice, as in any Python dict. */
  predicate DistinctKeys(table: seq<(string, real)>) {
    forall i, j :: 0 <= i < j < |table| ==> table[i].0 != table[j].0
  }

  /** In a table with distinct keys, looking a key up finds the value stored under it. */
  lemma {:induction false} LookupFindsEntry(table: seq<(string, real)>, key: string, v: real)
    requires DistinctKeys(table)
    requires (key, v) in table
    ensures Lookup(table, key) == Some(v)
  {
    if table[0] != (key, v) {
      assert table[0].0 != key by {
        var j :| 0 <= j < |table| && table[j] == (key, v);
        assert j > 0;
      }
      assert (key, v) in table[1..];
      LookupFindsEntry(table[1..], key, v);
    }
  }

  /** The supported precision labels, in table order. */
  function Labels(): seq<string> {
    Keys(PrecisionTable)
  }

  /** The text of the ValueError raised for an unknown precision. */
  function InvalidPrecisionMessage(precision: string): string {
    "Invalid precision '" + precision + "'. Supported precisions are: " + Text.Join(Labels(), ", ")
  }

  /** The conversion itself: `n` billion parameters of `bytesPerParam` bytes each, in GB. */
  function Gigabytes(n: real, bytesPerParam: real): real {
    (n * ParamsPerBillion * bytesPerParam) / BytesPerGb
  }

  /** `calculate_vram(param_count_billion, precision)`. The label must be one
      of the table's keys exactly (no case folding); the count is not checked. */
  function CalculateVram(paramCountBillion: real, precision: string): VramResult {
    match Lookup(PrecisionTable, precision)
    case None => InvalidPrecision(InvalidPrecisionMessage(precision))
    case Some(bytesPerParam) => Ok(Gigabytes(paramCountBillion, bytesPerParam))
  }

  /** What `main` does with one request once the count is parsed: upper-case
      the typed precision, then call the estimator. The label in the result
      (the one echoed in the success line) is the upper-cased one. */
  function Estimate(paramCountBillion: real, typedPrecision: string): (string, VramResult) {
    var precision := Text.ToUpper(typedPrecision);
    (precision, CalculateVram(paramCountBillion, precision))
  }
}
