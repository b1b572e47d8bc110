/** Column data as the layer sees it (Value.swift): a closed variant type, its
    literal initialisers and the choice of engine binder for each variant. */
module Values {
  import opened Errors

  newtype int64 = x: int | -0x8000_0000_0000_0000 <= x < 0x8000_0000_0000_0000
  newtype byte = x: int | 0 <= x < 256

  /** A 64-bit floating-point number, carried as its bit pattern: the layer
      never does arithmetic on reals. */
  datatype Double = Double(bits: bv64)

  /** `enum Value`: exactly five variants. */
  datatype Value =
    | Null
    | Int64(n: int64)
    | Real(d: Double)
    | String(s: string)
    | Binary(data: seq<byte>)

  /** `Value(nilLiteral:)`. */
  function NilLiteral(): (v: Value)
    ensures v.Null?
  {
    Null
  }

  /** `Value(integerLiteral:)`. */
  function IntegerLiteral(n: int64): (v: Value)
    ensures v.Int64? && v.n == n
  {
    Int64(n)
  }

  /** `Value(booleanLiteral:)`: true is stored as 1, false as 0. */
  function BoolLiteral(b: bool): (v: Value)
    ensures v.Int64? && (v.n == 1 <==> b) && (v.n == 0 <==> !b)
  {
    Int64(if b then 1 else 0)
  }

  /** `Value(stringLiteral:)`. */
  function StringLiteral(s: string): (v: Value)
    ensures v.String? && v.s == s
  {
    String(s)
  }

  /** `Value(uuid:)`: the UUID's canonical text, as a string literal. */
  function UuidValue(uuidString: string): (v: Value)
    ensures v == StringLiteral(uuidString)
  {
    StringLiteral(uuidString)
  }

  /** `Value(floatLiteral:)`. */
  function FloatLiteral(d: Double): (v: Value)
    ensures v.Real? && v.d == d
  {
    Real(d)
  }

  /** The integer a value holds, if it is one. The Swift accessor
      `Value.integer` is not part of this model's source; this is the reading
      the row accessors rely on. */
  function IntegerOf(v: Value): (r: Option<int64>)
    ensures r.Some? <==> v.Int64?
    ensures r.Some? ==> r.value == v.n
  {
    if v.Int64? then Some(v.n) else None
  }

  /** The string a value holds, if it is one (`Value.string`, see IntegerOf). */
  function StringOf(v: Value): (r: Option<string>)
    ensures r.Some? <==> v.String?
    ensures r.Some? ==> r.value == v.s
  {
    if v.String? then Some(v.s) else None
  }

  /** One call of an engine binder: sqlite3_bind_null, _int64, _text, _blob or
      _double, with the 1-based parameter slot and the payload. Text and blob
      payloads are copied by the engine (SQLITE_TRANSIENT). */
  datatype BindCall =
    | BindNull(slot: int)
    | BindInt64(slot: int, n: int64)
    | BindText(slot: int, text: string)
    | BindBlob(slot: int, bytes: seq<byte>)
    | BindDouble(slot: int, d: Double)

  /** The binder `Value.bind(index:)` calls for a value: one per variant. */
  function BinderFor(v: Value, slot: int): (c: BindCall)
    ensures c.slot == slot
    ensures v.Null? <==> c.BindNull?
    ensures v.Int64? <==> c.BindInt64?
    ensures v.String? <==> c.BindText?
    ensures v.Binary? <==> c.BindBlob?
    ensures v.Real? <==> c.BindDouble?
  {
    match v
    case Null => BindNull(slot)
    case Int64(n) => BindInt64(slot, n)
    case String(s) => BindText(slot, s)
    case Binary(data) => BindBlob(slot, data)
    case Real(d) => BindDouble(slot, d)
  }

  /** The value an engine binder call hands to the engine. */
  function Bound(c: BindCall): Value {
    match c
    case BindNull(_) => Null
    case BindInt64(_, n) => Int64(n)
    case BindText(_, t) => String(t)
    case BindBlob(_, b) => Binary(b)
    case BindDouble(_, d) => Real(d)
  }

  /** Binding loses nothing: the engine receives exactly the value bound, at
      the slot asked for. */
  lemma BindingIsLossless(v: Value, slot: int)
    ensures Bound(BinderFor(v, slot)) == v && BinderFor(v, slot).slot == slot
  {
  }

  /** Distinct values go through distinct binder calls. */
  lemma BinderInjective(v: Value, w: Value, slot: int)
    ensures BinderFor(v, slot) == BinderFor(w, slot) ==> v == w
  {
    BindingIsLossless(v, slot);
    BindingIsLossless(w, slot);
  }
}
