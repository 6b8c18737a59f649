/** The decode stage's type switch (core/pipeline.go, `decodeStage`): it writes
    one field of the record's `Value` chosen by the dynamic type of `Raw`. */
module Normalize {

  import opened Wrappers
  import opened Types

  /** The fields of `types.Value`. */
  datatype Field = StringField | BooleanField | NumberField | ArrayField | ObjectField

  /** `float64(v)` for each numeric kind. Widening is modelled as exact. */
  function Widen(kind: NumKind, x: real): real { x }

  /** The type switch as written: the cases are tried in source order, and
      `case interface{}` comes before `case []interface{}`. `interface{}`
      matches every non-nil value, so a slice is stored in `Object` and the
      array case can never be taken. A nil `Raw` matches no case. */
  function Dispatch(raw: Raw): (f: Option<Field>)
    ensures f == None <==> raw == RNil
    ensures f != Some(ArrayField)
    ensures raw.RSlice? || raw.RMap? || raw.ROther? ==> f == Some(ObjectField)
  {
    if raw.RString? then Some(StringField)
    else if raw.RBool? then Some(BooleanField)
    else if raw.RNumber? then Some(NumberField)
    else if raw != RNil then Some(ObjectField)       // case interface{}
    else if raw.RSlice? then Some(ArrayField)        // case []interface{}: unreachable
    else None
  }

  /** The assignment the chosen case performs on the record's `Value`. */
  function Write(v: Value, f: Field, raw: Raw): Value
  {
    match f
    case StringField => v.(str := if raw.RString? then raw.s else "")
    case BooleanField => v.(boolean := raw.RBool? && raw.b)
    case NumberField => v.(number := if raw.RNumber? then Widen(raw.kind, raw.x) else 0.0)
    case ArrayField => v.(list := if raw.RSlice? then raw.elems else [])
    case ObjectField => v.(obj := raw)
  }

  /** The `Value` a record leaves the decode stage with, starting from `v`. */
  function Normalized(v: Value, raw: Raw): (r: Value)
    ensures r.list == v.list
    ensures raw.RString? ==> r == v.(str := raw.s)
    ensures raw.RBool? ==> r == v.(boolean := raw.b)
    ensures raw.RNumber? ==> r == v.(number := raw.x)
    ensures raw.RSlice? || raw.RMap? || raw.ROther? ==> r == v.(obj := raw)
    ensures raw == RNil ==> r == v
  {
    match Dispatch(raw)
    case None => v
    case Some(f) => Write(v, f, raw)
  }

  /** The fields on which two values differ. */
  function Changed(v: Value, w: Value): set<Field>
  {
    (if v.str != w.str then {StringField} else {}) +
    (if v.boolean != w.boolean then {BooleanField} else {}) +
    (if v.number != w.number then {NumberField} else {}) +
    (if v.list != w.list then {ArrayField} else {}) +
    (if v.obj != w.obj then {ObjectField} else {})
  }

  /** The stage writes at most one field per record, and only the one the
      dispatch chose. */
  lemma AtMostOneField(v: Value, raw: Raw)
    ensures Changed(v, Normalized(v, raw)) <= (match Dispatch(raw) case None => {} case Some(f) => {f})
    ensures |Changed(v, Normalized(v, raw))| <= 1
  {
  }

  /** The dispatch order the `// array` case label implies: scalars, then
      slices, then the catch-all for everything else that is not nil. */
  function DocumentedDispatch(raw: Raw): (f: Option<Field>)
    ensures raw.RSlice? <==> f == Some(ArrayField)
  {
    if raw.RString? then Some(StringField)
    else if raw.RBool? then Some(BooleanField)
    else if raw.RNumber? then Some(NumberField)
    else if raw.RSlice? then Some(ArrayField)
    else if raw != RNil then Some(ObjectField)
    else None
  }

  /** The switch as written agrees with the documented order on every payload
      except a slice, which it files under `Object` instead of `Array`. */
  lemma DispatchDiffersOnlyOnSlices(raw: Raw)
    ensures Dispatch(raw) != DocumentedDispatch(raw) <==> raw.RSlice?
    ensures raw.RSlice? ==> Dispatch(raw) == Some(ObjectField)
  {
  }

  /** The reading of the pipeline's persistence test: a float64 18.20 ends up in
      `Value.Number` and every other field keeps its zero value. */
  lemma NumberReading()
    ensures Normalized(ZeroValue, RNumber(Float64, 18.20)) == Value("", false, 18.20, [], RNil)
  {
  }

  /** A slice of mixed scalars, the regression case for the dispatch order:
      `Value.Object` holds the slice and `Value.Array` stays empty. */
  lemma SliceReading()
    ensures var raw := RSlice([RNumber(Int, 1.0), RString("a"), RBool(true)]);
            Normalized(ZeroValue, raw) == Value("", false, 0.0, [], raw)
  {
  }
}
