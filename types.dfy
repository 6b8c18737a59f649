/** The records that flow through the ingestion pipeline (`types.State` of the
    shared types package) and the dynamically typed payload they carry. */
module Types {

  /** One byte of a wire payload. */
  newtype byte = x: int | 0 <= x < 256

  /** The numeric Go types the normalizer distinguishes (twelve of them). */
  datatype NumKind =
    | Float64 | Float32
    | Int | Int8 | Int16 | Int32 | Int64
    | Uint | Uint8 | Uint16 | Uint32 | Uint64

  /** The dynamic value held by an `interface{}` payload: `nil`, a Go `string`,
      a `bool`, a number of one of the numeric kinds (its value kept exactly),
      a `[]interface{}`, a map (as its entries) or a value of any other Go type,
      known only by its type name. */
  datatype Raw =
    | RNil
    | RString(s: string)
    | RBool(b: bool)
    | RNumber(kind: NumKind, x: real)
    | RSlice(elems: seq<Raw>)
    | RMap(entries: seq<(Raw, Raw)>)
    | ROther(goType: string)

  /** `types.Value`: the normalized form of a reading. Go zero values are
      "", false, 0, a nil slice (here []) and a nil interface (here RNil). */
  datatype Value = Value(str: string, boolean: bool, number: real, list: seq<Raw>, obj: Raw)

  const ZeroValue := Value("", false, 0.0, [], RNil)

  /** `time.Time`, as nanoseconds from Go's zero instant; `IsZero` is the Go method. */
  datatype Time = Time(ns: int) {
    predicate IsZero() { ns == 0 }
  }

  /** `types.State`: one reading of one asset of one thing. */
  datatype State = State(raw: Raw, at: Time, thingID: string, asset: string, project: string, value: Value)

  /** A state built by an adapter: the composite literal leaves `Value` at its zero value. */
  function NewState(raw: Raw, at: Time, thingID: string, asset: string, project: string): State
  {
    State(raw, at, thingID, asset, project, ZeroValue)
  }

  /** What every state admitted into the pipeline satisfies: non-nil `Raw`,
      non-zero `At`, non-empty `ThingID` and `Asset`. */
  predicate Admissible(s: State) {
    s.raw != RNil && !s.at.IsZero() && s.thingID != "" && s.asset != ""
  }
}
