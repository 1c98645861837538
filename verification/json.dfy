// Parsed documents, as ArduinoJson presents them. A string value is the C string
// the library returns; a decimal has already been narrowed to float.
module JsonModel {
  import opened Prelude

  datatype Json =
    | Null
    | Bool(b: bool)
    | Integer(i: int)
    | Decimal(f: Float)
    | Text(s: string)
    | List(items: seq<Json>)
    | Object(members: map<string, Json>)
  {
    predicate IsUInt32() {
      Integer? && 0 <= i < UINT32_LIMIT
    }

    predicate IsNumber() {
      Integer? || Decimal?
    }

    /** A number, read as a float. */
    function AsFloat(): Float
      requires IsNumber()
    {
      if Integer? then Finite(i as real) else f
    }

    /** A member: null when the key is absent or the value is not an object. */
    function Member(key: string): Json {
      if Object? && key in members then members[key] else Null
    }

    predicate Has(key: string) {
      Object? && key in members
    }

    /** The text, or the empty one for any other value. */
    function TextOrEmpty(): string {
      if Text? then s else ""
    }

    /** The boolean, or a default for any other value. */
    function BoolOr(default: bool): bool {
      if Bool? then b else default
    }
  }

  /** A stored or received string as the firmware sees it: its length in bytes and
      what `deserializeJson` makes of it (None when it reports an error). */
  datatype Raw = Raw(length: nat, parsed: Option<Json>)

  const EMPTY_RAW := Raw(0, None)

  /** `serializeJson`: the text reads back as the document it was printed from; its
      length is an arbitrary function of the document. */
  function Print(document: Json, sizeOf: Json -> nat): Raw {
    Raw(sizeOf(document), Some(document))
  }
}
