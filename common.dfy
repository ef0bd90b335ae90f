/** Types shared by the four screens: optional values, the abstract outcome of one
    HTTP request plus JSON decode, the result of Swift's `Double(String)`, and a slot of
    `@AppStorage` data that may or may not decode. */
module Common {

  datatype Option<+T> = None | Some(value: T) {
    function GetOr(default: T): T {
      match this
      case Some(v) => v
      case None => default
    }

    /** The value as a sequence of zero or one elements. */
    function ToSeq(): seq<T> {
      match this
      case Some(v) => [v]
      case None => []
    }
  }

  /** A `UUID()`: an opaque identifier, fresh each time one is minted. */
  type Uuid = nat

  /** A `Date`, as seconds since 1970 (`timeIntervalSince1970`). */
  type Instant = real

  /** Currency code to rate, the decoded `rates` object of a Frankfurter response. */
  type RateTable = map<string, real>

  /** One `URLSession` data task followed by a `JSONDecoder` decode of its body:
      the task delivered no data, the data did not decode, or it decoded to `body`. */
  datatype Fetch<+T> = NoData | Undecodable | Decoded(body: T)

  /** What `Double(text)` yields when it parses: a finite number or NaN
      (the text "nan" parses to NaN). */
  datatype FloatValue = NaN | Finite(value: real)

  /** The bytes held in an `@AppStorage` `Data` slot: either they decode to a value
      (they were written by an encode of that value), or they do not (the initial
      empty `Data()`, or corrupt bytes). */
  datatype Stored<+T> = Unreadable | Encoded(value: T)
}
