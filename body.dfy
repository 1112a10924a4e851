/**
 * Body resolution (`getBody`): the dynamic type of the body value that a
 * caller passes to Post or Put decides how it becomes a request body.
 */
module Body {
  import opened Wrappers
  import opened Http
  import opened Errors

  /**
   * The runtime shape of the `interface{}` body argument. Go's named type
   * `url.Values` is its own case; an unnamed `map[string][]string` is not
   * (it falls under Other, as the type switch does not match it).
   */
  datatype RawContent =
    | Nil                                       // the nil interface
    | StringMap(fields: map<string, string>)    // map[string]string, sent as JSON
    | Values(values: map<string, seq<string>>)  // url.Values, sent form-encoded
    | ByteSlice(bytes: seq<byte>)               // []byte, sent as is
    | Text(s: string)                           // string, sent as is
    | Other(typeName: string)                   // anything else, named as %T prints it

  /** getBody's two results: a reader (nil for no body), or an error. */
  datatype BodyResult = Resolved(reader: Option<Reader>) | Rejected(err: Error)

  /** A supported shape whose encoding cannot fail. */
  predicate PassesThrough(raw: RawContent) {
    raw.Text? || raw.ByteSlice? || raw.Values?
  }

  function GetBody(raw: RawContent, codec: Codec): (r: BodyResult)
    // nil: no reader and no error
    ensures r == Resolved(None) <==> raw.Nil?
    // a reader exactly for the four supported shapes that encode
    ensures (r.Resolved? && r.reader.Some?) <==>
              PassesThrough(raw) || (raw.StringMap? && codec.marshal(raw.fields).Some?)
    // an unsupported type and a failed JSON marshal share the one kind
    ensures r.Rejected? <==> raw.Other? || (raw.StringMap? && codec.marshal(raw.fields).None?)
    ensures r.Rejected? ==> r.err.typeError == PostDataJsonMarshalException
    ensures raw.Other? ==> r.err.Message() == "Can't handle body type " + raw.typeName
    // what the reader yields
    ensures raw.Text? ==> r.reader == Some(StringReader(raw.s))
    ensures raw.ByteSlice? ==> r.reader == Some(BufferReader(raw.bytes))
    ensures raw.Values? ==> r.reader == Some(StringReader(codec.encode(raw.values)))
    ensures raw.StringMap? && r.Resolved? ==>
              r.reader == Some(BufferReader(codec.marshal(raw.fields).value))
  {
    match raw
    case Nil => Resolved(None)
    case StringMap(m) =>
      (match codec.marshal(m)
       case None => Rejected(NewError(PostDataJsonMarshalException, "Can't serialize map of string to json"))
       case Some(json) => Resolved(Some(BufferReader(json))))
    case Values(v) => Resolved(Some(StringReader(codec.encode(v))))
    case ByteSlice(b) => Resolved(Some(BufferReader(b)))
    case Text(s) => Resolved(Some(StringReader(s)))
    case Other(t) => Rejected(NewError(PostDataJsonMarshalException, "Can't handle body type " + t))
  }
}
