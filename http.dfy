/**
 * The parts of Go's standard library that the anfrage package relies on,
 * made abstract: byte buffers and readers, cookies, the HTTP request object,
 * and the outcomes of request construction, transport, charset decoding and
 * reading, which the model receives as function values.
 */
module Http {
  import opened Wrappers

  newtype byte = b: int | 0 <= b < 0x100

  /** An `io.Reader` over a request body: `bytes.NewBuffer(b)` or `strings.NewReader(s)`. */
  datatype Reader = BufferReader(data: seq<byte>) | StringReader(text: string)

  /** An `http.Cookie` with only the two fields the package sets. */
  datatype Cookie = Cookie(name: string, value: string)

  /** What `ioutil.ReadAll` gives: the bytes read, or a read error. */
  datatype ReadResult = ReadOk(bytes: seq<byte>) | ReadFailed

  /** A response: its `Content-Type` header (empty when absent) and its body stream. */
  datatype Response = Response(contentType: string, body: ReadResult)

  /**
   * `charset.NewReader(body, contentType)` either fails with an error of its
   * own, or yields a UTF-8 reader, which `ioutil.ReadAll` then reads.
   */
  datatype Charset = CharsetFailed(cause: string) | Utf8(read: ReadResult)

  /** A snapshot of a request at the moment it is handed to the transport. */
  datatype Wire = Wire(
    verb: string,
    url: string,
    body: Option<Reader>,
    header: map<string, seq<string>>,
    cookies: multiset<Cookie>)

  /**
   * An `*http.Client` together with the library calls around it:
   * `newRequest(verb, url)` says whether `http.NewRequest` succeeds,
   * `send` is `client.Do` (None for a transport error), and `charsetReader`
   * is `charset.NewReader` applied to a response body and its content type.
   */
  datatype Net = Net(
    newRequest: (string, string) -> bool,
    send: Wire -> Option<Response>,
    charsetReader: (ReadResult, string) -> Charset)

  /**
   * The two encoders `getBody` uses: `json.Marshal` on a `map[string]string`
   * (None for a marshal error) and `url.Values.Encode`.
   */
  datatype Codec = Codec(
    marshal: map<string, string> -> Option<seq<byte>>,
    encode: map<string, seq<string>> -> string)

  /**
   * An `*http.Request` made by `http.NewRequest`: verb, URL and body are
   * fixed; the header map and the cookies are changed in place.
   */
  class Request {
    const verb: string
    const url: string
    const body: Option<Reader>
    var header: map<string, seq<string>>
    var cookies: multiset<Cookie>

    constructor (verb: string, url: string, body: Option<Reader>)
      ensures this.verb == verb && this.url == url && this.body == body
      ensures header == map[] && cookies == multiset{}
    {
      this.verb := verb;
      this.url := url;
      this.body := body;
      header := map[];
      cookies := multiset{};
    }

    /** `request.Header.Set(key, value)`: the key now holds exactly that one value. */
    method SetHeaderValue(key: string, value: string)
      modifies this
      ensures header == old(header)[key := [value]]
      ensures cookies == old(cookies)
    {
      header := header[key := [value]];
    }

    /** `request.AddCookie(c)`: one more cookie on the request. */
    method AddCookie(c: Cookie)
      modifies this
      ensures cookies == old(cookies) + multiset{c}
      ensures header == old(header)
    {
      cookies := cookies + multiset{c};
    }

    /** The request as the transport receives it. */
    function ToWire(): Wire
      reads this
    {
      Wire(verb, url, body, header, cookies)
    }
  }
}
