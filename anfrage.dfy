/**
 * The anfrage package as state and steps: the package-level `Headers` and
 * `Cookies` maps, the default client, and the functions that change the maps
 * or hand requests to the transport.
 */
module Anfrage {
  import opened Wrappers
  import opened Http
  import opened Errors
  import opened Body
  import opened Config
  import opened Exchange

  class Package {
    /** `defaultClient`, with the library calls around it. */
    const defaultClient: Net
    /** `json.Marshal` and `url.Values.Encode`. */
    const codec: Codec
    /** The package-level `Headers` map. */
    var headers: map<string, string>
    /** The package-level `Cookies` map. */
    var cookies: map<string, string>
    /** Every request handed to a transport, in order; its length counts the transport calls. */
    ghost var sent: seq<Wire>

    constructor (defaultClient: Net, codec: Codec)
      ensures this.defaultClient == defaultClient && this.codec == codec
      ensures headers == map[] && cookies == map[] && sent == []
    {
      this.defaultClient := defaultClient;
      this.codec := codec;
      headers := map[];
      cookies := map[];
      sent := [];
    }

    /** The current value of the ambient configuration. */
    function Snapshot(): Ambient
      reads this
    {
      Ambient(headers, cookies)
    }

    /** The call returned `o` and left the package state as exchange `x` says, given the log `before`. */
    ghost predicate Performed(o: Outcome, x: Exchange, before: seq<Wire>)
      reads this
    {
      o == x.outcome && Snapshot() == x.ambient && sent == before + x.sent
    }

    /** `setHeader`: last write wins, no other key and no cookie changes. */
    method SetHeader(key: string, value: string)
      modifies this
      ensures headers == old(headers)[key := value]
      ensures key in headers && headers[key] == value
      ensures forall k :: k != key ==> (k in headers <==> k in old(headers))
      ensures forall k :: k != key && k in headers ==> headers[k] == old(headers)[k]
      ensures cookies == old(cookies) && sent == old(sent)
    {
      headers := headers[key := value];
    }

    /**
     * `setHttpHeaderAndCookie`: every ambient header is set on the request
     * and every ambient cookie added to it, in the maps' unspecified order.
     * The package state is not changed (only the request is modified).
     */
    method SetHttpHeaderAndCookie(request: Request)
      modifies request
      ensures request.header == Inject(old(request.header), headers)
      ensures request.cookies == old(request.cookies) + CookieBag(cookies)
    {
      var todo := headers.Keys;
      while todo != {}
        invariant todo <= headers.Keys
        invariant request.header == Inject(old(request.header), headers - todo)
        invariant request.cookies == old(request.cookies)
        decreases todo
      {
        var k :| k in todo;
        InjectStep(old(request.header), headers, todo, k);
        request.SetHeaderValue(k, headers[k]);
        todo := todo - {k};
      }
      assert headers - todo == headers;
      var rest := cookies.Keys;
      while rest != {}
        invariant rest <= cookies.Keys
        invariant request.header == Inject(old(request.header), headers)
        invariant request.cookies == old(request.cookies) + CookieBag(cookies - rest)
        decreases rest
      {
        var k :| k in rest;
        CookieStep(cookies, rest, k);
        request.AddCookie(Cookie(k, cookies[k]));
        rest := rest - {k};
      }
      assert cookies - rest == cookies;
    }

    /** Hands a prepared request to the transport. */
    method Dispatch(request: Request, client: Net) returns (response: Option<Response>)
      modifies this
      ensures sent == old(sent) + [request.ToWire()]
      ensures response == client.send(request.ToWire())
      ensures headers == old(headers) && cookies == old(cookies)
    {
      var w := request.ToWire();
      sent := sent + [w];
      response := client.send(w);
    }

    method GetWithClient(target: string, client: Net) returns (o: Outcome)
      modifies this
      ensures Performed(o, GetExchange(old(Snapshot()), target, client), old(sent))
    {
      if !client.newRequest(GET, target) {
        return Returned([], Some(Classified(NewError(CreateRequestObjectException, "create request object exception : " + target))));
      }
      var request := new Request(GET, target, None);
      SetHttpHeaderAndCookie(request);
      assert request.ToWire() == Outgoing(GET, target, None, Snapshot());
      var response := Dispatch(request, client);
      if response.None? {
        return Returned([], Some(Classified(NewError(GetResponseContentException, "Can't Get response body exception : " + target))));
      }
      var utf8Reader := client.charsetReader(response.value.body, response.value.contentType);
      if utf8Reader.CharsetFailed? {
        return Returned([], Some(Foreign(utf8Reader.cause)));
      }
      if utf8Reader.read.ReadFailed? {
        return Returned([], Some(Classified(NewError(ReaderResponseContentException, "Can't to read the response body"))));
      }
      return Returned(utf8Reader.read.bytes, None);
    }

    method PostWithClient(target: string, bodyType: string, body: RawContent, client: Net) returns (o: Outcome)
      modifies this
      ensures Performed(o, PostExchange(old(Snapshot()), target, bodyType, body, codec, client), old(sent))
    {
      var bodyReader := GetBody(body, codec);
      if bodyReader.Rejected? {
        return Returned([], Some(Classified(bodyReader.err)));
      }
      var request: Request? := null;
      if client.newRequest(POST, target) {
        request := new Request(POST, target, bodyReader.reader);
      }
      SetHeader(ContentTypeKey, bodyType);
      if request == null {
        // setHttpHeaderAndCookie(nil) reads the Header field of a nil request
        // as soon as it meets the first entry of Headers, which now holds Content-Type
        assert ContentTypeKey in headers;
        return Panicked;
      }
      SetHttpHeaderAndCookie(request);
      // the request-construction check that follows in the Go code cannot fail here
      assert request.ToWire() == Outgoing(POST, target, bodyReader.reader, Snapshot());
      var response := Dispatch(request, client);
      if response.None? {
        return Returned([], Some(Classified(NewError(SendPostRequestException, "Can't send http post request" + target))));
      }
      if response.value.body.ReadFailed? {
        return Returned([], Some(Classified(NewError(GetPostResponseContentException, "Cant' get http post response content : " + target))));
      }
      return Returned(response.value.body.bytes, None);
    }

    method PutWithClient(target: string, bodyType: string, body: RawContent, client: Net) returns (o: Outcome)
      modifies this
      ensures Performed(o, PutExchange(old(Snapshot()), target, bodyType, body, codec, client), old(sent))
    {
      var bodyReader := GetBody(body, codec);
      if bodyReader.Rejected? {
        return Returned([], Some(Classified(bodyReader.err)));
      }
      if !client.newRequest(PUT, target) {
        return Returned([], Some(Classified(NewError(CreatePutRequestObjectException, "Can't create put request object : " + target))));
      }
      var request := new Request(PUT, target, bodyReader.reader);
      SetHeader(ContentTypeKey, bodyType);
      SetHttpHeaderAndCookie(request);
      assert request.ToWire() == Outgoing(PUT, target, bodyReader.reader, Snapshot());
      var response := Dispatch(request, client);
      if response.None? {
        return Returned([], Some(Classified(NewError(GetPutResponseCotnentException, "Can't get put request response content : " + target))));
      }
      if response.value.body.ReadFailed? {
        return Returned([], Some(Classified(NewError(ReaderPutResponseContentException, "Can't read put response content : " + target))));
      }
      return Returned(response.value.body.bytes, None);
    }

    method Get(target: string) returns (o: Outcome)
      modifies this
      ensures Performed(o, GetExchange(old(Snapshot()), target, defaultClient), old(sent))
    {
      o := GetWithClient(target, defaultClient);
    }

    method Post(target: string, bodyType: string, body: RawContent) returns (o: Outcome)
      modifies this
      ensures Performed(o, PostExchange(old(Snapshot()), target, bodyType, body, codec, defaultClient), old(sent))
    {
      o := PostWithClient(target, bodyType, body, defaultClient);
    }

    /** `PostForm(t, d)` is `Post(t, "application/x-www-form-urlencoded", d)`. */
    method PostForm(target: string, data: map<string, seq<string>>) returns (o: Outcome)
      modifies this
      ensures Performed(o, PostExchange(old(Snapshot()), target, FormContentType, Values(data), codec, defaultClient), old(sent))
    {
      o := PostWithClient(target, FormContentType, Values(data), defaultClient);
    }

    method Put(target: string, bodyType: string, body: RawContent) returns (o: Outcome)
      modifies this
      ensures Performed(o, PutExchange(old(Snapshot()), target, bodyType, body, codec, defaultClient), old(sent))
    {
      o := PutWithClient(target, bodyType, body, defaultClient);
    }
  }
}
