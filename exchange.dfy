/**
 * The three request pipelines (`getWithClient`, `postWithClient`,
 * `putWithClient`) as functions of the ambient configuration before the call
 * and of the library outcomes. Each yields what the call returns, the
 * ambient configuration after it, and the requests it handed to the
 * transport. The package's methods are proved to behave as these say.
 */
module Exchange {
  import opened Wrappers
  import opened Http
  import opened Errors
  import opened Body
  import opened Config

  const GET := "GET"
  const POST := "POST"
  const PUT := "PUT"
  const ContentTypeKey := "Content-Type"
  const FormContentType := "application/x-www-form-urlencoded"

  /** The package-level `Headers` and `Cookies` maps. */
  datatype Ambient = Ambient(headers: map<string, string>, cookies: map<string, string>)

  /**
   * What a call gives its caller: Go's `(string, error)` pair, with the
   * content as the bytes it reinterprets, or a run-time panic.
   */
  datatype Outcome = Returned(content: seq<byte>, err: Option<Failure>) | Panicked

  /** One call: its outcome, the ambient configuration after it, and what it dispatched. */
  datatype Exchange = Exchange(outcome: Outcome, ambient: Ambient, sent: seq<Wire>)

  datatype Pipeline = GetPipeline | PostPipeline | PutPipeline
  datatype Stage = Construct | Transport | ReadBody

  /** The error kind each pipeline reports for a failure at each stage. */
  function StageCode(p: Pipeline, s: Stage): ErrorType {
    match (p, s)
    case (GetPipeline, Construct) => 10010
    case (GetPipeline, Transport) => 10011
    case (GetPipeline, ReadBody) => 10012
    case (PostPipeline, Construct) => 10014
    case (PostPipeline, Transport) => 10015
    case (PostPipeline, ReadBody) => 10016
    case (PutPipeline, Construct) => 10017
    case (PutPipeline, Transport) => 10018
    case (PutPipeline, ReadBody) => 10019
  }

  /** The kind of the package error returned, if any. */
  function KindOf(o: Outcome): Option<ErrorType> {
    if o.Returned? && o.err.Some? && o.err.value.Classified? then Some(o.err.value.error.typeError) else None
  }

  predicate NamesTarget(o: Outcome, target: string) {
    o.Returned? && o.err.Some? && o.err.value.Classified? &&
    var m := o.err.value.error.Message();
    |target| <= |m| && m[|m| - |target|..] == target
  }

  /** The response to the first dispatched request, if there was one and it came back. */
  function Reply(net: Net, sent: seq<Wire>): Option<Response> {
    if sent == [] then None else net.send(sent[0])
  }

  /** Get's charset reader applied to the response, if there was one. */
  function Decoded(net: Net, sent: seq<Wire>): Option<Charset> {
    match Reply(net, sent)
    case None => None
    case Some(response) => Some(net.charsetReader(response.body, response.contentType))
  }

  /** A fresh request after `setHttpHeaderAndCookie`: ambient headers and cookies, nothing else. */
  function Outgoing(verb: string, target: string, body: Option<Reader>, a: Ambient): (w: Wire)
    ensures w.verb == verb && w.url == target && w.body == body
    ensures w.header.Keys == a.headers.Keys
    ensures forall k :: k in a.headers ==> w.header[k] == [a.headers[k]]
    ensures |w.cookies| == |a.cookies|
    ensures forall k :: k in a.cookies ==> w.cookies[Cookie(k, a.cookies[k])] == 1
  {
    CookieBagSize(a.cookies);
    Wire(verb, target, body, Inject(map[], a.headers), CookieBag(a.cookies))
  }

  function Fail(e: Error, a: Ambient, sent: seq<Wire>): Exchange {
    Exchange(Returned([], Some(Classified(e))), a, sent)
  }

  function GetExchange(a: Ambient, target: string, net: Net): (x: Exchange)
    // Get changes neither Headers nor Cookies
    ensures x.ambient == a
    ensures !x.outcome.Panicked?
    ensures x.outcome.err.Some? ==> x.outcome.content == []
    // at most one dispatch, of a request carrying the ambient configuration
    ensures x.sent == if net.newRequest(GET, target) then [Outgoing(GET, target, None, a)] else []
    // the code of each stage
    ensures KindOf(x.outcome) == Some(StageCode(GetPipeline, Construct)) <==> x.sent == []
    ensures KindOf(x.outcome) == Some(StageCode(GetPipeline, Transport)) <==>
              x.sent != [] && Reply(net, x.sent).None?
    ensures KindOf(x.outcome) == Some(StageCode(GetPipeline, ReadBody)) <==>
              Decoded(net, x.sent) == Some(Utf8(ReadFailed))
    // a charset reader error is passed on unwrapped
    ensures forall cause :: x.outcome.err == Some(Foreign(cause)) <==>
              Decoded(net, x.sent) == Some(CharsetFailed(cause))
    // success gives the decoded content
    ensures x.outcome.err.None? <==> x.outcome.Returned? && Decoded(net, x.sent) == Some(Utf8(ReadOk(x.outcome.content)))
    ensures Decoded(net, x.sent).Some? && Decoded(net, x.sent).value.Utf8? && Decoded(net, x.sent).value.read.ReadOk? ==>
              x.outcome == Returned(Decoded(net, x.sent).value.read.bytes, None)
    // no kind outside Get's row of the table
    ensures KindOf(x.outcome).Some? ==>
              KindOf(x.outcome).value in {StageCode(GetPipeline, Construct), StageCode(GetPipeline, Transport),
                                          StageCode(GetPipeline, ReadBody)}
    ensures KindOf(x.outcome) in {Some(StageCode(GetPipeline, Construct)), Some(StageCode(GetPipeline, Transport))} ==>
              NamesTarget(x.outcome, target)
  {
    if !net.newRequest(GET, target) then
      Fail(NewError(CreateRequestObjectException, "create request object exception : " + target), a, [])
    else
      var w := Outgoing(GET, target, None, a);
      match net.send(w)
      case None =>
        Fail(NewError(GetResponseContentException, "Can't Get response body exception : " + target), a, [w])
      case Some(response) =>
        match net.charsetReader(response.body, response.contentType)
        case CharsetFailed(cause) => Exchange(Returned([], Some(Foreign(cause))), a, [w])
        case Utf8(ReadFailed) =>
          Fail(NewError(ReaderResponseContentException, "Can't to read the response body"), a, [w])
        case Utf8(ReadOk(content)) => Exchange(Returned(content, None), a, [w])
  }

  function PostExchange(a: Ambient, target: string, bodyType: string, body: RawContent, codec: Codec, net: Net): (x: Exchange)
    // a body failure is returned as is, before anything else happens
    ensures GetBody(body, codec).Rejected? ==>
              x == Fail(GetBody(body, codec).err, a, [])
    // Content-Type is written to Headers as soon as the body resolves, whatever follows
    ensures x.ambient.headers ==
              if GetBody(body, codec).Resolved? then a.headers[ContentTypeKey := bodyType] else a.headers
    ensures x.ambient.cookies == a.cookies
    // a failed construction panics (nil request); code 10014 never comes out
    ensures x.outcome.Panicked? <==> GetBody(body, codec).Resolved? && !net.newRequest(POST, target)
    ensures KindOf(x.outcome) != Some(StageCode(PostPipeline, Construct))
    ensures x.outcome.Returned? && x.outcome.err.Some? ==> x.outcome.content == []
    // at most one dispatch, of a request that carries the new Headers, so also the content type
    ensures x.sent != [] <==> GetBody(body, codec).Resolved? && net.newRequest(POST, target)
    ensures x.sent != [] ==>
              x.sent == [Outgoing(POST, target, GetBody(body, codec).reader, x.ambient)] &&
              x.sent[0].header[ContentTypeKey] == [bodyType]
  {
    match GetBody(body, codec)
    case Rejected(e) => Fail(e, a, [])
    case Resolved(reader) =>
      var a' := a.(headers := a.headers[ContentTypeKey := bodyType]);
      if !net.newRequest(POST, target) then
        Exchange(Panicked, a', [])
      else
        var w := Outgoing(POST, target, reader, a');
        match net.send(w)
        case None =>
          Fail(NewError(SendPostRequestException, "Can't send http post request" + target), a', [w])
        case Some(response) =>
          match response.body
          case ReadFailed =>
            Fail(NewError(GetPostResponseContentException, "Cant' get http post response content : " + target), a', [w])
          case ReadOk(content) => Exchange(Returned(content, None), a', [w])
  }

  function PutExchange(a: Ambient, target: string, bodyType: string, body: RawContent, codec: Codec, net: Net): (x: Exchange)
    // a body failure is returned as is, before anything else happens
    ensures GetBody(body, codec).Rejected? ==>
              x == Fail(GetBody(body, codec).err, a, [])
    // Content-Type is written to Headers only once the request has been constructed
    ensures x.ambient.headers ==
              if GetBody(body, codec).Resolved? && net.newRequest(PUT, target)
              then a.headers[ContentTypeKey := bodyType] else a.headers
    ensures x.ambient.cookies == a.cookies
    ensures !x.outcome.Panicked?
    ensures x.outcome.err.Some? ==> x.outcome.content == []
    // at most one dispatch, of a request that carries the new Headers, so also the content type
    ensures x.sent != [] <==> GetBody(body, codec).Resolved? && net.newRequest(PUT, target)
    ensures x.sent != [] ==>
              x.sent == [Outgoing(PUT, target, GetBody(body, codec).reader, x.ambient)] &&
              x.sent[0].header[ContentTypeKey] == [bodyType]
  {
    match GetBody(body, codec)
    case Rejected(e) => Fail(e, a, [])
    case Resolved(reader) =>
      if !net.newRequest(PUT, target) then
        Fail(NewError(CreatePutRequestObjectException, "Can't create put request object : " + target), a, [])
      else
        var a' := a.(headers := a.headers[ContentTypeKey := bodyType]);
        var w := Outgoing(PUT, target, reader, a');
        match net.send(w)
        case None =>
          Fail(NewError(GetPutResponseCotnentException, "Can't get put request response content : " + target), a', [w])
        case Some(response) =>
          match response.body
          case ReadFailed =>
            Fail(NewError(ReaderPutResponseContentException, "Can't read put response content : " + target), a', [w])
          case ReadOk(content) => Exchange(Returned(content, None), a', [w])
  }

  /** The code of each stage of Post, and its success case. */
  lemma PostStageCodes(a: Ambient, target: string, bodyType: string, body: RawContent, codec: Codec, net: Net, x: Exchange)
    requires x == PostExchange(a, target, bodyType, body, codec, net)
    ensures KindOf(x.outcome) == Some(PostDataJsonMarshalException) <==> GetBody(body, codec).Rejected?
    ensures KindOf(x.outcome) == Some(StageCode(PostPipeline, Transport)) <==>
              x.sent != [] && Reply(net, x.sent).None?
    ensures KindOf(x.outcome) == Some(StageCode(PostPipeline, ReadBody)) <==>
              Reply(net, x.sent).Some? && Reply(net, x.sent).value.body == ReadFailed
    // success gives the raw content, with no charset decoding
    ensures x.outcome.Returned? && x.outcome.err.None? <==>
              Reply(net, x.sent).Some? && Reply(net, x.sent).value.body == ReadOk(x.outcome.content)
    ensures Reply(net, x.sent).Some? && Reply(net, x.sent).value.body.ReadOk? ==>
              x.outcome == Returned(Reply(net, x.sent).value.body.bytes, None)
    // no kind outside the body kind and Post's row of the table
    ensures KindOf(x.outcome).Some? ==>
              KindOf(x.outcome).value in {PostDataJsonMarshalException, StageCode(PostPipeline, Transport),
                                          StageCode(PostPipeline, ReadBody)}
    ensures KindOf(x.outcome) in {Some(StageCode(PostPipeline, Transport)), Some(StageCode(PostPipeline, ReadBody))} ==>
              NamesTarget(x.outcome, target)
  {
    match GetBody(body, codec)
    case Rejected(e) =>
      assert x == Fail(e, a, []);
    case Resolved(reader) =>
      if net.newRequest(POST, target) {
        var w := Outgoing(POST, target, reader, x.ambient);
        assert x.sent == [w];
        match net.send(w)
        case None =>
          assert x == Fail(NewError(SendPostRequestException, "Can't send http post request" + target), x.ambient, [w]);
        case Some(response) =>
          if response.body.ReadFailed? {
            assert x == Fail(NewError(GetPostResponseContentException, "Cant' get http post response content : " + target), x.ambient, [w]);
          } else {
            assert x.outcome == Returned(response.body.bytes, None);
          }
      } else {
        assert x.outcome == Panicked;
      }
  }

  /** The code of each stage of Put, and its success case. */
  lemma PutStageCodes(a: Ambient, target: string, bodyType: string, body: RawContent, codec: Codec, net: Net, x: Exchange)
    requires x == PutExchange(a, target, bodyType, body, codec, net)
    ensures KindOf(x.outcome) == Some(PostDataJsonMarshalException) <==> GetBody(body, codec).Rejected?
    ensures KindOf(x.outcome) == Some(StageCode(PutPipeline, Construct)) <==>
              GetBody(body, codec).Resolved? && !net.newRequest(PUT, target)
    ensures KindOf(x.outcome) == Some(StageCode(PutPipeline, Transport)) <==>
              x.sent != [] && Reply(net, x.sent).None?
    ensures KindOf(x.outcome) == Some(StageCode(PutPipeline, ReadBody)) <==>
              Reply(net, x.sent).Some? && Reply(net, x.sent).value.body == ReadFailed
    // success gives the raw content, with no charset decoding
    ensures x.outcome.err.None? <==>
              Reply(net, x.sent).Some? && Reply(net, x.sent).value.body == ReadOk(x.outcome.content)
    ensures Reply(net, x.sent).Some? && Reply(net, x.sent).value.body.ReadOk? ==>
              x.outcome == Returned(Reply(net, x.sent).value.body.bytes, None)
    // no kind outside the body kind and Put's row of the table
    ensures KindOf(x.outcome).Some? ==>
              KindOf(x.outcome).value in {PostDataJsonMarshalException, StageCode(PutPipeline, Construct),
                                          StageCode(PutPipeline, Transport), StageCode(PutPipeline, ReadBody)}
    ensures KindOf(x.outcome) in {Some(StageCode(PutPipeline, Construct)), Some(StageCode(PutPipeline, Transport)),
                                  Some(StageCode(PutPipeline, ReadBody))} ==>
              NamesTarget(x.outcome, target)
  {
    match GetBody(body, codec)
    case Rejected(e) =>
      assert x == Fail(e, a, []);
    case Resolved(reader) =>
      if net.newRequest(PUT, target) {
        var w := Outgoing(PUT, target, reader, x.ambient);
        assert x.sent == [w];
        match net.send(w)
        case None =>
          assert x == Fail(NewError(GetPutResponseCotnentException, "Can't get put request response content : " + target), x.ambient, [w]);
        case Some(response) =>
          if response.body.ReadFailed? {
            assert x == Fail(NewError(ReaderPutResponseContentException, "Can't read put response content : " + target), x.ambient, [w]);
          } else {
            assert x.outcome == Returned(response.body.bytes, None);
          }
      } else {
        assert x == Fail(NewError(CreatePutRequestObjectException, "Can't create put request object : " + target), a, []);
      }
  }
}

/** How the two write pipelines differ in their effect on the ambient configuration. */
module WriteThrough {
  import opened Http
  import opened Body
  import opened Exchange

  /**
   * Post and Put differ only in when Content-Type reaches Headers: with the
   * same resolved body and a construction that fails, Post has written it
   * (and panics), Put has not (and returns 10017).
   */
  lemma ConstructionFailureWriteThrough(a: Ambient, target: string, bodyType: string, body: RawContent, codec: Codec, net: Net)
    requires GetBody(body, codec).Resolved?
    requires !net.newRequest(POST, target) && !net.newRequest(PUT, target)
    ensures PostExchange(a, target, bodyType, body, codec, net).ambient.headers[ContentTypeKey] == bodyType
    ensures PutExchange(a, target, bodyType, body, codec, net).ambient == a
    ensures PostExchange(a, target, bodyType, body, codec, net).sent == []
    ensures PutExchange(a, target, bodyType, body, codec, net).sent == []
  {
  }

  /** When both constructions succeed, Post and Put leave the same Headers and send the same request but for the verb. */
  lemma ConstructedPostAndPutAgree(a: Ambient, target: string, bodyType: string, body: RawContent, codec: Codec, net: Net)
    requires GetBody(body, codec).Resolved?
    requires net.newRequest(POST, target) && net.newRequest(PUT, target)
    ensures var post := PostExchange(a, target, bodyType, body, codec, net);
            var put := PutExchange(a, target, bodyType, body, codec, net);
            post.ambient == put.ambient && |post.sent| == |put.sent| == 1 &&
            put.sent[0] == post.sent[0].(verb := PUT)
  {
  }
}
