# anfrage: the request pipeline, modelled in Dafny

anfrage is a small Go HTTP client library. Three things in it can be stated and
proved once the library calls it makes are abstract:

- **Body resolution** (`getBody`). The body of a Post or Put is an
  `interface{}`. Its dynamic type picks the encoding. `map[string]string` goes
  through JSON and `url.Values` through form encoding. `[]byte` and `string`
  pass through unchanged. nil means no body. Any other type is an error of kind
  10013.
- **Ambient configuration**. The package-level `Headers` and `Cookies` maps are
  copied onto every request by `setHttpHeaderAndCookie`. `setHeader` changes
  `Headers`, and Post and Put use it to write the request's Content-Type there.
  That value then stays for later calls.
- **The pipelines**. `getWithClient`, `postWithClient` and `putWithClient`, and
  the wrappers `Get`, `Post`, `PostForm` and `Put`, are fixed sequences of
  stages that return early. Each stage failure has its own numeric error code.

Files and modules:

- `wrappers.dfy` (`Wrappers`): `Option`, for Go's nil.
- `errors.dfy` (`Errors`): the ten error codes, the `Error` value, `newError`
  and `Error()`, and `Failure`. A `Failure` is what a pipeline returns as Go's
  `error`: one of the package's errors, or a library error passed on unwrapped.
- `http.dfy` (`Http`): the library side, made abstract.
  - Readers, cookies and responses are plain values.
  - `Request` is a class. Its header map and its cookies change in place.
  - `Net` holds the outcomes of `http.NewRequest`, `client.Do` and
    `charset.NewReader` + `ioutil.ReadAll`, as function values.
  - `Codec` holds `json.Marshal` and `url.Values.Encode`, also as function
    values.
  - `Wire` is the request as the transport receives it.
- `body.dfy` (`Body`): the body's dynamic type as a datatype, and `GetBody`.
- `config.dfy` (`Config`): what the ambient maps put on a request, as
  functions: `Inject` for headers, `CookieBag` for cookies. Also the lemmas
  about them.
- `exchange.dfy` (`Exchange`, `WriteThrough`): the three pipelines as pure
  functions. Each takes the ambient configuration before the call and the
  library outcomes. It gives the returned value, the ambient configuration
  after the call, and the requests handed to the transport. The lemmas say which
  code each stage produces and how Post and Put differ.
- `anfrage.dfy` (`Anfrage`): `Package`, a class whose fields are the package
  variables.
  - The fields are `Headers`, `Cookies` and the default client.
  - A ghost log `sent` records every request handed to the transport, so its
    length counts transport calls.
  - `setHeader` is a method that updates `Headers`. `setHttpHeaderAndCookie`
    is a method with one loop over each ambient map.
  - The pipelines and wrappers are methods, each proved equal to its pure
    function.

Post with a failed `http.NewRequest` does not return code 10014.
`setHeader("Content-Type", …)` runs first, so `Headers` is not empty. Then
`setHttpHeaderAndCookie(nil)` reads the `Header` field of the nil request for the
first entry of `Headers`, and the call panics. The model has an explicit
`Panicked` outcome for this case. It proves that Post never yields 10014, that
the Content-Type write has already happened at that point, and that nothing was
dispatched.

Error messages, as the code writes them:

- These errors end with the target URL: Post's transport and read errors,
  Put's construction, transport and read errors, and Get's construction and
  transport errors.
- Get's read error (10012) has a fixed message without the URL. So do both
  body errors: the failed JSON marshal, and the unsupported type, whose message
  names only the type.

## Model

| member | source | states |
|---|---|---|
| Errors.NewError | anfrage.go:45-51 | the error keeps the kind it was made with, and `Error()` returns exactly the message it was made with |
| Body.GetBody | anfrage.go:98-120 | nil gives no reader and no error; string and []byte pass through unchanged; url.Values gives the form encoding; map[string]string gives the JSON bytes, or kind 10013 when marshalling fails; any other type gives kind 10013 with a message naming the type; a reader exists exactly for the four supported shapes that encode |
| Http.Request.constructor | anfrage.go:71 | a new request has the given verb, URL and body, no headers and no cookies |
| Http.Request.SetHeaderValue | anfrage.go:59 | `Header.Set` leaves exactly the one value at the key; cookies are unchanged |
| Http.Request.AddCookie | anfrage.go:63-66 | `AddCookie` adds exactly one cookie; headers are unchanged |
| Config.Inject | anfrage.go:58-60 | after the ambient headers are set, every ambient key holds its ambient value (overwriting), every other request key keeps its value, and no other key appears |
| Config.CookieBag | anfrage.go:62-67 | the ambient cookies give one cookie per entry with that name and value, and no other cookie |
| Config.CookieBagSize | anfrage.go:62-67 | the number of cookies added equals the number of ambient cookie entries |
| Exchange.Outgoing | anfrage.go:57-68 | a fresh request after injection has the given verb, URL and body, carries exactly the ambient header keys with their values, and one cookie per ambient cookie |
| Exchange.GetExchange | anfrage.go:70-96 | Get leaves Headers and Cookies unchanged. It dispatches once exactly when construction succeeds, with the ambient configuration. Code 10010 comes exactly from construction, 10011 from transport and 10012 from reading the decoded body. A charset reader error is returned unwrapped. A decoded body that reads gives exactly `(bytes, nil)`, and success happens only then. No kind outside 10010-10012 occurs. Errors give empty content, and 10010/10011 name the target |
| Exchange.PostExchange | anfrage.go:122-148 | A body error is returned as is, with nothing dispatched and nothing changed. Otherwise Headers["Content-Type"] = bodyType persists whatever follows. A failed construction panics, so 10014 is never returned. At most one request is dispatched, carrying the new Headers and so the content type. Cookies never change |
| Exchange.PostStageCodes | anfrage.go:122-148 | In Post, 10013 comes exactly from the body, 10015 from transport and 10016 from reading, and no other kind occurs. A response body that reads gives exactly `(bytes, nil)`, with no charset decoding, and success happens only then. Errors after construction name the target |
| Exchange.PutExchange | anfrage.go:150-176 | A body error is returned as is, with nothing dispatched and nothing changed. Headers["Content-Type"] = bodyType is written only when construction succeeds. At most one request is dispatched, carrying the content type. Cookies never change and Put never panics |
| Exchange.PutStageCodes | anfrage.go:150-176 | In Put, 10013 comes exactly from the body, 10017 from construction, 10018 from transport and 10019 from reading, and no other kind occurs. A response body that reads gives exactly `(bytes, nil)`, with no charset decoding, and success happens only then. Errors after body resolution name the target |
| WriteThrough.ConstructionFailureWriteThrough | anfrage.go:128-162 | with a resolved body and failing construction, Post has written Content-Type to Headers and Put has changed nothing; neither dispatched |
| WriteThrough.ConstructedPostAndPutAgree | anfrage.go:128-164 | when construction succeeds, Post and Put leave the same Headers and send the same request except for the verb |
| Anfrage.Package.constructor | anfrage.go:32-36 | Headers and Cookies start empty; nothing has been dispatched |
| Anfrage.Package.SetHeader | anfrage.go:53-55 | Headers[key] == value afterwards; every other key keeps its presence and value; Cookies and the dispatch log are unchanged |
| Anfrage.Package.SetHttpHeaderAndCookie | anfrage.go:57-68 | looping over both maps in unspecified order, the request's header becomes `Inject` of its old header and Headers, and its cookies gain exactly `CookieBag(Cookies)`; the package maps are unchanged |
| Anfrage.Package.Dispatch | anfrage.go:78 | handing a request to the transport logs exactly that request and returns the transport's outcome for it |
| Anfrage.Package.GetWithClient | anfrage.go:70-96 | the result, the new Headers/Cookies and the requests dispatched are those of `GetExchange` on the state before the call |
| Anfrage.Package.PostWithClient | anfrage.go:122-148 | as `PostExchange`, including the panic after the Content-Type write when construction fails |
| Anfrage.Package.PutWithClient | anfrage.go:150-176 | as `PutExchange` |
| Anfrage.Package.Get | anfrage.go:178-180 | `getWithClient` with the default client |
| Anfrage.Package.Post | anfrage.go:182-184 | `postWithClient` with the default client |
| Anfrage.Package.PostForm | anfrage.go:186-188 | exactly `Post(target, "application/x-www-form-urlencoded", data)` with the data as url.Values |
| Anfrage.Package.Put | anfrage.go:190-192 | `putWithClient` with the default client |

## Left out

- Network I/O (`http.Client.Do`, TLS, DNS, sockets). Transport is the function `Net.send` from the request as sent to "failed" or a response. The response is a Content-Type string and a read result.
- `http.NewRequest` is `Net.newRequest`, a yes/no of the verb and URL. The readers `getBody` makes never cause it to fail.
- Charset conversion (`charset.NewReader` and reading from it) is `Net.charsetReader`. It either fails with the library's own error or yields a read result. No encoding is modelled.
- The internals of `json.Marshal` and `url.Values.Encode` (key order, escaping) are the function values carried in `Codec`.
- A nil `map[string]string` and an empty one are the same `StringMap` input. `Codec.marshal` gets the same empty map for both. In Go, `json.Marshal` encodes the first as `null` and the second as `{}`. Either way the body resolves to a reader. A nil and an empty `url.Values` or `[]byte` give the same body in Go as well.
- Header-key canonicalisation in `http.Header.Set` is taken to be the identity. With real canonicalisation, two `Headers` keys that differ only in case would land on one request key, and the map order would decide which value wins.
- `AddCookie` really appends `name=value` to the request's Cookie header, with sanitising. The model keeps the added cookies as a multiset beside the header map. So an ambient `Cookie` header set by `Header.Set` and the added cookies do not interact in the model.
- Go strings that end in the response content are bytes (`seq<byte>`). The conversion `string(content)` is the identity on those bytes. All other strings are Dafny strings.
- Go's unspecified map iteration order is a nondeterministic choice of the next key. The end state does not depend on it.
- `defer response.Body.Close()` is resource management with no value the caller sees.
- Unsynchronised concurrent access to `Headers` and `Cookies`: concurrency is out of scope.
- The fluent request builder (reset on each verb, `SetHeaders`, `SetBasicAuth`, `SetCookie`, `SetProxies`, `UrlOpen`) is not part of this model. Its source is not among the files modelled.
- A panic is an outcome value. Whether a caller recovers from it is not modelled, but the Headers write before it is kept in the state.
