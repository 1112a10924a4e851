/**
 * The classified error of the anfrage package: a kind (one numeric code per
 * pipeline stage) and a message, plus the wider Go `error` interface that the
 * pipelines return, which can also hold an error produced by library code.
 */
module Errors {

  /** Go: `type ErrorType int`. */
  type ErrorType = int

  const CreateRequestObjectException: ErrorType := 10010
  const GetResponseContentException: ErrorType := 10011
  const ReaderResponseContentException: ErrorType := 10012
  const PostDataJsonMarshalException: ErrorType := 10013
  const CreatePostRequestOjectException: ErrorType := 10014
  const SendPostRequestException: ErrorType := 10015
  const GetPostResponseContentException: ErrorType := 10016
  const CreatePutRequestObjectException: ErrorType := 10017
  const GetPutResponseCotnentException: ErrorType := 10018
  const ReaderPutResponseContentException: ErrorType := 10019

  /** The package's own error value; it is never changed after creation. */
  datatype Error = Error(typeError: ErrorType, msg: string) {
    /** Go's `Error()` method of the error interface. */
    function Message(): string {
      msg
    }
  }

  /** Go's `newError`: the kind and the message given are the ones read back. */
  function NewError(t: ErrorType, msg: string): (e: Error)
    ensures e.typeError == t
    ensures e.Message() == msg
  {
    Error(t, msg)
  }

  /**
   * A value of Go's `error` interface as the pipelines return it: either one
   * of the package's classified errors, or an error made by library code and
   * passed on unwrapped (the charset reader's).
   */
  datatype Failure = Classified(error: Error) | Foreign(cause: string)
}
