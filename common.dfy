/** Values shared by every part of the model: optional values, the ways a
    request handler can end without a success response, and the
    `{ public_id, url }` pair the media host returns for an upload. */
module Common {

  datatype Option<T> = None | Some(value: T)

  /** How a handler ends when it does not send its success response.
      `HttpError` is `next(new ErrorHandler(message, status))`; the other
      three are exceptions. Inside a request handler `catchAsyncError`
      forwards them to the error middleware; in a change-stream listener,
      which no request and no `catchAsyncError` surround, the exception is
      an unhandled rejection. */
  datatype Failure =
    | HttpError(status: nat, message: string)
    | ValidationFailed        // a Mongoose schema validator refused the document
    | ServiceFailed           // a call to the payment gateway, the media host or the mail server failed
    | Thrown(reason: string)  // a TypeError, or a CastError from a malformed id

  datatype Result<T> = Ok(value: T) | Err(failure: Failure)

  /** The `{ public_id, url }` pair stored for an avatar, a poster or a video. */
  datatype Media = Media(publicId: string, url: string)

  /** JavaScript's `.length` of a string, the measure Mongoose's
      `minlength` and `maxlength` use: the number of UTF-16 code units,
      two for a character outside the Basic Multilingual Plane. */
  function JsLength(s: string): (n: nat)
    ensures |s| <= n <= 2 * |s|
    ensures (forall k :: 0 <= k < |s| ==> s[k] as int <= 0xFFFF) ==> n == |s|
  {
    if s == [] then 0
    else
      assert forall k :: 0 <= k < |s[1..]| ==> s[1..][k] == s[k + 1];
      (if s[0] as int > 0xFFFF then 2 else 1) + JsLength(s[1..])
  }

  /** An email handed to the mail sender. */
  datatype Email = Email(to: string, subject: string, text: string)

  type UserId = string
  type CourseId = string

  /** Whether `Model.findById(id)` rejects with a CastError instead of
      resolving: the id is present but not a well-formed ObjectId.
      `isObjectId` is the driver's format test; a missing id (`""`) is
      looked up as `undefined` and simply finds nothing. */
  predicate CastFails(id: string, isObjectId: string -> bool) {
    id != "" && !isObjectId(id)
  }

  /** The reason carried by that rejection. */
  const CastToObjectId := "Cast to ObjectId failed"
}
