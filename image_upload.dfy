/** The shared image-upload workflow: a synchronous validator, the shaping of
    the upload endpoint's reply into a result, and the callback lifecycle that
    runs around one upload. */
module ImageUpload {
  import opened Text
  import opened Http

  /** What the validator reads of a browser `File`: its media type and size in bytes. */
  datatype File = File(mimeType: string, size: nat)

  const DefaultMaxSizeInMB: nat := 5
  const DefaultAcceptedTypes: seq<string> := ["image/"]
  const InvalidTypeMessage := "Please select a valid image file"
  const DefaultFailureMessage := "Failed to upload image"
  const NetworkFailureMessage := "Network error while uploading image. Please try again."
  const ReportFallbackMessage := "Upload failed"

  function TooLargeMessage(maxSizeInMB: nat): string {
    "Image file size must be less than " + NatToString(maxSizeInMB) + "MB"
  }

  /** The size ceiling in bytes. */
  function MaxBytes(maxSizeInMB: nat): nat {
    maxSizeInMB * 1024 * 1024
  }

  /** `acceptedTypes.some(type => file.type.startsWith(type))` */
  predicate AcceptedType(mimeType: string, acceptedTypes: seq<string>) {
    exists i :: 0 <= i < |acceptedTypes| && StartsWith(mimeType, acceptedTypes[i])
  }

  datatype Validation = Valid | Invalid(error: string)

  /** `validateImageFile`: the type test runs first, then the size test. */
  function ValidateImageFile(file: File, maxSizeInMB: nat, acceptedTypes: seq<string>): (v: Validation)
    ensures v.Valid? <==> AcceptedType(file.mimeType, acceptedTypes) && file.size <= MaxBytes(maxSizeInMB)
    ensures !AcceptedType(file.mimeType, acceptedTypes) ==> v == Invalid(InvalidTypeMessage)
    ensures AcceptedType(file.mimeType, acceptedTypes) && file.size > MaxBytes(maxSizeInMB) ==>
      v == Invalid(TooLargeMessage(maxSizeInMB))
  {
    if !AcceptedType(file.mimeType, acceptedTypes) then Invalid(InvalidTypeMessage)
    else if file.size > MaxBytes(maxSizeInMB) then Invalid(TooLargeMessage(maxSizeInMB))
    else Valid
  }

  /** With the defaults, any `image/...` file of at most 5 MiB passes, a file of
      exactly 5 MiB included; one byte more is too large; a wrong-typed file is
      rejected for its type whatever its size. */
  lemma DefaultValidation(file: File)
    ensures StartsWith(file.mimeType, "image/") && file.size <= 5 * 1024 * 1024 ==>
      ValidateImageFile(file, DefaultMaxSizeInMB, DefaultAcceptedTypes) == Valid
    ensures StartsWith(file.mimeType, "image/") && file.size == 5 * 1024 * 1024 + 1 ==>
      ValidateImageFile(file, DefaultMaxSizeInMB, DefaultAcceptedTypes) == Invalid(TooLargeMessage(5))
    ensures !StartsWith(file.mimeType, "image/") ==>
      ValidateImageFile(file, DefaultMaxSizeInMB, DefaultAcceptedTypes) == Invalid(InvalidTypeMessage)
  {
    assert DefaultAcceptedTypes[0] == "image/";
  }

  /** What the upload endpoint's JSON holds: a URL under `url` or `imageUrl`, or an `error`. */
  datatype UploadBody = UploadBody(url: string, imageUrl: string, error: string)

  /** `ImageUploadResult`; an absent `imageUrl` or `error` is the empty string. */
  datatype UploadResult = UploadResult(success: bool, imageUrl: string, error: string)

  /** `uploadImageFile` once the request has been answered: it never throws,
      every outcome becomes a result. */
  function UploadImageFile(reply: Reply<UploadBody>): (r: UploadResult)
    ensures r.success <==> reply.Responded? && reply.ok
    ensures r.success ==> r.imageUrl == Or(reply.body.url, reply.body.imageUrl) && r.error == ""
    ensures reply.Responded? && !reply.ok ==> r.error == Or(reply.body.error, DefaultFailureMessage)
    ensures reply.Threw? ==> r.error == NetworkFailureMessage
    ensures !r.success ==> r.imageUrl == "" && r.error != ""
  {
    match reply
    case Threw => UploadResult(false, "", NetworkFailureMessage)
    case Responded(ok, _, body) =>
      if ok then UploadResult(true, Or(body.url, body.imageUrl), "")
      else UploadResult(false, "", Or(body.error, DefaultFailureMessage))
  }

  /** One invocation of a lifecycle callback. */
  datatype Callback = Start | Success(url: string) | Error(message: string) | Complete

  /** Which of the four optional callbacks the caller supplied. */
  datatype Hooks = Hooks(onStart: bool, onSuccess: bool, onError: bool, onComplete: bool)

  datatype Options = Options(maxSizeInMB: nat, acceptedTypes: seq<string>, hooks: Hooks)

  /** `handleImageUpload(file, token)` with no options: 5 MB, `image/` and no callbacks. */
  const DefaultOptions := Options(DefaultMaxSizeInMB, DefaultAcceptedTypes, Hooks(false, false, false, false))

  /** How the returned promise settles: with a result, or rejected because a
      supplied callback threw. */
  datatype Completion = Returned(result: UploadResult) | Rejected

  /** Whether the callback that `c` invokes is marked in `h`: in `options.hooks`
      it was supplied, in the `throws` argument it throws when called. */
  predicate Marked(h: Hooks, c: Callback) {
    match c
    case Start => h.onStart
    case Success(_) => h.onSuccess
    case Error(_) => h.onError
    case Complete => h.onComplete
  }

  /** `cb?.(...)`: the call happens only when the callback was supplied. */
  function Fire(hooks: Hooks, c: Callback): seq<Callback> {
    if Marked(hooks, c) then [c] else []
  }

  /** A call of `c` that happens and throws. */
  predicate Throws(hooks: Hooks, throws: Hooks, c: Callback) {
    Marked(hooks, c) && Marked(throws, c)
  }

  /** The callback that reports an upload result: success only with a URL. */
  function Report(result: UploadResult): Callback {
    if result.success && result.imageUrl != "" then Success(result.imageUrl)
    else Error(Or(result.error, ReportFallbackMessage))
  }

  /** `handleImageUpload`. `reply` is how the upload request is answered;
      `throws` says which callbacks throw when they are called. `calls` lists
      the callbacks invoked, in order, and `uploaded` whether the upload
      request was issued. The validation report and `onUploadStart` run
      outside the `try`, so a throw there skips everything after it; a throw
      from the success/error report still runs `onUploadComplete` in the
      `finally`, and a throw from that rejects even a good result. */
  method HandleImageUpload(file: File, options: Options, reply: Reply<UploadBody>, throws: Hooks)
    returns (completion: Completion, calls: seq<Callback>, uploaded: bool)
    ensures var v := ValidateImageFile(file, options.maxSizeInMB, options.acceptedTypes);
      v.Invalid? ==>
        && !uploaded
        && calls == Fire(options.hooks, Error(v.error))
        && completion == (if Throws(options.hooks, throws, Error(v.error)) then Rejected
                          else Returned(UploadResult(false, "", v.error)))
    ensures var v := ValidateImageFile(file, options.maxSizeInMB, options.acceptedTypes);
      v.Valid? && Throws(options.hooks, throws, Start) ==>
        !uploaded && calls == [Start] && completion == Rejected
    ensures var v := ValidateImageFile(file, options.maxSizeInMB, options.acceptedTypes);
      var result := UploadImageFile(reply);
      var report := Report(result);
      v.Valid? && !Throws(options.hooks, throws, Start) ==>
        && uploaded
        && calls == Fire(options.hooks, Start) + Fire(options.hooks, report) + Fire(options.hooks, Complete)
        && completion == (if Throws(options.hooks, throws, report) || Throws(options.hooks, throws, Complete)
                          then Rejected else Returned(result))
  {
    var hooks := options.hooks;
    calls := [];
    var validation := ValidateImageFile(file, options.maxSizeInMB, options.acceptedTypes);
    if validation.Invalid? {
      if hooks.onError {
        calls := calls + [Error(validation.error)];
        if throws.onError {
          return Rejected, calls, false;
        }
      }
      return Returned(UploadResult(false, "", validation.error)), calls, false;
    }
    if hooks.onStart {
      calls := calls + [Start];
      if throws.onStart {
        return Rejected, calls, false;
      }
    }
    // try {
    uploaded := true;
    var result := UploadImageFile(reply);
    var threw := false;
    if result.success && result.imageUrl != "" {
      if hooks.onSuccess {
        calls := calls + [Success(result.imageUrl)];
        threw := throws.onSuccess;
      }
    } else {
      if hooks.onError {
        calls := calls + [Error(Or(result.error, ReportFallbackMessage))];
        threw := throws.onError;
      }
    }
    // } finally {
    if hooks.onComplete {
      calls := calls + [Complete];
      threw := threw || throws.onComplete;
    }
    // }
    completion := if threw then Rejected else Returned(result);
  }
}
