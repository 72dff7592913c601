/**
 * The decision logic of internal/util/httphelper/http_helper.go: the
 * comma-separated query converter, the status clamping of the response
 * writers, the platform header choice and the ID comparison with a token
 * claim. Writing to the connection and JSON encoding are not modelled; a
 * reply is the status and the envelope that would be written.
 */
module HttpHelper {

  import opened Results
  import opened Numbers
  import opened Strings
  import ApiResponse

  /** `convertStringCommaSeparated`: the empty list for "", otherwise `strings.Split` on commas, empty pieces kept. */
  function ConvertStringCommaSeparated(value: string): (parts: seq<string>)
    ensures value == "" <==> parts == []
    ensures forall i :: 0 <= i < |parts| ==> ',' !in parts[i]
  {
    if value == "" then [] else Split(value, ',')
  }

  /** Joining the pieces with commas gives the value back, and a list of comma-free pieces survives the round trip unless it is the single empty piece. */
  lemma {:induction false} CommaSeparatedRoundTrip(value: string, parts: seq<string>)
    ensures Join(ConvertStringCommaSeparated(value), ',') == value
    ensures |parts| > 0 && parts != [""] && (forall i :: 0 <= i < |parts| ==> ',' !in parts[i])
      ==> ConvertStringCommaSeparated(Join(parts, ',')) == parts
  {
    if value != "" {
      JoinSplit(value, ',');
    }
    if |parts| > 0 && parts != [""] && (forall i :: 0 <= i < |parts| ==> ',' !in parts[i]) {
      SplitJoin(parts, ',');
    }
  }

  /** The `ApiResponse` envelope fields the writers set. */
  datatype Envelope = Envelope(message: string, errorCode: Option<int>)

  /** What a writer sends: the status line and the envelope. */
  datatype Reply = Reply(status: int, envelope: Envelope)

  /** The status `WriteSuccessWithStatusCode` writes: the given one if it is in 201..299, else 200. */
  function SuccessStatus(status: int): (s: int)
    ensures 200 <= s <= 299
    ensures s == status <==> 200 <= status <= 299
    ensures !(200 < status <= 299) ==> s == 200
  {
    if status > 200 && status <= 299 then status else 200
  }

  /** The status `WriteErrorWithStatusCode` writes: the given one if it is in 400..599, else 400. */
  function ErrorStatus(status: int): (s: int)
    ensures 400 <= s <= 599
    ensures s == status <==> 400 <= status <= 599
    ensures !(400 <= status <= 599) ==> s == 400
  {
    if status >= 400 && status <= 599 then status else 400
  }

  /** Clamping is idempotent: a written status is written unchanged the second time. */
  lemma ClampingIdempotent(status: int)
    ensures SuccessStatus(SuccessStatus(status)) == SuccessStatus(status)
    ensures ErrorStatus(ErrorStatus(status)) == ErrorStatus(status)
  {
  }

  /** `WriteSuccessWithStatusCode`: the clamped status and the message, with no error code. */
  function WriteSuccessWithStatusCode(message: string, status: int): (r: Reply)
    ensures r.status == SuccessStatus(status)
    ensures r.envelope == Envelope(message, None)
  {
    Reply(SuccessStatus(status), Envelope(message, None))
  }

  /** `WriteErrorWithStatusCode`: the clamped status, echoed as the envelope's error code. */
  function WriteErrorWithStatusCode(message: string, status: int): (r: Reply)
    ensures r.status == ErrorStatus(status)
    ensures r.envelope == Envelope(message, Some(r.status))
  {
    var s := ErrorStatus(status);
    Reply(s, Envelope(message, Some(s)))
  }

  /** An error handed to `WriteError`: an `api.HttpError` (here `ErrorResponse`, its one implementation) or any other error. */
  datatype AppError = HttpError(response: ApiResponse.ErrorResponse) | OtherError(message: string)

  /**
   * `WriteError`: an `HttpError` is written with its own status and message
   * (its `Error` panics on a non-string message); any other error with 400.
   */
  function WriteError(e: AppError): (r: Run<Reply>)
    ensures e.OtherError? ==> r == Completed(WriteErrorWithStatusCode(e.message, 400))
    ensures e.HttpError? ==>
      (r.Completed? <==> ApiResponse.Error(e.response).Completed?)
      && (r.Completed? ==>
            r.value == WriteErrorWithStatusCode(ApiResponse.Error(e.response).value, ApiResponse.StatusCode(e.response)))
  {
    match e
    case OtherError(m) => Completed(WriteErrorWithStatusCode(m, 400))
    case HttpError(resp) =>
      match ApiResponse.Error(resp)
      case Panicked(why) => Panicked(why)
      case Completed(m) => Completed(WriteErrorWithStatusCode(m, ApiResponse.StatusCode(resp)))
  }

  /** The status `WriteError` writes is always an error status, and it is the error's own one when that is valid. */
  lemma WriteErrorStatus(e: AppError)
    ensures WriteError(e).Completed? ==> 400 <= WriteError(e).value.status <= 599
    ensures e.HttpError? && WriteError(e).Completed? && 400 <= e.response.httpCode <= 599
      ==> WriteError(e).value.status == e.response.httpCode
    ensures e.OtherError? ==> WriteError(e).value.status == 400
  {
  }

  /** The header names of internal/state/state.go. */
  const PlatformHeader: string := "platform"
  const PlatformTypeHeader: string := "platform_type"

  /**
   * `GetPlatform`: the `platform` header, or `platform_type` when the former is
   * empty or absent. `header` is `Header.Get` (canonicalisation included),
   * which gives "" for an absent header.
   */
  function GetPlatform(header: string -> string): (p: string)
    ensures header(PlatformHeader) != "" ==> p == header(PlatformHeader)
    ensures header(PlatformHeader) == "" ==> p == header(PlatformTypeHeader)
    ensures p == "" <==> header(PlatformHeader) == "" && header(PlatformTypeHeader) == ""
  {
    var platform := header(PlatformHeader);
    if platform == "" then header(PlatformTypeHeader) else platform
  }

  /**
   * `CompareParamWithClaimToken`: the parameter read with `strconv.ParseInt`,
   * its error ignored, equals the claim. An unparseable parameter reads as 0;
   * an out-of-range one as the int64 bound it passed.
   */
  function CompareParamWithClaimToken(param: string, claimId: int): (same: bool)
    ensures ParseInt64(param).Parsed? ==> (same <==> ParseInt64(param).value == claimId)
    ensures ParseInt64(param).SyntaxError? ==> (same <==> claimId == 0)
    ensures ParseInt64(param).RangeError? ==> (same <==> ParseInt64(param).clamped == claimId)
  {
    ParseInt64(param).Value() == claimId
  }

  /** The decimal rendering of an int64 claim matches it, and only it. */
  lemma FormattedClaimMatches(claimId: int, other: int)
    requires IsInt64(claimId)
    ensures CompareParamWithClaimToken(FormatInt(claimId), claimId)
    ensures CompareParamWithClaimToken(FormatInt(claimId), other) <==> other == claimId
  {
    ParseFormatInt(claimId);
  }

  /** A non-numeric parameter matches the claim 0: "abc" is taken for user 0. */
  lemma NonNumericMatchesZero()
    ensures CompareParamWithClaimToken("abc", 0)
    ensures CompareParamWithClaimToken("", 0)
  {
  }
}
