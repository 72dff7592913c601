/**
 * The response helpers of internal/model/api/api_response.go: the error
 * envelope for the Lambda gateway, the `ErrorResponse` error type, the
 * generic conditional, and the pagination arithmetic. JSON marshalling is
 * not modelled; a body is the record that would be marshalled.
 */
module ApiResponse {

  import opened Results
  import opened Numbers

  /** The codes of internal/util/exceptioncode/exceptioncode.go that the responses use. */
  const CodeBadRequest: string := "BAD_REQUEST"
  const CodeUnauthorized: string := "UNAUTHORIZED"
  const CodeDataNotFound: string := "DATA_NOT_FOUND"
  const CodeMethodNotAllowed: string := "METHOD_NOT_ALLOWED"

  /** The `ApiResponse` fields an error envelope sets. */
  datatype ErrorBody = ErrorBody(message: string, errorCode: int)

  /** An API Gateway proxy response. */
  datatype GatewayResponse = GatewayResponse(body: ErrorBody, statusCode: int)

  /** The code message `ErrResponse` picks for a status. */
  function DefaultMessage(status: int): (code: string)
    ensures code == CodeUnauthorized <==> status == 401
    ensures code == CodeDataNotFound <==> status == 404
    ensures code == CodeMethodNotAllowed <==> status == 405
    ensures code == CodeBadRequest <==> status !in {401, 404, 405}
  {
    if status == 401 then CodeUnauthorized
    else if status == 404 then CodeDataNotFound
    else if status == 405 then CodeMethodNotAllowed
    else CodeBadRequest
  }

  /**
   * `ErrResponse`: the status's code message, with the status echoed as both
   * the body's error code and the response status; the error itself is ignored.
   */
  function ErrResponse(status: int): (r: GatewayResponse)
    ensures r.statusCode == status && r.body.errorCode == status
    ensures r.body.message == DefaultMessage(status)
  {
    GatewayResponse(ErrorBody(DefaultMessage(status), status), status)
  }

  /** Two statuses share a code message exactly when they are equal or neither is 401, 404 or 405. */
  lemma ErrResponseMessagesAgree(s1: int, s2: int)
    ensures ErrResponse(s1).body.message == ErrResponse(s2).body.message <==>
      s1 == s2 || (s1 !in {401, 404, 405} && s2 !in {401, 404, 405})
  {
  }

  /** The `Message` field, an `interface{}`: a string, or something else (nil included). */
  datatype Message = Text(text: string) | NotText

  /** `ErrorResponse`. */
  datatype ErrorResponse = ErrorResponse(httpCode: int, codeMessage: string, message: Message, errorCode: int)

  /** `ErrorResponse.StatusCode`. */
  function StatusCode(e: ErrorResponse): int {
    e.httpCode
  }

  /** `ErrorResponse.Error`: the message, asserted to be a string; the assertion panics on anything else. */
  function Error(e: ErrorResponse): (r: Run<string>)
    ensures r.Completed? <==> e.message.Text?
    ensures r.Completed? ==> r.value == e.message.text
  {
    match e.message
    case Text(s) => Completed(s)
    case NotText => Panicked("interface conversion: interface {} is not string")
  }

  /** `ConditionalResponse`: the first value when the condition holds, the second otherwise. */
  function ConditionalResponse<T>(condition: bool, a: T, b: T): (r: T)
    ensures condition ==> r == a
    ensures !condition ==> r == b
  {
    if condition then a else b
  }

  /** Negating the condition swaps the alternatives. */
  lemma ConditionalSwap<T>(condition: bool, a: T, b: T)
    ensures ConditionalResponse(condition, a, b) == ConditionalResponse(!condition, b, a)
  {
  }

  /** `Pagination`; every field is an int64. */
  datatype Pagination = Pagination(page: int, pageSize: int, totalPage: int, totalData: int)

  /**
   * `newPagination` as written: the division is guarded by `pageSize > 0`, but
   * the remainder `totalData % pageSize` that follows is not, so a zero page
   * size panics.
   */
  function NewPaginationAsWritten(totalData: int, page: int, pageSize: int): (r: Run<Pagination>)
    requires IsInt64(totalData) && IsInt64(page) && IsInt64(pageSize)
    ensures r.Panicked? <==> pageSize == 0
  {
    var quotient := if pageSize > 0 then Quo(totalData, pageSize) else 0;
    if pageSize == 0 then Panicked("integer divide by zero")
    else
      var totalPage := if Rem(totalData, pageSize) > 0 then quotient + 1 else quotient;
      Completed(Pagination(page, pageSize, totalPage, totalData))
  }

  /**
   * `newPagination` with the remainder guarded like the division: the page
   * count is the number of pages of `pageSize` items that hold `totalData`
   * items (the ceiling of the quotient, also for a negative total, which Go's
   * truncating division rounds up), and zero for a zero page size.
   */
  function NewPagination(totalData: int, page: int, pageSize: int): (p: Pagination)
    requires IsInt64(totalData) && IsInt64(page) && IsInt64(pageSize)
    ensures p.page == page && p.pageSize == pageSize && p.totalData == totalData
    ensures pageSize > 0 ==> (p.totalPage - 1) * pageSize < totalData <= p.totalPage * pageSize
    ensures pageSize == 0 ==> p.totalPage == 0
    ensures pageSize < 0 ==> (p.totalPage == 1 <==> Rem(totalData, pageSize) > 0) && (p.totalPage == 0 <==> Rem(totalData, pageSize) <= 0)
    ensures IsInt64(p.totalPage)
  {
    var quotient := if pageSize > 0 then Quo(totalData, pageSize) else 0;
    var totalPage := if pageSize != 0 && Rem(totalData, pageSize) > 0 then quotient + 1 else quotient;
    if pageSize > 0 then
      PageCountIsCeiling(totalData, pageSize);
      Pagination(page, pageSize, totalPage, totalData)
    else Pagination(page, pageSize, totalPage, totalData)
  }

  /** With a positive page size, Go's truncating quotient rounded up on a positive remainder is the ceiling. */
  lemma PageCountIsCeiling(totalData: int, pageSize: int)
    requires pageSize > 0 && IsInt64(totalData)
    ensures var q := Quo(totalData, pageSize);
      var n := if Rem(totalData, pageSize) > 0 then q + 1 else q;
      (n - 1) * pageSize < totalData <= n * pageSize && IsInt64(n)
  {
    var q := Quo(totalData, pageSize);
    var r := Rem(totalData, pageSize);
    assert totalData == pageSize * q + r;
    if r > 0 {
      assert totalData > 0;
      assert q <= totalData / pageSize;
      assert (q + 1 - 1) * pageSize < totalData;
      assert totalData <= (q + 1) * pageSize;
    } else {
      assert (q - 1) * pageSize < totalData;
    }
  }

  /** The source panics on a zero page size: ten items in pages of zero. */
  lemma AsWrittenPanicsOnZeroPageSize()
    ensures NewPaginationAsWritten(10, 1, 0).Panicked?
  {
  }

  /** For every non-zero page size the source and the guarded version agree. */
  lemma AsWrittenAgreesOnNonZeroPageSize(totalData: int, page: int, pageSize: int)
    requires IsInt64(totalData) && IsInt64(page) && IsInt64(pageSize)
    requires pageSize != 0
    ensures NewPaginationAsWritten(totalData, page, pageSize) == Completed(NewPagination(totalData, page, pageSize))
  {
  }
}
