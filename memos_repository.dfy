/** The repository layer: every operation sends exactly one request to the
    Memos API with the token turned into a bearer `Authorization` header, and
    normalises whatever came back into a NetworkResult. The HTTP round trip
    itself is not modelled: its outcome is a parameter (HttpOutcome), and each
    operation returns the request it issued together with the normalised
    result (Call). Dispatching onto the I/O thread pool changes nothing that
    the model observes and is left out. */
module MemosRepository {
  import opened DataModels
  import opened KotlinStrings
  import Api = MemosApiService

  /** A Kotlin exception, reduced to its optional message. */
  datatype Exception = Exception(message: Option<string>)

  /** The result of one repository call as the view models consume it. */
  datatype NetworkResult<+T> =
    | Success(data: T)
    | Error(exception: Exception, message: Option<string>)
    | Loading

  /** What the HTTP client produced: a response (status code, status text and
      the decoded body, null when absent or empty) or a thrown exception
      (network failure, decoding failure, ...). */
  datatype HttpOutcome<+T> =
    | Response(code: Int32, statusMessage: string, body: Option<T>)
    | Thrown(exception: Exception)

  /** Retrofit's `Response.isSuccessful`: a 2xx status code. */
  predicate IsSuccessful(code: Int32) {
    200 <= code <= 299
  }

  const NullBodyText: string := "Response body is null"
  const ApiErrorPrefix: string := "API Error: "

  /** The exception text of a non-2xx response: "API Error: <code> <message>". */
  function ApiErrorText(code: Int32, statusMessage: string): (text: string)
    ensures |ApiErrorPrefix| + |statusMessage| + 2 <= |text|
    ensures text[..|ApiErrorPrefix|] == ApiErrorPrefix
    ensures text[|text| - |statusMessage|..] == statusMessage
  {
    ApiErrorPrefix + IntToDecimal(code as int) + " " + statusMessage
  }

  /** `safeApiCall`: maps an HTTP outcome to Success or Error, never Loading.
      Only a thrown exception fills the Error's `message`; the two
      response-based errors leave it null and put their text in the exception. */
  function SafeApiCall<T>(outcome: HttpOutcome<T>): (r: NetworkResult<T>)
    ensures !r.Loading?
    ensures r.Success? <==> outcome.Response? && IsSuccessful(outcome.code) && outcome.body.Some?
    ensures r.Success? ==> r.data == outcome.body.value
    ensures r.Error? ==> r.message == (if outcome.Thrown? then outcome.exception.message else None)
  {
    match outcome
    case Thrown(e) => Error(e, e.message)
    case Response(code, statusMessage, body) =>
      if IsSuccessful(code) then
        match body
        case Some(b) => Success(b)
        case None => Error(Exception(Some(NullBodyText)), None)
      else
        Error(Exception(Some(ApiErrorText(code, statusMessage))), None)
  }

  /** A successful response without a body is an error, never a Success. */
  lemma SafeApiCallNullBody<T>(code: Int32, statusMessage: string)
    requires IsSuccessful(code)
    ensures SafeApiCall(HttpOutcome<T>.Response(code, statusMessage, None)) == Error(Exception(Some(NullBodyText)), None)
  {
  }

  /** A non-2xx response is an error whatever its body, never a Success. */
  lemma SafeApiCallHttpError<T>(code: Int32, statusMessage: string, body: Option<T>)
    requires !IsSuccessful(code)
    ensures SafeApiCall(Response(code, statusMessage, body))
         == Error(Exception(Some(ApiErrorText(code, statusMessage))), None)
  {
  }

  /** A thrown exception is caught and becomes data: Error(e, e.message). */
  lemma SafeApiCallThrown<T>(e: Exception)
    ensures SafeApiCall(HttpOutcome<T>.Thrown(e)) == Error(e, e.message)
  {
  }

  /** The text of an HTTP error carries the status code, readable back as the
      same number, and the status message verbatim. */
  lemma ApiErrorTextCarriesCode(code: Int32, statusMessage: string)
    ensures var t := ApiErrorText(code, statusMessage);
      && t[..|ApiErrorPrefix|] == ApiErrorPrefix
      && |t| >= |ApiErrorPrefix| + |statusMessage| + 2
      && ParseDecimal(t[|ApiErrorPrefix|..|t| - |statusMessage| - 1]) == Some(code as int)
      && t[|t| - |statusMessage| - 1] == ' '
      && t[|t| - |statusMessage|..] == statusMessage
  {
    var d := IntToDecimal(code as int);
    var t := ApiErrorText(code, statusMessage);
    assert t == ApiErrorPrefix + d + " " + statusMessage;
    assert t[|ApiErrorPrefix|..|t| - |statusMessage| - 1] == d;
    IntToDecimalRoundTrip(code as int);
  }

  const BearerPrefix: string := "Bearer "

  /** The `Authorization` header every repository operation sends. */
  function AuthHeader(token: string): (header: string)
    ensures TokenOf(header) == Some(token)
  {
    BearerPrefix + token
  }

  /** The token a bearer header carries, if it is one. */
  function TokenOf(header: string): Option<string> {
    if |BearerPrefix| <= |header| && header[..|BearerPrefix|] == BearerPrefix then
      Some(header[|BearerPrefix|..])
    else
      None
  }

  /** A header carries token `t` exactly when it is the bearer header of `t`:
      the token is sent unchanged, and nothing else reads as its header. */
  lemma AuthHeaderInverse(header: string, t: string)
    ensures TokenOf(header) == Some(t) <==> header == AuthHeader(t)
  {
    if TokenOf(header) == Some(t) {
      assert header == header[..|BearerPrefix|] + header[|BearerPrefix|..];
    }
  }

  /** A repository call: the request sent and the normalised result. */
  datatype Call<+T> = Call(request: Api.ApiRequest, result: NetworkResult<T>)

  predicate AuthorizedWith(request: Api.ApiRequest, token: string) {
    TokenOf(request.authorization) == Some(token)
  }

  function CheckAuthStatus(token: string, outcome: HttpOutcome<User>): (c: Call<User>)
    ensures c.request.CheckAuthStatus? && AuthorizedWith(c.request, token)
    ensures c.result == SafeApiCall(outcome)
  {
    Call(Api.CheckAuthStatus(AuthHeader(token)), SafeApiCall(outcome))
  }

  function GetMemos(
    token: string,
    creatorId: Option<string>,
    limit: Option<Int32>,
    offset: Option<Int32>,
    filter: Option<string>,
    outcome: HttpOutcome<MemosResponse>): (c: Call<MemosResponse>)
    ensures c.request.GetMemos? && AuthorizedWith(c.request, token)
    ensures c.request.creatorId == creatorId && c.request.limit == limit
    ensures c.request.offset == offset && c.request.filter == filter
    ensures c.result == SafeApiCall(outcome)
  {
    Call(Api.GetMemos(AuthHeader(token), creatorId, limit, offset, filter), SafeApiCall(outcome))
  }

  function CreateMemo(token: string, payload: CreateMemoPayload, outcome: HttpOutcome<Memo>): (c: Call<Memo>)
    ensures c.request.CreateMemo? && AuthorizedWith(c.request, token)
    ensures c.request.createPayload == payload
    ensures c.result == SafeApiCall(outcome)
  {
    Call(Api.CreateMemo(AuthHeader(token), payload), SafeApiCall(outcome))
  }

  function GetMemoByUid(token: string, memoUid: string, outcome: HttpOutcome<Memo>): (c: Call<Memo>)
    ensures c.request.GetMemoByUid? && AuthorizedWith(c.request, token)
    ensures c.request.memoUid == memoUid
    ensures c.result == SafeApiCall(outcome)
  {
    Call(Api.GetMemoByUid(AuthHeader(token), memoUid), SafeApiCall(outcome))
  }

  function UpdateMemo(token: string, memoName: string, payload: UpdateMemoPayload, outcome: HttpOutcome<Memo>): (c: Call<Memo>)
    ensures c.request.UpdateMemo? && AuthorizedWith(c.request, token)
    ensures c.request.memoName == memoName && c.request.updatePayload == payload
    ensures c.result == SafeApiCall(outcome)
  {
    Call(Api.UpdateMemo(AuthHeader(token), memoName, payload), SafeApiCall(outcome))
  }

  function DeleteMemo(token: string, memoName: string, outcome: HttpOutcome<()>): (c: Call<()>)
    ensures c.request.DeleteMemo? && AuthorizedWith(c.request, token)
    ensures c.request.memoName == memoName
    ensures c.result == SafeApiCall(outcome)
  {
    Call(Api.DeleteMemo(AuthHeader(token), memoName), SafeApiCall(outcome))
  }

  function UploadResource(token: string, payload: UploadResourcePayload, outcome: HttpOutcome<MemoResource>): (c: Call<MemoResource>)
    ensures c.request.UploadResource? && AuthorizedWith(c.request, token)
    ensures c.request.resourcePayload == payload
    ensures c.result == SafeApiCall(outcome)
  {
    Call(Api.UploadResource(AuthHeader(token), payload), SafeApiCall(outcome))
  }

  function GetTags(token: string, filter: string, outcome: HttpOutcome<TagsResponse>): (c: Call<TagsResponse>)
    ensures c.request.GetTags? && AuthorizedWith(c.request, token)
    ensures c.request.tagsFilter == filter
    ensures c.result == SafeApiCall(outcome)
  {
    Call(Api.GetTags(AuthHeader(token), filter), SafeApiCall(outcome))
  }
}
