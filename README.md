# Memos client: result normalisation and view-model state, in Dafny

This project models the logic core of an Android client for the Memos
note-taking server. It covers three layers:

- **Repository** (`MemosRepository`). Each operation sends one request with a
  `Bearer` authorization header. `safeApiCall` turns whatever came back into a
  `NetworkResult`: always `Success` or `Error`, never `Loading` (which only
  the view models' handlers react to).
- **Base view model** (`BaseViewModel`). It holds the shared `isLoading` and
  `errorMessage` slots. Its two `handleNetworkResult` overloads fold a result
  into those slots, and into a target slot when there is one.
- **Memo view model** (`MemoViewModel`). It runs the user actions:
  - authentication, with base-URL normalisation;
  - listing, with the server filter expression it builds;
  - create, read, update and delete of a memo, where a successful mutation is
    followed by a list refresh;
  - resource upload and tag fetching.

The files:

- `data_models.dfy` holds the plain records as datatypes. Kotlin's `T?` is `Option<T>`, `Int` is `Int32` and `Long` is `Int64`.
- `kotlin_strings.dfy` holds the Kotlin string functions the logic depends on: `isBlank`, `isNullOrBlank`, `endsWith` and the decimal rendering of an `Int`. `IsBlank` is characterised by a quantifier over its characters; the decimal rendering is checked against an independent parser (`ParseDecimal`).
- `memos_api_service.dfy` holds the remote operations as request values (`ApiRequest`).
- `memos_repository.dfy` is the repository. The outcome of the HTTP call (`HttpOutcome`: a response or a thrown exception) is a parameter. Each operation returns the request it sent and the normalised result (`Call`).
- `base_view_model.dfy` defines:
  - `LiveData`, a class for an observable cell;
  - the class `BaseViewModel`, with both handlers as methods;
  - the pure functions that specify them (`StatusAfter`, `SlotAfter`, `OnSuccessArgument`, `OnErrorArgument`).
- `memo_view_model.dfy` defines:
  - URL normalisation, the filter builder and a filter parser;
  - for each action, a pure step function from a `ViewState` snapshot to the new snapshot plus the requests sent;
  - the class `MemoViewModel`. Its methods change `LiveData` cells the way the source does and are proved equal to their steps. A ghost `requests` trace records every request handed to the repository.

Modelling choices:

- `MemoViewModel` extends `BaseViewModel` in the source. Here it holds a `base: BaseViewModel` instead.
- Callbacks are not passed in. A handler returns the argument it would invoke `onSuccess` or `onError` with, or `None`, and the caller runs the continuation.
- As written, `fetchMemos` stores a `NetworkResult<MemosResponse>` into a `List<Memo>?` slot, and `fetchTags` stores a `TagsResponse` into a `Map<String, Int>?` slot. The model types these two slots by the response records (`Option<MemosResponse>`, `Option<TagsResponse>`).
- Kotlin default arguments are passed explicitly. The refresh after a mutation is `FetchMemos(None, None, None, refresh)`, which is `fetchMemos()`.
- After a successful create, update or delete, the code calls `fetchMemos()` with no limit, offset or search term. The parameters of the previous list fetch are not reused, and the model does the same (`ThenRefreshOnce`).

## Model

| member | source | states |
|---|---|---|
| `KotlinStrings.IsBlank` | app/src/main/java/com/example/memosapp/viewmodel/MemoViewModel.kt:64 | `isBlank()` holds exactly when every character is whitespace (Kotlin's JVM `isWhitespace`, no-break spaces included) |
| `KotlinStrings.IntToDecimal` | app/src/main/java/com/example/memosapp/repository/MemosRepository.kt:27 | the rendering of the status code is non-empty and starts with '-' exactly for negative codes |
| `KotlinStrings.NatToDecimal` | app/src/main/java/com/example/memosapp/repository/MemosRepository.kt:27 | the digits of a non-negative code: at least one, all decimal digits, no leading zero |
| `KotlinStrings.IntToDecimalRoundTrip` | app/src/main/java/com/example/memosapp/repository/MemosRepository.kt:27 | parsing the rendered code gives back the same integer |
| `MemosRepository.SafeApiCall` | app/src/main/java/com/example/memosapp/repository/MemosRepository.kt:19-32 | never `Loading`; `Success(b)` exactly when the code is 2xx and the body `b` is present; `Error.message` is non-null only when an exception was thrown, and then it is that exception's message |
| `MemosRepository.SafeApiCallNullBody` | app/src/main/java/com/example/memosapp/repository/MemosRepository.kt:23-25 | a 2xx response without a body gives `Error(Exception("Response body is null"), null)` |
| `MemosRepository.SafeApiCallHttpError` | app/src/main/java/com/example/memosapp/repository/MemosRepository.kt:26-27 | a non-2xx response gives `Error(Exception("API Error: <code> <message>"), null)`, whatever its body |
| `MemosRepository.SafeApiCallThrown` | app/src/main/java/com/example/memosapp/repository/MemosRepository.kt:29-31 | a thrown exception `e` is caught and becomes `Error(e, e.message)` |
| `MemosRepository.ApiErrorTextCarriesCode` | app/src/main/java/com/example/memosapp/repository/MemosRepository.kt:27 | the HTTP-error text starts with "API Error: ", the code reads back as the same number, and the status message follows verbatim after one space |
| `MemosRepository.ApiErrorText` | app/src/main/java/com/example/memosapp/repository/MemosRepository.kt:27 | the non-2xx exception text: starts with "API Error: ", ends with the status message, with at least the code and a space in between |
| `MemosRepository.AuthHeader` | app/src/main/java/com/example/memosapp/repository/MemosRepository.kt:35 | the header reads back as the token, unchanged |
| `MemosRepository.AuthHeaderInverse` | app/src/main/java/com/example/memosapp/repository/MemosRepository.kt:35 | a header carries token `t` if and only if it is `"Bearer " + t` |
| `MemosRepository.CheckAuthStatus` | app/src/main/java/com/example/memosapp/repository/MemosRepository.kt:34-36 | sends one auth-status request with the bearer header of the token; the result is the normalised outcome |
| `MemosRepository.GetMemos` | app/src/main/java/com/example/memosapp/repository/MemosRepository.kt:38-49 | bearer header of the token; `creatorId`, `limit`, `offset` and `filter` forwarded unchanged; result normalised |
| `MemosRepository.CreateMemo` | app/src/main/java/com/example/memosapp/repository/MemosRepository.kt:51-54 | bearer header; payload forwarded unchanged; result normalised |
| `MemosRepository.GetMemoByUid` | app/src/main/java/com/example/memosapp/repository/MemosRepository.kt:56-58 | bearer header; uid forwarded unchanged; result normalised |
| `MemosRepository.UpdateMemo` | app/src/main/java/com/example/memosapp/repository/MemosRepository.kt:60-63 | bearer header; memo name and payload forwarded unchanged; result normalised |
| `MemosRepository.DeleteMemo` | app/src/main/java/com/example/memosapp/repository/MemosRepository.kt:65-68 | bearer header; memo name forwarded unchanged; result normalised |
| `MemosRepository.UploadResource` | app/src/main/java/com/example/memosapp/repository/MemosRepository.kt:70-72 | bearer header; payload forwarded unchanged; result normalised |
| `MemosRepository.GetTags` | app/src/main/java/com/example/memosapp/repository/MemosRepository.kt:74-76 | bearer header; filter forwarded unchanged; result normalised |
| `BaseViewModel.StatusAfter` | app/src/main/java/com/example/memosapp/viewmodel/BaseViewModel.kt:16-37 | the shared status after either handler: loading exactly for `Loading` (which keeps the message); otherwise a message is shown exactly when the result is an `Error` |
| `BaseViewModel.SlotAfter` | app/src/main/java/com/example/memosapp/viewmodel/BaseViewModel.kt:16-37 | the target slot after the slot handler: the data on `Success`, unchanged on `Loading`, null on `Error` |
| `BaseViewModel.OnSuccessArgument` | app/src/main/java/com/example/memosapp/viewmodel/BaseViewModel.kt:50-54 | `onSuccess` is invoked exactly on `Success`, with its data |
| `BaseViewModel.OnErrorArgument` | app/src/main/java/com/example/memosapp/viewmodel/BaseViewModel.kt:55-60 | `onError` is invoked exactly on `Error`, with the error's message when it has one |
| `BaseViewModel.LoadingOnlyRaisesFlag` | app/src/main/java/com/example/memosapp/viewmodel/BaseViewModel.kt:22-24 | `Loading` sets `isLoading` and leaves the slot, `errorMessage` and both callbacks alone (both overloads) |
| `BaseViewModel.SuccessWritesSlot` | app/src/main/java/com/example/memosapp/viewmodel/BaseViewModel.kt:25-30 | `Success(d)` lowers `isLoading`, writes `d` to the slot, clears `errorMessage`, invokes `onSuccess` once with `d` and never `onError` |
| `BaseViewModel.ErrorClearsSlot` | app/src/main/java/com/example/memosapp/viewmodel/BaseViewModel.kt:31-35 | `Error` lowers `isLoading`, shows the message or "An unknown error occurred", clears the slot, does not invoke `onSuccess`, and passes `onError` the very string it shows |
| `BaseViewModel.RepositoryResultEndsLoading` | app/src/main/java/com/example/memosapp/viewmodel/BaseViewModel.kt:26-32 | handling any repository result leaves `isLoading` false, and an error is shown exactly when the call failed |
| `BaseViewModel.ResponseErrorShowsFallback` | app/src/main/java/com/example/memosapp/viewmodel/BaseViewModel.kt:33 | for an HTTP error or a missing body the screen shows "An unknown error occurred", because only a thrown exception fills `Error.message` |
| `BaseViewModel.BaseViewModel.constructor` | app/src/main/java/com/example/memosapp/viewmodel/BaseViewModel.kt:12-14 | initially `isLoading` is false and `errorMessage` is null |
| `BaseViewModel.BaseViewModel.HandleNetworkResult` | app/src/main/java/com/example/memosapp/viewmodel/BaseViewModel.kt:16-37 | the new `isLoading`/`errorMessage` are `StatusAfter`, the slot is `SlotAfter` and the `onSuccess` argument is `OnSuccessArgument` of the old values and the result |
| `BaseViewModel.BaseViewModel.HandleNetworkResultWithCallbacks` | app/src/main/java/com/example/memosapp/viewmodel/BaseViewModel.kt:41-62 | the same status change, with the `onSuccess` and `onError` arguments given by `OnSuccessArgument` and `OnErrorArgument` |
| `MemoViewModel.NormalizeBaseUrl` | app/src/main/java/com/example/memosapp/viewmodel/MemoViewModel.kt:38 | the result ends with "/"; a URL that already does is unchanged; otherwise exactly one "/" is appended |
| `MemoViewModel.NormalizeBaseUrlIdempotent` | app/src/main/java/com/example/memosapp/viewmodel/MemoViewModel.kt:38 | normalising twice gives the same URL as normalising once |
| `MemoViewModel.CreatorFilter` | app/src/main/java/com/example/memosapp/viewmodel/MemoViewModel.kt:69 | the creator clause `creator == 'users/<id>'`: the prefix, the id verbatim, a closing quote (also the whole tag filter at :164) |
| `MemoViewModel.MemoFilter` | app/src/main/java/com/example/memosapp/viewmodel/MemoViewModel.kt:69-72 | the filter starts with `creator == 'users/<id>'` and has something after it if and only if the search term is non-null and non-blank |
| `MemoViewModel.MemoFilterRoundTrip` | app/src/main/java/com/example/memosapp/viewmodel/MemoViewModel.kt:69-72 | for an id without a quote, the filter parses back to that id and to the search term exactly when it is non-blank |
| `MemoViewModel.MemoFilterNotEscaped` | app/src/main/java/com/example/memosapp/viewmodel/MemoViewModel.kt:69-72 | nothing is escaped: moving the text `' && content_search == ['` plus any middle part from the end of the id to the front of a non-blank term gives a different pair with the same filter text |
| `MemoViewModel.Refused` | app/src/main/java/com/example/memosapp/viewmodel/MemoViewModel.kt:62-67 | a failed configuration check: the message is shown, no request is sent, the loading flag and every slot are unchanged |
| `MemoViewModel.CheckAuthStep` | app/src/main/java/com/example/memosapp/viewmodel/MemoViewModel.kt:35-58 | authentication: one auth request with the bearer token; loading ends false; the config holds the normalised URL and the token; the user, the config's user id and the absence of an error are present exactly on success |
| `MemoViewModel.FetchMemosStep` | app/src/main/java/com/example/memosapp/viewmodel/MemoViewModel.kt:61-79 | listing: no request exactly when the token or the user is missing, otherwise one bearer-authorised `getMemos`; only the list and the status can change |
| `MemoViewModel.ThenRefresh` | app/src/main/java/com/example/memosapp/viewmodel/MemoViewModel.kt:90-93 | a mutation request, followed by a second (list) request exactly when it succeeded and a list fetch is configured; only the list and the status can change |
| `MemoViewModel.CreateMemoStep` | app/src/main/java/com/example/memosapp/viewmodel/MemoViewModel.kt:81-95 | create: no request exactly when the token is missing, otherwise a bearer-authorised create first; only the list and the status can change |
| `MemoViewModel.FetchMemoDetailsStep` | app/src/main/java/com/example/memosapp/viewmodel/MemoViewModel.kt:97-107 | details: no request exactly when the token is missing, at most one otherwise; only the selected memo and the status can change |
| `MemoViewModel.UpdateMemoStep` | app/src/main/java/com/example/memosapp/viewmodel/MemoViewModel.kt:109-123 | update: no request exactly when the token is missing, otherwise a bearer-authorised update first; only the list and the status can change |
| `MemoViewModel.DeleteMemoStep` | app/src/main/java/com/example/memosapp/viewmodel/MemoViewModel.kt:125-138 | delete: no request exactly when the token is missing, otherwise a bearer-authorised delete first; only the list and the status can change |
| `MemoViewModel.UploadResourceStep` | app/src/main/java/com/example/memosapp/viewmodel/MemoViewModel.kt:142-153 | upload: no request exactly when the token is missing, at most one otherwise; only the uploaded resource and the status can change |
| `MemoViewModel.FetchTagsStep` | app/src/main/java/com/example/memosapp/viewmodel/MemoViewModel.kt:157-171 | tags: no request exactly when the token or the user is missing, at most one otherwise; only the tags and the status can change |
| `MemoViewModel.AuthSuccessStoresUser` | app/src/main/java/com/example/memosapp/viewmodel/MemoViewModel.kt:39-56 | on success the config is (normalised URL, token, user id), `currentUser` is the user, the error is cleared, `isLoading` ends false, and exactly one auth request with the bearer header was sent |
| `MemoViewModel.AuthFailureClearsUser` | app/src/main/java/com/example/memosapp/viewmodel/MemoViewModel.kt:39-56 | on failure `currentUser` is null, the error is the message or "Authentication failed", the config stays (normalised URL, token, null), and `isLoading` ends false |
| `MemoViewModel.AuthAppendsSlash` | app/src/main/java/com/example/memosapp/viewmodel/MemoViewModel.kt:38-39 | "https://x.test" is stored as "https://x.test/" |
| `MemoViewModel.FetchMemosRefusedWhenUnconfigured` | app/src/main/java/com/example/memosapp/viewmodel/MemoViewModel.kt:62-67 | with no config, a blank token or no user: "API URL, Token, or User ID is not configured.", no request, `isLoading` and every slot untouched |
| `MemoViewModel.FetchMemosSendsFilter` | app/src/main/java/com/example/memosapp/viewmodel/MemoViewModel.kt:69-78 | otherwise one `getMemos` request (bearer token, creator null, the caller's limit and offset, the user's filter); the list is replaced by the response or cleared; nothing else but the status changes |
| `MemoViewModel.FetchTagsRefusedWhenUnconfigured` | app/src/main/java/com/example/memosapp/viewmodel/MemoViewModel.kt:158-162 | the same refusal, with "... not configured for fetching tags." |
| `MemoViewModel.FetchTagsSendsCreatorFilter` | app/src/main/java/com/example/memosapp/viewmodel/MemoViewModel.kt:164-169 | otherwise one `getTags` request filtered by the creator clause only; the tags slot follows the result |
| `MemoViewModel.FetchMemoDetailsSendsUid` | app/src/main/java/com/example/memosapp/viewmodel/MemoViewModel.kt:103-105 | a configured detail fetch sends exactly one `getMemoByUid` for the given uid with the bearer token; `selectedMemo` follows the result and nothing else but the status changes |
| `MemoViewModel.UploadResourceSendsPayload` | app/src/main/java/com/example/memosapp/viewmodel/MemoViewModel.kt:148-151 | a configured upload sends exactly one request with payload (content, the given visibility, filename, type); `uploadedResource` follows the result, nothing else but the status changes, and no further request follows |
| `MemoViewModel.TokenRequiredForMemoActions` | app/src/main/java/com/example/memosapp/viewmodel/MemoViewModel.kt:81-153 | without a config or with a blank token, create, details, update, delete and upload only show "API URL or Token is not configured." and send nothing |
| `MemoViewModel.ThenRefreshOnce` | app/src/main/java/com/example/memosapp/viewmodel/MemoViewModel.kt:90-93 | after a mutation call: exactly one list request with default arguments on success (when a user is known), none on failure; the list then holds only what the refresh returned |
| `MemoViewModel.CreateMemoRefreshesOnce` | app/src/main/java/com/example/memosapp/viewmodel/MemoViewModel.kt:81-95 | a create sends its payload (visibility given, no relations) and then exactly one list request iff it succeeded and a user is known |
| `MemoViewModel.UpdateMemoRefreshesOnce` | app/src/main/java/com/example/memosapp/viewmodel/MemoViewModel.kt:109-123 | an update sends only content, visibility and pinned, never writes `selectedMemo`, and refreshes exactly once iff it succeeded and a user is known |
| `MemoViewModel.DeleteMemoRefreshesOnce` | app/src/main/java/com/example/memosapp/viewmodel/MemoViewModel.kt:125-138 | a delete sends the memo name and refreshes exactly once iff it succeeded and a user is known |
| `MemoViewModel.MemoViewModel.constructor` | app/src/main/java/com/example/memosapp/viewmodel/MemoViewModel.kt:13-18 | the four cells declared here, `uploadedResource` (:141) and `tags` (:156) start null, the inherited `isLoading`/`errorMessage` start false/null (BaseViewModel.kt:12-14), every cell is a fresh object, and no request has been sent |
| `MemoViewModel.MemoViewModel.SaveApiConfig` | app/src/main/java/com/example/memosapp/viewmodel/MemoViewModel.kt:21-26 | the config slot becomes (url, token, user id), and nothing else changes |
| `MemoViewModel.MemoViewModel.CheckAuthAndFetchUser` | app/src/main/java/com/example/memosapp/viewmodel/MemoViewModel.kt:35-58 | the new state and the appended requests are those of `CheckAuthStep` |
| `MemoViewModel.MemoViewModel.FetchMemos` | app/src/main/java/com/example/memosapp/viewmodel/MemoViewModel.kt:61-79 | the new state and the appended requests are those of `FetchMemosStep` |
| `MemoViewModel.MemoViewModel.CreateMemo` | app/src/main/java/com/example/memosapp/viewmodel/MemoViewModel.kt:81-95 | the new state and the appended requests are those of `CreateMemoStep`, the refresh included |
| `MemoViewModel.MemoViewModel.FetchMemoDetails` | app/src/main/java/com/example/memosapp/viewmodel/MemoViewModel.kt:97-107 | the new state and the appended requests are those of `FetchMemoDetailsStep` |
| `MemoViewModel.MemoViewModel.UpdateMemo` | app/src/main/java/com/example/memosapp/viewmodel/MemoViewModel.kt:109-123 | the new state and the appended requests are those of `UpdateMemoStep`, the refresh included |
| `MemoViewModel.MemoViewModel.DeleteMemo` | app/src/main/java/com/example/memosapp/viewmodel/MemoViewModel.kt:125-138 | the new state and the appended requests are those of `DeleteMemoStep`, the refresh included |
| `MemoViewModel.MemoViewModel.UploadResource` | app/src/main/java/com/example/memosapp/viewmodel/MemoViewModel.kt:142-153 | the new state and the appended requests are those of `UploadResourceStep` |
| `MemoViewModel.MemoViewModel.FetchTags` | app/src/main/java/com/example/memosapp/viewmodel/MemoViewModel.kt:157-171 | the new state and the appended requests are those of `FetchTagsStep` |

## Left out

- The HTTP client interface (`MemosApiService.kt`) is modelled only as request values. Retrofit, URLs, HTTP verbs, JSON encoding and decoding, and the base64 content of uploads are not modelled. A decoding failure appears only as a thrown exception or an absent body in `HttpOutcome`.
- Coroutines are not modelled: `viewModelScope.launch`, `withContext(Dispatchers.IO)`, suspension and cancellation. Each action runs to completion, and a chained refresh runs right after its mutation. Races on the shared `isLoading`, `errorMessage` and `apiConfig` slots between concurrent actions are therefore not modelled.
- `postValue` is modelled as an immediate assignment. On Android the value is delivered later on the main thread. For example, `fetchMemos` reads `apiConfig.value` and could still see the value from before a `saveApiConfig` that was just posted. The model does not capture that delay.
- `loadApiConfig` is an empty stub, so there is nothing to model. Persisting the configuration is not implemented in the source either.
- `HttpOutcome.Thrown` stands for a Kotlin `Exception` reduced to its message. Throwables that are not `Exception`s would escape `safeApiCall` in the source; they are not modelled. A coroutine `CancellationException` would be caught like any other exception; that is not distinguished.
- `BaseViewModel.BaseViewModel.HandleNetworkResult`: requires the target slot to be a different cell from `errorMessage`. The source does not forbid passing `errorMessage` itself, and no caller does.
- The UI screens (`MemoDetailScreen.kt`, `MemosListScreen.kt`) are not part of this model. That covers the layout, the previews and the locale-dependent timestamp formatting.
- The records of `DataModels.kt` are datatypes only. The commented-out `getDisplayUrl` is not code and is not modelled. `relationList` elements are uninterpreted JSON text.
- Visibility strings are not checked against PUBLIC, PROTECTED and PRIVATE, because the client does not check them either.
