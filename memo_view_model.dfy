/** The memo screen's view model: authentication, listing, creating, reading,
    updating and deleting memos, uploading a resource and fetching tags.

    Each action is specified twice over: a pure step function that says, for
    a snapshot of the observable state and the outcome of each HTTP call the
    action would make, what the new snapshot is and which requests were sent
    (ViewState, Step); and a method of the class MemoViewModel that performs
    the action on LiveData cells the way the source does, proved to agree with
    its step. Properties are proved about the steps.

    Coroutine launches are run to completion in place, so an action and the
    list refresh it chains happen one after the other. The repository is the
    stateless module MemosRepository; the outcome of each call it would make is
    a parameter of the action. */
module MemoViewModel {
  import opened DataModels
  import opened KotlinStrings
  import Api = MemosApiService
  import Repo = MemosRepository
  import B = BaseViewModel

  const ListNotConfigured: string := "API URL, Token, or User ID is not configured."
  const TagsNotConfigured: string := "API URL, Token, or User ID is not configured for fetching tags."
  const TokenNotConfigured: string := "API URL or Token is not configured."
  const AuthFailed: string := "Authentication failed"

  // ---------------------------------------------------------------------
  // Base URL normalisation

  /** The base URL as stored after authentication: with a trailing "/". */
  function NormalizeBaseUrl(apiUrl: string): (url: string)
    ensures EndsWith(url, "/")
    ensures EndsWith(apiUrl, "/") ==> url == apiUrl
    ensures !EndsWith(apiUrl, "/") ==> url == apiUrl + "/"
  {
    if EndsWith(apiUrl, "/") then apiUrl else apiUrl + "/"
  }

  lemma NormalizeBaseUrlIdempotent(apiUrl: string)
    ensures NormalizeBaseUrl(NormalizeBaseUrl(apiUrl)) == NormalizeBaseUrl(apiUrl)
  {
  }

  // ---------------------------------------------------------------------
  // Filter expressions sent to the server

  const CreatorPrefix: string := "creator == 'users/"
  const SearchPrefix: string := " && content_search == ['"
  const SearchSuffix: string := "']"

  /** `creator == 'users/<id>'`: the memos and tags of one user. */
  function CreatorFilter(userId: string): (filter: string)
    ensures |filter| == |CreatorPrefix| + |userId| + 1
    ensures filter[..|CreatorPrefix|] == CreatorPrefix && filter[|filter| - 1] == '\''
    ensures filter[|CreatorPrefix|..|filter| - 1] == userId
  {
    CreatorPrefix + userId + "'"
  }

  /** The list filter: the creator clause, followed by a content-search clause
      exactly when a non-blank search term is given. Neither the id nor the
      term is escaped. */
  function MemoFilter(userId: string, contentSearch: Option<string>): (filter: string)
    ensures |CreatorFilter(userId)| <= |filter|
    ensures filter[..|CreatorFilter(userId)|] == CreatorFilter(userId)
    ensures IsNullOrBlank(contentSearch) <==> filter == CreatorFilter(userId)
  {
    var creator := CreatorFilter(userId);
    if IsNullOrBlank(contentSearch) then creator
    else creator + SearchPrefix + contentSearch.value + SearchSuffix
  }

  /** Splits a string at its first single quote. */
  function SplitAtQuote(s: string): Option<(string, string)> {
    if s == [] then None
    else if s[0] == '\'' then Some(([], s[1..]))
    else match SplitAtQuote(s[1..])
      case None => None
      case Some((before, after)) => Some(([s[0]] + before, after))
  }

  /** Reads a list filter back into the user id and the search term: the
      reference reading against which MemoFilter is checked. */
  function ParseMemoFilter(filter: string): Option<(string, Option<string>)> {
    if |CreatorPrefix| <= |filter| && filter[..|CreatorPrefix|] == CreatorPrefix then
      match SplitAtQuote(filter[|CreatorPrefix|..])
      case None => None
      case Some((userId, rest)) =>
        if rest == [] then Some((userId, None))
        else if |SearchPrefix| + |SearchSuffix| <= |rest|
             && rest[..|SearchPrefix|] == SearchPrefix
             && rest[|rest| - |SearchSuffix|..] == SearchSuffix then
          Some((userId, Some(rest[|SearchPrefix|..|rest| - |SearchSuffix|])))
        else None
    else None
  }

  lemma {:induction false} SplitAtFirstQuote(before: string, after: string)
    requires '\'' !in before
    ensures SplitAtQuote(before + "'" + after) == Some((before, after))
  {
    if before != [] {
      assert (before + "'" + after)[1..] == before[1..] + "'" + after;
      SplitAtFirstQuote(before[1..], after);
      assert [before[0]] + before[1..] == before;
    }
  }

  /** For a user id without a quote, the filter determines the user and the
      search term that is actually applied: nothing is lost or mixed up. */
  lemma MemoFilterRoundTrip(userId: string, contentSearch: Option<string>)
    requires '\'' !in userId
    ensures ParseMemoFilter(MemoFilter(userId, contentSearch))
         == Some((userId, if IsNullOrBlank(contentSearch) then None else contentSearch))
  {
    var filter := MemoFilter(userId, contentSearch);
    var rest := if IsNullOrBlank(contentSearch) then [] else SearchPrefix + contentSearch.value + SearchSuffix;
    assert filter == CreatorPrefix + (userId + "'" + rest);
    assert filter[|CreatorPrefix|..] == userId + "'" + rest;
    SplitAtFirstQuote(userId, rest);
    if !IsNullOrBlank(contentSearch) {
      assert rest[..|SearchPrefix|] == SearchPrefix;
      assert rest[|rest| - |SearchSuffix|..] == SearchSuffix;
      assert rest[|SearchPrefix|..|rest| - |SearchSuffix|] == contentSearch.value;
    }
  }

  /** Without that condition the filter is ambiguous: since nothing is
      escaped, a quote in the id or in the search term can produce the same
      text for two different (user, term) pairs. */
  lemma MemoFilterNotEscaped(id: string, middle: string, term: string)
    requires !IsBlank(term)
    ensures |id + "'" + SearchPrefix + middle| > |id|
    ensures MemoFilter(id + "'" + SearchPrefix + middle, Some(term))
         == MemoFilter(id, Some(middle + "'" + SearchPrefix + term))
  {
    var longId := id + "'" + SearchPrefix + middle;
    var longTerm := middle + "'" + SearchPrefix + term;
    assert longTerm[|middle|] == '\'';
    SearchFilter(longId, term);
    SearchFilter(id, longTerm);
    QuoteShiftSameText(id, middle, term);
  }

  /** A non-blank search term is appended as a content-search clause. */
  lemma SearchFilter(userId: string, term: string)
    requires !IsBlank(term)
    ensures MemoFilter(userId, Some(term)) == CreatorPrefix + userId + "'" + SearchPrefix + term + SearchSuffix
  {
  }

  /** The search-clause text is the same whether the closing quote and the
      `' && content_search == ['` text that follows it (plus a middle part) are
      read as the end of the id or as the start of the term. */
  lemma QuoteShiftSameText(id: string, middle: string, term: string)
    ensures CreatorPrefix + (id + "'" + SearchPrefix + middle) + "'" + SearchPrefix + term + SearchSuffix
         == CreatorPrefix + id + "'" + SearchPrefix + (middle + "'" + SearchPrefix + term) + SearchSuffix
  {
  }

  // ---------------------------------------------------------------------
  // Preconditions of the actions

  /** A config with a non-blank token: what create, read, update, delete and
      upload require. */
  predicate HasToken(config: Option<ApiConfig>) {
    config.Some? && !IsBlank(config.value.apiToken)
  }

  /** A token and a known user: what listing and tag fetching require. */
  predicate HasTokenAndUser(config: Option<ApiConfig>, user: Option<User>) {
    HasToken(config) && user.Some?
  }

  // ---------------------------------------------------------------------
  // Observable state and the specification of each action

  datatype ViewState = ViewState(
    apiConfig: Option<ApiConfig>,
    currentUser: Option<User>,
    memosList: Option<MemosResponse>,
    selectedMemo: Option<Memo>,
    uploadedResource: Option<MemoResource>,
    tags: Option<TagsResponse>,
    status: B.Status)

  const Initial: ViewState := ViewState(None, None, None, None, None, None, B.Status(false, None))

  /** The new state of an action and the requests it sent, in order. */
  datatype Step = Step(state: ViewState, issued: seq<Api.ApiRequest>)

  /** A failed precondition: the message is shown and nothing else happens. */
  function Refused(s: ViewState, message: string): (step: Step)
    ensures step.issued == [] && step.state.status.errorMessage == Some(message)
    ensures step.state.(status := s.status) == s && step.state.status.isLoading == s.status.isLoading
  {
    Step(s.(status := s.status.(errorMessage := Some(message))), [])
  }

  function CheckAuthStep(s: ViewState, apiUrl: string, token: string, outcome: Repo.HttpOutcome<User>): (step: Step)
    ensures |step.issued| == 1 && step.issued[0].CheckAuthStatus? && Repo.AuthorizedWith(step.issued[0], token)
    ensures !step.state.status.isLoading
    ensures step.state.apiConfig.Some? && step.state.apiConfig.value.apiToken == token
    ensures step.state.apiConfig.value.apiUrl == NormalizeBaseUrl(apiUrl)
    ensures step.state.currentUser.Some? <==> Repo.SafeApiCall(outcome).Success?
    ensures step.state.apiConfig.value.userId.Some? <==> Repo.SafeApiCall(outcome).Success?
    ensures step.state.status.errorMessage.None? <==> Repo.SafeApiCall(outcome).Success?
  {
    var url := NormalizeBaseUrl(apiUrl);
    var call := Repo.CheckAuthStatus(token, outcome);
    var pending := s.(apiConfig := Some(ApiConfig(url, token, None)), status := s.status.(isLoading := true));
    var settled :=
      match call.result
      case Success(user) =>
        pending.(currentUser := Some(user), apiConfig := Some(ApiConfig(url, token, Some(user.id))),
                 status := pending.status.(errorMessage := None))
      case Error(_, message) =>
        pending.(currentUser := None, status := pending.status.(errorMessage := Some(B.OrElse(message, AuthFailed))))
      case Loading => pending;
    Step(settled.(status := settled.status.(isLoading := false)), [call.request])
  }

  function FetchMemosStep(
    s: ViewState, limit: Option<Int32>, offset: Option<Int32>, contentSearch: Option<string>,
    outcome: Repo.HttpOutcome<MemosResponse>): (step: Step)
    ensures step.issued == [] <==> !HasTokenAndUser(s.apiConfig, s.currentUser)
    ensures |step.issued| <= 1
    ensures step.issued != [] ==> step.issued[0].GetMemos? && Repo.AuthorizedWith(step.issued[0], s.apiConfig.value.apiToken)
    ensures step.state.(memosList := s.memosList, status := s.status) == s
  {
    if !HasTokenAndUser(s.apiConfig, s.currentUser) then Refused(s, ListNotConfigured)
    else
      var filter := MemoFilter(s.currentUser.value.id, contentSearch);
      var call := Repo.GetMemos(s.apiConfig.value.apiToken, None, limit, offset, Some(filter), outcome);
      Step(s.(memosList := B.SlotAfter(s.memosList, call.result), status := B.StatusAfter(s.status, call.result)),
           [call.request])
  }

  /** A create, update or delete call handled without a slot, whose success
      continuation refreshes the list with default arguments. */
  function ThenRefresh<T>(s: ViewState, call: Repo.Call<T>, refresh: Repo.HttpOutcome<MemosResponse>): (step: Step)
    ensures 1 <= |step.issued| <= 2 && step.issued[0] == call.request
    ensures |step.issued| == 2 <==> call.result.Success? && HasTokenAndUser(s.apiConfig, s.currentUser)
    ensures step.state.(memosList := s.memosList, status := s.status) == s
  {
    var handled := s.(status := B.StatusAfter(s.status, call.result));
    if B.OnSuccessArgument(call.result).Some? then
      var next := FetchMemosStep(handled, None, None, None, refresh);
      Step(next.state, [call.request] + next.issued)
    else
      Step(handled, [call.request])
  }

  function CreateMemoStep(
    s: ViewState, content: string, visibility: string, resourceIdList: Option<seq<string>>,
    outcome: Repo.HttpOutcome<Memo>, refresh: Repo.HttpOutcome<MemosResponse>): (step: Step)
    ensures step.issued == [] <==> !HasToken(s.apiConfig)
    ensures step.issued != [] ==> step.issued[0].CreateMemo? && Repo.AuthorizedWith(step.issued[0], s.apiConfig.value.apiToken)
    ensures step.state.(memosList := s.memosList, status := s.status) == s
  {
    if !HasToken(s.apiConfig) then Refused(s, TokenNotConfigured)
    else
      var payload := CreateMemoPayload(content, Some(visibility), resourceIdList, None);
      ThenRefresh(s, Repo.CreateMemo(s.apiConfig.value.apiToken, payload, outcome), refresh)
  }

  function FetchMemoDetailsStep(s: ViewState, memoUid: string, outcome: Repo.HttpOutcome<Memo>): (step: Step)
    ensures step.issued == [] <==> !HasToken(s.apiConfig)
    ensures |step.issued| <= 1
    ensures step.state.(selectedMemo := s.selectedMemo, status := s.status) == s
  {
    if !HasToken(s.apiConfig) then Refused(s, TokenNotConfigured)
    else
      var call := Repo.GetMemoByUid(s.apiConfig.value.apiToken, memoUid, outcome);
      Step(s.(selectedMemo := B.SlotAfter(s.selectedMemo, call.result), status := B.StatusAfter(s.status, call.result)),
           [call.request])
  }

  function UpdateMemoStep(
    s: ViewState, memoName: string, content: Option<string>, visibility: Option<string>, pinned: Option<bool>,
    outcome: Repo.HttpOutcome<Memo>, refresh: Repo.HttpOutcome<MemosResponse>): (step: Step)
    ensures step.issued == [] <==> !HasToken(s.apiConfig)
    ensures step.issued != [] ==> step.issued[0].UpdateMemo? && Repo.AuthorizedWith(step.issued[0], s.apiConfig.value.apiToken)
    ensures step.state.(memosList := s.memosList, status := s.status) == s
  {
    if !HasToken(s.apiConfig) then Refused(s, TokenNotConfigured)
    else
      var payload := UpdateMemoPayload(content, visibility, None, None, pinned);
      ThenRefresh(s, Repo.UpdateMemo(s.apiConfig.value.apiToken, memoName, payload, outcome), refresh)
  }

  function DeleteMemoStep(
    s: ViewState, memoName: string,
    outcome: Repo.HttpOutcome<()>, refresh: Repo.HttpOutcome<MemosResponse>): (step: Step)
    ensures step.issued == [] <==> !HasToken(s.apiConfig)
    ensures step.issued != [] ==> step.issued[0].DeleteMemo? && Repo.AuthorizedWith(step.issued[0], s.apiConfig.value.apiToken)
    ensures step.state.(memosList := s.memosList, status := s.status) == s
  {
    if !HasToken(s.apiConfig) then Refused(s, TokenNotConfigured)
    else ThenRefresh(s, Repo.DeleteMemo(s.apiConfig.value.apiToken, memoName, outcome), refresh)
  }

  function UploadResourceStep(
    s: ViewState, base64Content: string, filename: string, mimeType: string, visibility: string,
    outcome: Repo.HttpOutcome<MemoResource>): (step: Step)
    ensures step.issued == [] <==> !HasToken(s.apiConfig)
    ensures |step.issued| <= 1
    ensures step.state.(uploadedResource := s.uploadedResource, status := s.status) == s
  {
    if !HasToken(s.apiConfig) then Refused(s, TokenNotConfigured)
    else
      var payload := UploadResourcePayload(base64Content, Some(visibility), filename, mimeType);
      var call := Repo.UploadResource(s.apiConfig.value.apiToken, payload, outcome);
      Step(s.(uploadedResource := B.SlotAfter(s.uploadedResource, call.result),
              status := B.StatusAfter(s.status, call.result)),
           [call.request])
  }

  function FetchTagsStep(s: ViewState, outcome: Repo.HttpOutcome<TagsResponse>): (step: Step)
    ensures step.issued == [] <==> !HasTokenAndUser(s.apiConfig, s.currentUser)
    ensures |step.issued| <= 1
    ensures step.state.(tags := s.tags, status := s.status) == s
  {
    if !HasTokenAndUser(s.apiConfig, s.currentUser) then Refused(s, TagsNotConfigured)
    else
      var call := Repo.GetTags(s.apiConfig.value.apiToken, CreatorFilter(s.currentUser.value.id), outcome);
      Step(s.(tags := B.SlotAfter(s.tags, call.result), status := B.StatusAfter(s.status, call.result)),
           [call.request])
  }

  // ---------------------------------------------------------------------
  // Properties of the actions

  /** Successful authentication stores the normalised URL, the token and the
      user's id, publishes the user, clears the error and ends not loading. */
  lemma AuthSuccessStoresUser(s: ViewState, apiUrl: string, token: string, outcome: Repo.HttpOutcome<User>)
    requires Repo.SafeApiCall(outcome).Success?
    ensures var user := Repo.SafeApiCall(outcome).data;
      CheckAuthStep(s, apiUrl, token, outcome)
      == Step(s.(apiConfig := Some(ApiConfig(NormalizeBaseUrl(apiUrl), token, Some(user.id))),
                 currentUser := Some(user),
                 status := B.Status(false, None)),
              [Api.CheckAuthStatus(Repo.AuthHeader(token))])
  {
  }

  /** Failed authentication forgets the user, shows the result's message or
      "Authentication failed", keeps the config stored before the call (no
      user id) and ends not loading. */
  lemma AuthFailureClearsUser(s: ViewState, apiUrl: string, token: string, outcome: Repo.HttpOutcome<User>)
    requires Repo.SafeApiCall(outcome).Error?
    ensures var message := Repo.SafeApiCall(outcome).message;
      CheckAuthStep(s, apiUrl, token, outcome)
      == Step(s.(apiConfig := Some(ApiConfig(NormalizeBaseUrl(apiUrl), token, None)),
                 currentUser := None,
                 status := B.Status(false, Some(if message.Some? then message.value else AuthFailed))),
              [Api.CheckAuthStatus(Repo.AuthHeader(token))])
  {
  }

  /** A base URL without a trailing slash is stored with one. */
  lemma AuthAppendsSlash(s: ViewState, token: string, outcome: Repo.HttpOutcome<User>)
    ensures CheckAuthStep(s, "https://x.test", token, outcome).state.apiConfig
         == Some(ApiConfig("https://x.test/", token, CheckAuthStep(s, "https://x.test", token, outcome).state.apiConfig.value.userId))
  {
    assert !EndsWith("https://x.test", "/");
    assert "https://x.test" + "/" == "https://x.test/";
  }

  /** Listing without a token or a user only shows the message: no request,
      the loading flag and every slot untouched. */
  lemma FetchMemosRefusedWhenUnconfigured(
    s: ViewState, limit: Option<Int32>, offset: Option<Int32>, contentSearch: Option<string>,
    outcome: Repo.HttpOutcome<MemosResponse>)
    requires !HasTokenAndUser(s.apiConfig, s.currentUser)
    ensures FetchMemosStep(s, limit, offset, contentSearch, outcome)
         == Step(s.(status := B.Status(s.status.isLoading, Some(ListNotConfigured))), [])
  {
  }

  /** A configured list fetch sends exactly one request, with the bearer
      token, no creator, the caller's paging and the user's filter, and
      replaces the list wholesale with what came back (or clears it). */
  lemma FetchMemosSendsFilter(
    s: ViewState, limit: Option<Int32>, offset: Option<Int32>, contentSearch: Option<string>,
    outcome: Repo.HttpOutcome<MemosResponse>)
    requires HasTokenAndUser(s.apiConfig, s.currentUser)
    ensures var step, r := FetchMemosStep(s, limit, offset, contentSearch, outcome), Repo.SafeApiCall(outcome);
      && step.issued == [Api.GetMemos(Repo.AuthHeader(s.apiConfig.value.apiToken), None, limit, offset,
                                      Some(MemoFilter(s.currentUser.value.id, contentSearch)))]
      && !step.state.status.isLoading
      && (r.Success? ==> step.state.memosList == Some(r.data) && step.state.status.errorMessage == None)
      && (r.Error? ==> step.state.memosList == None && step.state.status.errorMessage.Some?)
      && step.state.(memosList := s.memosList, status := s.status) == s
  {
  }

  /** Tag fetching has the same precondition, with its own message. */
  lemma FetchTagsRefusedWhenUnconfigured(s: ViewState, outcome: Repo.HttpOutcome<TagsResponse>)
    requires !HasTokenAndUser(s.apiConfig, s.currentUser)
    ensures FetchTagsStep(s, outcome) == Step(s.(status := B.Status(s.status.isLoading, Some(TagsNotConfigured))), [])
  {
  }

  /** A configured tag fetch filters by creator only: the list filter without
      a search term. */
  lemma FetchTagsSendsCreatorFilter(s: ViewState, outcome: Repo.HttpOutcome<TagsResponse>)
    requires HasTokenAndUser(s.apiConfig, s.currentUser)
    ensures FetchTagsStep(s, outcome).issued
         == [Api.GetTags(Repo.AuthHeader(s.apiConfig.value.apiToken), MemoFilter(s.currentUser.value.id, None))]
    ensures FetchTagsStep(s, outcome).state.tags == B.SlotAfter(s.tags, Repo.SafeApiCall(outcome))
  {
  }

  /** A configured detail fetch sends exactly one request for the given uid
      and writes only the selected memo (and the shared status). */
  lemma FetchMemoDetailsSendsUid(s: ViewState, memoUid: string, outcome: Repo.HttpOutcome<Memo>)
    requires HasToken(s.apiConfig)
    ensures var step, r := FetchMemoDetailsStep(s, memoUid, outcome), Repo.SafeApiCall(outcome);
      && step.issued == [Api.GetMemoByUid(Repo.AuthHeader(s.apiConfig.value.apiToken), memoUid)]
      && step.state.selectedMemo == B.SlotAfter(s.selectedMemo, r)
      && step.state.status == B.StatusAfter(s.status, r)
      && step.state.(selectedMemo := s.selectedMemo, status := s.status) == s
  {
  }

  /** A configured upload sends exactly one request whose payload carries the
      given visibility, writes only the uploaded resource (and the shared
      status), and chains nothing after it. */
  lemma UploadResourceSendsPayload(
    s: ViewState, base64Content: string, filename: string, mimeType: string, visibility: string,
    outcome: Repo.HttpOutcome<MemoResource>)
    requires HasToken(s.apiConfig)
    ensures var step, r := UploadResourceStep(s, base64Content, filename, mimeType, visibility, outcome), Repo.SafeApiCall(outcome);
      && step.issued == [Api.UploadResource(Repo.AuthHeader(s.apiConfig.value.apiToken),
                                            UploadResourcePayload(base64Content, Some(visibility), filename, mimeType))]
      && step.state.uploadedResource == B.SlotAfter(s.uploadedResource, r)
      && step.state.status == B.StatusAfter(s.status, r)
      && step.state.(uploadedResource := s.uploadedResource, status := s.status) == s
  {
  }

  /** Without a config or with a blank token, create, read, update, delete
      and upload only show "API URL or Token is not configured.": no request,
      nothing else changes. */
  lemma TokenRequiredForMemoActions(
    s: ViewState,
    content: string, visibility: string, resourceIdList: Option<seq<string>>,
    memoUid: string, memoName: string,
    newContent: Option<string>, newVisibility: Option<string>, pinned: Option<bool>,
    base64Content: string, filename: string, mimeType: string, resourceVisibility: string,
    created: Repo.HttpOutcome<Memo>, fetched: Repo.HttpOutcome<Memo>, updated: Repo.HttpOutcome<Memo>,
    deleted: Repo.HttpOutcome<()>, uploaded: Repo.HttpOutcome<MemoResource>,
    refresh: Repo.HttpOutcome<MemosResponse>)
    requires !HasToken(s.apiConfig)
    ensures var refused := Step(s.(status := B.Status(s.status.isLoading, Some(TokenNotConfigured))), []);
      && CreateMemoStep(s, content, visibility, resourceIdList, created, refresh) == refused
      && FetchMemoDetailsStep(s, memoUid, fetched) == refused
      && UpdateMemoStep(s, memoName, newContent, newVisibility, pinned, updated, refresh) == refused
      && DeleteMemoStep(s, memoName, deleted, refresh) == refused
      && UploadResourceStep(s, base64Content, filename, mimeType, resourceVisibility, uploaded) == refused
  {
  }

  /** The number of list requests in a sequence of requests. */
  function ListFetches(requests: seq<Api.ApiRequest>): nat {
    if requests == [] then 0
    else (if requests[0].GetMemos? then 1 else 0) + ListFetches(requests[1..])
  }

  /** After a create, update or delete call: on success exactly one list
      refresh with default arguments follows (when a user is known; otherwise
      the refresh is refused with its message), on failure none. The list
      then holds only what the refresh returned, never a local patch. */
  lemma ThenRefreshOnce<T>(s: ViewState, call: Repo.Call<T>, refresh: Repo.HttpOutcome<MemosResponse>)
    requires HasToken(s.apiConfig) && !call.request.GetMemos? && !call.result.Loading?
    ensures var step, r := ThenRefresh(s, call, refresh), Repo.SafeApiCall(refresh);
      && |step.issued| >= 1 && step.issued[0] == call.request
      && !step.state.status.isLoading
      && ListFetches(step.issued) == (if call.result.Success? && s.currentUser.Some? then 1 else 0)
      && (call.result.Success? && s.currentUser.Some? ==>
            && step.issued == [call.request, Api.GetMemos(Repo.AuthHeader(s.apiConfig.value.apiToken), None, None, None,
                                                          Some(CreatorFilter(s.currentUser.value.id)))]
            && step.state.memosList == (if r.Success? then Some(r.data) else None))
      && (call.result.Success? && s.currentUser.None? ==>
            step.state.status.errorMessage == Some(ListNotConfigured) && step.state.memosList == s.memosList)
      && (call.result.Error? ==> step.issued == [call.request] && step.state.memosList == s.memosList)
  {
    var step := ThenRefresh(s, call, refresh);
    if call.result.Success? && s.currentUser.Some? {
      var fetch := step.issued[1];
      assert step.issued[1..] == [fetch];
      assert ListFetches([fetch]) == 1 by { assert [fetch][1..] == []; }
    } else {
      assert step.issued == [call.request];
    }
  }

  lemma CreateMemoRefreshesOnce(
    s: ViewState, content: string, visibility: string, resourceIdList: Option<seq<string>>,
    outcome: Repo.HttpOutcome<Memo>, refresh: Repo.HttpOutcome<MemosResponse>)
    requires HasToken(s.apiConfig)
    ensures var step := CreateMemoStep(s, content, visibility, resourceIdList, outcome, refresh);
      && |step.issued| >= 1
      && step.issued[0] == Api.CreateMemo(Repo.AuthHeader(s.apiConfig.value.apiToken),
                                          CreateMemoPayload(content, Some(visibility), resourceIdList, None))
      && ListFetches(step.issued) == (if Repo.SafeApiCall(outcome).Success? && s.currentUser.Some? then 1 else 0)
  {
    var payload := CreateMemoPayload(content, Some(visibility), resourceIdList, None);
    ThenRefreshOnce(s, Repo.CreateMemo(s.apiConfig.value.apiToken, payload, outcome), refresh);
  }

  /** An update sends only content, visibility and pinned (no resource or
      relation lists), never writes the selected memo, and refreshes the list
      exactly once on success. */
  lemma UpdateMemoRefreshesOnce(
    s: ViewState, memoName: string, content: Option<string>, visibility: Option<string>, pinned: Option<bool>,
    outcome: Repo.HttpOutcome<Memo>, refresh: Repo.HttpOutcome<MemosResponse>)
    requires HasToken(s.apiConfig)
    ensures var step := UpdateMemoStep(s, memoName, content, visibility, pinned, outcome, refresh);
      && |step.issued| >= 1
      && step.issued[0] == Api.UpdateMemo(Repo.AuthHeader(s.apiConfig.value.apiToken), memoName,
                                          UpdateMemoPayload(content, visibility, None, None, pinned))
      && step.state.selectedMemo == s.selectedMemo
      && ListFetches(step.issued) == (if Repo.SafeApiCall(outcome).Success? && s.currentUser.Some? then 1 else 0)
  {
    var payload := UpdateMemoPayload(content, visibility, None, None, pinned);
    ThenRefreshOnce(s, Repo.UpdateMemo(s.apiConfig.value.apiToken, memoName, payload, outcome), refresh);
  }

  lemma DeleteMemoRefreshesOnce(
    s: ViewState, memoName: string, outcome: Repo.HttpOutcome<()>, refresh: Repo.HttpOutcome<MemosResponse>)
    requires HasToken(s.apiConfig)
    ensures var step := DeleteMemoStep(s, memoName, outcome, refresh);
      && |step.issued| >= 1
      && step.issued[0] == Api.DeleteMemo(Repo.AuthHeader(s.apiConfig.value.apiToken), memoName)
      && ListFetches(step.issued) == (if Repo.SafeApiCall(outcome).Success? && s.currentUser.Some? then 1 else 0)
  {
    ThenRefreshOnce(s, Repo.DeleteMemo(s.apiConfig.value.apiToken, memoName, outcome), refresh);
  }

  // ---------------------------------------------------------------------
  // The view model

  class MemoViewModel {
    const base: B.BaseViewModel
    const memosList: B.LiveData<Option<MemosResponse>>
    const selectedMemo: B.LiveData<Option<Memo>>
    const apiConfig: B.LiveData<Option<ApiConfig>>
    const currentUser: B.LiveData<Option<User>>
    const uploadedResource: B.LiveData<Option<MemoResource>>
    const tags: B.LiveData<Option<TagsResponse>>
    /** Every request handed to the repository so far, oldest first. */
    ghost var requests: seq<Api.ApiRequest>

    // The cells hold values of pairwise different types, so Dafny knows they
    // are distinct objects and no invariant is needed to keep them apart.

    constructor ()
      ensures fresh(base) && fresh(base.isLoading) && fresh(base.errorMessage)
      ensures fresh(memosList) && fresh(selectedMemo) && fresh(apiConfig)
      ensures fresh(currentUser) && fresh(uploadedResource) && fresh(tags)
      ensures State() == Initial && requests == []
    {
      base := new B.BaseViewModel();
      memosList := new B.LiveData(None);
      selectedMemo := new B.LiveData(None);
      apiConfig := new B.LiveData(None);
      currentUser := new B.LiveData(None);
      uploadedResource := new B.LiveData(None);
      tags := new B.LiveData(None);
      requests := [];
    }

    function State(): ViewState
      reads apiConfig, currentUser, memosList, selectedMemo, uploadedResource, tags
      reads base.isLoading, base.errorMessage
    {
      ViewState(apiConfig.value, currentUser.value, memosList.value, selectedMemo.value,
                uploadedResource.value, tags.value, base.Observed())
    }

    method SaveApiConfig(apiUrl: string, apiToken: string, userId: Option<string>)
      modifies apiConfig
      ensures State() == old(State()).(apiConfig := Some(ApiConfig(apiUrl, apiToken, userId)))
    {
      apiConfig.PostValue(Some(ApiConfig(apiUrl, apiToken, userId)));
    }

    method CheckAuthAndFetchUser(apiUrl: string, token: string, outcome: Repo.HttpOutcome<User>)
      modifies this`requests, apiConfig, currentUser, base.isLoading, base.errorMessage
      ensures State() == CheckAuthStep(old(State()), apiUrl, token, outcome).state
      ensures requests == old(requests) + CheckAuthStep(old(State()), apiUrl, token, outcome).issued
    {
      var correctedApiUrl := NormalizeBaseUrl(apiUrl);
      SaveApiConfig(correctedApiUrl, token, None);
      base.isLoading.PostValue(true);
      var call := Repo.CheckAuthStatus(token, outcome);
      requests := requests + [call.request];
      match call.result {
        case Success(user) =>
          currentUser.PostValue(Some(user));
          SaveApiConfig(correctedApiUrl, token, Some(user.id));
          base.errorMessage.PostValue(None);
        case Error(_, message) =>
          currentUser.PostValue(None);
          base.errorMessage.PostValue(Some(B.OrElse(message, AuthFailed)));
        case Loading =>
          // isLoading is already true
      }
      base.isLoading.PostValue(false);
    }

    method FetchMemos(
      limit: Option<Int32>, offset: Option<Int32>, contentSearch: Option<string>,
      outcome: Repo.HttpOutcome<MemosResponse>)
      modifies this`requests, memosList, base.isLoading, base.errorMessage
      ensures State() == FetchMemosStep(old(State()), limit, offset, contentSearch, outcome).state
      ensures requests == old(requests) + FetchMemosStep(old(State()), limit, offset, contentSearch, outcome).issued
    {
      var currentApiConfig := apiConfig.value;
      var user := currentUser.value;
      if currentApiConfig.None? || IsBlank(currentApiConfig.value.apiToken) || user.None? {
        base.errorMessage.PostValue(Some(ListNotConfigured));
        return;
      }
      var filterString := MemoFilter(user.value.id, contentSearch);
      var call := Repo.GetMemos(currentApiConfig.value.apiToken, None, limit, offset, Some(filterString), outcome);
      requests := requests + [call.request];
      var _ := base.HandleNetworkResult(memosList, call.result);
    }

    method CreateMemo(
      content: string, visibility: string, resourceIdList: Option<seq<string>>,
      outcome: Repo.HttpOutcome<Memo>, refresh: Repo.HttpOutcome<MemosResponse>)
      modifies this`requests, memosList, base.isLoading, base.errorMessage
      ensures State() == CreateMemoStep(old(State()), content, visibility, resourceIdList, outcome, refresh).state
      ensures requests == old(requests) + CreateMemoStep(old(State()), content, visibility, resourceIdList, outcome, refresh).issued
    {
      var currentApiConfig := apiConfig.value;
      if currentApiConfig.None? || IsBlank(currentApiConfig.value.apiToken) {
        base.errorMessage.PostValue(Some(TokenNotConfigured));
        return;
      }
      var payload := CreateMemoPayload(content, Some(visibility), resourceIdList, None);
      var call := Repo.CreateMemo(currentApiConfig.value.apiToken, payload, outcome);
      requests := requests + [call.request];
      var onSuccess, _ := base.HandleNetworkResultWithCallbacks(call.result);
      if onSuccess.Some? {
        FetchMemos(None, None, None, refresh);
      }
    }

    method FetchMemoDetails(memoUid: string, outcome: Repo.HttpOutcome<Memo>)
      modifies this`requests, selectedMemo, base.isLoading, base.errorMessage
      ensures State() == FetchMemoDetailsStep(old(State()), memoUid, outcome).state
      ensures requests == old(requests) + FetchMemoDetailsStep(old(State()), memoUid, outcome).issued
    {
      var currentApiConfig := apiConfig.value;
      if currentApiConfig.None? || IsBlank(currentApiConfig.value.apiToken) {
        base.errorMessage.PostValue(Some(TokenNotConfigured));
        return;
      }
      var call := Repo.GetMemoByUid(currentApiConfig.value.apiToken, memoUid, outcome);
      requests := requests + [call.request];
      var _ := base.HandleNetworkResult(selectedMemo, call.result);
    }

    method UpdateMemo(
      memoName: string, content: Option<string>, visibility: Option<string>, pinned: Option<bool>,
      outcome: Repo.HttpOutcome<Memo>, refresh: Repo.HttpOutcome<MemosResponse>)
      modifies this`requests, memosList, base.isLoading, base.errorMessage
      ensures State() == UpdateMemoStep(old(State()), memoName, content, visibility, pinned, outcome, refresh).state
      ensures requests == old(requests) + UpdateMemoStep(old(State()), memoName, content, visibility, pinned, outcome, refresh).issued
    {
      var currentApiConfig := apiConfig.value;
      if currentApiConfig.None? || IsBlank(currentApiConfig.value.apiToken) {
        base.errorMessage.PostValue(Some(TokenNotConfigured));
        return;
      }
      var payload := UpdateMemoPayload(content, visibility, None, None, pinned);
      var call := Repo.UpdateMemo(currentApiConfig.value.apiToken, memoName, payload, outcome);
      requests := requests + [call.request];
      var onSuccess, _ := base.HandleNetworkResultWithCallbacks(call.result);
      if onSuccess.Some? {
        FetchMemos(None, None, None, refresh);
      }
    }

    method DeleteMemo(memoName: string, outcome: Repo.HttpOutcome<()>, refresh: Repo.HttpOutcome<MemosResponse>)
      modifies this`requests, memosList, base.isLoading, base.errorMessage
      ensures State() == DeleteMemoStep(old(State()), memoName, outcome, refresh).state
      ensures requests == old(requests) + DeleteMemoStep(old(State()), memoName, outcome, refresh).issued
    {
      var currentApiConfig := apiConfig.value;
      if currentApiConfig.None? || IsBlank(currentApiConfig.value.apiToken) {
        base.errorMessage.PostValue(Some(TokenNotConfigured));
        return;
      }
      var call := Repo.DeleteMemo(currentApiConfig.value.apiToken, memoName, outcome);
      requests := requests + [call.request];
      var onSuccess, _ := base.HandleNetworkResultWithCallbacks(call.result);
      if onSuccess.Some? {
        FetchMemos(None, None, None, refresh);
      }
    }

    method UploadResource(
      base64Content: string, filename: string, mimeType: string, visibility: string,
      outcome: Repo.HttpOutcome<MemoResource>)
      modifies this`requests, uploadedResource, base.isLoading, base.errorMessage
      ensures State() == UploadResourceStep(old(State()), base64Content, filename, mimeType, visibility, outcome).state
      ensures requests == old(requests) + UploadResourceStep(old(State()), base64Content, filename, mimeType, visibility, outcome).issued
    {
      var currentApiConfig := apiConfig.value;
      if currentApiConfig.None? || IsBlank(currentApiConfig.value.apiToken) {
        base.errorMessage.PostValue(Some(TokenNotConfigured));
        return;
      }
      var payload := UploadResourcePayload(base64Content, Some(visibility), filename, mimeType);
      var call := Repo.UploadResource(currentApiConfig.value.apiToken, payload, outcome);
      requests := requests + [call.request];
      var _ := base.HandleNetworkResult(uploadedResource, call.result);
    }

    method FetchTags(outcome: Repo.HttpOutcome<TagsResponse>)
      modifies this`requests, tags, base.isLoading, base.errorMessage
      ensures State() == FetchTagsStep(old(State()), outcome).state
      ensures requests == old(requests) + FetchTagsStep(old(State()), outcome).issued
    {
      var currentApiConfig := apiConfig.value;
      var user := currentUser.value;
      if currentApiConfig.None? || IsBlank(currentApiConfig.value.apiToken) || user.None? {
        base.errorMessage.PostValue(Some(TagsNotConfigured));
        return;
      }
      var filterString := CreatorFilter(user.value.id);
      var call := Repo.GetTags(currentApiConfig.value.apiToken, filterString, outcome);
      requests := requests + [call.request];
      // The source passes an empty success callback.
      var _ := base.HandleNetworkResult(tags, call.result);
    }
  }
}
