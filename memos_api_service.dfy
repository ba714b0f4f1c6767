/** The remote operations of the Memos REST API, as the values the client
    hands to its HTTP layer: the operation, its `Authorization` header and its
    path, query and body arguments. Transport, JSON and the HTTP verbs and
    paths are not modelled; a request is only what the client decided to send. */
module MemosApiService {
  import opened DataModels

  datatype ApiRequest =
    | CheckAuthStatus(authorization: string)
    | GetMemos(
        authorization: string,
        creatorId: Option<string>,
        limit: Option<Int32>,
        offset: Option<Int32>,
        filter: Option<string>)
    | CreateMemo(authorization: string, createPayload: CreateMemoPayload)
    | GetMemoByUid(authorization: string, memoUid: string)
    | UpdateMemo(authorization: string, memoName: string, updatePayload: UpdateMemoPayload)
    | DeleteMemo(authorization: string, memoName: string)
    | UploadResource(authorization: string, resourcePayload: UploadResourcePayload)
    | GetTags(authorization: string, tagsFilter: string)
}
