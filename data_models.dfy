/** The plain records the Memos client exchanges with the server and keeps in
    its view state. They carry no behaviour. Kotlin's nullable types become
    Option, Kotlin's Int and Long become the bounded newtypes below. */
module DataModels {

  /** Kotlin's `T?`: a value that may be null. */
  datatype Option<+T> = None | Some(value: T)

  /** Kotlin/JVM `Int`: a signed 32-bit integer. */
  newtype Int32 = x: int | -0x8000_0000 <= x < 0x8000_0000

  /** Kotlin/JVM `Long`: a signed 64-bit integer. */
  newtype Int64 = x: int | -0x8000_0000_0000_0000 <= x < 0x8000_0000_0000_0000

  /** An element of a memo's relation list. The source types it as `Any` and
      never looks inside, so the model keeps it as uninterpreted JSON text. */
  datatype OpaqueJson = OpaqueJson(raw: string)

  /** An attachment of a memo. */
  datatype MemoResource = MemoResource(
    id: string,
    name: string,
    publicId: Option<string>,
    filename: string,
    mimeType: string,          // the `type` field, e.g. "image/jpeg"
    size: Int64,
    createdTs: Int64,
    updatedTs: Int64,
    externalLink: Option<string>)

  /** A note as the server returns it. */
  datatype Memo = Memo(
    id: string,
    creatorId: string,
    createdTs: Int64,
    updatedTs: Int64,
    content: string,
    visibility: string,        // "PUBLIC", "PROTECTED" or "PRIVATE"; not checked by the client
    pinned: bool,
    resourceList: Option<seq<MemoResource>>,
    relationList: Option<seq<OpaqueJson>>)

  /** The authenticated user; the client only keeps its identifier. */
  datatype User = User(id: string)

  /** Where the server is and how to authenticate against it. */
  datatype ApiConfig = ApiConfig(apiUrl: string, apiToken: string, userId: Option<string>)

  /** Body of a create request. */
  datatype CreateMemoPayload = CreateMemoPayload(
    content: string,
    visibility: Option<string>,
    resourceIdList: Option<seq<string>>,
    relationList: Option<seq<OpaqueJson>>)

  /** Body of a resource upload; `content` is base64 text the client never decodes. */
  datatype UploadResourcePayload = UploadResourcePayload(
    content: string,
    visibility: Option<string>,
    filename: string,
    mimeType: string)

  /** The list endpoint's response. */
  datatype MemosResponse = MemosResponse(memos: seq<Memo>)

  /** The tag endpoint's response: tag name to number of memos carrying it. */
  datatype TagsResponse = TagsResponse(tagAmounts: map<string, Int32>)

  /** Body of a PATCH request: every field is optional, null fields are not changed. */
  datatype UpdateMemoPayload = UpdateMemoPayload(
    content: Option<string>,
    visibility: Option<string>,
    resourceIdList: Option<seq<string>>,
    relationList: Option<seq<OpaqueJson>>,
    pinned: Option<bool>)
}
