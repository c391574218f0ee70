/**
 * AnimalRepository: request defaulting, the guards that answer without a network
 * call, and the translation of a Retrofit outcome into a `RepoResult`.
 * The DTOs keep only the fields the app's logic reads.
 */
module AnimalRepo {
  import opened Wrappers
  import opened Text
  import Http

  const DefaultLimit: int := 50
  const DefaultOffset: int := 0
  const DefaultStatus: string := "active"
  const DefaultOrderBy: string := "created_at_desc"

  const DefaultFileName: string := "photo.jpg"
  const DefaultMimeType: string := "image/jpeg"
  const EmptyBytesMessage: string := "uploadAnimalPhoto: file bytes are empty"
  const InvalidMimePrefix: string := "uploadAnimalPhoto: invalid mimeType="
  const EmptyReorderMessage: string := "reorderPhotos: photo_ids are empty"
  const UnknownFailure: string := "network error"

  datatype AnimalPhotoDto = AnimalPhotoDto(
    id: int, url: Option<string>, thumbUrl: Option<string>, isPrimary: bool)

  /** A JSON list may hold `null` elements, hence `Option` around each photo. */
  datatype AnimalDto = AnimalDto(
    id: int,
    name: Option<string>,
    species: Option<string>,
    description: Option<string>,
    city: Option<string>,
    photos: Option<seq<Option<AnimalPhotoDto>>>)

  /** `RepoResult<T>`: one success flag, the data and three nullable error fields. */
  datatype RepoResult<T> = RepoResult(
    isSuccess: bool,
    data: Option<T>,
    httpCode: Option<int>,
    errorMessage: Option<string>,
    errorBody: Option<string>)

  /** The shape every factory produces: a success carries no error, a failure no data and a message. */
  predicate WellFormed<T>(r: RepoResult<T>)
  {
    (r.isSuccess ==> r.httpCode.None? && r.errorMessage.None? && r.errorBody.None?) &&
    (!r.isSuccess ==> r.data.None? && r.errorMessage.Some?)
  }

  function Success<T>(data: Option<T>): (r: RepoResult<T>)
    ensures WellFormed(r) && r.isSuccess && r.data == data
  {
    RepoResult(true, data, None, None, None)
  }

  function HttpError<T>(code: int, message: string, body: Option<string>): (r: RepoResult<T>)
    ensures WellFormed(r) && !r.isSuccess
    ensures r.httpCode == Some(code) && r.errorMessage == Some(message) && r.errorBody == body
  {
    RepoResult(false, None, Some(code), Some(message), body)
  }

  function NetworkError<T>(message: string): (r: RepoResult<T>)
    ensures WellFormed(r) && !r.isSuccess
    ensures r.httpCode.None? && r.errorMessage == Some(message) && r.errorBody.None?
  {
    RepoResult(false, None, None, Some(message), None)
  }

  /** The query string of `GET feed` and `GET animals/public`; `orderBy` only on the latter. */
  datatype FeedQuery = FeedQuery(
    species: Option<string>,
    city: Option<string>,
    sex: Option<string>,
    ageFromYears: Option<int>,
    ageToYears: Option<int>,
    hasPhotos: Option<bool>,
    status: string,
    limit: int,
    offset: int,
    orderBy: Option<string>)

  /** `getFeed`: filters pass through, limit/offset default to 50/0, status is always "active". */
  function GetFeed(
    species: Option<string>, city: Option<string>, sex: Option<string>,
    ageFromYears: Option<int>, ageToYears: Option<int>, hasPhotos: Option<bool>,
    limit: Option<int>, offset: Option<int>): (q: FeedQuery)
    ensures q.species == species && q.city == city && q.sex == sex
    ensures q.ageFromYears == ageFromYears && q.ageToYears == ageToYears && q.hasPhotos == hasPhotos
    ensures q.status == DefaultStatus && q.orderBy.None?
    ensures limit.Some? ==> q.limit == limit.value
    ensures limit.None? ==> q.limit == DefaultLimit
    ensures offset.Some? ==> q.offset == offset.value
    ensures offset.None? ==> q.offset == DefaultOffset
  {
    FeedQuery(species, city, sex, ageFromYears, ageToYears, hasPhotos, DefaultStatus,
      limit.GetOr(DefaultLimit), offset.GetOr(DefaultOffset), None)
  }

  /** `getPublic`: the feed defaults, plus `orderBy` defaulting to "created_at_desc". */
  function GetPublic(
    species: Option<string>, city: Option<string>, sex: Option<string>,
    ageFromYears: Option<int>, ageToYears: Option<int>, hasPhotos: Option<bool>,
    limit: Option<int>, offset: Option<int>, orderBy: Option<string>): (q: FeedQuery)
    ensures q.orderBy == Some(orderBy.GetOr(DefaultOrderBy))
    ensures q.status == DefaultStatus
  {
    FeedQuery(species, city, sex, ageFromYears, ageToYears, hasPhotos, DefaultStatus,
      limit.GetOr(DefaultLimit), offset.GetOr(DefaultOffset), Some(orderBy.GetOr(DefaultOrderBy)))
  }

  /** The public listing differs from the feed only in carrying an order. */
  lemma PublicIsFeedWithOrder(
    species: Option<string>, city: Option<string>, sex: Option<string>,
    ageFromYears: Option<int>, ageToYears: Option<int>, hasPhotos: Option<bool>,
    limit: Option<int>, offset: Option<int>, orderBy: Option<string>)
    ensures GetPublic(species, city, sex, ageFromYears, ageToYears, hasPhotos, limit, offset, orderBy).(orderBy := None)
         == GetFeed(species, city, sex, ageFromYears, ageToYears, hasPhotos, limit, offset)
  {
  }

  /** The `result` field of the like request body. */
  function LikeResult(isLike: bool): (s: string)
    ensures s == "like" <==> isLike
    ensures s == "dislike" <==> !isLike
  {
    if isLike then "like" else "dislike"
  }

  /** Either the repository answers at once, or it sends a request and `Enqueue` maps the outcome. */
  datatype Dispatch<Req, T> = Answered(result: RepoResult<T>) | Sent(request: Req)

  /** The multipart part `uploadAnimalPhoto` builds. */
  datatype PhotoPart = PhotoPart(animalId: int, bytes: seq<bv8>, fileName: string, mimeType: string)

  /**
   * `uploadAnimalPhoto`. `parsesAsMediaType` stands for OkHttp's `MediaType.parse`
   * returning non-null.
   */
  function UploadAnimalPhoto(
    animalId: int, bytes: seq<bv8>, fileName: Option<string>, mimeType: Option<string>,
    parsesAsMediaType: string -> bool): (d: Dispatch<PhotoPart, AnimalDto>)
    ensures bytes == [] ==> d == Answered(NetworkError(EmptyBytesMessage))
    ensures d.Answered? ==> WellFormed(d.result) && !d.result.isSuccess
    ensures d.Sent? <==> bytes != [] && parsesAsMediaType(TrimOr(mimeType, DefaultMimeType))
    ensures bytes != [] && !parsesAsMediaType(TrimOr(mimeType, DefaultMimeType)) ==>
      d == Answered(NetworkError(InvalidMimePrefix + TrimOr(mimeType, DefaultMimeType)))
    ensures d.Sent? ==> d.request.animalId == animalId && d.request.bytes == bytes
    ensures d.Sent? ==> d.request.fileName == TrimOr(fileName, DefaultFileName)
    ensures d.Sent? ==> d.request.fileName != [] && IsTrimmed(d.request.fileName)
    ensures d.Sent? ==> d.request.mimeType != [] && IsTrimmed(d.request.mimeType)
  {
    if bytes == [] then Answered(NetworkError(EmptyBytesMessage))
    else
      var safeName := TrimOr(fileName, DefaultFileName);
      var safeMime := TrimOr(mimeType, DefaultMimeType);
      if !parsesAsMediaType(safeMime) then Answered(NetworkError(InvalidMimePrefix + safeMime))
      else Sent(PhotoPart(animalId, bytes, safeName, safeMime))
  }

  datatype ReorderRequest = ReorderRequest(animalId: int, photoIds: seq<int>)

  /** `reorderPhotos`: an empty id list is answered with a network error and nothing is sent. */
  function ReorderPhotos(animalId: int, orderedIds: seq<int>): (d: Dispatch<ReorderRequest, ()>)
    ensures d.Answered? <==> orderedIds == []
    ensures d.Answered? ==> d.result == NetworkError(EmptyReorderMessage)
    ensures d.Sent? ==> d.request == ReorderRequest(animalId, orderedIds)
  {
    if orderedIds == [] then Answered(NetworkError(EmptyReorderMessage))
    else Sent(ReorderRequest(animalId, orderedIds))
  }

  /**
   * What Retrofit reports to `enqueue`: a response (its code, parsed body and the error
   * body text, `None` when absent or unreadable) or a thrown failure with its message.
   */
  datatype Outcome<T> =
    | Responded(code: int, body: Option<T>, errorText: Option<string>)
    | Failed(message: Option<string>)

  /** `enqueue`'s callback: the `RepoResult` handed to the repository's caller. */
  function Enqueue<T>(opName: string, outcome: Outcome<T>): (r: RepoResult<T>)
    ensures WellFormed(r)
    ensures r.isSuccess <==> outcome.Responded? && Http.IsSuccessful(outcome.code)
    ensures r.isSuccess ==> r.data == outcome.body
    ensures outcome.Responded? && !r.isSuccess ==>
      r.httpCode == Some(outcome.code) && r.errorBody == outcome.errorText &&
      r.errorMessage == Some(opName + ": http error")
    ensures outcome.Failed? ==>
      r.httpCode.None? && r.errorBody.None? &&
      r.errorMessage == Some(opName + ": " + outcome.message.GetOr(UnknownFailure))
  {
    match outcome
    case Responded(code, body, errorText) =>
      if Http.IsSuccessful(code) then Success(body) else HttpError(code, opName + ": http error", errorText)
    case Failed(message) =>
      NetworkError(opName + ": " + message.GetOr(UnknownFailure))
  }

  /** A result carries an HTTP code exactly when the server answered with a non-2xx status. */
  lemma HttpCodeOnlyForServerErrors<T>(opName: string, outcome: Outcome<T>)
    ensures Enqueue(opName, outcome).httpCode.Some? <==>
      outcome.Responded? && !Http.IsSuccessful(outcome.code)
  {
  }
}
