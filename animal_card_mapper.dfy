/**
 * AnimalCardMapper: turns an animal DTO into the card shown in the swipe feed,
 * choosing a title and the best photo URL.
 */
module CardMapper {
  import opened Wrappers
  import opened Text
  import opened AnimalRepo

  const NoName: string := "Без имени"

  /** `AnimalCardItem`: id, title, nullable description and nullable image URL. */
  datatype AnimalCardItem = AnimalCardItem(
    id: int, name: string, description: Option<string>, imageUrl: Option<string>)

  /** The card title: the trimmed name when it is non-blank, the placeholder otherwise. */
  function Title(name: Option<string>): (t: string)
    ensures name.Some? && !IsBlank(name.value) ==> t == Trim(name.value)
    ensures name.None? || IsBlank(name.value) ==> t == NoName
  {
    if name.None? || IsBlank(name.value) then NoName else Trim(name.value)
  }

  /** A title is never empty and never starts or ends with whitespace. */
  lemma TitleIsVisible(name: Option<string>)
    ensures Title(name) != [] && IsTrimmed(Title(name))
  {
  }

  predicate IsPrimary(p: Option<AnimalPhotoDto>) { p.Some? && p.value.isPrimary }

  /** Where the for/break search for a primary photo stops: the first primary index, or |photos|. */
  function PrimaryIndex(photos: seq<Option<AnimalPhotoDto>>): (k: nat)
    ensures k <= |photos|
    ensures k < |photos| ==> IsPrimary(photos[k])
    ensures forall j :: 0 <= j < k ==> !IsPrimary(photos[j])
  {
    if photos == [] then 0
    else if IsPrimary(photos[0]) then 0
    else 1 + PrimaryIndex(photos[1..])
  }

  /** The photo the mapper settles on: the first primary one, else element 0 (possibly null). */
  function ChosenPhoto(photos: seq<Option<AnimalPhotoDto>>): (c: Option<AnimalPhotoDto>)
    requires photos != []
    ensures (exists j :: 0 <= j < |photos| && IsPrimary(photos[j])) ==> IsPrimary(c)
    ensures (forall j :: 0 <= j < |photos| ==> !IsPrimary(photos[j])) ==> c == photos[0]
  {
    var k := PrimaryIndex(photos);
    if k < |photos| then photos[k] else photos[0]
  }

  /** The URL of one photo: the trimmed thumbnail if non-blank, else the trimmed full URL if non-blank. */
  function PhotoUrl(p: AnimalPhotoDto): (r: Option<string>)
    ensures r.Some? ==> r.value != [] && IsTrimmed(r.value)
    ensures r.None? <==> (p.thumbUrl.None? || IsBlank(p.thumbUrl.value)) && (p.url.None? || IsBlank(p.url.value))
    ensures r.Some? && p.thumbUrl.Some? && !IsBlank(p.thumbUrl.value) ==> r.value == Trim(p.thumbUrl.value)
    ensures r.Some? && (p.thumbUrl.None? || IsBlank(p.thumbUrl.value)) ==> r.value == Trim(p.url.value)
  {
    match TrimToNone(p.thumbUrl)
    case Some(thumb) => Some(thumb)
    case None => TrimToNone(p.url)
  }

  /** `pickBestPhotoUrl`. */
  function PickBestPhotoUrl(photos: Option<seq<Option<AnimalPhotoDto>>>): (r: Option<string>)
    ensures photos.None? || photos.value == [] ==> r.None?
    ensures r.Some? ==> r.value != [] && IsTrimmed(r.value)
    ensures r.Some? ==> photos.Some? && photos.value != [] && ChosenPhoto(photos.value).Some? &&
                        r == PhotoUrl(ChosenPhoto(photos.value).value)
  {
    if photos.None? || photos.value == [] then None
    else
      match ChosenPhoto(photos.value)
      case None => None
      case Some(p) => PhotoUrl(p)
  }

  /** `fromDto`: id and description copied, title and image chosen as above. */
  function FromDto(dto: AnimalDto): (c: AnimalCardItem)
    ensures c.id == dto.id && c.description == dto.description
    ensures c.name == Title(dto.name) && c.imageUrl == PickBestPhotoUrl(dto.photos)
  {
    AnimalCardItem(dto.id, Title(dto.name), dto.description, PickBestPhotoUrl(dto.photos))
  }

  /** The first primary photo wins even when later photos are primary too. */
  lemma FirstPrimaryWins(photos: seq<Option<AnimalPhotoDto>>, k: nat)
    requires k < |photos| && IsPrimary(photos[k])
    requires forall j :: 0 <= j < k ==> !IsPrimary(photos[j])
    ensures PickBestPhotoUrl(Some(photos)) == PhotoUrl(photos[k].value)
  {
  }

  /** With no primary photo the first element decides, and a null first element gives no image. */
  lemma NoPrimaryUsesFirst(photos: seq<Option<AnimalPhotoDto>>)
    requires photos != []
    requires forall j :: 0 <= j < |photos| ==> !IsPrimary(photos[j])
    ensures photos[0].None? ==> PickBestPhotoUrl(Some(photos)).None?
    ensures photos[0].Some? ==> PickBestPhotoUrl(Some(photos)) == PhotoUrl(photos[0].value)
  {
  }
}
