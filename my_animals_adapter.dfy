/**
 * MyAnimalsAdapter: the list of the user's own animals. `setItems` replaces the
 * whole list; binding a row picks a title, a "species • city" subtitle and a photo.
 */
module MyAnimals {
  import opened Wrappers
  import opened Text
  import opened AnimalRepo
  import CardMapper

  const Separator: string := " • "
  const EmptySubtitle: string := " "

  /** What one row shows. */
  datatype Row = Row(title: string, subtitle: string, photoUrl: Option<string>)

  /** The subtitle, built the way the StringBuilder in `onBindViewHolder` builds it. */
  function Subtitle(species: Option<string>, city: Option<string>): (s: string)
    ensures var sp, c := TrimOrEmpty(species), TrimOrEmpty(city);
      (sp != [] && c != [] ==> s == sp + Separator + c) &&
      (sp != [] && c == [] ==> s == sp) &&
      (sp == [] && c != [] ==> s == c) &&
      (sp == [] && c == [] ==> s == EmptySubtitle)
  {
    var sp := TrimOrEmpty(species);
    var c := TrimOrEmpty(city);
    var sb := if sp != [] then sp else [];
    var sb := if c != [] then (if |sb| > 0 then sb + Separator else sb) + c else sb;
    if |sb| > 0 then sb else EmptySubtitle
  }

  /** The subtitle is never empty and always shows each non-empty part. */
  lemma SubtitleShowsParts(species: Option<string>, city: Option<string>)
    ensures Subtitle(species, city) != []
    ensures TrimOrEmpty(species) != [] ==> StartsWith(Subtitle(species, city), TrimOrEmpty(species))
    ensures TrimOrEmpty(city) != [] ==>
      var s, c := Subtitle(species, city), TrimOrEmpty(city);
      |c| <= |s| && s[|s| - |c|..] == c
  {
    var sp, c := TrimOrEmpty(species), TrimOrEmpty(city);
    var s := Subtitle(species, city);
    if sp != [] && c != [] {
      assert s == sp + Separator + c;
      assert s[..|sp|] == sp;
      assert s[|s| - |c|..] == c;
    }
  }

  /** The row for one animal: the card title rule, the subtitle, and the card photo rule. */
  function BindRow(dto: AnimalDto): (row: Row)
    ensures row.title == CardMapper.Title(dto.name)
    ensures row.subtitle == Subtitle(dto.species, dto.city)
    ensures row.photoUrl == CardMapper.PickBestPhotoUrl(dto.photos)
  {
    Row(CardMapper.Title(dto.name), Subtitle(dto.species, dto.city), CardMapper.PickBestPhotoUrl(dto.photos))
  }

  /** The adapter shows the same title and photo as the feed card built from the same DTO. */
  lemma RowAgreesWithCard(dto: AnimalDto)
    ensures BindRow(dto).title == CardMapper.FromDto(dto).name
    ensures BindRow(dto).photoUrl == CardMapper.FromDto(dto).imageUrl
  {
  }

  class MyAnimalsAdapter {
    var items: seq<AnimalDto>

    constructor ()
      ensures items == []
    {
      items := [];
    }

    function ItemCount(): nat
      reads this
    {
      |items|
    }

    /** `setItems`: clears the list and refills it with `newItems`. */
    method SetItems(newItems: seq<AnimalDto>)
      modifies this
      ensures items == newItems && ItemCount() == |newItems|
    {
      items := [];
      items := items + newItems;
    }

    /** `onBindViewHolder` for a position the list holds. */
    function Bind(position: int): (row: Row)
      reads this
      requires 0 <= position < |items|
    {
      BindRow(items[position])
    }
  }
}
