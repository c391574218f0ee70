/**
 * HomeFragment: offset pagination of the swipe feed. Each page is deduplicated
 * against `seenIds` before its cards are appended, so the card list never repeats
 * an animal; likes and dislikes are sent for swiped cards.
 */
module HomeFeed {
  import opened Wrappers
  import opened Text
  import opened AnimalRepo
  import opened CardMapper
  import StackLayout

  const PageLimit: int := 30
  const PrefetchWhenLeft: int := 8
  const HasPhotosOnly: bool := false

  /** The ids of a list of DTOs. */
  function DtoIds(ds: seq<AnimalDto>): set<int>
  {
    set j | 0 <= j < |ds| :: ds[j].id
  }

  lemma DtoIdsAppend(ds: seq<AnimalDto>, d: AnimalDto)
    ensures DtoIds(ds + [d]) == DtoIds(ds) + {d.id}
  {
    var e := ds + [d];
    assert e[|ds|] == d;
    forall x | x in DtoIds(e) ensures x in DtoIds(ds) + {d.id} {
      var j :| 0 <= j < |e| && e[j].id == x;
      if j < |ds| { assert e[j] == ds[j]; }
    }
    forall x | x in DtoIds(ds) ensures x in DtoIds(e) {
      var j :| 0 <= j < |ds| && ds[j].id == x;
      assert e[j] == ds[j];
    }
  }

  predicate DistinctIds(cards: seq<AnimalCardItem>)
  {
    forall i, j :: 0 <= i < j < |cards| ==> cards[i].id != cards[j].id
  }

  /**
   * The DTOs a page contributes, in page order: non-null, not in `seen`, and not
   * repeating an id met earlier in the same page.
   */
  function Fresh(page: seq<Option<AnimalDto>>, seen: set<int>): (r: seq<AnimalDto>)
    ensures forall i :: 0 <= i < |r| ==> r[i].id !in seen
    decreases |page|
  {
    if page == [] then []
    else if page[0].None? || page[0].value.id in seen then Fresh(page[1..], seen)
    else [page[0].value] + Fresh(page[1..], seen + {page[0].value.id})
  }

  predicate DistinctDtoIds(ds: seq<AnimalDto>)
  {
    forall i, j :: 0 <= i < j < |ds| ==> ds[i].id != ds[j].id
  }

  /** A page never contributes the same animal twice. */
  lemma {:induction false} FreshDistinct(page: seq<Option<AnimalDto>>, seen: set<int>)
    ensures DistinctDtoIds(Fresh(page, seen))
    decreases |page|
  {
    if page != [] {
      if page[0].None? || page[0].value.id in seen {
        FreshDistinct(page[1..], seen);
        assert Fresh(page, seen) == Fresh(page[1..], seen);
      } else {
        var s2 := seen + {page[0].value.id};
        FreshDistinct(page[1..], s2);
        var later := Fresh(page[1..], s2);
        assert DistinctDtoIds(later);
        var r := Fresh(page, seen);
        assert r == [page[0].value] + later;
        forall i, j | 0 <= i < j < |r| ensures r[i].id != r[j].id {
          assert r[j] == later[j - 1] && later[j - 1].id !in s2;
          if i == 0 {
            assert r[0].id == page[0].value.id;
          } else {
            assert r[i] == later[i - 1];
            assert later[i - 1].id != later[j - 1].id;
          }
        }
      }
    }
  }

  /** Nothing new is lost: every non-null DTO whose id was not yet seen has its id among the added ones. */
  lemma {:induction false} FreshCoversUnseen(page: seq<Option<AnimalDto>>, seen: set<int>)
    ensures forall i :: 0 <= i < |page| && page[i].Some? && page[i].value.id !in seen ==>
      page[i].value.id in DtoIds(Fresh(page, seen))
    decreases |page|
  {
    if page != [] {
      var rest := page[1..];
      if page[0].None? || page[0].value.id in seen {
        FreshCoversUnseen(rest, seen);
        forall i | 0 <= i < |page| && page[i].Some? && page[i].value.id !in seen
          ensures page[i].value.id in DtoIds(Fresh(page, seen))
        {
          assert i != 0;
          assert page[i] == rest[i - 1];
        }
      } else {
        var d := page[0].value;
        var s2 := seen + {d.id};
        FreshCoversUnseen(rest, s2);
        var r := Fresh(page, seen);
        assert r == [d] + Fresh(rest, s2);
        forall i | 0 <= i < |page| && page[i].Some? && page[i].value.id !in seen
          ensures page[i].value.id in DtoIds(r)
        {
          if page[i].value.id == d.id {
            assert r[0].id == d.id;
          } else {
            assert page[i] == rest[i - 1];
            var x := page[i].value.id;
            assert x in DtoIds(Fresh(rest, s2));
            var j :| 0 <= j < |Fresh(rest, s2)| && Fresh(rest, s2)[j].id == x;
            assert r[j + 1].id == x;
          }
        }
      }
    }
  }

  /** The cards a list of DTOs maps to, one per DTO. */
  function Cards(ds: seq<AnimalDto>): (r: seq<AnimalCardItem>)
    ensures |r| == |ds| && forall i :: 0 <= i < |ds| ==> r[i] == FromDto(ds[i])
  {
    seq(|ds|, i requires 0 <= i < |ds| => FromDto(ds[i]))
  }

  lemma CardsAppend(ds: seq<AnimalDto>, d: AnimalDto)
    ensures Cards(ds + [d]) == Cards(ds) + [FromDto(d)]
  {
  }

  /** One step of the page loop: what was kept so far plus what the rest contributes stays the whole. */
  lemma FreshStep(kept: seq<AnimalDto>, page: seq<Option<AnimalDto>>, i: int, seen: set<int>, whole: seq<AnimalDto>)
    requires 0 <= i < |page|
    requires kept + Fresh(page[i..], seen) == whole
    ensures page[i].None? || page[i].value.id in seen ==> kept + Fresh(page[i + 1..], seen) == whole
    ensures page[i].Some? && page[i].value.id !in seen ==>
      (kept + [page[i].value]) + Fresh(page[i + 1..], seen + {page[i].value.id}) == whole
  {
    assert page[i..][1..] == page[i + 1..];
    if page[i].Some? && page[i].value.id !in seen {
      var later := Fresh(page[i + 1..], seen + {page[i].value.id});
      assert Fresh(page[i..], seen) == [page[i].value] + later;
      assert (kept + [page[i].value]) + later == kept + ([page[i].value] + later);
    }
  }

  /** The query `loadNextPageIfNeeded` sends for the page starting at `offset`. */
  function PageQuery(offset: int): (q: FeedQuery)
    ensures q.limit == PageLimit && q.offset == offset && q.status == DefaultStatus
    ensures q.hasPhotos == Some(HasPhotosOnly) && q.species.None? && q.city.None?
  {
    GetFeed(None, None, None, None, None, Some(HasPhotosOnly), Some(PageLimit), Some(offset))
  }

  /** The reaction sent for a swipe: the card's animal and "like" or "dislike". */
  datatype LikeRequest = LikeRequest(animalId: int, result: string)

  class HomeFragment {
    var offset: int
    var isLoading: bool
    var isEndReached: bool
    var cards: seq<AnimalCardItem>
    var seenIds: set<int>

    /** Every card is a distinct animal whose id has been recorded as seen. */
    ghost predicate Valid()
      reads this
    {
      0 <= offset && DistinctIds(cards) &&
      forall i :: 0 <= i < |cards| ==> cards[i].id in seenIds
    }

    constructor ()
      ensures Valid()
      ensures offset == 0 && !isLoading && !isEndReached && cards == [] && seenIds == {}
    {
      offset := 0;
      isLoading := false;
      isEndReached := false;
      cards := [];
      seenIds := {};
    }

    /** `loadNextPageIfNeeded`: starts a page request unless one is running or the end was reached. */
    method LoadNextPageIfNeeded() returns (query: Option<FeedQuery>)
      modifies this
      ensures old(isLoading) || old(isEndReached) ==> query.None? && isLoading == old(isLoading)
      ensures !old(isLoading) && !old(isEndReached) ==> query == Some(PageQuery(offset)) && isLoading
      ensures offset == old(offset) && isEndReached == old(isEndReached)
      ensures cards == old(cards) && seenIds == old(seenIds)
    {
      if isLoading || isEndReached {
        return None;
      }
      isLoading := true;
      query := Some(PageQuery(offset));
    }

    /**
     * The feed callback. `isAdded` is whether the fragment is still attached; the
     * returned query is the follow-up request an all-duplicate page triggers.
     */
    method OnFeedResult(isAdded: bool, result: RepoResult<seq<Option<AnimalDto>>>) returns (next: Option<FeedQuery>)
      requires Valid()
      modifies this
      ensures Valid()
      ensures !isAdded || !result.isSuccess ==>
        next.None? && !isLoading && isEndReached == old(isEndReached) &&
        offset == old(offset) && cards == old(cards) && seenIds == old(seenIds)
      ensures isAdded && result.isSuccess && (result.data.None? || result.data.value == []) ==>
        next.None? && !isLoading && isEndReached &&
        offset == old(offset) && cards == old(cards) && seenIds == old(seenIds)
      ensures isAdded && result.isSuccess && result.data.Some? && result.data.value != [] ==>
        var page := result.data.value;
        var added := Fresh(page, old(seenIds));
        offset == old(offset) + |page| && isEndReached == old(isEndReached) &&
        cards == old(cards) + Cards(added) && seenIds == old(seenIds) + DtoIds(added) &&
        (added != [] ==> next.None? && !isLoading) &&
        (added == [] ==> next == (if old(isEndReached) then None else Some(PageQuery(offset))) &&
                         isLoading == !old(isEndReached))
    {
      next := None;
      if !isAdded {
        isLoading := false;
        return;
      }
      if !result.isSuccess {
        isLoading := false;
        return;
      }
      if result.data.None? || result.data.value == [] {
        isLoading := false;
        isEndReached := true;
        return;
      }
      var page := result.data.value;
      var mapped := TakeFresh(page);
      offset := offset + |page|;
      if mapped == [] {
        isLoading := false;
        next := LoadNextPageIfNeeded();
        return;
      }
      FreshDistinct(page, old(seenIds));
      AppendFreshKeepsDistinct(cards, old(seenIds), Fresh(page, old(seenIds)));
      cards := cards + mapped;
      isLoading := false;
    }

    /** The for loop of the feed callback: skips null and already seen DTOs, records each new id, maps the rest. */
    method TakeFresh(page: seq<Option<AnimalDto>>) returns (mapped: seq<AnimalCardItem>)
      modifies this
      ensures mapped == Cards(Fresh(page, old(seenIds)))
      ensures seenIds == old(seenIds) + DtoIds(Fresh(page, old(seenIds)))
      ensures offset == old(offset) && cards == old(cards)
      ensures isLoading == old(isLoading) && isEndReached == old(isEndReached)
    {
      mapped := [];
      ghost var kept: seq<AnimalDto> := [];
      var i := 0;
      while i < |page|
        invariant 0 <= i <= |page|
        invariant seenIds == old(seenIds) + DtoIds(kept)
        invariant mapped == Cards(kept)
        invariant kept + Fresh(page[i..], seenIds) == Fresh(page, old(seenIds))
        invariant offset == old(offset) && cards == old(cards)
        invariant isLoading == old(isLoading) && isEndReached == old(isEndReached)
      {
        FreshStep(kept, page, i, seenIds, Fresh(page, old(seenIds)));
        var dto := page[i];
        if dto.Some? && dto.value.id !in seenIds {
          DtoIdsAppend(kept, dto.value);
          CardsAppend(kept, dto.value);
          seenIds := seenIds + {dto.value.id};
          mapped := mapped + [FromDto(dto.value)];
          kept := kept + [dto.value];
        }
        i := i + 1;
      }
      assert page[|page|..] == [];
      assert kept + [] == kept;
    }

    /** `maybePrefetch`: with the stack's top position and the adapter's count known, loads when at most 8 cards remain. */
    method MaybePrefetch(top: Option<int>, count: Option<int>) returns (query: Option<FeedQuery>)
      modifies this
      ensures top.None? || count.None? || count.value - top.value > PrefetchWhenLeft ==>
        query.None? && isLoading == old(isLoading)
      ensures top.Some? && count.Some? && count.value - top.value <= PrefetchWhenLeft ==>
        query == (if old(isLoading) || old(isEndReached) then None else Some(PageQuery(offset)))
      ensures offset == old(offset) && isEndReached == old(isEndReached)
      ensures cards == old(cards) && seenIds == old(seenIds)
    {
      query := None;
      if top.None? || count.None? {
        return;
      }
      var left := count.value - top.value;
      if left <= PrefetchWhenLeft {
        query := LoadNextPageIfNeeded();
      }
    }

    /** `onSwiped`: a position outside the card list sends nothing; RIGHT likes, LEFT dislikes. */
    function OnSwiped(position: int, direction: StackLayout.Direction): (r: Option<LikeRequest>)
      reads this
      ensures r.Some? <==> 0 <= position < |cards|
      ensures r.Some? ==> r.value.animalId == cards[position].id
      ensures r.Some? ==> (r.value.result == "like" <==> direction == StackLayout.Right)
      ensures r.Some? ==> (r.value.result == "dislike" <==> direction == StackLayout.Left)
    {
      if position < 0 || position >= |cards| then None
      else Some(LikeRequest(cards[position].id, LikeResult(direction == StackLayout.Right)))
    }
  }

  /** Appending the added cards of a page to distinct cards whose ids were seen keeps them distinct. */
  lemma AppendFreshKeepsDistinct(cards: seq<AnimalCardItem>, seen: set<int>, added: seq<AnimalDto>)
    requires DistinctIds(cards) && forall i :: 0 <= i < |cards| ==> cards[i].id in seen
    requires forall i :: 0 <= i < |added| ==> added[i].id !in seen
    requires DistinctDtoIds(added)
    ensures DistinctIds(cards + Cards(added))
    ensures forall i :: 0 <= i < |cards + Cards(added)| ==> (cards + Cards(added))[i].id in seen + DtoIds(added)
  {
    var all := cards + Cards(added);
    forall i | |cards| <= i < |all| ensures all[i].id == added[i - |cards|].id {
    }
  }

  /** The code part of the diagnostic: "http=<code> ", or nothing when the code is null. */
  function CodePart<T>(r: RepoResult<T>): string
  {
    if r.httpCode.Some? then "http=" + IntToString(r.httpCode.value) + " " else ""
  }

  /** The message part: "msg=<message> ", or nothing when the message is null. */
  function MessagePart<T>(r: RepoResult<T>): string
  {
    if r.errorMessage.Some? then "msg=" + r.errorMessage.value + " " else ""
  }

  /** The body part: "body=<body>", or nothing when the body is null. */
  function BodyPart<T>(r: RepoResult<T>): string
  {
    if r.errorBody.Some? then "body=" + r.errorBody.value else ""
  }

  /** The text `buildRepoError` builds before trimming it. */
  function RepoErrorText<T>(op: string, r: RepoResult<T>): string
  {
    op + ":" + (" " + (CodePart(r) + (MessagePart(r) + BodyPart(r))))
  }

  /** The message `buildRepoError` logs: "op: " then the non-null parts, the whole trimmed. */
  function BuildRepoError<T>(op: string, r: RepoResult<T>): (s: string)
    ensures op != [] && !IsTrimmable(op[0]) ==> StartsWith(s, op + ":")
  {
    var full := RepoErrorText(op, r);
    if op != [] && !IsTrimmable(op[0]) then
      assert full[..|op| + 1] == op + ":";
      TrimKeepsPrefix(full, |op|);
      Trim(full)
    else
      Trim(full)
  }

  /** A result without code, message or body reduces to "op:", the trailing space trimmed away. */
  lemma BareErrorIsOpName<T>(op: string, r: RepoResult<T>)
    requires op != [] && !IsTrimmable(op[0]) && !IsTrimmable(op[|op| - 1])
    requires r.httpCode.None? && r.errorMessage.None? && r.errorBody.None?
    ensures BuildRepoError(op, r) == op + ":"
  {
    var head := op + ":";
    var full := RepoErrorText(op, r);
    assert full == head + " ";
    assert TrimStart(full) == full;
    assert full[..|full| - 1] == head;
    assert TrimEnd(head) == head;
  }

  /** The last character of a rendered int is a digit. */
  lemma IntToStringEndsInDigit(i: int)
    ensures IsDigit(IntToString(i)[|IntToString(i)| - 1])
    ensures forall j :: 0 <= j < |IntToString(i)| ==> IntToString(i)[j] == '-' || IsDigit(IntToString(i)[j])
  {
    var n := if i < 0 then -i else i;
    assert IntToString(i)[|IntToString(i)| - 1] == NatToString(n)[|NatToString(n)| - 1];
  }

  /** The diagnostic is the built text, trimmed. */
  lemma RepoErrorIsTrimmedText<T>(op: string, r: RepoResult<T>)
    ensures BuildRepoError(op, r) == Trim(RepoErrorText(op, r))
  {
  }

  /**
   * Every part present in the result is in the diagnostic with its label: the code in full,
   * the message and the body up to the trailing blanks the final trim may cut.
   */
  lemma RepoErrorShowsPresentParts<T>(op: string, r: RepoResult<T>)
    ensures r.httpCode.Some? ==> Contains(BuildRepoError(op, r), "http=" + IntToString(r.httpCode.value))
    ensures r.errorMessage.Some? ==> Contains(BuildRepoError(op, r), "msg=" + TrimEnd(r.errorMessage.value))
    ensures r.errorBody.Some? ==> Contains(BuildRepoError(op, r), "body=" + TrimEnd(r.errorBody.value))
  {
    RepoErrorIsTrimmedText(op, r);
    if r.httpCode.Some? {
      var digits := IntToString(r.httpCode.value);
      CodeSits(op, r);
      IntToStringEndsInDigit(r.httpCode.value);
      assert TrimEnd(digits) == digits;
      ShowsPiece(op + ": ", "http=", digits, " " + (MessagePart(r) + BodyPart(r)));
    }
    if r.errorMessage.Some? {
      MessageSits(op, r);
      ShowsPiece(op + ": " + CodePart(r), "msg=", r.errorMessage.value, " " + BodyPart(r));
    }
    if r.errorBody.Some? {
      BodySits(op, r);
      ShowsPiece(op + ": " + CodePart(r) + MessagePart(r), "body=", r.errorBody.value, []);
    }
  }

  /** Where the code part sits in the built text. */
  lemma CodeSits<T>(op: string, r: RepoResult<T>)
    requires r.httpCode.Some?
    ensures RepoErrorText(op, r) ==
      (op + ": ") + ("http=" + IntToString(r.httpCode.value) + (" " + (MessagePart(r) + BodyPart(r))))
  {
  }

  /** Where the message part sits in the built text. */
  lemma MessageSits<T>(op: string, r: RepoResult<T>)
    requires r.errorMessage.Some?
    ensures RepoErrorText(op, r) == (op + ": " + CodePart(r)) + ("msg=" + r.errorMessage.value + (" " + BodyPart(r)))
  {
  }

  /** Where the body part sits in the built text. */
  lemma BodySits<T>(op: string, r: RepoResult<T>)
    requires r.errorBody.Some?
    ensures RepoErrorText(op, r) == (op + ": " + CodePart(r) + MessagePart(r)) + ("body=" + r.errorBody.value + [])
  {
  }

  /** A labelled value survives the trim of any text it sits in, up to its own trailing blanks. */
  lemma ShowsPiece(pre: string, tag: string, value: string, rest: string)
    requires tag != [] && !IsTrimmable(tag[0]) && !IsTrimmable(tag[|tag| - 1])
    ensures Contains(Trim(pre + (tag + value + rest)), tag + TrimEnd(value))
  {
    var full := pre + (tag + value + rest);
    var piece := tag + TrimEnd(value);
    assert value[..|TrimEnd(value)|] == TrimEnd(value);
    assert full[|pre|..|pre| + |piece|] == (tag + value + rest)[..|piece|] == piece;
    TrimKeepsVisibleInfix(full, piece, |pre|);
  }

  /**
   * A part that is null leaves no label in the diagnostic, as long as the operation name
   * and the parts that are present do not themselves carry that label.
   */
  lemma RepoErrorOmitsAbsentParts<T>(op: string, r: RepoResult<T>)
    ensures (r.httpCode.None? && !Contains(op, "http=") &&
             (r.errorMessage.Some? ==> !Contains(r.errorMessage.value, "http=")) &&
             (r.errorBody.Some? ==> !Contains(r.errorBody.value, "http="))) ==>
      !Contains(BuildRepoError(op, r), "http=")
    ensures (r.errorMessage.None? && !Contains(op, "msg=") &&
             (r.errorBody.Some? ==> !Contains(r.errorBody.value, "msg="))) ==>
      !Contains(BuildRepoError(op, r), "msg=")
    ensures (r.errorBody.None? && !Contains(op, "body=") &&
             (r.errorMessage.Some? ==> !Contains(r.errorMessage.value, "body="))) ==>
      !Contains(BuildRepoError(op, r), "body=")
  {
    NoCodeLabel(op, r);
    NoMessageLabel(op, r);
    NoBodyLabel(op, r);
  }

  /** A null HTTP code leaves no "http=" label. */
  lemma NoCodeLabel<T>(op: string, r: RepoResult<T>)
    ensures (r.httpCode.None? && !Contains(op, "http=") &&
             (r.errorMessage.Some? ==> !Contains(r.errorMessage.value, "http=")) &&
             (r.errorBody.Some? ==> !Contains(r.errorBody.value, "http="))) ==>
      !Contains(BuildRepoError(op, r), "http=")
  {
    var w := "http=";
    if r.httpCode.None? && !Contains(op, w) &&
       (r.errorMessage.Some? ==> !Contains(r.errorMessage.value, w)) &&
       (r.errorBody.Some? ==> !Contains(r.errorBody.value, w)) {
      assert w[0] == 'h' && ':' !in w && ' ' !in w;
      RepoErrorLacks(op, r, w);
    }
  }

  /** A null message leaves no "msg=" label. */
  lemma NoMessageLabel<T>(op: string, r: RepoResult<T>)
    ensures (r.errorMessage.None? && !Contains(op, "msg=") &&
             (r.errorBody.Some? ==> !Contains(r.errorBody.value, "msg="))) ==>
      !Contains(BuildRepoError(op, r), "msg=")
  {
    var w := "msg=";
    if r.errorMessage.None? && !Contains(op, w) && (r.errorBody.Some? ==> !Contains(r.errorBody.value, w)) {
      assert w[0] == 'm' && ':' !in w;
      RepoErrorLacks(op, r, w);
    }
  }

  /** A null body leaves no "body=" label. */
  lemma NoBodyLabel<T>(op: string, r: RepoResult<T>)
    ensures (r.errorBody.None? && !Contains(op, "body=") &&
             (r.errorMessage.Some? ==> !Contains(r.errorMessage.value, "body="))) ==>
      !Contains(BuildRepoError(op, r), "body=")
  {
    var w := "body=";
    if r.errorBody.None? && !Contains(op, w) && (r.errorMessage.Some? ==> !Contains(r.errorMessage.value, w)) {
      assert w[0] == 'b' && ':' !in w && ' ' !in w;
      RepoErrorLacks(op, r, w);
    }
  }

  /**
   * The diagnostic holds no `w` when neither the operation name nor a present part can hold
   * it: `w` has no ':', starts with a visible character that no present label, digit or '-'
   * is, and holds no blank when a message is present.
   */
  lemma RepoErrorLacks<T>(op: string, r: RepoResult<T>, w: string)
    requires w != [] && !Contains(op, w) && !IsTrimmable(w[0]) && ':' !in w
    requires r.httpCode.Some? ==> w[0] !in "http=-" && !IsDigit(w[0])
    requires r.errorMessage.Some? ==> w[0] !in "msg=" && ' ' !in w && !Contains(r.errorMessage.value, w)
    requires r.errorBody.Some? ==> w[0] !in "body=" && !Contains(r.errorBody.value, w)
    ensures !Contains(BuildRepoError(op, r), w)
  {
    BodyPartLacks(r, w);
    MessagePartLacks(r, BodyPart(r), w);
    CodePartLacks(r, MessagePart(r) + BodyPart(r), w);
    HeadLacks(op, CodePart(r) + (MessagePart(r) + BodyPart(r)), w);
    RepoErrorIsTrimmedText(op, r);
    if Contains(BuildRepoError(op, r), w) {
      ContainsOfTrim(RepoErrorText(op, r), w);
    }
  }

  /** "op: " adds no `w` to parts that hold none, when `w` has no ':' and starts visibly. */
  lemma HeadLacks(op: string, parts: string, w: string)
    requires w != [] && !Contains(op, w) && !IsTrimmable(w[0]) && ':' !in w && !Contains(parts, w)
    ensures !Contains(op + ":" + (" " + parts), w)
  {
    NotContainsAfter(": ", parts, w);
    NotContainsJoin(op, ": " + parts, w);
    assert op + ":" + (" " + parts) == op + (": " + parts);
  }

  /** The code part adds no `w` when `w` cannot start inside "http=<digits> ". */
  lemma CodePartLacks<T>(r: RepoResult<T>, tail: string, w: string)
    requires w != [] && !IsTrimmable(w[0]) && !Contains(tail, w)
    requires r.httpCode.Some? ==> w[0] !in "http=-" && !IsDigit(w[0])
    ensures !Contains(CodePart(r) + tail, w)
  {
    if r.httpCode.Some? {
      var digits := IntToString(r.httpCode.value);
      IntToStringEndsInDigit(r.httpCode.value);
      var pre := "http=" + digits + " ";
      forall i | 0 <= i < |pre|
        ensures pre[i] != w[0]
      {
        if i < 5 {
          assert pre[i] == "http="[i];
        } else if i < 5 + |digits| {
          assert pre[i] == digits[i - 5];
        }
      }
      NotContainsAfter(pre, tail, w);
    } else {
      assert CodePart(r) + tail == tail;
    }
  }

  /** The message part adds no `w` when the message holds none and `w` has no blank. */
  lemma MessagePartLacks<T>(r: RepoResult<T>, body: string, w: string)
    requires w != [] && !IsTrimmable(w[0]) && !Contains(body, w)
    requires r.errorMessage.Some? ==> w[0] !in "msg=" && ' ' !in w && !Contains(r.errorMessage.value, w)
    ensures !Contains(MessagePart(r) + body, w)
  {
    if r.errorMessage.Some? {
      var m := r.errorMessage.value;
      NotContainsAfter(" ", body, w);
      NotContainsJoin(m, " " + body, w);
      NotContainsAfter("msg=", m + (" " + body), w);
      assert MessagePart(r) + body == "msg=" + (m + (" " + body));
    } else {
      assert MessagePart(r) + body == body;
    }
  }

  /** The body part holds no `w` when the body holds none. */
  lemma BodyPartLacks<T>(r: RepoResult<T>, w: string)
    requires w != []
    requires r.errorBody.Some? ==> w[0] !in "body=" && !Contains(r.errorBody.value, w)
    ensures !Contains(BodyPart(r), w)
  {
    if r.errorBody.Some? {
      NotContainsAfter("body=", r.errorBody.value, w);
    }
  }
}
