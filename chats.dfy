/**
 * ChatsFragment: the chat list. `filteredChats` is rebuilt from all chats on every
 * apply (unread only, favourites only) and sorted newest first, oldest first or by
 * title ignoring case.
 */
module Chats {
  import opened Text
  import opened Sorting
  import opened Filtering
  import opened Wrappers

  datatype ChatThread = ChatThread(
    id: string, title: string, lastMessage: string, lastMessageTimeMillis: int,
    unreadCount: int, favorite: bool)

  /** `ChatThread.hasUnread`. */
  predicate HasUnread(c: ChatThread) { c.unreadCount > 0 }

  datatype SortMode = Newest | Oldest | Name

  /** The filter of `applyFiltersAndUpdateList`. */
  predicate Keeps(onlyUnread: bool, onlyFavorites: bool, c: ChatThread)
  {
    (!onlyUnread || HasUnread(c)) && (!onlyFavorites || c.favorite)
  }

  /** `Keeps` with the two filter settings fixed, as the element test of `Filter`. */
  function KeepsFn(onlyUnread: bool, onlyFavorites: bool): ChatThread -> bool
  {
    (c: ChatThread) => Keeps(onlyUnread, onlyFavorites, c)
  }

  /** The chats that pass the filter, in their original order, each as often as in the list. */
  function Filtered(chats: seq<ChatThread>, onlyUnread: bool, onlyFavorites: bool): (r: seq<ChatThread>)
    ensures forall x :: x in r <==> x in chats && Keeps(onlyUnread, onlyFavorites, x)
    ensures forall x :: multiset(r)[x] == if Keeps(onlyUnread, onlyFavorites, x) then multiset(chats)[x] else 0
  {
    FilterCounts(chats, KeepsFn(onlyUnread, onlyFavorites));
    Filter(chats, KeepsFn(onlyUnread, onlyFavorites))
  }

  /** `compareToIgnoreCase(a, b) <= 0`, with the case folding of `Text.ToLower`. */
  predicate TitleLe(a: string, b: string)
  {
    LexLe(ToLower(a), ToLower(b))
  }

  /** Any two titles compare, one way or the other. */
  lemma TitleLeTotal()
    ensures forall a, b :: TitleLe(a, b) || TitleLe(b, a)
  {
    forall a: string, b: string ensures TitleLe(a, b) || TitleLe(b, a) {
      LexLeTotal(ToLower(a), ToLower(b));
    }
  }

  /** The comparator each sort mode passes to `Collections.sort`, as "may come before"; any two chats compare. */
  function Comparator(mode: SortMode): (le: (ChatThread, ChatThread) -> bool)
    ensures forall a, b :: le(a, b) || le(b, a)
  {
    TitleLeTotal();
    match mode
    case Newest => (a: ChatThread, b: ChatThread) => a.lastMessageTimeMillis >= b.lastMessageTimeMillis
    case Oldest => (a: ChatThread, b: ChatThread) => a.lastMessageTimeMillis <= b.lastMessageTimeMillis
    case Name => (a: ChatThread, b: ChatThread) => TitleLe(a.title, b.title)
  }

  /** Each comparator orders any two chats and is transitive, so sorting with it is well defined. */
  lemma ComparatorIsTotalPreorder(mode: SortMode)
    ensures TotalPreorder(Comparator(mode))
  {
    if mode == Name {
      forall a: string, b: string, c: string | TitleLe(a, b) && TitleLe(b, c) ensures TitleLe(a, c) {
        LexLeTransitive(ToLower(a), ToLower(b), ToLower(c));
      }
    }
  }

  /** The sorted list holds the same chats, ordered as the mode says. */
  lemma SortedByMode(chats: seq<ChatThread>, mode: SortMode)
    ensures var s := Sort(chats, Comparator(mode));
      multiset(s) == multiset(chats) &&
      (mode == Newest ==> forall i, j :: 0 <= i < j < |s| ==> s[i].lastMessageTimeMillis >= s[j].lastMessageTimeMillis) &&
      (mode == Oldest ==> forall i, j :: 0 <= i < j < |s| ==> s[i].lastMessageTimeMillis <= s[j].lastMessageTimeMillis) &&
      (mode == Name ==> forall i, j :: 0 <= i < j < |s| ==> TitleLe(s[i].title, s[j].title))
  {
    ComparatorIsTotalPreorder(mode);
    SortSorted(chats, Comparator(mode));
  }

  /** The chips of the sort group; `OtherChip` stands for "newest" and for no selection. */
  datatype SortChip = OldestChip | ByNameChip | OtherChip

  /** The sort mode a checked chip selects on apply; anything else selects newest first. */
  function SortModeFor(chip: SortChip): (m: SortMode)
    ensures m == Oldest <==> chip == OldestChip
    ensures m == Name <==> chip == ByNameChip
    ensures m == Newest <==> chip == OtherChip
  {
    match chip
    case OldestChip => Oldest
    case ByNameChip => Name
    case OtherChip => Newest
  }

  class ChatsFragment {
    var allChats: seq<ChatThread>
    var filteredChats: seq<ChatThread>
    var filterOnlyUnread: bool
    var filterOnlyFavorites: bool
    var sortMode: SortMode

    /** A fresh screen: no filters and newest first; `chats` are the chats it is seeded with. */
    constructor (chats: seq<ChatThread>)
      ensures allChats == chats && filteredChats == []
      ensures !filterOnlyUnread && !filterOnlyFavorites && sortMode == Newest
    {
      allChats := chats;
      filteredChats := [];
      filterOnlyUnread := false;
      filterOnlyFavorites := false;
      sortMode := Newest;
    }

    /** `applyFiltersAndUpdateList`: clear, refill with the chats that pass, sort by the mode. */
    method ApplyFiltersAndUpdateList()
      modifies this`filteredChats
      ensures filteredChats == Sort(Filtered(allChats, filterOnlyUnread, filterOnlyFavorites), Comparator(sortMode))
    {
      var filtered := FilterChats(allChats, filterOnlyUnread, filterOnlyFavorites);
      filteredChats := Sort(filtered, Comparator(sortMode));
    }

    /** The filtering loop of `applyFiltersAndUpdateList`: a chat is skipped when it fails either filter. */
    static method FilterChats(chats: seq<ChatThread>, onlyUnread: bool, onlyFavorites: bool)
      returns (filtered: seq<ChatThread>)
      ensures filtered == Filtered(chats, onlyUnread, onlyFavorites)
    {
      filtered := [];
      ghost var keep := KeepsFn(onlyUnread, onlyFavorites);
      var i := 0;
      while i < |chats|
        invariant 0 <= i <= |chats|
        invariant filtered == Filter(chats[..i], keep)
      {
        var chat := chats[i];
        FilterStep(chats, i, keep);
        assert keep(chat) == Keeps(onlyUnread, onlyFavorites, chat);
        if onlyUnread && !HasUnread(chat) {
        } else if onlyFavorites && !chat.favorite {
        } else {
          filtered := filtered + [chat];
        }
        i := i + 1;
      }
      assert chats[..|chats|] == chats;
    }

    /**
     * The apply button of the filter sheet. A `None` argument is a view missing from the
     * layout, which leaves its setting as it was.
     */
    method ApplyFilterSheet(unreadChecked: Option<bool>, favoritesChecked: Option<bool>, chip: Option<SortChip>)
      modifies this`filterOnlyUnread, this`filterOnlyFavorites, this`sortMode, this`filteredChats
      ensures filterOnlyUnread == if unreadChecked.Some? then unreadChecked.value else old(filterOnlyUnread)
      ensures filterOnlyFavorites == if favoritesChecked.Some? then favoritesChecked.value else old(filterOnlyFavorites)
      ensures sortMode == if chip.Some? then SortModeFor(chip.value) else old(sortMode)
      ensures filteredChats == Sort(Filtered(allChats, filterOnlyUnread, filterOnlyFavorites), Comparator(sortMode))
    {
      if unreadChecked.Some? {
        filterOnlyUnread := unreadChecked.value;
      }
      if favoritesChecked.Some? {
        filterOnlyFavorites := favoritesChecked.value;
      }
      if chip.Some? {
        sortMode := SortModeFor(chip.value);
      }
      ApplyFiltersAndUpdateList();
    }
  }
}
