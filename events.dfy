/**
 * EventsFragment: the event feed. Events are filtered (unread only, one type),
 * sorted newest first and laid out under day headers: Today, Yesterday, Earlier.
 * The device calendar is an input: the day a timestamp falls on, today and yesterday.
 */
module Events {
  import opened Wrappers
  import opened Sorting
  import opened Filtering

  datatype EventType = NewContact | Message | Update | Reminder

  datatype EventItem = EventItem(
    id: string, eventType: EventType, title: string, description: string,
    timeMillis: int, unread: bool)

  datatype DayGroup = Today | Yesterday | Earlier

  /** A row of the sectioned list: a day header or an event. */
  datatype ListItem = Header(group: DayGroup) | Event(event: EventItem)

  /** The two `Calendar` fields `isSameDay` reads. */
  datatype Day = Day(year: int, dayOfYear: int)

  /** The device calendar: which day a timestamp falls on, today, and today minus one day. */
  datatype Clock = Clock(dayOf: int -> Day, today: Day, yesterday: Day)

  /** `isSameDay`: same year and same day of the year, which identify the day. */
  predicate IsSameDay(a: Day, b: Day)
    ensures IsSameDay(a, b) <==> a == b
  {
    a.year == b.year && a.dayOfYear == b.dayOfYear
  }

  /** `resolveDayGroup`. */
  function ResolveDayGroup(clock: Clock, timeMillis: int): (g: DayGroup)
    ensures g == Today <==> IsSameDay(clock.dayOf(timeMillis), clock.today)
    ensures g == Yesterday <==>
      !IsSameDay(clock.dayOf(timeMillis), clock.today) && IsSameDay(clock.dayOf(timeMillis), clock.yesterday)
    ensures g == Earlier <==>
      !IsSameDay(clock.dayOf(timeMillis), clock.today) && !IsSameDay(clock.dayOf(timeMillis), clock.yesterday)
  {
    var day := clock.dayOf(timeMillis);
    if IsSameDay(day, clock.today) then Today
    else if IsSameDay(day, clock.yesterday) then Yesterday
    else Earlier
  }

  /** The filter of `applyFiltersAndUpdate`. */
  predicate Keeps(onlyUnread: bool, filterType: Option<EventType>, e: EventItem)
  {
    (!onlyUnread || e.unread) && (filterType.None? || e.eventType == filterType.value)
  }

  /** `Keeps` with the two filter settings fixed, as the element test of `Filter`. */
  function KeepsFn(onlyUnread: bool, filterType: Option<EventType>): EventItem -> bool
  {
    (e: EventItem) => Keeps(onlyUnread, filterType, e)
  }

  /** The events that pass the filter, in their original order, each as often as in the list. */
  function Filtered(events: seq<EventItem>, onlyUnread: bool, filterType: Option<EventType>): (r: seq<EventItem>)
    ensures forall x :: x in r <==> x in events && Keeps(onlyUnread, filterType, x)
    ensures forall x :: multiset(r)[x] == if Keeps(onlyUnread, filterType, x) then multiset(events)[x] else 0
  {
    FilterCounts(events, KeepsFn(onlyUnread, filterType));
    Filter(events, KeepsFn(onlyUnread, filterType))
  }

  /** The comparator `Long.compare(o2.time, o1.time)`: newest first. */
  function NewestFirst(): (EventItem, EventItem) -> bool
  {
    (a: EventItem, b: EventItem) => a.timeMillis >= b.timeMillis
  }

  /** The sorted events run from the newest to the oldest, and no event is lost or added. */
  lemma SortedNewestFirst(events: seq<EventItem>)
    ensures var s := Sort(events, NewestFirst());
      multiset(s) == multiset(events) &&
      forall i, j :: 0 <= i < j < |s| ==> s[i].timeMillis >= s[j].timeMillis
  {
    SortSorted(events, NewestFirst());
  }

  /** The header the loop emits before `e` when `prev` came before it: one exactly when the day group changes. */
  function HeaderFor(prev: seq<EventItem>, e: EventItem, clock: Clock): seq<ListItem>
  {
    var g := ResolveDayGroup(clock, e.timeMillis);
    if prev == [] || ResolveDayGroup(clock, prev[|prev| - 1].timeMillis) != g then [Header(g)] else []
  }

  /** `buildSectionedList`, written the way the loop appends: a header whenever the day group changes. */
  function Sectioned(events: seq<EventItem>, clock: Clock): (r: seq<ListItem>)
    ensures r == [] <==> events == []
    ensures |events| <= |r| <= 2 * |events|
    decreases |events|
  {
    if events == [] then []
    else
      var prev := events[..|events| - 1];
      var e := events[|events| - 1];
      Sectioned(prev, clock) + HeaderFor(prev, e, clock) + [Event(e)]
  }

  /** One step of the loop: the list for all but the last event, its header if any, and the event. */
  lemma SectionedUnfold(events: seq<EventItem>, clock: Clock)
    requires events != []
    ensures var prev := events[..|events| - 1];
      var e := events[|events| - 1];
      Sectioned(events, clock) == Sectioned(prev, clock) + HeaderFor(prev, e, clock) + [Event(e)]
  {
  }

  /** The events of a sectioned list, in order. */
  function EventsOf(items: seq<ListItem>): seq<EventItem>
    decreases |items|
  {
    if items == [] then []
    else
      var last := items[|items| - 1];
      EventsOf(items[..|items| - 1]) + (if last.Event? then [last.event] else [])
  }

  lemma {:induction false} EventsOfAppend(a: seq<ListItem>, b: seq<ListItem>)
    ensures EventsOf(a + b) == EventsOf(a) + EventsOf(b)
    decreases |b|
  {
    if b != [] {
      var b' := b[..|b| - 1];
      assert (a + b)[..|a + b| - 1] == a + b';
      EventsOfAppend(a, b');
    } else {
      assert a + b == a;
    }
  }

  /** An optional header followed by one event holds just that event. */
  lemma EventsOfHeaderEvent(header: seq<ListItem>, e: EventItem)
    requires header == [] || (|header| == 1 && header[0].Header?)
    ensures EventsOf(header + [Event(e)]) == [e]
  {
    assert (header + [Event(e)])[..|header|] == header;
    if header != [] {
      assert header[..0] == [];
    }
  }

  /** Every event appears exactly once, in input order; headers add nothing else. */
  lemma {:induction false} SectionedKeepsEvents(events: seq<EventItem>, clock: Clock)
    ensures EventsOf(Sectioned(events, clock)) == events
    decreases |events|
  {
    if events != [] {
      var prev := events[..|events| - 1];
      var e := events[|events| - 1];
      var header := HeaderFor(prev, e, clock);
      var tail := header + [Event(e)];
      calc {
        EventsOf(Sectioned(events, clock));
        == { SectionedUnfold(events, clock);
             assert Sectioned(events, clock) == Sectioned(prev, clock) + tail; }
        EventsOf(Sectioned(prev, clock) + tail);
        == { EventsOfAppend(Sectioned(prev, clock), tail); }
        EventsOf(Sectioned(prev, clock)) + EventsOf(tail);
        == { SectionedKeepsEvents(prev, clock); EventsOfHeaderEvent(header, e); }
        prev + [e];
        == { assert events == prev + [e]; }
        events;
      }
    }
  }

  /** The group of the last header in a list, if any. */
  function LastHeader(items: seq<ListItem>): Option<DayGroup>
    decreases |items|
  {
    if items == [] then None
    else if items[|items| - 1].Header? then Some(items[|items| - 1].group)
    else LastHeader(items[..|items| - 1])
  }

  /** The list opens with the first event's header and closes with the last event under its own group. */
  lemma {:induction false} SectionedEnds(events: seq<EventItem>, clock: Clock)
    ensures var r := Sectioned(events, clock);
      (events == [] <==> r == []) &&
      (events != [] ==> r[0] == Header(ResolveDayGroup(clock, events[0].timeMillis))) &&
      (events != [] ==> r[|r| - 1] == Event(events[|events| - 1]) &&
                        LastHeader(r) == Some(ResolveDayGroup(clock, events[|events| - 1].timeMillis)))
    decreases |events|
  {
    if events != [] {
      var prev := events[..|events| - 1];
      var e := events[|events| - 1];
      var g := ResolveDayGroup(clock, e.timeMillis);
      var header := HeaderFor(prev, e, clock);
      var p := Sectioned(prev, clock);
      var r := Sectioned(events, clock);
      SectionedUnfold(events, clock);
      SectionedEnds(prev, clock);
      assert r[..|r| - 1] == p + header;
      assert LastHeader(r[..|r| - 1]) == Some(g) by {
        if header == [] {
          assert p + header == p;
        }
      }
      if prev == [] {
        assert r == [Header(g), Event(e)];
      } else {
        assert events[0] == prev[0];
        assert r[0] == p[0];
      }
    }
  }

  /** Every event of `items` stands under the header of its own day group. */
  predicate UnderOwnHeaders(items: seq<ListItem>, clock: Clock)
  {
    forall k :: 0 <= k < |items| && items[k].Event? ==>
      LastHeader(items[..k]) == Some(ResolveDayGroup(clock, items[k].event.timeMillis))
  }

  /** Appending an event after its own group's header, or after a list already under it, keeps every event under its header. */
  lemma UnderOwnHeadersAppend(p: seq<ListItem>, header: seq<ListItem>, e: EventItem, clock: Clock)
    requires UnderOwnHeaders(p, clock)
    requires header == [] || header == [Header(ResolveDayGroup(clock, e.timeMillis))]
    requires LastHeader(p + header) == Some(ResolveDayGroup(clock, e.timeMillis))
    ensures UnderOwnHeaders(p + header + [Event(e)], clock)
  {
    var r := p + header + [Event(e)];
    assert r[..|r| - 1] == p + header;
    forall k | 0 <= k < |r| && r[k].Event?
      ensures LastHeader(r[..k]) == Some(ResolveDayGroup(clock, r[k].event.timeMillis))
    {
      if k < |p| {
        assert r[k] == p[k] && r[..k] == p[..k];
      } else {
        assert k == |r| - 1;
      }
    }
  }

  /** Each event sits under the header of its own day group. */
  lemma {:induction false} EventsUnderOwnHeader(events: seq<EventItem>, clock: Clock)
    ensures var r := Sectioned(events, clock);
      forall k :: 0 <= k < |r| && r[k].Event? ==>
        LastHeader(r[..k]) == Some(ResolveDayGroup(clock, r[k].event.timeMillis))
    decreases |events|
  {
    if events != [] {
      var prev := events[..|events| - 1];
      var e := events[|events| - 1];
      var g := ResolveDayGroup(clock, e.timeMillis);
      var header := HeaderFor(prev, e, clock);
      var p := Sectioned(prev, clock);
      SectionedUnfold(events, clock);
      EventsUnderOwnHeader(prev, clock);
      SectionedEnds(prev, clock);
      assert LastHeader(p + header) == Some(g) by {
        if header == [] {
          assert p + header == p;
        } else {
          assert (p + header)[|p + header| - 1] == Header(g);
        }
      }
      UnderOwnHeadersAppend(p, header, e, clock);
    }
  }

  /** A header appears only where the day group changes. */
  lemma {:induction false} HeadersOnlyOnChange(events: seq<EventItem>, clock: Clock)
    ensures var r := Sectioned(events, clock);
      forall k :: 0 < k < |r| && r[k].Header? ==> LastHeader(r[..k]) != Some(r[k].group)
    decreases |events|
  {
    if events != [] {
      var prev := events[..|events| - 1];
      var e := events[|events| - 1];
      var g := ResolveDayGroup(clock, e.timeMillis);
      var header := HeaderFor(prev, e, clock);
      var p := Sectioned(prev, clock);
      var r := Sectioned(events, clock);
      SectionedUnfold(events, clock);
      HeadersOnlyOnChange(prev, clock);
      SectionedEnds(prev, clock);
      forall k | 0 < k < |r| && r[k].Header? ensures LastHeader(r[..k]) != Some(r[k].group) {
        if k < |p| {
          assert r[k] == p[k] && r[..k] == p[..k];
        } else {
          assert header != [] && k == |p| && r[..k] == p;
        }
      }
    }
  }

  /** The chips of the event-type group; `OtherChip` stands for "all" and for no selection. */
  datatype TypeChip = NewContactsChip | MessagesChip | UpdatesChip | RemindersChip | OtherChip

  /** The type filter a checked chip selects on apply; anything unrecognised means all types. */
  function FilterTypeFor(chip: TypeChip): (t: Option<EventType>)
    ensures t.None? <==> chip == OtherChip
    ensures chip == NewContactsChip <==> t == Some(NewContact)
    ensures chip == MessagesChip <==> t == Some(Message)
    ensures chip == UpdatesChip <==> t == Some(Update)
    ensures chip == RemindersChip <==> t == Some(Reminder)
  {
    match chip
    case NewContactsChip => Some(NewContact)
    case MessagesChip => Some(Message)
    case UpdatesChip => Some(Update)
    case RemindersChip => Some(Reminder)
    case OtherChip => None
  }

  class EventsFragment {
    var allEvents: seq<EventItem>
    var filterOnlyUnread: bool
    var filterType: Option<EventType>
    /** What the adapter was last given. */
    var items: seq<ListItem>

    /** A fresh screen: no filter; `events` are the events the screen is seeded with. */
    constructor (events: seq<EventItem>)
      ensures allEvents == events && !filterOnlyUnread && filterType.None? && items == []
    {
      allEvents := events;
      filterOnlyUnread := false;
      filterType := None;
      items := [];
    }

    /** `applyFiltersAndUpdate`: filter, sort newest first, section, hand to the adapter. */
    method ApplyFiltersAndUpdate(clock: Clock)
      modifies this`items
      ensures items == Sectioned(Sort(Filtered(allEvents, filterOnlyUnread, filterType), NewestFirst()), clock)
    {
      var filtered := FilterEvents(allEvents, filterOnlyUnread, filterType);
      var sorted := Sort(filtered, NewestFirst());
      items := BuildSectionedList(sorted, clock);
    }

    /** The filtering loop of `applyFiltersAndUpdate`: an event is skipped when it fails either filter. */
    static method FilterEvents(events: seq<EventItem>, onlyUnread: bool, wanted: Option<EventType>)
      returns (filtered: seq<EventItem>)
      ensures filtered == Filtered(events, onlyUnread, wanted)
    {
      filtered := [];
      ghost var keep := KeepsFn(onlyUnread, wanted);
      var i := 0;
      while i < |events|
        invariant 0 <= i <= |events|
        invariant filtered == Filter(events[..i], keep)
      {
        var event := events[i];
        FilterStep(events, i, keep);
        assert keep(event) == Keeps(onlyUnread, wanted, event);
        if onlyUnread && !event.unread {
        } else if wanted.Some? && event.eventType != wanted.value {
        } else {
          filtered := filtered + [event];
        }
        i := i + 1;
      }
      assert events[..|events|] == events;
    }

    /** `buildSectionedList`: one pass remembering the last group. */
    method BuildSectionedList(events: seq<EventItem>, clock: Clock) returns (result: seq<ListItem>)
      ensures result == Sectioned(events, clock)
    {
      result := [];
      var lastGroup: Option<DayGroup> := None;
      var i := 0;
      while i < |events|
        invariant 0 <= i <= |events|
        invariant result == Sectioned(events[..i], clock)
        invariant lastGroup == if i == 0 then None else Some(ResolveDayGroup(clock, events[i - 1].timeMillis))
      {
        assert events[..i + 1][..i] == events[..i];
        var group := ResolveDayGroup(clock, events[i].timeMillis);
        if lastGroup != Some(group) {
          result := result + [Header(group)];
          lastGroup := Some(group);
        }
        result := result + [Event(events[i])];
        i := i + 1;
      }
      assert events[..|events|] == events;
    }

    /**
     * The apply button of the filter sheet. `unreadChecked` and `chip` are `None` when
     * the checkbox or chip group is missing from the layout; a missing view leaves its filter.
     */
    method ApplyFilterSheet(unreadChecked: Option<bool>, chip: Option<TypeChip>, clock: Clock)
      modifies this
      ensures filterOnlyUnread == if unreadChecked.Some? then unreadChecked.value else old(filterOnlyUnread)
      ensures filterType == if chip.Some? then FilterTypeFor(chip.value) else old(filterType)
      ensures allEvents == old(allEvents)
      ensures items == Sectioned(Sort(Filtered(allEvents, filterOnlyUnread, filterType), NewestFirst()), clock)
    {
      if unreadChecked.Some? {
        filterOnlyUnread := unreadChecked.value;
      }
      if chip.Some? {
        filterType := FilterTypeFor(chip.value);
      }
      ApplyFiltersAndUpdate(clock);
    }
  }
}
