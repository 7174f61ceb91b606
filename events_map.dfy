/**
 * The event map: a search box and a category chip row filter the list of
 * fairs; clicking an event opens its details.
 */
module EventsMap {
  import opened Wrappers
  import opened Lists
  import opened Text

  datatype Organizer = Organizer(name: string, avatar: string, rating: real)
  datatype Coordinates = Coordinates(lat: real, lng: real)

  datatype Event = Event(
    id: string, name: string, location: string, date: string, time: string,
    description: string, category: string, attendees: nat, maxAttendees: nat,
    price: real, organizer: Organizer, image: string, coordinates: Coordinates)

  /** The search half of the filter: the term occurs, ignoring case, in the name or the location. */
  predicate MatchesSearch(e: Event, term: string)
  {
    MatchesTerm(e.name, term) || MatchesTerm(e.location, term)
  }

  /** The category half of the filter: no category selected, or the event's category is the selected one. */
  predicate MatchesCategory(e: Event, category: string)
  {
    category == "" || e.category == category
  }

  /** The test `filteredEvents` applies to each event. */
  function EventFilter(term: string, category: string): Event -> bool
  {
    (e: Event) => MatchesSearch(e, term) && MatchesCategory(e, category)
  }

  /** `filteredEvents`: the events that match both the search term and the selected category. */
  function FilteredEvents(events: seq<Event>, term: string, category: string): (r: seq<Event>)
    ensures |r| <= |events|
    ensures forall i :: 0 <= i < |r| ==>
              r[i] in events && MatchesSearch(r[i], term) && MatchesCategory(r[i], category)
    ensures forall i :: 0 <= i < |events| ==>
              (MatchesSearch(events[i], term) && MatchesCategory(events[i], category) ==> events[i] in r)
  {
    Filter(EventFilter(term, category), events)
  }

  /** The filtered list keeps the events in their original order. */
  lemma FilteredEventsKeepOrder(s: seq<Event>, t: seq<Event>, term: string, category: string)
    ensures FilteredEvents(s + t, term, category) == FilteredEvents(s, term, category) + FilteredEvents(t, term, category)
  {
    FilterAppend(EventFilter(term, category), s, t);
  }

  /** With no search term and no category, every event is shown. */
  lemma NoFilterShowsAll(events: seq<Event>)
    ensures FilteredEvents(events, "", "") == events
  {
    forall e | e in events
      ensures EventFilter("", "")(e)
    {
      MatchesEmptyTerm(e.name);
    }
    FilterAll(EventFilter("", ""), events);
  }

  /** With no search term, exactly the events of the selected category are shown. */
  lemma EmptyTermFiltersByCategoryOnly(events: seq<Event>, category: string)
    ensures forall i :: 0 <= i < |events| && MatchesCategory(events[i], category) ==>
              events[i] in FilteredEvents(events, "", category)
    ensures forall i :: 0 <= i < |FilteredEvents(events, "", category)| ==>
              MatchesCategory(FilteredEvents(events, "", category)[i], category)
  {
    forall i | 0 <= i < |events|
      ensures MatchesSearch(events[i], "")
    {
      MatchesEmptyTerm(events[i].name);
    }
  }

  /** Two search terms that differ only in letter case show the same events. */
  lemma SearchIgnoresCase(events: seq<Event>, t1: string, t2: string, category: string)
    requires Lower(t1) == Lower(t2)
    ensures FilteredEvents(events, t1, category) == FilteredEvents(events, t2, category)
  {
    forall e | e in events
      ensures EventFilter(t1, category)(e) == EventFilter(t2, category)(e)
    {
      MatchesTermCaseInsensitive(e.name, t1, t2);
      MatchesTermCaseInsensitive(e.location, t1, t2);
    }
    FilterCongruent(EventFilter(t1, category), EventFilter(t2, category), events);
  }

  /** `handleCategorySelect`: picking the selected category clears it, picking another selects it. */
  function ToggleCategory(selected: string, category: string): (r: string)
    ensures r == "" || r == category
    ensures category != "" ==> (r == category <==> selected != category)
    ensures r == "" <==> selected == category || category == ""
  {
    if category == selected then "" else category
  }

  /**
   * Picking the same chip twice returns to no selection, unless that chip was
   * the one selected, in which case it is selected again.
   */
  lemma ToggleTwiceClears(selected: string, category: string)
    ensures selected != category ==> ToggleCategory(ToggleCategory(selected, category), category) == ""
    ensures selected == category ==> ToggleCategory(ToggleCategory(selected, category), category) == category
    ensures ToggleCategory(ToggleCategory("", category), category) == ""
  {
  }

  /** The screen's state. The event list itself is never replaced. */
  class EventsMapScreen {
    const events: seq<Event>
    var selectedEvent: Option<Event>
    var searchTerm: string
    var selectedCategory: string
    var isOpen: bool

    constructor (events: seq<Event>)
      ensures this.events == events && selectedEvent == None
      ensures searchTerm == "" && selectedCategory == "" && !isOpen
      ensures Shown() == events
    {
      this.events := events;
      selectedEvent := None;
      searchTerm, selectedCategory := "", "";
      isOpen := false;
      new;
      NoFilterShowsAll(events);
    }

    /** The events listed under the current filters. */
    function Shown(): seq<Event>
      reads this
    {
      FilteredEvents(events, searchTerm, selectedCategory)
    }

    /** Typing into the search box. */
    method SetSearchTerm(term: string)
      modifies this`searchTerm
      ensures searchTerm == term
    {
      searchTerm := term;
    }

    /** `handleCategorySelect`: toggles the category; the search term stays. */
    method HandleCategorySelect(category: string)
      modifies this`selectedCategory
      ensures selectedCategory == ToggleCategory(old(selectedCategory), category)
      ensures old(selectedCategory) == category ==> selectedCategory == ""
      ensures old(selectedCategory) != category ==> selectedCategory == category
    {
      selectedCategory := if category == selectedCategory then "" else category;
    }

    /** "Limpiar filtro": clears the category only; the search term stays. */
    method ClearFilter()
      modifies this`selectedCategory
      ensures selectedCategory == "" && searchTerm == old(searchTerm)
    {
      selectedCategory := "";
    }

    /** `handleEventClick`: remembers the clicked event and opens its details. */
    method HandleEventClick(e: Event)
      modifies this`selectedEvent, this`isOpen
      ensures selectedEvent == Some(e) && isOpen
    {
      selectedEvent := Some(e);
      isOpen := true;
    }

    /** Closing the details dialog; the last event clicked stays remembered. */
    method CloseDetails()
      modifies this`isOpen
      ensures !isOpen
    {
      isOpen := false;
    }
  }
}
