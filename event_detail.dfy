/**
 * The event detail page: resolving the route's event id, the joined-list
 * state and its persistence, and the collapsed participant list.
 */
module EventDetail {
  import opened Wrappers
  import opened Session
  import Pullup

  datatype Person = Person(id: string, name: string)

  /** A record of the page's own mock table (descriptions and avatar addresses are not carried). */
  datatype EventDetails = EventDetails(
    id: string,
    title: string,
    location: string,
    time: string,
    date: string,
    duration: string,
    attendees: int,
    distance: string,
    category: string,
    trending: bool,
    organizer: Person,
    participants: seq<Person>)

  /** `mockEventData`, keyed '1' to '4'. */
  const MockEventData: map<string, EventDetails> := map[
    "1" := EventDetails("1", "Morning Coffee Meetup", "Brew & Bean, 123 Downtown Ave", "8:00 AM", "Today", "1.5 hours", 12, "0.8 mi", "Social", true,
      Person("user1", "Alex Chen"),
      [Person("user2", "Taylor Kim"), Person("user3", "Jordan Lee"), Person("user4", "Morgan Davis")]),
    "2" := EventDetails("2", "Pickup Basketball Game", "Central Park Courts", "5:30 PM", "Today", "2 hours", 8, "1.2 mi", "Sports", false,
      Person("user5", "Jamie Wilson"),
      [Person("user6", "Casey Smith"), Person("user7", "Riley Johnson")]),
    "3" := EventDetails("3", "Sunset Beach Yoga", "Venice Beach", "7:00 PM", "Today", "1 hour", 15, "2.5 mi", "Wellness", true,
      Person("user8", "Sam Taylor"),
      [Person("user9", "Avery Martin"), Person("user10", "Jordan Parker")]),
    "4" := EventDetails("4", "Tech Startup Networking", "Innovation Hub, Silicon Beach", "6:00 PM", "Tomorrow", "3 hours", 28, "3.1 mi", "Tech", false,
      Person("user11", "Quinn Lopez"),
      [Person("user12", "Skyler Reyes"), Person("user13", "Taylor Green")])
  ]

  const MaxVisibleParticipants: nat := 5

  // ---------------------------------------------------------------------
  // The joined list

  predicate NoDuplicates(s: seq<string>) {
    forall i, j :: 0 <= i < j < |s| ==> s[i] != s[j]
  }

  /** The list `handleJoinEvent` leaves: unchanged if the id is already there, else the id appended. */
  function JoinList(joined: seq<string>, id: string): (r: seq<string>)
    ensures id in r
    ensures forall x :: x in r <==> x in joined || x == id
    ensures |joined| <= |r| && r[..|joined|] == joined
    ensures id in joined ==> r == joined
    ensures id !in joined ==> r == joined + [id]
    ensures NoDuplicates(joined) ==> NoDuplicates(r)
  {
    if id in joined then joined else joined + [id]
  }

  /** Joining twice is joining once. */
  lemma JoinIdempotent(joined: seq<string>, id: string)
    ensures JoinList(JoinList(joined, id), id) == JoinList(joined, id)
  {
  }

  /** The list after joining each of `ids` in turn. */
  function JoinAll(joined: seq<string>, ids: seq<string>): seq<string>
    decreases |ids|
  {
    if ids == [] then joined else JoinAll(JoinList(joined, ids[0]), ids[1..])
  }

  /**
   * Any sequence of joins keeps a duplicate-free list duplicate-free, keeps
   * its earlier entries in front, and ends holding exactly the ids joined.
   */
  lemma {:induction false} JoinAllKeepsDistinct(joined: seq<string>, ids: seq<string>)
    requires NoDuplicates(joined)
    ensures var r := JoinAll(joined, ids);
      && NoDuplicates(r)
      && |joined| <= |r| && r[..|joined|] == joined
      && forall x :: x in r <==> x in joined || x in ids
    decreases |ids|
  {
    if ids != [] {
      var next := JoinList(joined, ids[0]);
      JoinAllKeepsDistinct(next, ids[1..]);
      var r := JoinAll(next, ids[1..]);
      assert r[..|joined|] == r[..|next|][..|joined|];
      forall x
        ensures x in r <==> x in joined || x in ids
      {
        assert x in ids <==> x == ids[0] || x in ids[1..];
      }
    }
  }

  // ---------------------------------------------------------------------
  // Participants

  /** The participants shown: all when expanded, otherwise the first five (or fewer) in order. */
  function VisibleParticipants(participants: seq<Person>, showAll: bool): (r: seq<Person>)
    ensures showAll ==> r == participants
    ensures !showAll ==> |r| == (if |participants| < MaxVisibleParticipants then |participants| else MaxVisibleParticipants)
    ensures |r| <= |participants| && r == participants[..|r|]
  {
    if showAll || |participants| <= MaxVisibleParticipants then participants
    else participants[..MaxVisibleParticipants]
  }

  /** The "+k" button: only while collapsed with more than five participants, and k counts exactly the hidden ones. */
  function OverflowCount(participants: seq<Person>, showAll: bool): (r: Option<nat>)
    ensures r.Some? <==> !showAll && |participants| > MaxVisibleParticipants
    ensures r.Some? ==> r.value >= 1 && |VisibleParticipants(participants, showAll)| + r.value == |participants|
    ensures r.None? ==> VisibleParticipants(participants, showAll) == participants
  {
    if !showAll && |participants| > MaxVisibleParticipants then Some(|participants| - MaxVisibleParticipants)
    else None
  }

  // ---------------------------------------------------------------------
  // Resolving the route parameter

  datatype Page =
    | NotFound
    | Detail(event: EventDetails, visibleParticipants: seq<Person>, overflow: Option<nat>)
    | RenderFailure

  /** The names every plain JavaScript object inherits from `Object.prototype`. */
  const ObjectPrototypeMembers: set<string> := {
    "constructor", "__proto__", "hasOwnProperty", "isPrototypeOf", "propertyIsEnumerable",
    "toLocaleString", "toString", "valueOf",
    "__defineGetter__", "__defineSetter__", "__lookupGetter__", "__lookupSetter__"}

  /** What `mockEventData[eventId]` yields on a plain object literal. */
  datatype PropertyLookup = OwnProperty(details: EventDetails) | InheritedMember(name: string) | Undefined

  /** `eventId ? mockEventData[eventId] : null`, as JavaScript evaluates it. */
  function LookupAsWritten(eventId: Option<string>): (r: PropertyLookup)
    ensures r.InheritedMember? <==> eventId.Some? && eventId.value in ObjectPrototypeMembers
    ensures r.OwnProperty? <==> eventId.Some? && eventId.value in MockEventData
  {
    if eventId.None? || eventId.value == "" then Undefined
    else if eventId.value in MockEventData then OwnProperty(MockEventData[eventId.value])
    else if eventId.value in ObjectPrototypeMembers then InheritedMember(eventId.value)
    else Undefined
  }

  function DetailPage(event: EventDetails, showAll: bool): Page {
    Detail(event, VisibleParticipants(event.participants, showAll), OverflowCount(event.participants, showAll))
  }

  /**
   * The page as written: only a falsy lookup shows "Event Not Found"; an
   * inherited member is truthy but has no `participants`, so rendering throws.
   */
  function RenderAsWritten(eventId: Option<string>, showAll: bool): (p: Page)
    ensures p.RenderFailure? <==> eventId.Some? && eventId.value in ObjectPrototypeMembers
    ensures p.NotFound? <==>
      (eventId.None? || (eventId.value !in MockEventData && eventId.value !in ObjectPrototypeMembers))
    ensures p.Detail? ==> eventId.Some? && p == DetailPage(MockEventData[eventId.value], showAll)
  {
    match LookupAsWritten(eventId)
    case Undefined => NotFound
    case InheritedMember(_) => RenderFailure
    case OwnProperty(event) => DetailPage(event, showAll)
  }

  /** The route /event/constructor passes the not-found guard and then fails to render. */
  lemma PrototypeNameEscapesNotFound()
    ensures RenderAsWritten(Some("constructor"), false) == RenderFailure
    ensures RenderAsWritten(Some("toString"), true) == RenderFailure
  {
  }

  /** The event an id names: only the table's own keys '1' to '4' resolve. */
  function LookupEvent(eventId: Option<string>): (r: Option<EventDetails>)
    ensures r.Some? <==> eventId in {Some("1"), Some("2"), Some("3"), Some("4")}
    ensures r.Some? ==> r.value.id == eventId.value
  {
    if eventId.Some? && eventId.value in MockEventData then Some(MockEventData[eventId.value]) else None
  }

  /** The page for an id: "Event Not Found" exactly when the id names no event; never a failure. */
  function Render(eventId: Option<string>, showAll: bool): (p: Page)
    ensures p.NotFound? <==> LookupEvent(eventId).None?
    ensures p.Detail? ==> p == DetailPage(LookupEvent(eventId).value, showAll)
    ensures !p.RenderFailure?
  {
    match LookupEvent(eventId)
    case None => NotFound
    case Some(event) => DetailPage(event, showAll)
  }

  /** The corrected lookup changes the page only for names inherited from `Object.prototype`. */
  lemma RenderAgreesOffPrototype(eventId: Option<string>, showAll: bool)
    requires eventId.None? || eventId.value !in ObjectPrototypeMembers
    ensures Render(eventId, showAll) == RenderAsWritten(eventId, showAll)
  {
  }

  // ---------------------------------------------------------------------
  // The page's state

  class EventDetailPage {
    const eventId: Option<string>
    const storage: LocalStorage
    /** The Pullup button on the page; it is given the event id and nothing else. */
    const pullup: Pullup.PullupButton
    var joinedEvents: seq<string>
    var showAllParticipants: bool

    constructor (eventId: Option<string>, storage: LocalStorage)
      ensures this.eventId == eventId && this.storage == storage
      ensures joinedEvents == [] && !showAllParticipants
      ensures fresh(pullup) && pullup.State() == Pullup.Idle
    {
      this.eventId := eventId;
      this.storage := storage;
      var id := if eventId.Some? then eventId.value else "";
      pullup := new Pullup.PullupButton(id);
      joinedEvents := [];
      showAllParticipants := false;
    }

    /** The mount effect: read `joinedEvents`, defaulting to the empty list. */
    method LoadJoinedEvents()
      modifies this`joinedEvents
      ensures joinedEvents == StoredJoinedEvents(storage.entries)
      ensures JoinedEventsKey !in storage.entries ==> joinedEvents == []
    {
      joinedEvents := StoredJoinedEvents(storage.entries);
    }

    /**
     * `handleJoinEvent`: append a new id and store the new list; an id
     * already joined changes neither the state nor the storage.
     */
    method HandleJoinEvent(id: string)
      modifies this`joinedEvents, storage
      ensures joinedEvents == JoinList(old(joinedEvents), id)
      ensures id in old(joinedEvents) ==> storage.entries == old(storage.entries)
      ensures id !in old(joinedEvents) ==> storage.entries == old(storage.entries)[JoinedEventsKey := IdList(joinedEvents)]
      ensures StoredJoinedEvents(storage.entries) == joinedEvents || id in old(joinedEvents)
    {
      if id !in joinedEvents {
        var updated := joinedEvents + [id];
        joinedEvents := updated;
        storage.SetItem(JoinedEventsKey, IdList(updated));
      }
    }

    /** The "+k" button's click. */
    method ShowAllParticipants()
      modifies this`showAllParticipants
      ensures showAllParticipants
    {
      showAllParticipants := true;
    }

    /**
     * A click on the Pullup button. The button takes no join callback, so the
     * page's `handleJoinEvent` is never reached: the joined list and the
     * storage stay as they were.
     */
    method PressPullup()
      modifies pullup
      ensures pullup.State() == Pullup.Step(old(pullup.State()), Pullup.Input.Click)
      ensures joinedEvents == old(joinedEvents) && storage.entries == old(storage.entries)
    {
      pullup.Click();
    }

    /** The scheduled completion of a pullup; it too leaves the joined list and the storage alone. */
    method PullupTimerFires()
      modifies pullup
      ensures pullup.State() == Pullup.Step(old(pullup.State()), Pullup.Input.TimerFires)
      ensures joinedEvents == old(joinedEvents) && storage.entries == old(storage.entries)
    {
      pullup.FireTimer();
    }

    /** The page as shown, through the corrected lookup; it agrees with the program off `Object.prototype` names. */
    function View(): (p: Page)
      reads this
      ensures p.NotFound? <==> LookupEvent(eventId).None?
      ensures p.Detail? ==>
        (p.visibleParticipants == VisibleParticipants(p.event.participants, showAllParticipants) &&
         p.overflow == OverflowCount(p.event.participants, showAllParticipants))
      ensures !p.RenderFailure?
      ensures eventId.None? || eventId.value !in ObjectPrototypeMembers ==> p == RenderAsWritten(eventId, showAllParticipants)
    {
      Render(eventId, showAllParticipants)
    }
  }
}
