/**
 * The "My Events" drawer: the catalogue filtered by the joined ids, the
 * header count, the empty state, and the lock button.
 */
module MyEventsDrawer {
  import opened MockData

  /**
   * `mockEvents.filter(event => joinedEvents.includes(event.id))`: the
   * catalogue entries whose id was joined, in catalogue order.
   */
  function MyEvents(catalogue: seq<Event>, joined: seq<string>): (r: seq<Event>)
    ensures |r| <= |catalogue|
    ensures forall e :: e in r <==> e in catalogue && e.id in joined
    decreases |catalogue|
  {
    if catalogue == [] then []
    else if catalogue[0].id in joined then [catalogue[0]] + MyEvents(catalogue[1..], joined)
    else MyEvents(catalogue[1..], joined)
  }

  /** `a` is `b` with some entries dropped and the rest kept in order. */
  ghost predicate SubsequenceOf<T>(a: seq<T>, b: seq<T>)
    decreases |b|
  {
    if a == [] then true
    else if b == [] then false
    else (a[0] == b[0] && SubsequenceOf(a[1..], b[1..])) || SubsequenceOf(a, b[1..])
  }

  /** The drawer lists events in catalogue order, never in join order. */
  lemma {:induction false} MyEventsFollowCatalogueOrder(catalogue: seq<Event>, joined: seq<string>)
    ensures SubsequenceOf(MyEvents(catalogue, joined), catalogue)
    decreases |catalogue|
  {
    if catalogue != [] {
      MyEventsFollowCatalogueOrder(catalogue[1..], joined);
      var rest := MyEvents(catalogue[1..], joined);
      if catalogue[0].id in joined {
        assert MyEvents(catalogue, joined) == [catalogue[0]] + rest;
        assert ([catalogue[0]] + rest)[1..] == rest;
      }
    }
  }

  /** Only which ids were joined matters: their order and repetitions do not. */
  lemma {:induction false} MyEventsIgnoresJoinOrder(catalogue: seq<Event>, joined1: seq<string>, joined2: seq<string>)
    requires forall x :: x in joined1 <==> x in joined2
    ensures MyEvents(catalogue, joined1) == MyEvents(catalogue, joined2)
    decreases |catalogue|
  {
    if catalogue != [] {
      MyEventsIgnoresJoinOrder(catalogue[1..], joined1, joined2);
    }
  }

  /** A joined id that names no catalogue event leaves the drawer as it was. */
  lemma {:induction false} MyEventsIgnoresUnknownIds(catalogue: seq<Event>, joined: seq<string>, unknown: string)
    requires forall i :: 0 <= i < |catalogue| ==> catalogue[i].id != unknown
    ensures MyEvents(catalogue, joined + [unknown]) == MyEvents(catalogue, joined)
    decreases |catalogue|
  {
    if catalogue != [] {
      assert catalogue[0].id in joined + [unknown] <==> catalogue[0].id in joined;
      MyEventsIgnoresUnknownIds(catalogue[1..], joined, unknown);
    }
  }

  datatype LockIcon = Locked | Unlocked

  /** What the drawer renders for its props. */
  datatype DrawerView = DrawerView(
    headerCount: nat,
    cards: seq<Event>,
    showsEmptyState: bool,
    lockIcon: LockIcon,
    expanded: bool)

  function View(isOpen: bool, joinedEvents: seq<string>, isLocked: bool): (v: DrawerView)
    ensures v.cards == MyEvents(MockEvents, joinedEvents)
    ensures v.headerCount == |v.cards|
    ensures v.showsEmptyState <==> v.cards == []
    ensures v.lockIcon == Locked <==> isLocked
    ensures v.expanded == isOpen
  {
    var myEvents := MyEvents(MockEvents, joinedEvents);
    DrawerView(|myEvents|, myEvents, |myEvents| == 0, if isLocked then Locked else Unlocked, isOpen)
  }

  /** The parent's callbacks a click can invoke. */
  datatype Callback = OnToggle | OnToggleLock

  datatype ClickTarget = Header | LockButton

  /**
   * The callbacks one click invokes: the header toggles the drawer; the lock
   * button stops the click from reaching the header and only toggles the lock.
   */
  function CallbacksFor(target: ClickTarget): (r: seq<Callback>)
    ensures |r| == 1
    ensures OnToggleLock in r <==> target == LockButton
    ensures OnToggle in r <==> target == Header
  {
    match target
    case Header => [OnToggle]
    case LockButton => [OnToggleLock]
  }
}
