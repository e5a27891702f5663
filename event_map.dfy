/** The event map of `components/event-map.tsx`: the event record, the mock
    events, the filter with its secret mode, the side statistics and the
    invite-request gate. */
module EventMap {
  import opened Lists
  import opened Plans
  import opened Auth
  import opened Gates

  /** An event. The distance is kept in tenths of a kilometre (every mock
      distance has one decimal), the map position in whole percent. */
  datatype Event = Event(
    id: string,
    name: string,
    genre: string,
    eventType: string,
    x: int,
    y: int,
    attendees: int,
    isSecret: bool,
    distanceTenths: int,
    time: string,
    description: string)

  /** The filter panel. `maxDistance` comes from a range input read with
      `parseInt`, so it is a whole number of kilometres. */
  datatype Filters = Filters(genre: string, eventType: string, maxDistance: int)

  const AnyValue: string := "Todos"

  const DefaultFilters: Filters := Filters(AnyValue, AnyValue, 10)

  const Event1 := Event("1", "Experiência Techno Noturna", "Techno", "Rave", 25, 30, 150, false, 25, "23:00",
                        "Experiência techno imersiva")
  const Event2 := Event("2", "Sessão Bass Exclusiva", "Drum & Bass", "Club", 60, 45, 80, true, 52, "22:30",
                        "Sessão exclusiva de bass")
  const Event3 := Event("3", "Cyber Pulse", "Psytrance", "Festival", 40, 70, 300, false, 81, "20:00",
                        "Psychedelic journey")
  const Event4 := Event("4", "Dark Matter", "Dark Techno", "Warehouse", 75, 25, 120, true, 37, "01:00",
                        "Industrial warehouse party")
  const Event5 := Event("5", "Acid Dreams", "Acid House", "Loft", 15, 60, 60, true, 18, "21:00",
                        "Intimate acid house session")

  const MockEvents: seq<Event> := [Event1, Event2, Event3, Event4, Event5]

  // ---------------------------------------------------------------- filter

  /** The filter callback, with its early returns in source order. */
  predicate Shown(event: Event, secretMode: bool, filters: Filters)
  {
    if !secretMode && event.isSecret then false
    else if filters.genre != AnyValue && event.genre != filters.genre then false
    else if filters.eventType != AnyValue && event.eventType != filters.eventType then false
    else if event.distanceTenths > 10 * filters.maxDistance then false
    else true
  }

  /** The chain of early returns is the conjunction of four independent tests. */
  lemma ShownIff(event: Event, secretMode: bool, filters: Filters)
    ensures Shown(event, secretMode, filters) <==>
      && (secretMode || !event.isSecret)
      && (filters.genre == AnyValue || event.genre == filters.genre)
      && (filters.eventType == AnyValue || event.eventType == filters.eventType)
      && event.distanceTenths <= 10 * filters.maxDistance
  {
  }

  function ShownTest(secretMode: bool, filters: Filters): Event -> bool
  {
    (e: Event) => Shown(e, secretMode, filters)
  }

  /** `filteredEvents`: the events that pass, in store order. */
  function FilteredEvents(events: seq<Event>, secretMode: bool, filters: Filters): (r: seq<Event>)
    ensures forall e :: e in r <==> e in events && Shown(e, secretMode, filters)
    ensures IsSubsequence(r, events)
  {
    FilterIsSubsequence(events, ShownTest(secretMode, filters));
    Filter(events, ShownTest(secretMode, filters))
  }

  /** Without secret mode no secret event is listed. */
  lemma NoSecretWithoutSecretMode(events: seq<Event>, filters: Filters)
    ensures forall e :: e in FilteredEvents(events, false, filters) ==> !e.isSecret
  {
  }

  /** Turning secret mode on removes no event and keeps the order of those listed before. */
  lemma SecretModeWidens(events: seq<Event>, filters: Filters)
    ensures IsSubsequence(FilteredEvents(events, false, filters), FilteredEvents(events, true, filters))
  {
    FilterWeakerIsSupersequence(events, ShownTest(false, filters), ShownTest(true, filters));
  }

  /** Raising the distance limit removes no event and keeps the order of those listed before. */
  lemma LargerDistanceWidens(events: seq<Event>, secretMode: bool, filters: Filters, maxDistance: int)
    requires filters.maxDistance <= maxDistance
    ensures IsSubsequence(FilteredEvents(events, secretMode, filters),
                          FilteredEvents(events, secretMode, filters.(maxDistance := maxDistance)))
  {
    FilterWeakerIsSupersequence(events, ShownTest(secretMode, filters),
                                ShownTest(secretMode, filters.(maxDistance := maxDistance)));
  }

  /** The first screen: default filters, secret mode off, over the mock events,
      lists exactly the two public events within 10 km, in order. */
  lemma DefaultShown()
    ensures Shown(Event1, false, DefaultFilters) && Shown(Event3, false, DefaultFilters)
    ensures !Shown(Event2, false, DefaultFilters) && !Shown(Event4, false, DefaultFilters)
    ensures !Shown(Event5, false, DefaultFilters)
  {
  }

  lemma FilterFiveKeepsFirstAndThird(a: Event, b: Event, c: Event, d: Event, e: Event, p: Event -> bool)
    requires p(a) && !p(b) && p(c) && !p(d) && !p(e)
    ensures Filter([a, b, c, d, e], p) == [a, c]
  {
    assert [a, b, c, d, e][1..] == [b, c, d, e];
    assert [b, c, d, e][1..] == [c, d, e];
    assert [c, d, e][1..] == [d, e];
    assert [d, e][1..] == [e];
    assert [e][1..] == [];
    assert Filter([e], p) == [];
    assert Filter([d, e], p) == [];
    assert Filter([c, d, e], p) == [c];
    assert Filter([b, c, d, e], p) == [c];
  }

  lemma DefaultView()
    ensures FilteredEvents(MockEvents, false, DefaultFilters) == [Event1, Event3]
  {
    DefaultShown();
    FilterFiveKeepsFirstAndThird(Event1, Event2, Event3, Event4, Event5, ShownTest(false, DefaultFilters));
  }

  // ------------------------------------------------------------ statistics

  function IsSecretTest(): Event -> bool
  {
    (e: Event) => e.isSecret
  }

  function IsPublicTest(): Event -> bool
  {
    (e: Event) => !e.isSecret
  }

  /** "Eventos Públicos": the listed events that are not secret. */
  function PublicCount(filtered: seq<Event>): (n: nat)
    ensures n <= |filtered|
  {
    |Filter(filtered, IsPublicTest())|
  }

  /** "Eventos Secretos": the listed events that are secret. */
  function SecretCount(filtered: seq<Event>): (n: nat)
    ensures n <= |filtered|
  {
    |Filter(filtered, IsSecretTest())|
  }

  /** The public and secret counts add up to the number of listed events. */
  lemma CountsAddUp(filtered: seq<Event>)
    ensures PublicCount(filtered) + SecretCount(filtered) == |filtered|
  {
    FilterComplementLength(filtered, IsPublicTest(), IsSecretTest());
  }

  /** Without secret mode the secret count is zero and the public count is the whole list. */
  lemma CountsWithoutSecretMode(events: seq<Event>, filters: Filters)
    ensures var r := FilteredEvents(events, false, filters);
            SecretCount(r) == 0 && PublicCount(r) == |r|
  {
    var r := FilteredEvents(events, false, filters);
    assert forall i :: 0 <= i < |r| ==> r[i] in r;
    FilterAll(r, IsPublicTest());
    CountsAddUp(r);
  }

  /** "Total de Pessoas": `reduce((sum, e) => sum + e.attendees, 0)`. */
  function TotalAttendees(filtered: seq<Event>): int
  {
    if filtered == [] then 0 else filtered[0].attendees + TotalAttendees(filtered[1..])
  }

  /** The total splits into the public events' total and the secret events' total. */
  lemma {:induction false} TotalSplits(filtered: seq<Event>)
    ensures TotalAttendees(filtered) ==
            TotalAttendees(Filter(filtered, IsPublicTest())) + TotalAttendees(Filter(filtered, IsSecretTest()))
  {
    if filtered != [] {
      TotalSplits(filtered[1..]);
      var pub := Filter(filtered[1..], IsPublicTest());
      var sec := Filter(filtered[1..], IsSecretTest());
      if filtered[0].isSecret {
        assert Filter(filtered, IsSecretTest()) == [filtered[0]] + sec;
        assert ([filtered[0]] + sec)[1..] == sec;
      } else {
        assert Filter(filtered, IsPublicTest()) == [filtered[0]] + pub;
        assert ([filtered[0]] + pub)[1..] == pub;
      }
    }
  }

  /** With non-negative attendance, an order-keeping sub-list never has a larger total. */
  lemma {:induction false} TotalMonotone(small: seq<Event>, large: seq<Event>)
    requires IsSubsequence(small, large)
    requires forall i :: 0 <= i < |large| ==> large[i].attendees >= 0
    ensures TotalAttendees(small) <= TotalAttendees(large)
    decreases |large|
  {
    if large != [] {
      if small != [] && small[0] == large[0] {
        assert IsSubsequence(small[1..], large[1..]);
        TotalMonotone(small[1..], large[1..]);
      } else {
        assert IsSubsequence(small, large[1..]);
        TotalMonotone(small, large[1..]);
      }
    }
  }

  /** With non-negative attendance, turning secret mode on never lowers the attendee total. */
  lemma SecretModeRaisesTotal(events: seq<Event>, filters: Filters)
    requires forall i :: 0 <= i < |events| ==> events[i].attendees >= 0
    ensures TotalAttendees(FilteredEvents(events, false, filters)) <= TotalAttendees(FilteredEvents(events, true, filters))
  {
    var large := FilteredEvents(events, true, filters);
    forall i | 0 <= i < |large| ensures large[i].attendees >= 0 {
      assert large[i] in events;
    }
    SecretModeWidens(events, filters);
    TotalMonotone(FilteredEvents(events, false, filters), large);
  }

  // ----------------------------------------------------------- component

  const InviteUpgradeReason: string := "aceitar convites para eventos secretos"

  /** The component state that the handlers update. */
  class EventMapView {
    var events: seq<Event>
    var secretMode: bool
    var filters: Filters
    var showUpgradeModal: bool
    var upgradeReason: string
    var showInviteSystem: bool

    constructor()
      ensures events == MockEvents && !secretMode && filters == DefaultFilters
      ensures !showUpgradeModal && upgradeReason == "" && !showInviteSystem
    {
      events := MockEvents;
      secretMode := false;
      filters := DefaultFilters;
      showUpgradeModal := false;
      upgradeReason := "";
      showInviteSystem := false;
    }

    function Listed(): seq<Event>
      reads this
    {
      FilteredEvents(events, secretMode, filters)
    }

    /** The secret-mode button. */
    method ToggleSecretMode()
      modifies this`secretMode
      ensures secretMode == !old(secretMode)
    {
      secretMode := !secretMode;
    }

    method SetGenre(genre: string)
      modifies this`filters
      ensures filters == old(filters).(genre := genre)
    {
      filters := filters.(genre := genre);
    }

    method SetType(eventType: string)
      modifies this`filters
      ensures filters == old(filters).(eventType := eventType)
    {
      filters := filters.(eventType := eventType);
    }

    method SetMaxDistance(maxDistance: int)
      modifies this`filters
      ensures filters == old(filters).(maxDistance := maxDistance)
    {
      filters := filters.(maxDistance := maxDistance);
    }

    /** `handleInviteRequest`: no user or the free plan opens the invite
        system; a plan without `canAcceptInvites` opens the upgrade prompt;
        otherwise only a notice is shown, which changes no state. */
    method HandleInviteRequest(user: Option<User>) returns (gate: InviteGate)
      modifies this`showInviteSystem, this`showUpgradeModal, this`upgradeReason
      ensures gate == InviteGateFor(user)
      ensures gate == OpenInviteSystem ==>
                showInviteSystem && showUpgradeModal == old(showUpgradeModal) && upgradeReason == old(upgradeReason)
      ensures gate == AskUpgrade ==>
                showInviteSystem == old(showInviteSystem) && showUpgradeModal && upgradeReason == InviteUpgradeReason
      ensures gate == Proceed ==>
                showInviteSystem == old(showInviteSystem) && showUpgradeModal == old(showUpgradeModal) &&
                upgradeReason == old(upgradeReason)
    {
      if user.None? || user.value.plan == "free" {
        showInviteSystem := true;
        return OpenInviteSystem;
      }
      if !CanUserPerformAction(user.value.plan, CanAcceptInvites) {
        upgradeReason := InviteUpgradeReason;
        showUpgradeModal := true;
        return AskUpgrade;
      }
      return Proceed;
    }
  }
}
