/**
 * The in-memory store behind the pivot demos: three dictionaries of events, people and places,
 * each keyed by entity id, and the traversals that follow the references an event holds to the
 * people who took part and the places where it happened.
 */
module InMemory {
  import opened Wrappers
  import opened Index
  import opened Events
  import opened People
  import opened Geography

  function EventId(e: Event): string { e.id }
  function PersonId(p: Person): string { p.id }
  function GeographyId(g: Geography): string { g.id }

  /** Any entity a pivot may return. */
  datatype Entity =
    | EventEntity(event: Event)
    | PersonEntity(person: Person)
    | GeographyEntity(geography: Geography)

  function EventEntities(es: seq<Event>): (r: seq<Entity>)
    ensures |r| == |es| && forall i :: 0 <= i < |es| ==> r[i] == EventEntity(es[i])
  {
    seq(|es|, i requires 0 <= i < |es| => EventEntity(es[i]))
  }

  function PersonEntities(ps: seq<Person>): (r: seq<Entity>)
    ensures |r| == |ps| && forall i :: 0 <= i < |ps| ==> r[i] == PersonEntity(ps[i])
  {
    seq(|ps|, i requires 0 <= i < |ps| => PersonEntity(ps[i]))
  }

  function GeographyEntities(gs: seq<Geography>): (r: seq<Entity>)
    ensures |r| == |gs| && forall i :: 0 <= i < |gs| ==> r[i] == GeographyEntity(gs[i])
  {
    seq(|gs|, i requires 0 <= i < |gs| => GeographyEntity(gs[i]))
  }

  /** What an event is searched by: a person taking part, or a place where it happened. */
  datatype Criterion = ByPerson(personId: string) | AtPlace(geographyId: string)

  predicate Selects(c: Criterion, e: Event) {
    match c
    case ByPerson(pid) => pid in PersonIdsOf(e)
    case AtPlace(gid) => gid in GeographyIdsOf(e)
  }

  /** The events of `evs` that `c` selects, in their order. */
  function EventsMatching(evs: seq<Event>, c: Criterion): (r: seq<Event>)
    ensures |r| <= |evs|
    ensures forall e :: e in r <==> e in evs && Selects(c, e)
  {
    if evs == [] then []
    else
      var init, last := evs[..|evs| - 1], evs[|evs| - 1];
      assert evs == init + [last];
      EventsMatching(init, c) + (if Selects(c, last) then [last] else [])
  }

  /** One more event: selected or not, it comes after those already selected. */
  lemma MatchingSnoc(evs: seq<Event>, i: nat, c: Criterion)
    requires i < |evs|
    ensures EventsMatching(evs[..i + 1], c) ==
      EventsMatching(evs[..i], c) + (if Selects(c, evs[i]) then [evs[i]] else [])
  {
    assert evs[..i + 1][..i] == evs[..i];
  }

  /** Selecting keeps the events' relative order, so events with distinct ids stay distinct. */
  lemma {:induction false} EventsMatchingDistinct(evs: seq<Event>, c: Criterion)
    requires forall i, j :: 0 <= i < j < |evs| ==> evs[i].id != evs[j].id
    ensures forall i, j :: 0 <= i < j < |EventsMatching(evs, c)| ==>
      EventsMatching(evs, c)[i].id != EventsMatching(evs, c)[j].id
  {
    if evs != [] {
      var init, last := evs[..|evs| - 1], evs[|evs| - 1];
      EventsMatchingDistinct(init, c);
      var r := EventsMatching(init, c);
      forall e | e in r ensures e.id != last.id {
        var k :| 0 <= k < |init| && init[k] == e;
        assert evs[k] == e;
      }
    }
  }

  /** The shape of the three dictionaries the store keeps, each keyed by entity id. */
  ghost predicate StoreShape(events: map<string, Event>, eventOrder: seq<string>,
                             people: map<string, Person>, personOrder: seq<string>,
                             geographies: map<string, Geography>, geographyOrder: seq<string>) {
    && IsIndex(events, eventOrder, EventId)
    && IsIndex(people, personOrder, PersonId)
    && IsIndex(geographies, geographyOrder, GeographyId)
  }

  class InMemoryRepository {
    var events: map<string, Event>
    var eventOrder: seq<string>
    var people: map<string, Person>
    var personOrder: seq<string>
    var geographies: map<string, Geography>
    var geographyOrder: seq<string>

    /** Each dictionary is keyed by entity id, and its key order lists its keys once each. */
    ghost predicate Valid()
      reads this
    {
      StoreShape(events, eventOrder, people, personOrder, geographies, geographyOrder)
    }

    /** Keys each list by entity id; of several entities with one id the last is kept. */
    constructor (events: seq<Event>, people: seq<Person>, geographies: seq<Geography>)
      ensures Valid()
      ensures this.events == IndexOf(events, EventId) && eventOrder == KeyOrder(events, EventId)
      ensures this.people == IndexOf(people, PersonId) && personOrder == KeyOrder(people, PersonId)
      ensures this.geographies == IndexOf(geographies, GeographyId) &&
              geographyOrder == KeyOrder(geographies, GeographyId)
    {
      var em, eo := BuildIndex(events, EventId);
      var pm, po := BuildIndex(people, PersonId);
      var gm, go := BuildIndex(geographies, GeographyId);
      assert StoreShape(em, eo, pm, po, gm, go);
      this.events, eventOrder, this.people, personOrder, this.geographies, geographyOrder :=
        em, eo, pm, po, gm, go;
    }

    /** The event stored under `eventId`, if any. */
    function GetEventById(eventId: string): (r: Option<Event>)
      reads this
      ensures r.Some? <==> eventId in events
      ensures r.Some? ==> r.value == events[eventId]
      ensures Valid() && r.Some? ==> r.value.id == eventId
    {
      if eventId in events then Some(events[eventId]) else None
    }

    function GetPersonById(personId: string): (r: Option<Person>)
      reads this
      ensures r.Some? <==> personId in people
      ensures r.Some? ==> r.value == people[personId]
      ensures Valid() && r.Some? ==> r.value.id == personId
    {
      if personId in people then Some(people[personId]) else None
    }

    function GetGeoById(geoId: string): (r: Option<Geography>)
      reads this
      ensures r.Some? <==> geoId in geographies
      ensures r.Some? ==> r.value == geographies[geoId]
      ensures Valid() && r.Some? ==> r.value.id == geoId
    {
      if geoId in geographies then Some(geographies[geoId]) else None
    }

    /** Every stored event once, in first-insertion order. */
    function ListEvents(): (r: seq<Event>)
      reads this
      requires Valid()
      ensures |r| == |eventOrder| && forall i :: 0 <= i < |r| ==> r[i] == events[eventOrder[i]]
      ensures forall i, j :: 0 <= i < j < |r| ==> r[i].id != r[j].id
    {
      ValuesOfIndex(events, eventOrder, EventId);
      ValuesInOrder(eventOrder, events)
    }

    /** `ListEvents` holds every stored value and nothing else. */
    lemma ListEventsComplete()
      requires Valid()
      ensures forall id :: id in events ==> events[id] in ListEvents()
      ensures forall e :: e in ListEvents() ==> e.id in events && events[e.id] == e
    {
      ValuesOfIndex(events, eventOrder, EventId);
    }

    function ListPeople(): (r: seq<Person>)
      reads this
      requires Valid()
      ensures |r| == |personOrder| && forall i :: 0 <= i < |r| ==> r[i] == people[personOrder[i]]
      ensures forall i, j :: 0 <= i < j < |r| ==> r[i].id != r[j].id
    {
      ValuesOfIndex(people, personOrder, PersonId);
      ValuesInOrder(personOrder, people)
    }

    /** `ListPeople` holds every stored value and nothing else. */
    lemma ListPeopleComplete()
      requires Valid()
      ensures forall id :: id in people ==> people[id] in ListPeople()
      ensures forall p :: p in ListPeople() ==> p.id in people && people[p.id] == p
    {
      ValuesOfIndex(people, personOrder, PersonId);
    }

    function ListGeographies(): (r: seq<Geography>)
      reads this
      requires Valid()
      ensures |r| == |geographyOrder| && forall i :: 0 <= i < |r| ==> r[i] == geographies[geographyOrder[i]]
      ensures forall i, j :: 0 <= i < j < |r| ==> r[i].id != r[j].id
    {
      ValuesOfIndex(geographies, geographyOrder, GeographyId);
      ValuesInOrder(geographyOrder, geographies)
    }

    /** `ListGeographies` holds every stored value and nothing else. */
    lemma ListGeographiesComplete()
      requires Valid()
      ensures forall id :: id in geographies ==> geographies[id] in ListGeographies()
      ensures forall g :: g in ListGeographies() ==> g.id in geographies && geographies[g.id] == g
    {
      ValuesOfIndex(geographies, geographyOrder, GeographyId);
    }

    /**
     * The stored events, in order, that name `personId` among the people taking part; the
     * inner scan stops at the first matching reference, so an event appears once however
     * often it names the person.
     */
    method GetEventsByPerson(personId: string) returns (result: seq<Event>)
      requires Valid()
      ensures result == EventsMatching(ListEvents(), ByPerson(personId))
      ensures forall e :: e in result <==> e in ListEvents() && personId in PersonIdsOf(e)
      ensures forall i, j :: 0 <= i < j < |result| ==> result[i].id != result[j].id
    {
      var all := ListEvents();
      result := [];
      for i := 0 to |all|
        invariant result == EventsMatching(all[..i], ByPerson(personId))
      {
        var e := all[i];
        ghost var before := result;
        var rs := e.relatedPeople;
        var j := 0;
        while j < |rs|
          invariant 0 <= j <= |rs|
          invariant result == before
          invariant forall k :: 0 <= k < j ==> rs[k].personId != personId
        {
          if rs[j].personId == personId {
            result := result + [e];
            break;
          }
          j := j + 1;
        }
        assert result == before + (if Selects(ByPerson(personId), e) then [e] else []) by {
          if j < |rs| {
            assert PersonIdsOf(e)[j] == personId;
          } else {
            assert forall k :: 0 <= k < |rs| ==> PersonIdsOf(e)[k] != personId;
          }
        }
        MatchingSnoc(all, i, ByPerson(personId));
      }
      assert all[..|all|] == all;
      EventsMatchingDistinct(all, ByPerson(personId));
    }

    /** The stored events, in order, that name `geoId` among their places, each once. */
    method GetEventsByGeo(geoId: string) returns (result: seq<Event>)
      requires Valid()
      ensures result == EventsMatching(ListEvents(), AtPlace(geoId))
      ensures forall e :: e in result <==> e in ListEvents() && geoId in GeographyIdsOf(e)
      ensures forall i, j :: 0 <= i < j < |result| ==> result[i].id != result[j].id
    {
      var all := ListEvents();
      result := [];
      for i := 0 to |all|
        invariant result == EventsMatching(all[..i], AtPlace(geoId))
      {
        var e := all[i];
        ghost var before := result;
        var ls := e.locations;
        var j := 0;
        while j < |ls|
          invariant 0 <= j <= |ls|
          invariant result == before
          invariant forall k :: 0 <= k < j ==> ls[k].geographyId != geoId
        {
          if ls[j].geographyId == geoId {
            result := result + [e];
            break;
          }
          j := j + 1;
        }
        assert result == before + (if Selects(AtPlace(geoId), e) then [e] else []) by {
          if j < |ls| {
            assert GeographyIdsOf(e)[j] == geoId;
          } else {
            assert forall k :: 0 <= k < |ls| ==> GeographyIdsOf(e)[k] != geoId;
          }
        }
        MatchingSnoc(all, i, AtPlace(geoId));
      }
      assert all[..|all|] == all;
      EventsMatchingDistinct(all, AtPlace(geoId));
    }

    /**
     * The stored people an event names, in the event's order: nothing for an unknown event;
     * a reference to an unknown person is skipped, a repeated one repeats the person.
     */
    method GetPeopleByEvent(eventId: string) returns (result: seq<Person>)
      requires Valid()
      ensures eventId !in events ==> result == []
      ensures eventId in events ==> result == Resolve(PersonIdsOf(events[eventId]), people)
      ensures forall p :: p in result ==> p.id in people && people[p.id] == p
    {
      var e := GetEventById(eventId);
      if e.None? {
        return [];
      }
      var ids := PersonIdsOf(e.value);
      var rs := e.value.relatedPeople;
      result := [];
      for i := 0 to |rs|
        invariant result == Resolve(ids[..i], people)
      {
        assert ids[..i + 1][..i] == ids[..i];
        var p := GetPersonById(rs[i].personId);
        if p.Some? {
          result := result + [p.value];
        }
      }
      assert ids[..|rs|] == ids;
    }

    /** The stored places an event names, in the event's order, unknown ones skipped. */
    method GetGeosByEvent(eventId: string) returns (result: seq<Geography>)
      requires Valid()
      ensures eventId !in events ==> result == []
      ensures eventId in events ==> result == Resolve(GeographyIdsOf(events[eventId]), geographies)
      ensures forall g :: g in result ==> g.id in geographies && geographies[g.id] == g
    {
      var e := GetEventById(eventId);
      if e.None? {
        return [];
      }
      var ids := GeographyIdsOf(e.value);
      var ls := e.value.locations;
      result := [];
      for i := 0 to |ls|
        invariant result == Resolve(ids[..i], geographies)
      {
        assert ids[..i + 1][..i] == ids[..i];
        var g := GetGeoById(ls[i].geographyId);
        if g.Some? {
          result := result + [g.value];
        }
      }
      assert ids[..|ls|] == ids;
    }

    /**
     * Routes a (from, to) pair of dimension names to one of the four traversals; any other
     * pair, including a dimension paired with itself or people with places, gives nothing.
     */
    method Pivot(fromDim: string, toDim: string, idValue: string) returns (result: seq<Entity>)
      requires Valid()
      ensures (fromDim, toDim) == ("people", "events") ==>
        result == EventEntities(EventsMatching(ListEvents(), ByPerson(idValue)))
      ensures (fromDim, toDim) == ("events", "people") ==>
        result == PersonEntities(if idValue in events then Resolve(PersonIdsOf(events[idValue]), people) else [])
      ensures (fromDim, toDim) == ("geographies", "events") ==>
        result == EventEntities(EventsMatching(ListEvents(), AtPlace(idValue)))
      ensures (fromDim, toDim) == ("events", "geographies") ==>
        result == GeographyEntities(if idValue in events then Resolve(GeographyIdsOf(events[idValue]), geographies) else [])
      ensures !IsPivotPair(fromDim, toDim) ==> result == []
    {
      match (fromDim, toDim) {
        case ("people", "events") =>
          var es := GetEventsByPerson(idValue);
          result := EventEntities(es);
        case ("events", "people") =>
          var ps := GetPeopleByEvent(idValue);
          result := PersonEntities(ps);
        case ("geographies", "events") =>
          var es := GetEventsByGeo(idValue);
          result := EventEntities(es);
        case ("events", "geographies") =>
          var gs := GetGeosByEvent(idValue);
          result := GeographyEntities(gs);
        case _ =>
          result := [];
      }
    }
  }

  /** The four (from, to) pairs a pivot knows. */
  predicate IsPivotPair(fromDim: string, toDim: string) {
    (fromDim, toDim) in [("people", "events"), ("events", "people"), ("geographies", "events"), ("events", "geographies")]
  }

  /** A pair of a dimension with itself is never routed. */
  lemma SameDimensionIsNotAPivot(dim: string)
    ensures !IsPivotPair(dim, dim)
  {
  }

  /** Nothing connects people and places directly. */
  lemma PeopleAndPlacesAreNotAPivot()
    ensures !IsPivotPair("people", "geographies") && !IsPivotPair("geographies", "people")
  {
  }

  // A slice of the sample dataset: two events naming Napoleon and one that does not.

  function SampleEvent(id: string, title: string, geo: string, pids: seq<string>): Event {
    Event(id, "system", "system", title, title, DateRange("1789-05-05"),
      locations := [Events.GeographicReference(geo, geo)],
      relatedPeople := seq(|pids|, i requires 0 <= i < |pids| => Events.PersonReference(pids[i], pids[i])))
  }

  const FrenchRevolution := SampleEvent("event_french_revolution", "French Revolution", "geo_france", ["person_napoleon"])
  const Waterloo := SampleEvent("event_waterloo", "Battle of Waterloo", "geo_waterloo", ["person_napoleon"])
  const SecondWorldWar := SampleEvent("event_wwii", "World War II", "geo_europe", ["person_churchill", "person_hitler"])

  /** Napoleon's events are the French Revolution and Waterloo, in that order. */
  lemma NapoleonEvents()
    ensures EventsMatching([FrenchRevolution, Waterloo, SecondWorldWar], ByPerson("person_napoleon"))
      == [FrenchRevolution, Waterloo]
  {
    var c := ByPerson("person_napoleon");
    assert PersonIdsOf(FrenchRevolution)[0] == "person_napoleon";
    assert PersonIdsOf(Waterloo)[0] == "person_napoleon";
    assert PersonIdsOf(SecondWorldWar) == ["person_churchill", "person_hitler"];
    var evs := [FrenchRevolution, Waterloo, SecondWorldWar];
    MatchingSnoc(evs, 0, c);
    MatchingSnoc(evs, 1, c);
    MatchingSnoc(evs, 2, c);
    assert evs[..0] == [] && evs[..3] == evs;
  }
}
