/**
 * Historical events. An event names when it started (and possibly ended), where it happened
 * and who took part; the places and people are references by id into the other stores.
 */
module Events {
  import opened Wrappers
  import opened Bounds

  /** A span of dates as free text; the precision is "year", "month", "day" or "era". */
  datatype DateRange = DateRange(
    startDate: string,
    endDate: Option<string> := None,
    precision: string := "day")

  /** A person taking part in an event, by id, with an optional role. */
  datatype PersonReference = PersonReference(
    personId: string,
    name: string,
    role: Option<string> := None)

  /** A place where an event happened, by id; its coordinates are optional and unchecked. */
  datatype GeographicReference = GeographicReference(
    geographyId: string,
    name: string,
    latitude: Option<real> := None,
    longitude: Option<real> := None)

  /** An event, with the identity and authorship fields every stored entity has. */
  datatype Event = Event(
    id: string,
    createdBy: string,
    lastModifiedBy: string,
    title: string,
    description: string,
    startDate: DateRange,
    endDate: Option<DateRange> := None,
    locations: seq<GeographicReference> := [],
    relatedPeople: seq<PersonReference> := [],
    sourceOfTruth: Option<string> := None,
    confidence: Confidence := DefaultConfidence,
    conflictNotes: Option<string> := None)

  /** The ids an event refers to, in order (repeats kept). */
  function PersonIdsOf(e: Event): (r: seq<string>)
    ensures |r| == |e.relatedPeople|
    ensures forall i :: 0 <= i < |r| ==> r[i] == e.relatedPeople[i].personId
  {
    seq(|e.relatedPeople|, i requires 0 <= i < |e.relatedPeople| => e.relatedPeople[i].personId)
  }

  function GeographyIdsOf(e: Event): (r: seq<string>)
    ensures |r| == |e.locations|
    ensures forall i :: 0 <= i < |r| ==> r[i] == e.locations[i].geographyId
  {
    seq(|e.locations|, i requires 0 <= i < |e.locations| => e.locations[i].geographyId)
  }

  /**
   * Building an event with an explicit confidence: rejected (a validation error) exactly when
   * the confidence lies outside [0, 1]; otherwise every field is as given.
   */
  function NewEvent(id: string, createdBy: string, lastModifiedBy: string, title: string,
                    description: string, startDate: DateRange, confidence: real): (r: Option<Event>)
    ensures r.Some? <==> 0.0 <= confidence <= 1.0
    ensures r.Some? ==>
      && r.value.id == id && r.value.createdBy == createdBy && r.value.lastModifiedBy == lastModifiedBy
      && r.value.title == title && r.value.description == description && r.value.startDate == startDate
      && r.value.confidence == confidence
      && r.value.endDate.None? && r.value.locations == [] && r.value.relatedPeople == []
  {
    match CheckConfidence(confidence)
    case None => None
    case Some(c) => Some(Event(id, createdBy, lastModifiedBy, title, description, startDate, confidence := c))
  }

  /** What an event and a date range get when only their required fields are given. */
  lemma EventDefaults(id: string, author: string, title: string, description: string, start: string)
    ensures DateRange(start).endDate.None? && DateRange(start).precision == "day"
    ensures Event(id, author, author, title, description, DateRange(start)).endDate.None?
    ensures Event(id, author, author, title, description, DateRange(start)).locations == []
    ensures Event(id, author, author, title, description, DateRange(start)).relatedPeople == []
    ensures Event(id, author, author, title, description, DateRange(start)).confidence == 0.5
  {
  }
}
