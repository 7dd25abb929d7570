/**
 * The table of Wikidata date properties: which property ids mark when something begins and
 * which mark when it ends. Lookups treat every id in a role as interchangeable.
 */
module PropertySynonyms {
  import opened Wrappers

  datatype PropertySynonym = PropertySynonym(propertyId: string, description: string, url: string)

  /** Where Wikidata documents a property. */
  const PropertyUrlPrefix := "https://www.wikidata.org/wiki/Property:"

  // The start-date properties: when something begins.
  const Inception := PropertySynonym("P571", "Inception - when an entity came into existence", "https://www.wikidata.org/wiki/Property:P571")
  const OfficialOpening := PropertySynonym("P1619", "Date of official opening - when something was officially opened", "https://www.wikidata.org/wiki/Property:P1619")
  const DateOfBirth := PropertySynonym("P569", "Date of birth - when a person was born", "https://www.wikidata.org/wiki/Property:P569")
  const StartTime := PropertySynonym("P580", "Start time - when an event or period begins", "https://www.wikidata.org/wiki/Property:P580")
  const PointInTime := PropertySynonym("P585", "Point in time - a specific moment in time", "https://www.wikidata.org/wiki/Property:P585")
  const EarliestDate := PropertySynonym("P1319", "Earliest date - the earliest possible date", "https://www.wikidata.org/wiki/Property:P1319")
  const WorkPeriodStart := PropertySynonym("P2031", "Work period (start) - when a work period began", "https://www.wikidata.org/wiki/Property:P2031")
  const EarliestWrittenRecord := PropertySynonym("P1249", "Time of earliest written record - earliest documented date", "https://www.wikidata.org/wiki/Property:P1249")

  /** The start-date properties, in table order. */
  const StartDateProperties: seq<PropertySynonym> := [
    Inception, OfficialOpening, DateOfBirth, StartTime, PointInTime, EarliestDate, WorkPeriodStart, EarliestWrittenRecord
  ]

  // The end-date properties: when something ends.
  const DateOfDeath := PropertySynonym("P570", "Date of death - when a person died", "https://www.wikidata.org/wiki/Property:P570")
  const EndTime := PropertySynonym("P582", "End time - when an event or period ends", "https://www.wikidata.org/wiki/Property:P582")
  const Dissolved := PropertySynonym("P576", "Dissolved, abolished or demolished - when something was dissolved", "https://www.wikidata.org/wiki/Property:P576")
  const Terminated := PropertySynonym("P2669", "Terminated - when something was terminated", "https://www.wikidata.org/wiki/Property:P2669")
  const LatestDate := PropertySynonym("P1326", "Latest date - the latest possible date", "https://www.wikidata.org/wiki/Property:P1326")
  const WorkPeriodEnd := PropertySynonym("P2032", "Work period (end) - when a work period ended", "https://www.wikidata.org/wiki/Property:P2032")

  /** The end-date properties, in table order. */
  const EndDateProperties: seq<PropertySynonym> := [
    DateOfDeath, EndTime, Dissolved, Terminated, LatestDate, WorkPeriodEnd
  ]

  /** The ids in a table. */
  function IdsOf(table: seq<PropertySynonym>): set<string> {
    set s | s in table :: s.propertyId
  }

  /** No id appears twice in the table. */
  predicate DistinctIds(table: seq<PropertySynonym>) {
    forall i, j :: 0 <= i < j < |table| ==> table[i].propertyId != table[j].propertyId
  }

  const StartDatePropertyIds: set<string> := IdsOf(StartDateProperties)
  const EndDatePropertyIds: set<string> := IdsOf(EndDateProperties)
  const AllDatePropertyIds: set<string> := StartDatePropertyIds + EndDatePropertyIds

  /** The ids of a table, in table order. */
  function IdList(table: seq<PropertySynonym>): (r: seq<string>)
    ensures |r| == |table|
    ensures forall i :: 0 <= i < |table| ==> r[i] == table[i].propertyId
    ensures (set p | p in r) == IdsOf(table)
  {
    assert forall s :: s in table ==> exists i :: 0 <= i < |table| && table[i] == s;
    seq(|table|, i requires 0 <= i < |table| => table[i].propertyId)
  }

  /**
   * The start-date ids as a list: exactly the start-date set, each id once. The order of a
   * list made from a set is not specified; this model lists them in table order.
   */
  function GetStartDateProperties(): (r: seq<string>)
    ensures (set p | p in r) == StartDatePropertyIds
    ensures forall i, j :: 0 <= i < j < |r| ==> r[i] != r[j]
  {
    StartTableDistinct();
    IdList(StartDateProperties)
  }

  /** The end-date ids as a list: exactly the end-date set, each id once. */
  function GetEndDateProperties(): (r: seq<string>)
    ensures (set p | p in r) == EndDatePropertyIds
    ensures forall i, j :: 0 <= i < j < |r| ==> r[i] != r[j]
  {
    EndTableDistinct();
    IdList(EndDateProperties)
  }

  predicate IsStartDateProperty(p: string) {
    p in StartDatePropertyIds
  }

  predicate IsEndDateProperty(p: string) {
    p in EndDatePropertyIds
  }

  predicate IsDateProperty(p: string) {
    p in AllDatePropertyIds
  }

  /** The role reported by `GetPropertyInfo`. */
  datatype PropertyKind = StartDate | EndDate | Unknown

  function KindName(k: PropertyKind): string {
    match k
    case StartDate => "start_date"
    case EndDate => "end_date"
    case Unknown => "unknown"
  }

  datatype PropertyInfo = PropertyInfo(propertyId: string, description: string, url: string, kind: PropertyKind)

  /** The first table entry for `id`, scanning in order. */
  function FindSynonym(table: seq<PropertySynonym>, id: string): (r: Option<PropertySynonym>)
    ensures r.None? <==> id !in IdsOf(table)
    ensures r.Some? ==> r.value in table && r.value.propertyId == id
  {
    if table == [] then None
    else if table[0].propertyId == id then Some(table[0])
    else FindSynonym(table[1..], id)
  }

  /**
   * What is known about a property id: its table entry and role, start-date entries first;
   * for an id in neither table, "Unknown property" and the Wikidata page of the id.
   */
  function GetPropertyInfo(id: string): (r: PropertyInfo)
    ensures r.propertyId == id
    ensures r.kind == StartDate <==> IsStartDateProperty(id)
    ensures r.kind == EndDate <==> !IsStartDateProperty(id) && IsEndDateProperty(id)
    ensures r.kind == Unknown <==> !IsDateProperty(id)
    ensures r.url == PropertyUrlPrefix + id
    ensures r.kind == Unknown ==> r.description == "Unknown property"
    ensures r.kind == StartDate ==> PropertySynonym(id, r.description, r.url) in StartDateProperties
    ensures r.kind == EndDate ==> PropertySynonym(id, r.description, r.url) in EndDateProperties
  {
    TableUrlsArePropertyPages();
    match FindSynonym(StartDateProperties, id)
    case Some(s) => PropertyInfo(s.propertyId, s.description, s.url, StartDate)
    case None =>
      match FindSynonym(EndDateProperties, id)
      case Some(s) => PropertyInfo(s.propertyId, s.description, s.url, EndDate)
      case None => PropertyInfo(id, "Unknown property", PropertyUrlPrefix + id, Unknown)
  }

  lemma StartTableDistinct()
    ensures DistinctIds(StartDateProperties)
  {
  }

  lemma EndTableDistinct()
    ensures DistinctIds(EndDateProperties)
  {
  }

  /** A table without repeated ids has as many ids as entries. */
  lemma {:induction false} DistinctIdsCount(table: seq<PropertySynonym>)
    requires DistinctIds(table)
    ensures |IdsOf(table)| == |table|
  {
    if table != [] {
      var head, rest := table[0].propertyId, table[1..];
      assert DistinctIds(rest) by {
        forall i, j | 0 <= i < j < |rest| ensures rest[i].propertyId != rest[j].propertyId {
          assert rest[i] == table[i + 1] && rest[j] == table[j + 1];
        }
      }
      DistinctIdsCount(rest);
      assert head !in IdsOf(rest) by {
        forall k | 0 <= k < |rest| ensures rest[k].propertyId != head {
          assert rest[k] == table[k + 1];
        }
      }
      assert IdsOf(table) == {head} + IdsOf(rest) by {
        assert table == [table[0]] + rest;
      }
    }
  }

  /** The start-date ids are exactly these eight. */
  lemma StartDateIdsContents()
    ensures forall p :: p in StartDatePropertyIds <==> p in ["P571", "P1619", "P569", "P580", "P585", "P1319", "P2031", "P1249"]
  {
    var t := StartDateProperties;
    assert t[0] in t && t[1] in t && t[2] in t && t[3] in t && t[4] in t && t[5] in t && t[6] in t && t[7] in t;
  }

  lemma StartDateIdsCount()
    ensures |StartDatePropertyIds| == 8
  {
    StartTableDistinct();
    DistinctIdsCount(StartDateProperties);
  }


  /** The end-date ids are exactly these six. */
  lemma EndDateIdsContents()
    ensures forall p :: p in EndDatePropertyIds <==> p in ["P570", "P582", "P576", "P2669", "P1326", "P2032"]
  {
    var t := EndDateProperties;
    assert t[0] in t && t[1] in t && t[2] in t && t[3] in t && t[4] in t && t[5] in t;
  }

  lemma EndDateIdsCount()
    ensures |EndDatePropertyIds| == 6
  {
    EndTableDistinct();
    DistinctIdsCount(EndDateProperties);
  }


  /** No id is both a start-date and an end-date property. */
  lemma StartAndEndDisjoint()
    ensures StartDatePropertyIds !! EndDatePropertyIds
  {
    StartDateIdsContents();
    EndDateIdsContents();
  }

  /** A date property is exactly a start-date or an end-date property, never both. */
  lemma DatePropertyIsStartOrEnd(p: string)
    ensures IsDateProperty(p) <==> IsStartDateProperty(p) || IsEndDateProperty(p)
    ensures !(IsStartDateProperty(p) && IsEndDateProperty(p))
  {
    StartAndEndDisjoint();
  }

  /** Every table entry's url is the Wikidata page of its own id. */
  lemma TableUrlsArePropertyPages()
    ensures forall s :: s in StartDateProperties ==> s.url == PropertyUrlPrefix + s.propertyId
    ensures forall s :: s in EndDateProperties ==> s.url == PropertyUrlPrefix + s.propertyId
  {
  }

  /** A start-date id is reported as such. */
  lemma StartTimeIsStartDate()
    ensures GetPropertyInfo("P580").kind == StartDate
  {
    StartDateIdsContents();
  }

  /** An id in neither table, such as "instance of", is reported as unknown. */
  lemma InstanceOfIsUnknown()
    ensures GetPropertyInfo("P31").kind == Unknown
  {
    assert !IsStartDateProperty("P31") by {
      StartDateIdsContents();
    }
    assert !IsEndDateProperty("P31") by {
      EndDateIdsContents();
    }
  }
}
