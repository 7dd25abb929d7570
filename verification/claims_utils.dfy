/**
 * Building claims from plain values, and reading plain values back out of claims.
 * Every builder makes a normal-rank statement whose main snak has a value; every reader
 * checks the datavalue's tag first and answers "absent" on any mismatch.
 */
module ClaimsUtils {
  import opened Wrappers
  import opened Strings
  import opened Bounds
  import opened WikidataMeta

  /** The clock suffix appended to a bare date to make a Wikidata time string. */
  const MidnightSuffix := "T00:00:00Z"

  /** The claim shape every builder produces: a normal-rank statement with a value snak for `property`. */
  predicate IsBuiltStatement(c: Claim, property: string) {
    && c.id.None?
    && c.mainsnak.snaktype == Value
    && c.mainsnak.property == property
    && c.mainsnak.datavalue.Some?
    && c.mainsnak.dataType.None?
    && c.claimType == DefaultClaimType
    && c.rank == DefaultRank
    && c.qualifiers.None? && c.qualifiersOrder.None? && c.references.None?
  }

  function Statement(property: string, dv: Datavalue): (c: Claim)
    ensures IsBuiltStatement(c, property) && c.mainsnak.datavalue == Some(dv)
  {
    Claim(None, Snak(Value, property, Some(dv), None), DefaultClaimType, DefaultRank, None, None, None)
  }

  /**
   * The Wikidata form of a date string: a leading '+' and a clock part after 'T'.
   * A bare date gets both; a signed date without clock gets the clock; a signed date with
   * a clock is kept.
   */
  function WikidataTime(d: string): (r: string)
    ensures StartsWith(r, '+') && 'T' in r
    ensures !StartsWith(d, '+') ==> r == "+" + d + MidnightSuffix
    ensures StartsWith(d, '+') && 'T' !in d ==> r == d + MidnightSuffix
    ensures StartsWith(d, '+') && 'T' in d ==> r == d
  {
    if !StartsWith(d, '+') then
      assert ("+" + d + MidnightSuffix)[|d| + 1] == 'T';
      "+" + d + MidnightSuffix
    else if 'T' !in d then
      assert (d + MidnightSuffix)[|d|] == 'T';
      d + MidnightSuffix
    else d
  }

  /** Converting to the Wikidata form twice changes nothing more. */
  lemma WikidataTimeIdempotent(d: string)
    ensures WikidataTime(WikidataTime(d)) == WikidataTime(d)
  {
  }

  /** Drop one leading '+' (at most one) and everything from the first 'T' on. */
  function TrimTime(t: string): (r: string)
    ensures 'T' !in r
    ensures StartsWith(t, '+') ==> r <= t[1..]
    ensures !StartsWith(t, '+') ==> r <= t
  {
    var unsigned := if StartsWith(t, '+') then t[1..] else t;
    BeforeFirst(unsigned, 'T')
  }

  /** `create_time_claim`: a time claim with day precision unless told otherwise. */
  function CreateTimeClaim(property: string, date: string, precision: int := 11): (c: Claim)
    ensures IsBuiltStatement(c, property)
    ensures c.mainsnak.datavalue.value.tag == TimeType
    ensures c.mainsnak.datavalue.value.value ==
      TimePayload(TimeValue(WikidataTime(date), 0, 0, 0, precision, GregorianCalendar))
  {
    Statement(property, Datavalue(TimeType, TimePayload(TimeValue(WikidataTime(date), 0, 0, 0, precision, GregorianCalendar))))
  }

  /** `create_entity_claim`: a claim referring to another entity, an item unless told otherwise. */
  function CreateEntityClaim(property: string, entityId: string, entityType: string := "item"): (c: Claim)
    ensures IsBuiltStatement(c, property)
    ensures c.mainsnak.datavalue.value == Datavalue(WikibaseEntityType, EntityPayload(WikibaseEntityId(entityId, entityType)))
  {
    Statement(property, Datavalue(WikibaseEntityType, EntityPayload(WikibaseEntityId(entityId, entityType))))
  }

  /** `create_string_claim`. */
  function CreateStringClaim(property: string, value: string): (c: Claim)
    ensures IsBuiltStatement(c, property)
    ensures c.mainsnak.datavalue.value == Datavalue(StringType, StringPayload(value))
  {
    Statement(property, Datavalue(StringType, StringPayload(value)))
  }

  /**
   * `create_coordinate_claim`. The coordinate record rejects a latitude outside [-90, 90] or
   * a longitude outside [-180, 180] (the builder raises); that is `None` here.
   */
  function CreateCoordinateClaim(property: string, latitude: real, longitude: real): (r: Option<Claim>)
    ensures r.Some? <==> IsLatitude(latitude) && IsLongitude(longitude)
    ensures r.Some? ==>
      && IsBuiltStatement(r.value, property)
      && r.value.mainsnak.datavalue.value == Datavalue(GlobeCoordinateType,
           CoordinatePayload(GlobeCoordinate(latitude, longitude, None, Earth)))
  {
    if IsLatitude(latitude) && IsLongitude(longitude) then
      Some(Statement(property, Datavalue(GlobeCoordinateType,
        CoordinatePayload(GlobeCoordinate(latitude, longitude, None, Earth)))))
    else None
  }

  /** `extract_time_from_claim`: the date part of a time claim. */
  function ExtractTime(c: Claim): (r: Option<string>)
    ensures r.Some? <==>
      c.mainsnak.datavalue.Some? && c.mainsnak.datavalue.value.tag == TimeType &&
      c.mainsnak.datavalue.value.value.TimePayload?
    ensures r.Some? ==> r.value == TrimTime(c.mainsnak.datavalue.value.value.time.time)
    ensures r.Some? ==> 'T' !in r.value
  {
    match c.mainsnak.datavalue
    case None => None
    case Some(dv) =>
      if dv.tag != TimeType then None
      else
        match dv.value
        case TimePayload(t) => Some(TrimTime(t.time))
        case _ => None
  }

  /** `extract_entity_id_from_claim`. */
  function ExtractEntityId(c: Claim): (r: Option<string>)
    ensures r.Some? <==>
      c.mainsnak.datavalue.Some? && c.mainsnak.datavalue.value.tag == WikibaseEntityType &&
      c.mainsnak.datavalue.value.value.EntityPayload?
    ensures r.Some? ==> r.value == c.mainsnak.datavalue.value.value.entity.id
  {
    match c.mainsnak.datavalue
    case None => None
    case Some(dv) =>
      if dv.tag != WikibaseEntityType then None
      else
        match dv.value
        case EntityPayload(e) => Some(e.id)
        case _ => None
  }

  /**
   * What `str(v)` yields for a payload: the string itself for a string payload; for any
   * other payload Python's printed form of the record, kept symbolic here.
   */
  datatype PyStr = Text(s: string) | PrintedForm(of: Payload)

  function PyStrOf(p: Payload): PyStr {
    match p
    case StringPayload(s) => Text(s)
    case _ => PrintedForm(p)
  }

  /** `extract_string_from_claim`: checks the tag only, never the payload's variant. */
  function ExtractString(c: Claim): (r: Option<PyStr>)
    ensures r.Some? <==> c.mainsnak.datavalue.Some? && c.mainsnak.datavalue.value.tag == StringType
    ensures r.Some? && c.mainsnak.datavalue.value.value.StringPayload? ==>
      r.value == Text(c.mainsnak.datavalue.value.value.str)
  {
    match c.mainsnak.datavalue
    case None => None
    case Some(dv) => if dv.tag != StringType then None else Some(PyStrOf(dv.value))
  }

  /** `extract_coordinate_from_claim`: the (latitude, longitude) pair. */
  function ExtractCoordinate(c: Claim): (r: Option<(real, real)>)
    ensures r.Some? <==>
      c.mainsnak.datavalue.Some? && c.mainsnak.datavalue.value.tag == GlobeCoordinateType &&
      c.mainsnak.datavalue.value.value.CoordinatePayload?
    ensures r.Some? ==>
      r.value == (c.mainsnak.datavalue.value.value.coordinate.latitude as real,
                  c.mainsnak.datavalue.value.value.coordinate.longitude as real)
    ensures r.Some? ==> IsLatitude(r.value.0) && IsLongitude(r.value.1)
  {
    match c.mainsnak.datavalue
    case None => None
    case Some(dv) =>
      if dv.tag != GlobeCoordinateType then None
      else
        match dv.value
        case CoordinatePayload(g) => Some((g.latitude as real, g.longitude as real))
        case _ => None
  }

  /** Converting a date to the Wikidata form and trimming it again gives the same as trimming the date. */
  lemma {:induction false} TrimWikidataTime(date: string)
    ensures TrimTime(WikidataTime(date)) == TrimTime(date)
  {
    var t := WikidataTime(date);
    assert StartsWith(MidnightSuffix, 'T');
    if !StartsWith(date, '+') {
      assert t[1..] == date + MidnightSuffix;
      BeforeFirstExtend(date, 'T', MidnightSuffix);
    } else if 'T' !in date {
      assert t[1..] == date[1..] + MidnightSuffix;
      BeforeFirstExtend(date[1..], 'T', MidnightSuffix);
    }
  }

  /**
   * Time round trip, for every input: reading back a built time claim gives the input
   * without its one leading '+' and without any clock part.
   */
  lemma TimeRoundTrip(property: string, date: string, precision: int)
    ensures ExtractTime(CreateTimeClaim(property, date, precision)) == Some(TrimTime(date))
  {
    TrimWikidataTime(date);
  }

  /** The documented case: a bare date ("1769-08-15") comes back unchanged. */
  lemma BareDateRoundTrip(property: string, date: string)
    requires !StartsWith(date, '+') && 'T' !in date
    ensures ExtractTime(CreateTimeClaim(property, date)) == Some(date)
  {
    TimeRoundTrip(property, date, 11);
    BeforeFirstNoop(date, 'T');
  }

  lemma EntityRoundTrip(property: string, entityId: string, entityType: string)
    ensures ExtractEntityId(CreateEntityClaim(property, entityId, entityType)) == Some(entityId)
  {
  }

  lemma StringRoundTrip(property: string, value: string)
    ensures ExtractString(CreateStringClaim(property, value)) == Some(Text(value))
  {
  }

  lemma CoordinateRoundTrip(property: string, latitude: real, longitude: real)
    requires IsLatitude(latitude) && IsLongitude(longitude)
    ensures ExtractCoordinate(CreateCoordinateClaim(property, latitude, longitude).value) == Some((latitude, longitude))
  {
  }

  /** Each reader answers "absent" on a claim built for another kind. */
  lemma ReadersRejectOtherKinds(property: string, date: string, entityId: string, value: string)
    ensures ExtractTime(CreateEntityClaim(property, entityId)) == None
    ensures ExtractTime(CreateStringClaim(property, value)) == None
    ensures ExtractEntityId(CreateTimeClaim(property, date)) == None
    ensures ExtractEntityId(CreateStringClaim(property, value)) == None
    ensures ExtractString(CreateTimeClaim(property, date)) == None
    ensures ExtractString(CreateEntityClaim(property, entityId)) == None
    ensures ExtractCoordinate(CreateTimeClaim(property, date)) == None
    ensures ExtractCoordinate(CreateStringClaim(property, value)) == None
  {
  }
}
