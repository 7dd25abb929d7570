/**
 * The Wikibase statement model: a claim holds a main snak (a property/value pair), the snak
 * may hold a typed datavalue, and a claim also carries a rank and optional qualifiers and
 * references. An entity keeps its claims per property, in order.
 *
 * A datavalue keeps its type tag and its payload side by side, as the record class does:
 * nothing forces them to agree, and the conversion from raw JSON does produce disagreeing
 * pairs (an unrecognised kind, or a qualifier value of any shape, is tagged "string").
 */
module WikidataMeta {
  import opened Wrappers
  import opened Bounds
  import Json

  datatype SnakType = Value | NoValue | SomeValue

  /** The wire name of each snak type. */
  function SnakTypeName(t: SnakType): string {
    match t
    case Value => "value"
    case NoValue => "novalue"
    case SomeValue => "somevalue"
  }

  datatype DatavalueType =
    | TimeType
    | QuantityType
    | StringType
    | MonolingualTextType
    | WikibaseEntityType
    | GlobeCoordinateType
    | CommonsMediaType
    | UrlType
    | ExternalIdType

  /** The wire value of each datavalue type (what `DatavalueType(v)` accepts). */
  function TagValue(t: DatavalueType): string {
    match t
    case TimeType => "time"
    case QuantityType => "quantity"
    case StringType => "string"
    case MonolingualTextType => "monolingualtext"
    case WikibaseEntityType => "wikibase-entityid"
    case GlobeCoordinateType => "globecoordinate"
    case CommonsMediaType => "commonsMedia"
    case UrlType => "url"
    case ExternalIdType => "external-id"
  }

  /** The enumeration member name of each datavalue type (what `hasattr(DatavalueType, n)` finds). */
  function TagMemberName(t: DatavalueType): string {
    match t
    case TimeType => "TIME"
    case QuantityType => "QUANTITY"
    case StringType => "STRING"
    case MonolingualTextType => "MONOLINGUAL_TEXT"
    case WikibaseEntityType => "WIKIBASE_ENTITY"
    case GlobeCoordinateType => "GLOBE_COORDINATE"
    case CommonsMediaType => "COMMONS_MEDIA"
    case UrlType => "URL"
    case ExternalIdType => "EXTERNAL_ID"
  }

  const GregorianCalendar := "http://www.wikidata.org/entity/Q1985727"
  const Earth := "http://www.wikidata.org/entity/Q2"

  /** A point in time; `precision` 9 = year, 10 = month, 11 = day. */
  datatype TimeValue = TimeValue(
    time: string,
    timezone: int,
    before: int,
    after: int,
    precision: int,
    calendarmodel: string)

  datatype QuantityValue = QuantityValue(
    amount: string,
    unit: string := "1",
    upperBound: Option<string> := None,
    lowerBound: Option<string> := None)

  datatype GlobeCoordinate = GlobeCoordinate(
    latitude: Latitude,
    longitude: Longitude,
    precision: Option<real> := None,
    globe: string := Earth)

  datatype MonolingualText = MonolingualText(text: string, language: string)

  datatype WikibaseEntityId = WikibaseEntityId(id: string, entityType: string := "item")

  /** The payload variants a datavalue may hold; `DictPayload` is the untyped dict fallback. */
  datatype Payload =
    | TimePayload(time: TimeValue)
    | QuantityPayload(quantity: QuantityValue)
    | CoordinatePayload(coordinate: GlobeCoordinate)
    | TextPayload(text: MonolingualText)
    | EntityPayload(entity: WikibaseEntityId)
    | StringPayload(str: string)
    | DictPayload(dict: Json.Members)

  datatype Datavalue = Datavalue(tag: DatavalueType, value: Payload)

  datatype Snak = Snak(
    snaktype: SnakType,
    property: string,
    datavalue: Option<Datavalue>,
    dataType: Option<string>)

  datatype Reference = Reference(
    snaks: map<string, seq<Snak>>,
    snaksOrder: seq<string>,
    hash: Option<string>)

  datatype Qualifier = Qualifier(
    property: string,
    snaktype: SnakType,
    datavalue: Option<Datavalue>,
    hash: Option<string>)

  const DefaultClaimType := "statement"
  const DefaultRank := "normal"
  const PreferredRank := "preferred"

  /** A statement. The rank is free text: "preferred", "normal", "deprecated" or anything else. */
  datatype Claim = Claim(
    id: Option<string>,
    mainsnak: Snak,
    claimType: string,
    rank: string,
    qualifiers: Option<map<string, seq<Qualifier>>>,
    qualifiersOrder: Option<seq<string>>,
    references: Option<seq<Reference>>)

  datatype WikibaseEntity = WikibaseEntity(
    id: string,
    entityType: string,
    labels: map<string, map<string, string>>,
    descriptions: map<string, map<string, string>>,
    aliases: map<string, seq<map<string, string>>>,
    claims: map<string, seq<Claim>>,
    sitelinks: Option<map<string, Json.Members>>,
    lastrevid: Option<int>,
    modified: Option<string>)

  /** `m.get(k, d)`. */
  function Get<K, V>(m: map<K, V>, k: K, d: V): (r: V)
    ensures k in m ==> r == m[k]
    ensures k !in m ==> r == d
  {
    if k in m then m[k] else d
  }

  /** The label in `lang`, or "" when there is no label in that language or it has no value. */
  function GetLabel(e: WikibaseEntity, lang: string := "en"): (r: string)
    ensures lang in e.labels && "value" in e.labels[lang] ==> r == e.labels[lang]["value"]
    ensures lang !in e.labels || "value" !in e.labels[lang] ==> r == ""
  {
    Get(Get(e.labels, lang, map[]), "value", "")
  }

  /** The description in `lang`, or "" when there is none. */
  function GetDescription(e: WikibaseEntity, lang: string := "en"): (r: string)
    ensures lang in e.descriptions && "value" in e.descriptions[lang] ==> r == e.descriptions[lang]["value"]
    ensures lang !in e.descriptions || "value" !in e.descriptions[lang] ==> r == ""
  {
    Get(Get(e.descriptions, lang, map[]), "value", "")
  }

  /** All claims for a property, in order; never an error, empty when the property is absent. */
  function GetClaims(e: WikibaseEntity, property: string): (r: seq<Claim>)
    ensures property in e.claims ==> r == e.claims[property]
    ensures property !in e.claims ==> r == []
  {
    Get(e.claims, property, [])
  }

  predicate HasRank(cs: seq<Claim>, rank: string) {
    exists i :: 0 <= i < |cs| && cs[i].rank == rank
  }

  /** `c` is the first claim of `cs` that has rank `rank`. */
  ghost predicate IsFirstOfRank(cs: seq<Claim>, c: Claim, rank: string) {
    exists i :: 0 <= i < |cs| && cs[i] == c && cs[i].rank == rank &&
      forall j :: 0 <= j < i ==> cs[j].rank != rank
  }

  /** The position of the first claim with rank `rank` (the early-returning scan). */
  function FirstWithRank(cs: seq<Claim>, rank: string): (r: Option<nat>)
    ensures r.None? <==> !HasRank(cs, rank)
    ensures r.Some? ==>
      && r.value < |cs|
      && cs[r.value].rank == rank
      && forall j :: 0 <= j < r.value ==> cs[j].rank != rank
  {
    if cs == [] then None
    else if cs[0].rank == rank then Some(0)
    else
      match FirstWithRank(cs[1..], rank)
      case None => None
      case Some(i) => Some(i + 1)
  }

  /**
   * The best claim for a property: the first preferred one, else the first normal one,
   * else the first one; absent exactly when there are no claims.
   */
  function GetBestClaim(e: WikibaseEntity, property: string): (r: Option<Claim>)
    ensures r.None? <==> GetClaims(e, property) == []
    ensures r.Some? ==> r.value in GetClaims(e, property)
    ensures HasRank(GetClaims(e, property), PreferredRank) ==>
      r.Some? && IsFirstOfRank(GetClaims(e, property), r.value, PreferredRank)
    ensures !HasRank(GetClaims(e, property), PreferredRank) && HasRank(GetClaims(e, property), DefaultRank) ==>
      r.Some? && IsFirstOfRank(GetClaims(e, property), r.value, DefaultRank)
    ensures (GetClaims(e, property) != [] && !HasRank(GetClaims(e, property), PreferredRank) &&
             !HasRank(GetClaims(e, property), DefaultRank)) ==> r == Some(GetClaims(e, property)[0])
  {
    var cs := GetClaims(e, property);
    if cs == [] then None
    else
      match FirstWithRank(cs, PreferredRank)
      case Some(i) =>
        assert IsFirstOfRank(cs, cs[i], PreferredRank);
        Some(cs[i])
      case None =>
        match FirstWithRank(cs, DefaultRank)
        case Some(i) =>
          assert IsFirstOfRank(cs, cs[i], DefaultRank);
          Some(cs[i])
        case None => Some(cs[0])
  }

  /** The rank order: a best claim of normal rank means no claim is preferred. */
  lemma BestClaimIsTopRanked(e: WikibaseEntity, property: string)
    requires GetBestClaim(e, property).Some?
    ensures GetBestClaim(e, property).value.rank != PreferredRank ==>
      forall c :: c in GetClaims(e, property) ==> c.rank != PreferredRank
    ensures (GetBestClaim(e, property).value.rank != PreferredRank &&
             GetBestClaim(e, property).value.rank != DefaultRank) ==>
      forall c :: c in GetClaims(e, property) ==> c.rank != PreferredRank && c.rank != DefaultRank
  {
  }
}
