/**
 * The pure parts of the repository that reads people and events straight from Wikidata:
 * reading a time string as a date, taking the date of a property's first claim when
 * building a person or an event, and the pivot, which this repository does not support.
 * Every failure while reading a date is caught and gives "no date".
 */
module WikidataRepository {
  import opened Wrappers
  import opened Strings
  import opened Json
  import opened WikidataMeta
  import opened ClaimsUtils
  import opened ClaimConversion
  import Events
  import InMemory

  /**
   * `_parse_time`: every leading '+' and everything from the first 'T' on are dropped. An
   * empty or missing time gives None, and so does a value that is not a string (the error
   * is caught).
   */
  function ParseTime(t: Json): (r: Option<string>)
    ensures !Truthy(t) ==> r.None?
    ensures r.Some? <==> t.JString? && t.s != []
    ensures r.Some? ==> !StartsWith(r.value, '+') && 'T' !in r.value
    ensures r.Some? ==>
      && r.value <= LStrip(t.s, '+')
      && (r.value == LStrip(t.s, '+') || LStrip(t.s, '+')[|r.value|] == 'T')
  {
    if !Truthy(t) then None
    else
      match t
      case JString(s) => Some(BeforeFirst(LStrip(s, '+'), 'T'))
      case _ => None
  }

  /** A non-empty time without leading '+' and without 'T' is read unchanged. */
  lemma ParseTimeKeepsPlainDate(s: string)
    requires s != [] && !StartsWith(s, '+') && 'T' !in s
    ensures ParseTime(JString(s)) == Some(s)
  {
    BeforeFirstNoop(s, 'T');
  }

  /**
   * On a time with at most one leading '+', this parser and the claim reader's `TrimTime`
   * agree.
   */
  lemma ParseTimeAgreesWithTrimTime(s: string)
    requires s != []
    requires !(|s| >= 2 && s[0] == '+' && s[1] == '+')
    ensures ParseTime(JString(s)) == Some(TrimTime(s))
  {
    if StartsWith(s, '+') {
      assert LStrip(s, '+') == LStrip(s[1..], '+');
      assert LStrip(s[1..], '+') == s[1..];
    }
  }

  /**
   * With more than one '+' they do not: this parser strips them all, `TrimTime` only one,
   * so "++1" reads as "1" here and as "+1" there.
   */
  lemma ParseTimeStripsEveryPlus(d: string)
    requires !StartsWith(d, '+') && 'T' !in d
    ensures ParseTime(JString("++" + d)) == Some(d)
    ensures TrimTime("++" + d) == "+" + d
  {
    var s := "++" + d;
    assert s[0] == '+' && s[1..] == "+" + d;
    assert ("+" + d)[0] == '+' && ("+" + d)[1..] == d;
    assert LStrip(s, '+') == d;
    assert 'T' !in "+" + d;
    BeforeFirstNoop(d, 'T');
    BeforeFirstNoop("+" + d, 'T');
  }

  /** The time written for a date without a leading '+' parses back to the date's day part. */
  lemma ParseWikidataTime(date: string)
    requires !StartsWith(date, '+')
    ensures ParseTime(JString(WikidataTime(date))) == Some(TrimTime(date))
  {
    var t := WikidataTime(date);
    assert t == "+" + date + MidnightSuffix;
    assert t[1] == if date == [] then 'T' else date[0];
    ParseTimeAgreesWithTrimTime(t);
    TrimWikidataTime(date);
  }

  /**
   * `claims[prop][0]["mainsnak"]["datavalue"]["value"]["time"]`, parsed: None when the
   * property is missing, when any step of the path fails, or when the time does not parse.
   */
  function FirstClaimTime(claims: Members, prop: string): (r: Option<string>)
    ensures !HasKey(claims, prop) ==> r.None?
    ensures r.Some? ==> !StartsWith(r.value, '+') && 'T' !in r.value
  {
    var list :- Lookup(claims, prop);
    var first :- Index0(list);
    TimeOfClaim(first)
  }

  /** The parsed time along the path from one claim to its main snak's time field. */
  function TimeOfClaim(claim: Json): (r: Option<string>)
    ensures r.Some? ==> !StartsWith(r.value, '+') && 'T' !in r.value
  {
    var mainsnak :- Subscript(claim, "mainsnak");
    var datavalue :- Subscript(mainsnak, "datavalue");
    var value :- Subscript(datavalue, "value");
    var time :- Subscript(value, "time");
    ParseTime(time)
  }

  /** Along the path, a time claim as the API writes it leads to its own time string. */
  lemma TimeOfWireClaim(property: string, date: string)
    ensures TimeOfClaim(WireClaim(CreateTimeClaim(property, date))) == ParseTime(JString(WikidataTime(date)))
  {
    var c := CreateTimeClaim(property, date);
    WireClaimMainsnak(c);
    WireSnakDatavalue(c.mainsnak);
    WireDatavalueValue(c.mainsnak.datavalue.value);
    WireTimeField(TimeValue(WikidataTime(date), 0, 0, 0, 11, GregorianCalendar));
  }

  /**
   * On claims as the API writes them: the first claim of a time property, built from a date
   * without a leading '+', gives that date back without its clock part.
   */
  lemma FirstClaimTimeOfWire(claims: Members, prop: string, date: string, rest: seq<Json>)
    requires Lookup(claims, prop) == Some(JArray([WireClaim(CreateTimeClaim(prop, date))] + rest))
    requires !StartsWith(date, '+')
    ensures FirstClaimTime(claims, prop) == Some(TrimTime(date))
  {
    var first := WireClaim(CreateTimeClaim(prop, date));
    assert Index0(JArray([first] + rest)) == Some(first);
    TimeOfWireClaim(prop, date);
    ParseWikidataTime(date);
    assert TimeOfClaim(first) == Some(TrimTime(date));
  }

  /** A person's birth and death dates ("date of birth" P569, "date of death" P570). */
  function PersonDates(claims: Members): (r: (Option<string>, Option<string>))
    ensures r.0 == FirstClaimTime(claims, "P569") && r.1 == FirstClaimTime(claims, "P570")
    ensures !HasKey(claims, "P569") ==> r.0.None?
    ensures !HasKey(claims, "P570") ==> r.1.None?
    ensures r.0.Some? ==> !StartsWith(r.0.value, '+') && 'T' !in r.0.value
    ensures r.1.Some? ==> !StartsWith(r.1.value, '+') && 'T' !in r.1.value
  {
    (FirstClaimTime(claims, "P569"), FirstClaimTime(claims, "P570"))
  }

  /** Birth and death claims written by the builder give their dates without the clock part. */
  lemma PersonDatesOfWire(claims: Members, birth: string, death: string, births: seq<Json>, deaths: seq<Json>)
    requires Lookup(claims, "P569") == Some(JArray([WireClaim(CreateTimeClaim("P569", birth))] + births))
    requires Lookup(claims, "P570") == Some(JArray([WireClaim(CreateTimeClaim("P570", death))] + deaths))
    requires !StartsWith(birth, '+') && !StartsWith(death, '+')
    ensures PersonDates(claims) == (Some(TrimTime(birth)), Some(TrimTime(death)))
  {
    FirstClaimTimeOfWire(claims, "P569", birth, births);
    FirstClaimTimeOfWire(claims, "P570", death, deaths);
  }

  /**
   * An event's date range: the start from "start time" (P580), "" when it has none; the end
   * from "end time" (P582), absent when it has none or it is empty; default precision.
   */
  function EventRange(claims: Members): (r: Events.DateRange)
    ensures r.startDate == FirstClaimTime(claims, "P580").GetOr("")
    ensures r.endDate.Some? <==> FirstClaimTime(claims, "P582").Some? && FirstClaimTime(claims, "P582").value != ""
    ensures r.endDate.Some? ==> r.endDate == FirstClaimTime(claims, "P582")
    ensures r.precision == "day"
  {
    var start := FirstClaimTime(claims, "P580");
    var end := FirstClaimTime(claims, "P582");
    Events.DateRange(start.GetOr(""), if end.Some? && end.value != "" then end else None)
  }

  /**
   * Without a start time an event read by this repository has an empty start date, where the
   * entity conversion helpers would give 0000-01-01.
   */
  lemma EventRangeWithoutStart(claims: Members)
    requires !HasKey(claims, "P580") && !HasKey(claims, "P582")
    ensures EventRange(claims) == Events.DateRange("", None, "day")
  {
  }

  /** `pivot`: not supported against Wikidata; always the empty list, whatever the dimensions. */
  function Pivot(fromDim: string, toDim: string, idValue: string): (r: seq<InMemory.Entity>)
    ensures |r| == 0
  {
    []
  }
}
