/**
 * The helpers that read a raw Wikidata entity (parsed API JSON) while turning it into an
 * event or a place: its label and description, the value of a property's first claim, a
 * Wikidata time read as a date, the start and end dates of an event, and the kind of place.
 *
 * These helpers do not catch what they do not expect: `Raised` marks an exception they let
 * escape to their caller.
 */
module WikidataUtils {
  import opened Wrappers
  import opened Strings
  import opened Json
  import opened WikidataMeta
  import opened ClaimsUtils
  import opened ClaimConversion
  import Events
  import Geography

  /** `entity.get(group, {}).get(lang, {}).get("value", "")`, for "labels" or "descriptions". */
  function LocalizedValue(entity: Members, group: string, lang: string): Outcome<Json> {
    var byLang := GetOr(entity, group, JObject([]));
    var entry :- DictGet(byLang, lang, JObject([]));
    DictGet(entry, "value", JString(""))
  }

  /** A search hit given as fallback is used only when it is a non-empty dict. */
  predicate UsableFallback(fallback: Option<Members>) {
    fallback.Some? && fallback.value != []
  }

  /**
   * `_get_label`: the label in `lang`; when it is empty, the search hit's label; when that is
   * empty too, the entity's id (or "" without one). It raises only when the label dicts are
   * not dicts.
   */
  function EntityLabel(entity: Members, lang: string := "en", fallback: Option<Members> := None): (r: Outcome<Json>)
    ensures r.Returned? <==> LocalizedValue(entity, "labels", lang).Returned?
    ensures r.Returned? && Truthy(LocalizedValue(entity, "labels", lang).value) ==>
      r.value == LocalizedValue(entity, "labels", lang).value
    ensures (r.Returned? && !Truthy(LocalizedValue(entity, "labels", lang).value) &&
             UsableFallback(fallback) && Truthy(GetOr(fallback.value, "label", JString("")))) ==>
      r.value == GetOr(fallback.value, "label", JString(""))
    ensures (r.Returned? && !Truthy(LocalizedValue(entity, "labels", lang).value) &&
             !(UsableFallback(fallback) && Truthy(GetOr(fallback.value, "label", JString(""))))) ==>
      r.value == GetOr(entity, "id", JString(""))
    ensures r.Returned? && !Truthy(r.value) ==> r.value == GetOr(entity, "id", JString(""))
    ensures r.Returned? && Truthy(GetOr(entity, "id", JString(""))) ==> Truthy(r.value)
  {
    var found :- LocalizedValue(entity, "labels", lang);
    var chosen :=
      if !Truthy(found) && UsableFallback(fallback) then GetOr(fallback.value, "label", JString(""))
      else found;
    Returned(if Truthy(chosen) then chosen else GetOr(entity, "id", JString("")))
  }

  /**
   * `_get_description`: the description in `lang`; when it is empty, the search hit's
   * description. Unlike the label it has no last resort and may be empty.
   */
  function EntityDescription(entity: Members, lang: string := "en", fallback: Option<Members> := None): (r: Outcome<Json>)
    ensures r.Returned? <==> LocalizedValue(entity, "descriptions", lang).Returned?
    ensures r.Returned? && Truthy(LocalizedValue(entity, "descriptions", lang).value) ==>
      r.value == LocalizedValue(entity, "descriptions", lang).value
    ensures r.Returned? && !Truthy(LocalizedValue(entity, "descriptions", lang).value) ==>
      r.value == (if UsableFallback(fallback) then GetOr(fallback.value, "description", JString(""))
                  else LocalizedValue(entity, "descriptions", lang).value)
  {
    var desc :- LocalizedValue(entity, "descriptions", lang);
    Returned(
      if !Truthy(desc) && UsableFallback(fallback) then GetOr(fallback.value, "description", JString(""))
      else desc)
  }

  /** A description-less entity without fallback gets "" back: the label is not substituted here. */
  lemma DescriptionMayBeEmpty(id: string)
    ensures EntityDescription([("id", JString(id))]) == Returned(JString(""))
    ensures id != "" ==> EntityLabel([("id", JString(id))]) == Returned(JString(id))
  {
    var e := [("id", JString(id))];
    LookupAbsent(e, "labels");
    LookupAbsent(e, "descriptions");
    LookupAbsent([], "en");
    LookupAbsent([], "value");
    LookupAt(e, "id", 0);
  }

  /**
   * `_get_claim_value`: the value of the first claim for `prop`, `JNull` (Python's None)
   * when the property is missing or has no claims, when the first claim cannot be indexed,
   * or when its main snak is not a value snak. A first claim or main snak or datavalue that
   * is not a dict raises.
   */
  function ClaimValue(claims: Members, prop: string): (r: Outcome<Json>)
    ensures !HasKey(claims, prop) ==> r == Returned(JNull)
    ensures HasKey(claims, prop) && !Truthy(Lookup(claims, prop).value) ==> r == Returned(JNull)
  {
    match Lookup(claims, prop)
    case None => Returned(JNull)
    case Some(list) =>
      if !Truthy(list) then Returned(JNull)
      else
        match Index0(list)
        case None => Returned(JNull)
        case Some(first) =>
          var mainsnak :- DictGet(first, "mainsnak", JObject([]));
          if !mainsnak.JObject? then Raised
          else if GetOr(mainsnak.members, "snaktype", JNull) != JString("value") then Returned(JNull)
          else DictGet(GetOr(mainsnak.members, "datavalue", JObject([])), "value", JNull)
  }

  /**
   * On claims as the API writes them, the value of the first claim is the payload of its
   * main snak, or None when the snak has no value.
   */
  lemma ClaimValueOfWire(claims: Members, prop: string, c: Claim, rest: seq<Json>)
    requires Lookup(claims, prop) == Some(JArray([WireClaim(c)] + rest))
    ensures ClaimValue(claims, prop) ==
      Returned(if c.mainsnak.snaktype == Value && c.mainsnak.datavalue.Some?
               then WirePayload(c.mainsnak.datavalue.value.value) else JNull)
  {
    var cm := WireClaim(c).members;
    LookupAt(cm, "mainsnak", 0);
    var sm := WireSnak(c.mainsnak).members;
    LookupAt(sm, "snaktype", 0);
    if c.mainsnak.datavalue.Some? {
      LookupAt(sm, "datavalue", 2);
      LookupAt(WireDatavalue(c.mainsnak.datavalue.value).members, "value", 0);
    } else {
      LookupAbsent(sm, "datavalue");
      LookupAbsent([], "value");
    }
  }

  /**
   * `_parse_wikidata_date`: a date from a time value given either as the time string itself
   * or as a dict with a "time" field; the leading '+' and the clock part are dropped. An
   * empty value or time gives None; a time that is not a string raises.
   */
  function ParseWikidataDate(j: Json): (r: Outcome<Option<string>>)
    ensures !Truthy(j) ==> r == Returned(None)
    ensures j.JString? && Truthy(j) ==> r == Returned(Some(TrimTime(j.s)))
    ensures Truthy(j) && !j.JString? && !j.JObject? ==> r.Raised?
    ensures j.JObject? && Truthy(j) && !Truthy(GetOr(j.members, "time", JString(""))) ==> r == Returned(None)
    ensures j.JObject? && Truthy(j) && GetOr(j.members, "time", JString("")).JString? &&
            Truthy(GetOr(j.members, "time", JString(""))) ==>
      r == Returned(Some(TrimTime(GetOr(j.members, "time", JString("")).s)))
    ensures j.JObject? && Truthy(j) && Truthy(GetOr(j.members, "time", JString(""))) &&
            !GetOr(j.members, "time", JString("")).JString? ==>
      r.Raised?
    ensures r.Returned? && r.value.Some? ==> 'T' !in r.value.value
  {
    if !Truthy(j) then Returned(None)
    else
      var timeStr :- if j.JString? then Returned(j) else DictGet(j, "time", JString(""));
      if !Truthy(timeStr) then Returned(None)
      else
        match timeStr
        case JString(t) => Returned(Some(TrimTime(t)))
        case _ => Raised
  }

  /** A time built by `create_time_claim` and written to the wire parses back to the date it was built from. */
  lemma ParseWireTime(date: string, precision: int)
    ensures ParseWikidataDate(WireTime(TimeValue(WikidataTime(date), 0, 0, 0, precision, GregorianCalendar)))
      == Returned(Some(TrimTime(date)))
  {
    var t := TimeValue(WikidataTime(date), 0, 0, 0, precision, GregorianCalendar);
    var w := WikidataTime(date);
    LookupAt(WireTime(t).members, "time", 0);
    assert DictGet(WireTime(t), "time", JString("")) == Returned(JString(w));
    assert Truthy(WireTime(t)) && Truthy(JString(w));
    TrimWikidataTime(date);
  }

  /** `if not start_date_str`: no date, or an empty one. */
  predicate IsBlank(d: Option<string>) {
    d.None? || d.value == ""
  }

  /**
   * The loop over candidate properties: the parsed value of the first one whose claim value
   * is truthy, whether or not it parses to a date; later candidates are not consulted.
   */
  function FirstDated(claims: Members, props: seq<string>): (r: Outcome<Option<string>>)
    ensures r.Returned? && r.value.Some? ==> 'T' !in r.value.value
  {
    if props == [] then Returned(None)
    else
      var v :- ClaimValue(claims, props[0]);
      if Truthy(v) then ParseWikidataDate(v) else FirstDated(claims, props[1..])
  }

  /** The default start date when the entity has none. */
  const UnknownStartDate := "0000-01-01"

  /**
   * The dates of an event: the start from "start time" (P580), else "point in time" (P585),
   * else "inception" (P571), else 0000-01-01; the end from "end time" (P582); day precision
   * for a start of ten or more characters, else year.
   */
  function EventDates(claims: Members): Outcome<Events.DateRange> {
    var first :- FirstDated(claims, ["P580", "P585"]);
    var start :-
      if !IsBlank(first) then Returned(first)
      else
        var inception :- ClaimValue(claims, "P571");
        if Truthy(inception) then ParseWikidataDate(inception) else Returned(first);
    var startDate := if IsBlank(start) then UnknownStartDate else start.value;
    var endValue :- ClaimValue(claims, "P582");
    var end :- if Truthy(endValue) then ParseWikidataDate(endValue) else Returned(None);
    Returned(Events.DateRange(startDate, end, if |startDate| >= 10 then "day" else "year"))
  }

  /** The start-date block of `wikidata_to_event`, loop and all. */
  method ResolveEventDates(claims: Members) returns (r: Outcome<Events.DateRange>)
    ensures r == EventDates(claims)
  {
    var candidates := ["P580", "P585"];
    var start: Option<string> := None;
    var i := 0;
    while i < |candidates|
      invariant 0 <= i <= |candidates|
      invariant FirstDated(claims, candidates) == FirstDated(claims, candidates[i..])
      invariant start.None?
    {
      var v := ClaimValue(claims, candidates[i]);
      if v.Raised? {
        return Raised;
      }
      if Truthy(v.value) {
        var parsed := ParseWikidataDate(v.value);
        if parsed.Raised? {
          return Raised;
        }
        start := parsed.value;
        break;
      }
      assert candidates[i..][1..] == candidates[i + 1..];
      i := i + 1;
    }
    assert FirstDated(claims, candidates) == Returned(start);
    if IsBlank(start) {
      var v := ClaimValue(claims, "P571");
      if v.Raised? {
        return Raised;
      }
      if Truthy(v.value) {
        var parsed := ParseWikidataDate(v.value);
        if parsed.Raised? {
          return Raised;
        }
        start := parsed.value;
      }
    }
    var startDate := if IsBlank(start) then UnknownStartDate else start.value;
    var end: Option<string> := None;
    var v := ClaimValue(claims, "P582");
    if v.Raised? {
      return Raised;
    }
    if Truthy(v.value) {
      var parsed := ParseWikidataDate(v.value);
      if parsed.Raised? {
        return Raised;
      }
      end := parsed.value;
    }
    r := Returned(Events.DateRange(startDate, end, if |startDate| >= 10 then "day" else "year"));
  }

  /**
   * Every event gets a start date: never empty, never with a clock part, of day precision
   * exactly when it has ten or more characters and of year precision otherwise.
   */
  lemma EventDatesShape(claims: Members)
    ensures EventDates(claims).Returned? ==>
      var d := EventDates(claims).value;
      && d.startDate != ""
      && 'T' !in d.startDate
      && (d.precision == "day" <==> |d.startDate| >= 10)
      && (d.precision == "year" <==> |d.startDate| < 10)
      && (d.endDate.Some? ==> 'T' !in d.endDate.value)
  {
  }

  /** Without any of the four date properties, the event starts at 0000-01-01 (day precision) and has no end. */
  lemma EventDatesDefault(claims: Members)
    requires !HasKey(claims, "P580") && !HasKey(claims, "P585") && !HasKey(claims, "P571") && !HasKey(claims, "P582")
    ensures EventDates(claims) == Returned(Events.DateRange(UnknownStartDate, None, "day"))
  {
    assert ["P580", "P585"][1..] == ["P585"] && ["P585"][1..] == [];
    assert FirstDated(claims, ["P585"]) == Returned(None);
    assert FirstDated(claims, ["P580", "P585"]) == Returned(None);
    assert |UnknownStartDate| == 10;
  }

  /** A "start time" claim written by the builder decides the start date. */
  lemma StartTimeDecides(claims: Members, date: string, rest: seq<Json>)
    requires Lookup(claims, "P580") == Some(JArray([WireClaim(CreateTimeClaim("P580", date))] + rest))
    requires TrimTime(date) != ""
    ensures FirstDated(claims, ["P580", "P585"]) == Returned(Some(TrimTime(date)))
    ensures EventDates(claims).Returned? ==> EventDates(claims).value.startDate == TrimTime(date)
  {
    var c := CreateTimeClaim("P580", date);
    var t := TimeValue(WikidataTime(date), 0, 0, 0, 11, GregorianCalendar);
    ClaimValueOfWire(claims, "P580", c, rest);
    assert ClaimValue(claims, "P580") == Returned(WireTime(t));
    ParseWireTime(date, 11);
    var props := ["P580", "P585"];
    assert props[0] == "P580" && Truthy(WireTime(t));
    assert FirstDated(claims, props) == ParseWikidataDate(WireTime(t));
    FirstDatedDecides(claims, TrimTime(date));
  }

  /** A non-empty date from the candidate loop is the event's start date. */
  lemma FirstDatedDecides(claims: Members, d: string)
    requires FirstDated(claims, ["P580", "P585"]) == Returned(Some(d)) && d != ""
    ensures EventDates(claims).Returned? ==> EventDates(claims).value.startDate == d
  {
    assert !IsBlank(Some(d));
  }

  /** Without "start time", a "point in time" claim written by the builder decides the start date. */
  lemma PointInTimeDecides(claims: Members, date: string, rest: seq<Json>)
    requires !HasKey(claims, "P580")
    requires Lookup(claims, "P585") == Some(JArray([WireClaim(CreateTimeClaim("P585", date))] + rest))
    requires TrimTime(date) != ""
    ensures FirstDated(claims, ["P580", "P585"]) == Returned(Some(TrimTime(date)))
    ensures EventDates(claims).Returned? ==> EventDates(claims).value.startDate == TrimTime(date)
  {
    var c := CreateTimeClaim("P585", date);
    var t := TimeValue(WikidataTime(date), 0, 0, 0, 11, GregorianCalendar);
    ClaimValueOfWire(claims, "P585", c, rest);
    assert ClaimValue(claims, "P585") == Returned(WireTime(t));
    ParseWireTime(date, 11);
    var props := ["P580", "P585"];
    assert props[0] == "P580" && props[1..] == ["P585"] && ["P585"][1..] == [];
    assert FirstDated(claims, props) == FirstDated(claims, ["P585"]);
    assert Truthy(WireTime(t));
    assert FirstDated(claims, ["P585"]) == ParseWikidataDate(WireTime(t));
    FirstDatedDecides(claims, TrimTime(date));
  }

  /**
   * Without "start time" and "point in time", an "inception" claim written by the builder
   * decides the start date.
   */
  lemma InceptionDecides(claims: Members, date: string, rest: seq<Json>)
    requires !HasKey(claims, "P580") && !HasKey(claims, "P585")
    requires Lookup(claims, "P571") == Some(JArray([WireClaim(CreateTimeClaim("P571", date))] + rest))
    requires TrimTime(date) != ""
    ensures EventDates(claims).Returned? ==> EventDates(claims).value.startDate == TrimTime(date)
  {
    var c := CreateTimeClaim("P571", date);
    var t := TimeValue(WikidataTime(date), 0, 0, 0, 11, GregorianCalendar);
    assert ["P580", "P585"][1..] == ["P585"] && ["P585"][1..] == [];
    assert FirstDated(claims, ["P585"]) == Returned(None);
    assert FirstDated(claims, ["P580", "P585"]) == Returned(None);
    ClaimValueOfWire(claims, "P571", c, rest);
    assert ClaimValue(claims, "P571") == Returned(WireTime(t));
    ParseWireTime(date, 11);
    assert Truthy(WireTime(t));
  }

  /**
   * When "start time" has a truthy value that yields no date (a time dict without "time"),
   * "point in time" is never looked at: without "inception" the start is the default,
   * whatever "point in time" holds.
   */
  lemma PointInTimeSkipped(claims: Members)
    requires Lookup(claims, "P580") == Some(JArray([WireClaim(Statement("P580", Datavalue(TimeType, DictPayload([("precision", JInt(11))]))))]))
    requires !HasKey(claims, "P571")
    ensures EventDates(claims).Returned? ==> EventDates(claims).value.startDate == UnknownStartDate
  {
    var c := Statement("P580", Datavalue(TimeType, DictPayload([("precision", JInt(11))])));
    assert [WireClaim(c)] + [] == [WireClaim(c)];
    ClaimValueOfWire(claims, "P580", c, []);
    LookupAbsent([("precision", JInt(11))], "time");
  }

  /** The kind of place an "instance of" id denotes; any other id leaves the default. */
  function InstanceKind(qid: Json): (r: Geography.GeographyType)
    ensures r == Geography.Country <==> qid == JString("Q6256")
    ensures r == Geography.City <==> qid == JString("Q515") || qid == JString("Q15284")
    ensures r == Geography.Continent <==> qid == JString("Q5107")
    ensures r == Geography.Other <==> !(qid in [JString("Q6256"), JString("Q515"), JString("Q15284"), JString("Q5107")])
  {
    if qid == JString("Q6256") then Geography.Country
    else if qid == JString("Q515") || qid == JString("Q15284") then Geography.City
    else if qid == JString("Q5107") then Geography.Continent
    else Geography.Other
  }

  /** `claim.get("mainsnak", {}).get("datavalue", {}).get("value", {})`. */
  function InstanceValue(claim: Json): Outcome<Json> {
    var mainsnak :- DictGet(claim, "mainsnak", JObject([]));
    var datavalue :- DictGet(mainsnak, "datavalue", JObject([]));
    DictGet(datavalue, "value", JObject([]))
  }

  /**
   * The scan over "instance of" claims: the first claim whose value is a dict decides the
   * kind (even when its id maps to no kind); claims with other values are skipped.
   */
  function KindFromInstances(items: seq<Json>): Outcome<Geography.GeographyType> {
    if items == [] then Returned(Geography.Other)
    else
      var v :- InstanceValue(items[0]);
      if v.JObject? then Returned(InstanceKind(GetOr(v.members, "id", JString(""))))
      else KindFromInstances(items[1..])
  }

  /**
   * One step of the scan: a claim whose value is a dict decides the kind by its id; a claim
   * whose value is anything else is skipped.
   */
  lemma KindFromInstancesStep(c: Json, rest: seq<Json>, v: Json)
    requires InstanceValue(c) == Returned(v)
    ensures v.JObject? ==> KindFromInstances([c] + rest) == Returned(InstanceKind(GetOr(v.members, "id", JString(""))))
    ensures !v.JObject? ==> KindFromInstances([c] + rest) == KindFromInstances(rest)
  {
    assert ([c] + rest)[0] == c && ([c] + rest)[1..] == rest;
  }

  /** The geography-type block of `wikidata_to_geography`. */
  function GeographyKind(claims: Members): Outcome<Geography.GeographyType> {
    var items :- Elements(GetOr(claims, "P31", JArray([])));
    KindFromInstances(items)
  }

  /** The block as the source writes it: a loop that stops at the first dict value. */
  method DetermineGeographyKind(claims: Members) returns (r: Outcome<Geography.GeographyType>)
    ensures r == GeographyKind(claims)
  {
    var items := Elements(GetOr(claims, "P31", JArray([])));
    if items.Raised? {
      return Raised;
    }
    var kind := Geography.Other;
    for i := 0 to |items.value|
      invariant KindFromInstances(items.value) == KindFromInstances(items.value[i..])
    {
      assert items.value[i..][1..] == items.value[i + 1..];
      var v := InstanceValue(items.value[i]);
      if v.Raised? {
        return Raised;
      }
      if v.value.JObject? {
        return Returned(InstanceKind(GetOr(v.value.members, "id", JString(""))));
      }
    }
    r := Returned(kind);
  }

  /** Without "instance of" claims a place is of kind "other". */
  lemma GeographyKindDefault(claims: Members)
    requires !HasKey(claims, "P31")
    ensures GeographyKind(claims) == Returned(Geography.Other)
  {
  }

  /** An "instance of" entity claim written by the builder decides the kind by its id. */
  lemma GeographyKindOfWire(claims: Members, qid: string, rest: seq<Json>)
    requires Lookup(claims, "P31") == Some(JArray([WireClaim(CreateEntityClaim("P31", qid))] + rest))
    ensures GeographyKind(claims) == Returned(InstanceKind(JString(qid)))
  {
    var c := CreateEntityClaim("P31", qid);
    var items := [WireClaim(c)] + rest;
    assert items[0] == WireClaim(c);
    LookupAt(WireClaim(c).members, "mainsnak", 0);
    var sm := WireSnak(c.mainsnak).members;
    LookupAt(sm, "datavalue", 2);
    var dm := WireDatavalue(c.mainsnak.datavalue.value).members;
    LookupAt(dm, "value", 0);
    LookupAt(WireEntityId(WikibaseEntityId(qid, "item")).members, "id", 1);
  }

  /**
   * The scan stops at the first dict value even when its id is unknown: an unknown instance
   * before a country still gives "other".
   */
  lemma FirstInstanceDecides(claims: Members, rest: seq<Json>)
    requires Lookup(claims, "P31") ==
      Some(JArray([WireClaim(CreateEntityClaim("P31", "Q1"))] + [WireClaim(CreateEntityClaim("P31", "Q6256"))] + rest))
    ensures GeographyKind(claims) == Returned(Geography.Other)
  {
    var first, second := WireClaim(CreateEntityClaim("P31", "Q1")), WireClaim(CreateEntityClaim("P31", "Q6256"));
    assert [first] + [second] + rest == [first] + ([second] + rest);
    GeographyKindOfWire(claims, "Q1", [second] + rest);
  }
}
