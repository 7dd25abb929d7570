/**
 * Turning a raw Wikidata claim (parsed API JSON) into the claim record, and a whole claims
 * dictionary into lists of claim records.
 *
 * The conversion of one claim is wrapped in `except Exception`: any error on the way (a value
 * of the wrong shape, an unknown snak type, a field the record classes reject) makes that
 * claim absent. The dictionary conversion drops absent claims and keeps the others in order.
 */
module ClaimConversion {
  import opened Wrappers
  import opened Strings
  import opened Json
  import opened Bounds
  import opened WikidataMeta
  import opened ClaimsUtils

  /** `SnakType(x)`: the snak type whose wire name is `x`; absent for anything else. */
  function ParseSnakType(x: Json): (r: Option<SnakType>)
    ensures forall t :: r == Some(t) <==> x == JString(SnakTypeName(t))
  {
    match x
    case JString(s) =>
      if s == "value" then Some(Value)
      else if s == "novalue" then Some(NoValue)
      else if s == "somevalue" then Some(SomeValue)
      else None
    case _ => None
  }

  /**
   * The untyped `value` of a datavalue: a string or a dict is stored as it is; no other
   * shape is accepted by the record.
   */
  function UntypedPayload(x: Json): Option<Payload> {
    match x
    case JString(s) => Some(StringPayload(s))
    case JObject(ms) => Some(DictPayload(ms))
    case _ => None
  }

  /** The member of the type enumeration called `name`, as `hasattr` looks it up. */
  function TagNamed(name: string): (r: Option<DatavalueType>)
    ensures forall t :: r == Some(t) <==> TagMemberName(t) == name
  {
    if name == "TIME" then Some(TimeType)
    else if name == "QUANTITY" then Some(QuantityType)
    else if name == "STRING" then Some(StringType)
    else if name == "MONOLINGUAL_TEXT" then Some(MonolingualTextType)
    else if name == "WIKIBASE_ENTITY" then Some(WikibaseEntityType)
    else if name == "GLOBE_COORDINATE" then Some(GlobeCoordinateType)
    else if name == "COMMONS_MEDIA" then Some(CommonsMediaType)
    else if name == "URL" then Some(UrlType)
    else if name == "EXTERNAL_ID" then Some(ExternalIdType)
    else None
  }

  /** `DatavalueType(v)`: the member whose wire value is `v`. */
  function TagWithValue(v: string): (r: Option<DatavalueType>)
    ensures forall t :: r == Some(t) <==> TagValue(t) == v
  {
    if v == "time" then Some(TimeType)
    else if v == "quantity" then Some(QuantityType)
    else if v == "string" then Some(StringType)
    else if v == "monolingualtext" then Some(MonolingualTextType)
    else if v == "wikibase-entityid" then Some(WikibaseEntityType)
    else if v == "globecoordinate" then Some(GlobeCoordinateType)
    else if v == "commonsMedia" then Some(CommonsMediaType)
    else if v == "url" then Some(UrlType)
    else if v == "external-id" then Some(ExternalIdType)
    else None
  }

  /**
   * The tag given to a datavalue of any other type `t`: when the upper-cased, underscored
   * form of `t` names a member, `t` itself must be that member's wire value (else the
   * conversion fails); when it names no member, the tag is "string".
   */
  function FallbackTag(t: string): (r: Option<DatavalueType>)
    ensures r.None? <==> TagNamed(UpperSnake(t)).Some? && TagWithValue(t).None?
    ensures r.Some? ==> r.value == StringType || TagValue(r.value) == t
    ensures TagNamed(UpperSnake(t)).None? ==> r == Some(StringType)
  {
    if TagNamed(UpperSnake(t)).Some? then TagWithValue(t) else Some(StringType)
  }

  /** A time record from the members of a `value` dict, field by field with its default. */
  function TimeValueFrom(vm: Members): Option<TimeValue> {
    var time :- AsStr(GetOr(vm, "time", JString("")));
    var timezone :- AsInt(GetOr(vm, "timezone", JInt(0)));
    var before :- AsInt(GetOr(vm, "before", JInt(0)));
    var after :- AsInt(GetOr(vm, "after", JInt(0)));
    var precision :- AsInt(GetOr(vm, "precision", JInt(11)));
    var calendar :- AsStr(GetOr(vm, "calendarmodel", JString(GregorianCalendar)));
    Some(TimeValue(time, timezone, before, after, precision, calendar))
  }

  /** An entity reference from the members of a `value` dict. */
  function EntityIdFrom(vm: Members): Option<WikibaseEntityId> {
    var id :- AsStr(GetOr(vm, "id", JString("")));
    var entityType :- AsStr(GetOr(vm, "entity-type", JString("item")));
    Some(WikibaseEntityId(id, entityType))
  }

  /** A coordinate from the members of a `value` dict; out-of-range degrees are rejected. */
  function CoordinateFrom(vm: Members): (r: Option<GlobeCoordinate>)
    ensures r.Some? ==> AsFloat(GetOr(vm, "latitude", JInt(0))) == Some(r.value.latitude as real)
    ensures r.Some? ==> AsFloat(GetOr(vm, "longitude", JInt(0))) == Some(r.value.longitude as real)
  {
    var latitude :- AsFloat(GetOr(vm, "latitude", JInt(0)));
    var longitude :- AsFloat(GetOr(vm, "longitude", JInt(0)));
    var precision :- AsOptFloat(GetOr(vm, "precision", JNull));
    var globe :- AsStr(GetOr(vm, "globe", JString(Earth)));
    if IsLatitude(latitude) && IsLongitude(longitude) then
      Some(GlobeCoordinate(latitude, longitude, precision, globe))
    else None
  }

  /**
   * The tag and the payload agree: the three typed kinds carry their own record, every other
   * tag carries the untyped value (a string or a dict).
   */
  predicate TagMatchesPayload(dv: Datavalue) {
    match dv.tag
    case TimeType => dv.value.TimePayload?
    case WikibaseEntityType => dv.value.EntityPayload?
    case GlobeCoordinateType => dv.value.CoordinatePayload?
    case _ => dv.value.StringPayload? || dv.value.DictPayload?
  }

  /** The `type` field of a raw datavalue, "" when missing. */
  function TypeField(wm: Members): Json {
    GetOr(wm, "type", JString(""))
  }

  /** The datavalue of a main snak, from its raw dict. */
  function ConvertDatavalue(wd: Json): Option<Datavalue> {
    var wm :- AsDict(wd);
    var vt := TypeField(wm);
    var vd := GetOr(wm, "value", JObject([]));
    if vt == JString("time") then
      var vm :- AsDict(vd);
      var t :- TimeValueFrom(vm);
      Some(Datavalue(TimeType, TimePayload(t)))
    else if vt == JString("wikibase-entityid") then
      var vm :- AsDict(vd);
      var e :- EntityIdFrom(vm);
      Some(Datavalue(WikibaseEntityType, EntityPayload(e)))
    else if vt == JString("globecoordinate") then
      var vm :- AsDict(vd);
      var g :- CoordinateFrom(vm);
      Some(Datavalue(GlobeCoordinateType, CoordinatePayload(g)))
    else if vt == JString("string") then
      var p :- UntypedPayload(vd);
      Some(Datavalue(StringType, p))
    else
      // `.upper()` exists only on a string.
      var t :- AsStr(vt);
      var tag :- FallbackTag(t);
      var p :- UntypedPayload(vd);
      Some(Datavalue(tag, p))
  }

  /** The snak type field of a raw snak, "value" when missing. */
  function SnakTypeField(sm: Members): Json {
    GetOr(sm, "snaktype", JString("value"))
  }

  /** A datavalue is read only for a value snak that has one. */
  function MainDatavalue(st: SnakType, sm: Members): Option<Option<Datavalue>> {
    if st == Value && HasKey(sm, "datavalue") then
      var dv :- ConvertDatavalue(Lookup(sm, "datavalue").value);
      Some(Some(dv))
    else Some(None)
  }

  /** The main snak, from its raw dict. */
  function ConvertMainsnak(sm: Members): Option<Snak> {
    var st :- ParseSnakType(SnakTypeField(sm));
    var property :- AsStr(GetOr(sm, "property", JString("")));
    var dv :- MainDatavalue(st, sm);
    var dataType :- AsOptStr(GetOr(sm, "datatype", JNull));
    Some(Snak(st, property, dv, dataType))
  }

  /**
   * A converted datavalue's tag and payload agree, and its tag is "string" or the one named
   * by the raw `type`; a raw `type` that is not a string makes the conversion fail.
   */
  lemma ConvertDatavalueProperties(wd: Json)
    ensures ConvertDatavalue(wd).Some? ==> wd.JObject? && TagMatchesPayload(ConvertDatavalue(wd).value)
    ensures ConvertDatavalue(wd).Some? ==>
      ConvertDatavalue(wd).value.tag == StringType || TypeField(wd.members) == JString(TagValue(ConvertDatavalue(wd).value.tag))
    ensures wd.JObject? && !TypeField(wd.members).JString? ==> ConvertDatavalue(wd).None?
  {
  }

  /**
   * A converted main snak has the snak type on the wire, and a datavalue exactly when it is a
   * value snak with a "datavalue" field; an unknown snak type makes the conversion fail.
   */
  lemma ConvertMainsnakProperties(sm: Members)
    ensures ConvertMainsnak(sm).Some? ==> SnakTypeField(sm) == JString(SnakTypeName(ConvertMainsnak(sm).value.snaktype))
    ensures ConvertMainsnak(sm).Some? ==>
      (ConvertMainsnak(sm).value.datavalue.Some? <==> ConvertMainsnak(sm).value.snaktype == Value && HasKey(sm, "datavalue"))
    ensures ConvertMainsnak(sm).Some? && ConvertMainsnak(sm).value.datavalue.Some? ==>
      TagMatchesPayload(ConvertMainsnak(sm).value.datavalue.value)
    ensures ParseSnakType(SnakTypeField(sm)).None? ==> ConvertMainsnak(sm).None?
  {
    if HasKey(sm, "datavalue") {
      ConvertDatavalueProperties(Lookup(sm, "datavalue").value);
    }
  }

  /** One qualifier of property `prop`; its value, if any, is stored untyped under the "string" tag. */
  function QualifierFrom(prop: string, qd: Json): (r: Option<Qualifier>)
    ensures r.Some? ==> r.value.property == prop && r.value.hash.None?
    ensures r.Some? && r.value.datavalue.Some? ==> r.value.datavalue.value.tag == StringType
  {
    var qm :- AsDict(qd);
    var st :- ParseSnakType(SnakTypeField(qm));
    var dv :-
      if st == Value && HasKey(qm, "datavalue") then
        var d :- AsDict(Lookup(qm, "datavalue").value);
        var p :- UntypedPayload(GetOr(d, "value", JObject([])));
        Some(Some(Datavalue(StringType, p)))
      else Some(None);
    Some(Qualifier(prop, st, dv, None))
  }

  /** The qualifiers of `prop`, appended to `acc` one item at a time. */
  function QualifierList(prop: string, acc: seq<Qualifier>, items: seq<Json>): (r: Option<seq<Qualifier>>)
    ensures r.Some? ==> |r.value| == |acc| + |items| && r.value[..|acc|] == acc
    ensures r.Some? ==> forall i :: |acc| <= i < |r.value| ==> r.value[i].property == prop
    decreases |items|
  {
    if items == [] then Some(acc)
    else
      var q :- QualifierFrom(prop, items[0]);
      var r := QualifierList(prop, acc + [q], items[1..]);
      assert r.Some? ==> r.value[..|acc|] == (acc + [q])[..|acc|];
      r
  }

  /** The qualifier dict and key order, extended with the members of `ms` in turn. */
  function QualifierTable(acc: (map<string, seq<Qualifier>>, seq<string>), ms: Members)
    : Option<(map<string, seq<Qualifier>>, seq<string>)>
    decreases |ms|
  {
    if ms == [] then Some(acc)
    else
      var prop := ms[0].0;
      var items :- Elements(ms[0].1).ToOption();
      var qs :- QualifierList(prop, [], items);
      QualifierTable((acc.0[prop := qs], acc.1 + [prop]), ms[1..])
  }

  /**
   * The qualifier table lists every property of the raw dict, in order, and has an entry for
   * each; every qualifier in an entry carries that entry's property.
   */
  lemma {:induction false} QualifierTableShape(acc: (map<string, seq<Qualifier>>, seq<string>), ms: Members)
    requires forall k :: k in acc.0 ==> forall q :: q in acc.0[k] ==> q.property == k
    ensures QualifierTable(acc, ms).Some? ==> QualifierTable(acc, ms).value.1 == acc.1 + KeyList(ms)
    ensures QualifierTable(acc, ms).Some? ==>
      forall k :: k in QualifierTable(acc, ms).value.0 <==> k in acc.0 || k in KeyList(ms)
    ensures QualifierTable(acc, ms).Some? ==>
      var t := QualifierTable(acc, ms).value.0;
      forall k :: k in t ==> forall q :: q in t[k] ==> q.property == k
    decreases |ms|
  {
    if ms != [] {
      var prop := ms[0].0;
      assert KeyList(ms) == [prop] + KeyList(ms[1..]);
      match Elements(ms[0].1).ToOption()
      case None =>
      case Some(items) =>
        match QualifierList(prop, [], items)
        case None =>
        case Some(qs) =>
          assert forall q :: q in qs ==> q.property == prop;
          QualifierTableShape((acc.0[prop := qs], acc.1 + [prop]), ms[1..]);
    }
  }

  /** The qualifiers of a claim and their order: both absent when the claim has no "qualifiers". */
  function ClaimQualifiers(cm: Members): (r: Option<(Option<map<string, seq<Qualifier>>>, Option<seq<string>>)>)
    ensures r.Some? ==> (r.value.0.Some? <==> HasKey(cm, "qualifiers"))
    ensures r.Some? ==> (r.value.1.Some? <==> HasKey(cm, "qualifiers"))
  {
    if !HasKey(cm, "qualifiers") then Some((None, None))
    else
      var qm :- AsDict(Lookup(cm, "qualifiers").value);
      var t :- QualifierTable((map[], []), qm);
      Some((Some(t.0), Some(t.1)))
  }

  /** The snaks of `prop` in a reference, appended to `acc`; their values are not read. */
  function SnakList(prop: string, acc: seq<Snak>, items: seq<Json>): (r: Option<seq<Snak>>)
    ensures r.Some? ==> |r.value| == |acc| + |items|
    decreases |items|
  {
    if items == [] then Some(acc)
    else
      var sm :- AsDict(items[0]);
      var st :- ParseSnakType(SnakTypeField(sm));
      SnakList(prop, acc + [Snak(st, prop, None, None)], items[1..])
  }

  /** The snak dict of a reference, extended with the members of `ms` in turn. */
  function SnakTable(acc: map<string, seq<Snak>>, ms: Members): (r: Option<map<string, seq<Snak>>>)
    ensures r.Some? ==> forall k :: k in r.value <==> k in acc || k in KeyList(ms)
    decreases |ms|
  {
    if ms == [] then Some(acc)
    else
      var prop := ms[0].0;
      var items :- Elements(ms[0].1).ToOption();
      var snaks :- SnakList(prop, [], items);
      assert KeyList(ms) == [prop] + KeyList(ms[1..]);
      SnakTable(acc[prop := snaks], ms[1..])
  }

  /** One reference, from its raw dict. */
  function ReferenceFrom(rd: Json): (r: Option<Reference>)
    ensures r.Some? ==> r.value.hash.None?
  {
    var rm :- AsDict(rd);
    var sm :- AsDict(GetOr(rm, "snaks", JObject([])));
    var snaks :- SnakTable(map[], sm);
    var order :- AsStrList(GetOr(rm, "snaks-order", JArray([])));
    Some(Reference(snaks, order, None))
  }

  /** The references, appended to `acc` one item at a time. */
  function ReferenceList(acc: seq<Reference>, items: seq<Json>): (r: Option<seq<Reference>>)
    ensures r.Some? ==> |r.value| == |acc| + |items|
    decreases |items|
  {
    if items == [] then Some(acc)
    else
      var ref :- ReferenceFrom(items[0]);
      ReferenceList(acc + [ref], items[1..])
  }

  /** The references of a claim: absent when the claim has no "references". */
  function ClaimReferences(cm: Members): (r: Option<Option<seq<Reference>>>)
    ensures r.Some? ==> (r.value.Some? <==> HasKey(cm, "references"))
  {
    if !HasKey(cm, "references") then Some(None)
    else
      var items :- Elements(Lookup(cm, "references").value).ToOption();
      var refs :- ReferenceList([], items);
      Some(Some(refs))
  }

  /** The main snak field of a raw claim, an empty dict when missing. */
  function MainsnakField(cm: Members): Json {
    GetOr(cm, "mainsnak", JObject([]))
  }

  /** `_convert_wikidata_claim_to_claim`: the claim record for a raw claim, absent when any step fails. */
  function ConvertClaim(wc: Json): Option<Claim> {
    var cm :- AsDict(wc);
    var msd := MainsnakField(cm);
    if !Truthy(msd) then None
    else
      var sm :- AsDict(msd);
      var snak :- ConvertMainsnak(sm);
      var quals :- ClaimQualifiers(cm);
      var refs :- ClaimReferences(cm);
      var id :- AsOptStr(GetOr(cm, "id", JNull));
      var claimType :- AsStr(GetOr(cm, "type", JString(DefaultClaimType)));
      var rank :- AsStr(GetOr(cm, "rank", JString(DefaultRank)));
      Some(Claim(id, snak, claimType, rank, quals.0, quals.1, refs))
  }

  /**
   * What the conversion guarantees: a missing or empty main snak, or an unknown snak type,
   * gives "absent"; the snak type is the one on the wire; the main snak has a datavalue
   * exactly when it is a value snak with a "datavalue" field, and then its tag and payload
   * agree; the claim type defaults to "statement" and the rank to "normal"; qualifiers and
   * references are present exactly when the raw claim has them.
   */
  lemma ConvertClaimProperties(wc: Json)
    ensures !wc.JObject? ==> ConvertClaim(wc).None?
    ensures wc.JObject? && !Truthy(MainsnakField(wc.members)) ==> ConvertClaim(wc).None?
    ensures (wc.JObject? && MainsnakField(wc.members).JObject? &&
             ParseSnakType(SnakTypeField(MainsnakField(wc.members).members)).None?) ==> ConvertClaim(wc).None?
    ensures ConvertClaim(wc).Some? ==>
      var c, cm := ConvertClaim(wc).value, wc.members;
      && MainsnakField(cm).JObject?
      && SnakTypeField(MainsnakField(cm).members) == JString(SnakTypeName(c.mainsnak.snaktype))
      && (c.mainsnak.datavalue.Some? <==>
            c.mainsnak.snaktype == Value && HasKey(MainsnakField(cm).members, "datavalue"))
      && (c.mainsnak.datavalue.Some? ==> TagMatchesPayload(c.mainsnak.datavalue.value))
      && (!HasKey(cm, "type") ==> c.claimType == DefaultClaimType)
      && (!HasKey(cm, "rank") ==> c.rank == DefaultRank)
      && (c.qualifiers.Some? <==> HasKey(cm, "qualifiers"))
      && (c.qualifiersOrder.Some? <==> HasKey(cm, "qualifiers"))
      && (c.references.Some? <==> HasKey(cm, "references"))
  {
    if wc.JObject? && MainsnakField(wc.members).JObject? {
      ConvertMainsnakProperties(MainsnakField(wc.members).members);
    }
  }

  /** The conversion as the source writes it, loop by loop, proved to agree with `ConvertClaim`. */
  method ConvertWikidataClaimToClaim(wc: Json) returns (r: Option<Claim>)
    ensures r == ConvertClaim(wc)
  {
    if !wc.JObject? {
      return None;
    }
    var cm := wc.members;
    var msd := MainsnakField(cm);
    if !Truthy(msd) || !msd.JObject? {
      return None;
    }
    var snak := ConvertMainsnak(msd.members);
    if snak.None? {
      return None;
    }

    var qualifiers: Option<map<string, seq<Qualifier>>> := None;
    var qualifiersOrder: Option<seq<string>> := None;
    if HasKey(cm, "qualifiers") {
      var qj := Lookup(cm, "qualifiers").value;
      if !qj.JObject? {
        return None;
      }
      var table, order := ReadQualifiers(qj.members);
      if table.None? {
        return None;
      }
      qualifiers, qualifiersOrder := Some(table.value), Some(order);
    }
    assert ClaimQualifiers(cm) == Some((qualifiers, qualifiersOrder));

    var references: Option<seq<Reference>> := None;
    if HasKey(cm, "references") {
      var items := Elements(Lookup(cm, "references").value).ToOption();
      if items.None? {
        return None;
      }
      var refs: seq<Reference> := [];
      for i := 0 to |items.value|
        invariant ReferenceList([], items.value) == ReferenceList(refs, items.value[i..])
      {
        assert items.value[i..][1..] == items.value[i + 1..];
        var ref := ReadReference(items.value[i]);
        if ref.None? {
          return None;
        }
        refs := refs + [ref.value];
      }
      references := Some(refs);
    }
    assert ClaimReferences(cm) == Some(references);

    var id := AsOptStr(GetOr(cm, "id", JNull));
    var claimType := AsStr(GetOr(cm, "type", JString(DefaultClaimType)));
    var rank := AsStr(GetOr(cm, "rank", JString(DefaultRank)));
    if id.None? || claimType.None? || rank.None? {
      return None;
    }
    r := Some(Claim(id.value, snak.value, claimType.value, rank.value, qualifiers, qualifiersOrder, references));
  }

  /** The qualifier loop: for each property, every qualifier in its list, in order. */
  method ReadQualifiers(qm: Members) returns (table: Option<map<string, seq<Qualifier>>>, order: seq<string>)
    ensures table.None? <==> QualifierTable((map[], []), qm).None?
    ensures table.Some? ==> QualifierTable((map[], []), qm) == Some((table.value, order))
  {
    var t: map<string, seq<Qualifier>> := map[];
    order := [];
    for i := 0 to |qm|
      invariant QualifierTable((map[], []), qm) == QualifierTable((t, order), qm[i..])
    {
      assert qm[i..][1..] == qm[i + 1..];
      var prop := qm[i].0;
      var items := Elements(qm[i].1).ToOption();
      if items.None? {
        return None, order;
      }
      var list: seq<Qualifier> := [];
      for j := 0 to |items.value|
        invariant QualifierList(prop, [], items.value) == QualifierList(prop, list, items.value[j..])
      {
        assert items.value[j..][1..] == items.value[j + 1..];
        var q := QualifierFrom(prop, items.value[j]);
        if q.None? {
          return None, order;
        }
        list := list + [q.value];
      }
      t := t[prop := list];
      order := order + [prop];
    }
    table := Some(t);
  }

  /** The reference loop body: every snak of every property, in order. */
  method ReadReference(rd: Json) returns (r: Option<Reference>)
    ensures r == ReferenceFrom(rd)
  {
    if !rd.JObject? {
      return None;
    }
    var snaksField := GetOr(rd.members, "snaks", JObject([]));
    if !snaksField.JObject? {
      return None;
    }
    var sm := snaksField.members;
    var snaks: map<string, seq<Snak>> := map[];
    for i := 0 to |sm|
      invariant SnakTable(map[], sm) == SnakTable(snaks, sm[i..])
    {
      assert sm[i..][1..] == sm[i + 1..];
      var prop := sm[i].0;
      var items := Elements(sm[i].1).ToOption();
      if items.None? {
        return None;
      }
      var list: seq<Snak> := [];
      for j := 0 to |items.value|
        invariant SnakList(prop, [], items.value) == SnakList(prop, list, items.value[j..])
      {
        assert items.value[j..][1..] == items.value[j + 1..];
        var item := items.value[j];
        if !item.JObject? {
          return None;
        }
        var st := ParseSnakType(SnakTypeField(item.members));
        if st.None? {
          return None;
        }
        list := list + [Snak(st.value, prop, None, None)];
      }
      snaks := snaks[prop := list];
    }
    var order := AsStrList(GetOr(rd.members, "snaks-order", JArray([])));
    if order.None? {
      return None;
    }
    r := Some(Reference(snaks, order.value, None));
  }

  /** `[y for x in xs if (y := f(x)) is not None]`: the results that are present, in order. */
  function Kept<X, Y>(xs: seq<X>, f: X -> Option<Y>): (r: seq<Y>)
    ensures |r| <= |xs|
    ensures forall y :: y in r ==> exists i :: 0 <= i < |xs| && f(xs[i]) == Some(y)
  {
    if xs == [] then []
    else
      var init := xs[..|xs| - 1];
      assert forall i :: 0 <= i < |init| ==> init[i] == xs[i];
      Kept(init, f) + (match f(xs[|xs| - 1]) case Some(y) => [y] case None => [])
  }

  /** When every result is present nothing is dropped: one result per input, position by position. */
  lemma {:induction false} KeptAll<X, Y>(xs: seq<X>, f: X -> Option<Y>)
    requires forall i :: 0 <= i < |xs| ==> f(xs[i]).Some?
    ensures |Kept(xs, f)| == |xs|
    ensures forall i :: 0 <= i < |xs| ==> Kept(xs, f)[i] == f(xs[i]).value
  {
    if xs != [] {
      var init, last := xs[..|xs| - 1], xs[|xs| - 1];
      forall i | 0 <= i < |init| ensures f(init[i]).Some? {
        assert init[i] == xs[i];
      }
      KeptAll(init, f);
      assert f(last).Some?;
      assert Kept(xs, f) == Kept(init, f) + [f(last).value];
      forall i | 0 <= i < |xs| ensures Kept(xs, f)[i] == f(xs[i]).value {
        if i < |init| {
          assert xs[i] == init[i];
        }
      }
    }
  }

  /** The claims of one property that convert, in their order: the absent ones are dropped. */
  function Surviving(items: seq<Json>): (r: seq<Claim>)
    ensures |r| <= |items|
    ensures forall c :: c in r ==> exists i :: 0 <= i < |items| && ConvertClaim(items[i]) == Some(c)
  {
    Kept(items, ConvertClaim)
  }

  /** When every claim converts, nothing is dropped: one record per raw claim, position by position. */
  lemma SurvivingKeepsAll(items: seq<Json>)
    requires forall i :: 0 <= i < |items| ==> ConvertClaim(items[i]).Some?
    ensures |Surviving(items)| == |items|
    ensures forall i :: 0 <= i < |items| ==> Surviving(items)[i] == ConvertClaim(items[i]).value
  {
    KeptAll(items, ConvertClaim);
  }

  /**
   * The converted dictionary, extended with the members of `ms` in turn. A property whose
   * claim list is not iterable makes the whole conversion raise.
   */
  function ClaimTable(acc: map<string, seq<Claim>>, ms: Members): (r: Outcome<map<string, seq<Claim>>>)
    ensures r.Returned? <==> forall i :: 0 <= i < |ms| ==> Elements(ms[i].1).Returned?
    ensures r.Returned? ==> forall k :: k in r.value <==> k in acc || k in KeyList(ms)
    decreases |ms|
  {
    if ms == [] then Returned(acc)
    else
      assert forall i :: 1 <= i < |ms| ==> ms[1..][i - 1] == ms[i];
      assert KeyList(ms) == [ms[0].0] + KeyList(ms[1..]);
      var items :- Elements(ms[0].1);
      ClaimTable(acc[ms[0].0 := Surviving(items)], ms[1..])
  }

  /** A key that no member of `ms` has keeps the value it had before. */
  lemma {:induction false} ClaimTableKeeps(acc: map<string, seq<Claim>>, ms: Members, k: string)
    requires k in acc && k !in KeyList(ms)
    requires ClaimTable(acc, ms).Returned?
    ensures ClaimTable(acc, ms).value[k] == acc[k]
    decreases |ms|
  {
    if ms != [] {
      assert KeyList(ms) == [ms[0].0] + KeyList(ms[1..]);
      var items := Elements(ms[0].1).value;
      ClaimTableKeeps(acc[ms[0].0 := Surviving(items)], ms[1..], k);
    }
  }

  /** In a dict (no repeated key), each property maps to its own surviving claims. */
  lemma {:induction false} ClaimTableValue(acc: map<string, seq<Claim>>, ms: Members, i: nat)
    requires DistinctKeys(ms) && i < |ms|
    requires ClaimTable(acc, ms).Returned?
    ensures ms[i].0 in ClaimTable(acc, ms).value
    ensures ClaimTable(acc, ms).value[ms[i].0] == Surviving(Elements(ms[i].1).value)
    decreases |ms|
  {
    var items := Elements(ms[0].1).value;
    var next := acc[ms[0].0 := Surviving(items)];
    assert forall j :: 1 <= j < |ms| ==> ms[1..][j - 1] == ms[j];
    if i == 0 {
      assert ms[0].0 !in KeyList(ms[1..]);
      ClaimTableKeeps(next, ms[1..], ms[0].0);
    } else {
      ClaimTableValue(next, ms[1..], i - 1);
    }
  }

  /**
   * `_convert_wikidata_claims` on a claims dict: it raises exactly when some property's claim
   * list is not iterable; otherwise it has exactly the input's properties, and each maps to
   * the claims of its list that convert, in their order, none added.
   */
  lemma ConvertedClaimsShape(claims: Members)
    requires DistinctKeys(claims)
    ensures ClaimTable(map[], claims).Returned? <==>
      forall i :: 0 <= i < |claims| ==> Elements(claims[i].1).Returned?
    ensures ClaimTable(map[], claims).Returned? ==>
      && (forall k :: k in ClaimTable(map[], claims).value <==> k in KeyList(claims))
      && (forall i :: 0 <= i < |claims| ==>
            ClaimTable(map[], claims).value[claims[i].0] == Surviving(Elements(claims[i].1).value))
  {
    if ClaimTable(map[], claims).Returned? {
      forall i | 0 <= i < |claims|
        ensures ClaimTable(map[], claims).value[claims[i].0] == Surviving(Elements(claims[i].1).value)
      {
        ClaimTableValue(map[], claims, i);
      }
    }
  }

  /** The dictionary conversion as the source writes it: a loop over properties, then over claims. */
  method ConvertWikidataClaims(claims: Members) returns (r: Outcome<map<string, seq<Claim>>>)
    ensures r == ClaimTable(map[], claims)
  {
    var converted: map<string, seq<Claim>> := map[];
    for i := 0 to |claims|
      invariant ClaimTable(map[], claims) == ClaimTable(converted, claims[i..])
    {
      assert claims[i..][1..] == claims[i + 1..];
      var items := Elements(claims[i].1);
      if items.Raised? {
        return Raised;
      }
      var list: seq<Claim> := [];
      for j := 0 to |items.value|
        invariant list == Kept(items.value[..j], ConvertClaim)
      {
        assert items.value[..j + 1][..j] == items.value[..j];
        var claim := ConvertWikidataClaimToClaim(items.value[j]);
        if claim.Some? {
          list := list + [claim.value];
        }
      }
      assert items.value[..|items.value|] == items.value;
      converted := converted[claims[i].0 := list];
    }
    r := Returned(converted);
  }

  // The wire format: the JSON the Wikidata API writes for a claim without qualifiers or references.

  function WireTime(t: TimeValue): Json {
    JObject([
      ("time", JString(t.time)), ("timezone", JInt(t.timezone)), ("before", JInt(t.before)),
      ("after", JInt(t.after)), ("precision", JInt(t.precision)), ("calendarmodel", JString(t.calendarmodel))])
  }

  function WireEntityId(e: WikibaseEntityId): Json {
    JObject([("entity-type", JString(e.entityType)), ("id", JString(e.id))])
  }

  function WireCoordinate(g: GlobeCoordinate): Json {
    JObject([
      ("latitude", JReal(g.latitude)), ("longitude", JReal(g.longitude)),
      ("precision", match g.precision case Some(p) => JReal(p) case None => JNull),
      ("globe", JString(g.globe))])
  }

  function WirePayload(p: Payload): Json {
    match p
    case TimePayload(t) => WireTime(t)
    case QuantityPayload(q) => JObject([("amount", JString(q.amount)), ("unit", JString(q.unit))])
    case CoordinatePayload(g) => WireCoordinate(g)
    case TextPayload(m) => JObject([("text", JString(m.text)), ("language", JString(m.language))])
    case EntityPayload(e) => WireEntityId(e)
    case StringPayload(s) => JString(s)
    case DictPayload(d) => JObject(d)
  }

  function WireDatavalue(dv: Datavalue): Json {
    JObject([("value", WirePayload(dv.value)), ("type", JString(TagValue(dv.tag)))])
  }

  function WireSnak(s: Snak): Json {
    JObject(
      [("snaktype", JString(SnakTypeName(s.snaktype))), ("property", JString(s.property))]
      + (match s.datavalue case Some(dv) => [("datavalue", WireDatavalue(dv))] case None => [])
      + (match s.dataType case Some(t) => [("datatype", JString(t))] case None => []))
  }

  function WireClaim(c: Claim): Json {
    JObject(
      [("mainsnak", WireSnak(c.mainsnak)), ("type", JString(c.claimType)), ("rank", JString(c.rank))]
      + (match c.id case Some(i) => [("id", JString(i))] case None => []))
  }

  // The steps from a claim on the wire down to its time string.

  lemma WireClaimMainsnak(c: Claim)
    ensures Subscript(WireClaim(c), "mainsnak") == Some(WireSnak(c.mainsnak))
  {
    LookupAt(WireClaim(c).members, "mainsnak", 0);
  }

  lemma WireSnakDatavalue(s: Snak)
    requires s.datavalue.Some?
    ensures Subscript(WireSnak(s), "datavalue") == Some(WireDatavalue(s.datavalue.value))
  {
    LookupAt(WireSnak(s).members, "datavalue", 2);
  }

  lemma WireDatavalueValue(dv: Datavalue)
    ensures Subscript(WireDatavalue(dv), "value") == Some(WirePayload(dv.value))
  {
    LookupAt(WireDatavalue(dv).members, "value", 0);
  }

  lemma WireTimeField(t: TimeValue)
    ensures Subscript(WireTime(t), "time") == Some(JString(t.time))
  {
    LookupAt(WireTime(t).members, "time", 0);
  }

  /**
   * A datavalue that survives the wire: tag and payload agree, and the tag's wire name is
   * recognised on the way back (monolingual text and media files are not, see
   * `FallbackTagDowngrades`).
   */
  predicate SurvivesWire(dv: Datavalue) {
    TagMatchesPayload(dv) && dv.tag != MonolingualTextType && dv.tag != CommonsMediaType
  }

  /** The other wire type names whose member name is their upper-cased form keep their tag. */
  lemma FallbackTagKeeps(tag: DatavalueType)
    requires tag == QuantityType || tag == UrlType || tag == ExternalIdType
    ensures FallbackTag(TagValue(tag)) == Some(tag)
  {
    if tag == QuantityType {
      assert UpperSnake("quantity") == "QUANTITY";
    } else if tag == UrlType {
      assert UpperSnake("url") == "URL";
    } else {
      assert UpperSnake("external-id") == "EXTERNAL_ID";
    }
  }

  /**
   * Monolingual text and media files are tagged "string": their member names have an
   * underscore their wire names lack.
   */
  lemma FallbackTagDowngrades()
    ensures FallbackTag("monolingualtext") == Some(StringType)
    ensures FallbackTag("commonsMedia") == Some(StringType)
  {
    assert UpperSnake("monolingualtext")[0] == 'M' && UpperSnake("monolingualtext")[11] == 'T';
    assert UpperSnake("commonsMedia")[7] == 'M';
  }

  /** A member name used as the type fails the conversion; an unknown type is tagged "string". */
  lemma FallbackTagOthers()
    ensures FallbackTag("TIME") == None
    ensures FallbackTag("math") == Some(StringType)
  {
    assert UpperSnake("TIME") == "TIME";
    assert UpperSnake("math") == "MATH";
  }

  lemma TimeWireRoundTrip(t: TimeValue)
    ensures TimeValueFrom(WireTime(t).members) == Some(t)
  {
    var ms := WireTime(t).members;
    LookupAt(ms, "time", 0);
    LookupAt(ms, "timezone", 1);
    LookupAt(ms, "before", 2);
    LookupAt(ms, "after", 3);
    LookupAt(ms, "precision", 4);
    LookupAt(ms, "calendarmodel", 5);
  }

  lemma EntityWireRoundTrip(e: WikibaseEntityId)
    ensures EntityIdFrom(WireEntityId(e).members) == Some(e)
  {
    var ms := WireEntityId(e).members;
    LookupAt(ms, "entity-type", 0);
    LookupAt(ms, "id", 1);
  }

  lemma CoordinateWireRoundTrip(g: GlobeCoordinate)
    ensures CoordinateFrom(WireCoordinate(g).members) == Some(g)
  {
    var ms := WireCoordinate(g).members;
    LookupAt(ms, "latitude", 0);
    LookupAt(ms, "longitude", 1);
    LookupAt(ms, "precision", 2);
    LookupAt(ms, "globe", 3);
  }

  lemma DatavalueRoundTrip(dv: Datavalue)
    requires SurvivesWire(dv)
    ensures ConvertDatavalue(WireDatavalue(dv)) == Some(dv)
  {
    var wm := WireDatavalue(dv).members;
    LookupAt(wm, "value", 0);
    LookupAt(wm, "type", 1);
    if dv.tag == TimeType || dv.tag == WikibaseEntityType || dv.tag == GlobeCoordinateType {
      TypedDatavalueRoundTrip(dv);
    } else {
      UntypedDatavalueRoundTrip(dv);
    }
  }

  lemma TypedDatavalueRoundTrip(dv: Datavalue)
    requires SurvivesWire(dv)
    requires dv.tag == TimeType || dv.tag == WikibaseEntityType || dv.tag == GlobeCoordinateType
    requires TypeField(WireDatavalue(dv).members) == JString(TagValue(dv.tag))
    requires GetOr(WireDatavalue(dv).members, "value", JObject([])) == WirePayload(dv.value)
    ensures ConvertDatavalue(WireDatavalue(dv)) == Some(dv)
  {
    match dv.value
    case TimePayload(t) =>
      TimeWireRoundTrip(t);
    case EntityPayload(e) =>
      EntityWireRoundTrip(e);
    case CoordinatePayload(g) =>
      CoordinateWireRoundTrip(g);
  }

  lemma UntypedDatavalueRoundTrip(dv: Datavalue)
    requires SurvivesWire(dv)
    requires !(dv.tag == TimeType || dv.tag == WikibaseEntityType || dv.tag == GlobeCoordinateType)
    requires TypeField(WireDatavalue(dv).members) == JString(TagValue(dv.tag))
    requires GetOr(WireDatavalue(dv).members, "value", JObject([])) == WirePayload(dv.value)
    ensures ConvertDatavalue(WireDatavalue(dv)) == Some(dv)
  {
    if dv.tag != StringType {
      FallbackTagKeeps(dv.tag);
    }
  }

  /**
   * Wire round trip: a claim without qualifiers or references, whose datavalue (if any) sits
   * on a value snak and survives the wire, converts back to itself.
   */
  lemma WireRoundTrip(c: Claim)
    requires c.qualifiers.None? && c.qualifiersOrder.None? && c.references.None?
    requires c.mainsnak.datavalue.Some? ==> c.mainsnak.snaktype == Value && SurvivesWire(c.mainsnak.datavalue.value)
    ensures ConvertClaim(WireClaim(c)) == Some(c)
  {
    WireClaimFields(c);
    WireSnakRoundTrip(c.mainsnak);
  }

  /** The fields a claim on the wire carries, as the converter reads them. */
  lemma WireClaimFields(c: Claim)
    requires c.qualifiers.None? && c.qualifiersOrder.None? && c.references.None?
    ensures MainsnakField(WireClaim(c).members) == WireSnak(c.mainsnak)
    ensures ClaimQualifiers(WireClaim(c).members) == Some((None, None))
    ensures ClaimReferences(WireClaim(c).members) == Some(None)
    ensures AsOptStr(GetOr(WireClaim(c).members, "id", JNull)) == Some(c.id)
    ensures AsStr(GetOr(WireClaim(c).members, "type", JString(DefaultClaimType))) == Some(c.claimType)
    ensures AsStr(GetOr(WireClaim(c).members, "rank", JString(DefaultRank))) == Some(c.rank)
  {
    var cm := WireClaim(c).members;
    LookupAt(cm, "mainsnak", 0);
    LookupAt(cm, "type", 1);
    LookupAt(cm, "rank", 2);
    LookupAbsent(cm, "qualifiers");
    LookupAbsent(cm, "references");
    if c.id.Some? {
      LookupAt(cm, "id", 3);
    } else {
      LookupAbsent(cm, "id");
    }
  }

  lemma WireSnakRoundTrip(s: Snak)
    requires s.datavalue.Some? ==> s.snaktype == Value && SurvivesWire(s.datavalue.value)
    ensures WireSnak(s).JObject? && Truthy(WireSnak(s))
    ensures ConvertMainsnak(WireSnak(s).members) == Some(s)
  {
    var sm := WireSnak(s).members;
    WireSnakFields(s);
    assert ParseSnakType(SnakTypeField(sm)) == Some(s.snaktype);
    if s.datavalue.Some? {
      DatavalueRoundTrip(s.datavalue.value);
      assert MainDatavalue(s.snaktype, sm) == Some(s.datavalue);
    } else {
      assert MainDatavalue(s.snaktype, sm) == Some(None);
    }
  }

  /** The fields a snak on the wire carries, as the converter reads them. */
  lemma WireSnakFields(s: Snak)
    ensures SnakTypeField(WireSnak(s).members) == JString(SnakTypeName(s.snaktype))
    ensures GetOr(WireSnak(s).members, "property", JString("")) == JString(s.property)
    ensures HasKey(WireSnak(s).members, "datavalue") <==> s.datavalue.Some?
    ensures s.datavalue.Some? ==> Lookup(WireSnak(s).members, "datavalue") == Some(WireDatavalue(s.datavalue.value))
    ensures GetOr(WireSnak(s).members, "datatype", JNull) == if s.dataType.Some? then JString(s.dataType.value) else JNull
  {
    var sm := WireSnak(s).members;
    LookupAt(sm, "snaktype", 0);
    LookupAt(sm, "property", 1);
    var next := 2;
    if s.datavalue.Some? {
      LookupAt(sm, "datavalue", 2);
      next := 3;
    } else {
      LookupAbsent(sm, "datavalue");
    }
    if s.dataType.Some? {
      LookupAt(sm, "datatype", next);
    } else {
      LookupAbsent(sm, "datatype");
    }
  }


  /**
   * The builders and the converter agree: a claim built from a plain value, written to the
   * wire and converted back, is the same claim, and the readers get the value back from it.
   */
  lemma BuiltClaimsRoundTrip(property: string, date: string, precision: int, entityId: string, value: string)
    ensures ConvertClaim(WireClaim(CreateTimeClaim(property, date, precision))) == Some(CreateTimeClaim(property, date, precision))
    ensures ExtractTime(ConvertClaim(WireClaim(CreateTimeClaim(property, date, precision))).value) == Some(TrimTime(date))
    ensures ConvertClaim(WireClaim(CreateEntityClaim(property, entityId))) == Some(CreateEntityClaim(property, entityId))
    ensures ExtractEntityId(ConvertClaim(WireClaim(CreateEntityClaim(property, entityId))).value) == Some(entityId)
    ensures ConvertClaim(WireClaim(CreateStringClaim(property, value))) == Some(CreateStringClaim(property, value))
    ensures ExtractString(ConvertClaim(WireClaim(CreateStringClaim(property, value))).value) == Some(Text(value))
  {
    WireRoundTrip(CreateTimeClaim(property, date, precision));
    TimeRoundTrip(property, date, precision);
    WireRoundTrip(CreateEntityClaim(property, entityId));
    WireRoundTrip(CreateStringClaim(property, value));
  }

  /**
   * The readers on a converted claim: a time, entity or coordinate tag always comes with its
   * record, so each reader succeeds exactly when the main snak carries its tag.
   */
  lemma ReadersOnConvertedClaims(wc: Json)
    requires ConvertClaim(wc).Some? && ConvertClaim(wc).value.mainsnak.datavalue.Some?
    ensures var c := ConvertClaim(wc).value;
      && (ExtractTime(c).Some? <==> c.mainsnak.datavalue.value.tag == TimeType)
      && (ExtractEntityId(c).Some? <==> c.mainsnak.datavalue.value.tag == WikibaseEntityType)
      && (ExtractCoordinate(c).Some? <==> c.mainsnak.datavalue.value.tag == GlobeCoordinateType)
  {
    ConvertClaimProperties(wc);
  }
}
