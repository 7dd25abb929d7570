# Wikidata claims, historical entities and their repositories, in Dafny

This project models the core of python-aws-starter, a service for historical events, the
people in them and the places where they happened. The entities are read either from an
in-memory dataset or from Wikidata. The model covers the following:

- **The Wikidata claim model** (`wikidata_meta.dfy`). It has:
  - snak types and datavalue types;
  - the typed value records (time, quantity, globe coordinate, monolingual text, entity id);
  - snaks, qualifiers, references and claims;
  - the entity accessors `get_label`, `get_description`, `get_claims` and `get_best_claim`.
- **The claim builders and readers** (`claims_utils.dfy`). These are `create_*_claim` and
  `extract_*_from_claim`. They are proved to round-trip.
- **The date-property synonym table** (`property_synonyms.dfy`). Two tables list which
  Wikidata properties mark a start and which mark an end. On top of them sit the id sets, the
  role predicates and `get_property_info`.
- **The events, geography and people records** (`events.dfy`, `geography.dfy`,
  `people.dfy`). These cover the field defaults and the `[0, 1]` confidence bound that
  validation enforces. `bounds.dfy` holds the latitude, longitude and confidence bounds.
- **The in-memory repository** (`in_memory.dfy`, `index.dfy`). This is a class whose three
  dictionaries are built from lists keyed by entity id. It has the by-id getters, the
  listings, the four relationship queries and the pivot dispatcher.
- **The conversion of raw Wikidata JSON into claim records** (`claim_conversion.dfy`). This
  is `_convert_wikidata_claim_to_claim` and `_convert_wikidata_claims`. It is checked against
  a model of the JSON the Wikidata API writes (the "wire" functions), with round-trip lemmas.
- **The pure helpers of the Wikidata utilities** (`wikidata_utils.dfy`):
  - label and description with their fallbacks;
  - the first claim value;
  - date parsing;
  - the start-date resolution of `wikidata_to_event`;
  - the geography-type decision of `wikidata_to_geography`.
- **The pure parts of the Wikidata repository** (`wikidata_repository.dfy`):
  - `_parse_time`;
  - the first-claim date extraction for people and events;
  - `pivot`, which Wikidata does not support.

`json.dfy` models the JSON values the code handles and the Python behaviour it relies on:
- dict `.get` with a default;
- subscripting that raises;
- truthiness;
- iteration over a value;
- the pydantic field validation that may reject a value.

An exception that escapes a helper is modelled as `Outcome.Raised`. A `try` that catches it
becomes an `Option` or a default. `wrappers.dfy` and `strings.dfy` hold the `Option` type
and the few string operations used.

The conversion code's own behaviour is followed exactly, including where it surprises:
- The wire names "monolingualtext" and "commonsMedia" differ from their member names
  `MONOLINGUAL_TEXT` and `COMMONS_MEDIA` by an underscore. The `hasattr` test in the fallback
  branch therefore fails for them, and such datavalues are tagged "string"
  (`FallbackTagDowngrades`).
- The start-date loop stops at the first property with a truthy value, even when that value
  yields no date. A "start time" that is a dict without "time" therefore hides "point in
  time" (`PointInTimeSkipped`).
- The first "instance of" claim whose value is a dict decides the geography type, even when
  its id is not one of the known ones (`FirstInstanceDecides`).
- The two readers of Wikidata time strings differ. The utilities strip one leading '+', the
  repository strips them all (`ParseTimeStripsEveryPlus`).
- Without a start time, the repository gives an event an empty start date. The utilities
  give it 0000-01-01 (`EventRangeWithoutStart`, `EventDatesDefault`).

## Model

| member | source | states |
|---|---|---|
| WikidataMeta.GetLabel | src/python_aws_starter/models/wikidata_meta.py:249-252 | the label in the language when it has a value, "" otherwise |
| WikidataMeta.GetDescription | src/python_aws_starter/models/wikidata_meta.py:254-257 | the description in the language when it has a value, "" otherwise |
| WikidataMeta.GetClaims | src/python_aws_starter/models/wikidata_meta.py:259-261 | the claims of a property, the empty list for a property without claims |
| WikidataMeta.FirstWithRank | src/python_aws_starter/models/wikidata_meta.py:269-277 | the index of the first claim with the rank, absent exactly when no claim has it |
| WikidataMeta.GetBestClaim | src/python_aws_starter/models/wikidata_meta.py:263-280 | absent exactly when the property has no claims; otherwise one of its claims: the first preferred, else the first normal, else the first |
| WikidataMeta.BestClaimIsTopRanked | src/python_aws_starter/models/wikidata_meta.py:263-280 | a best claim that is not preferred means no claim is preferred; one that is neither preferred nor normal means no claim is normal |
| Bounds.CheckConfidence | src/python_aws_starter/models/events.py:69-74 | a confidence is accepted exactly when it lies in [0, 1], and is kept unchanged |
| ClaimsUtils.Statement | src/python_aws_starter/models/claims_utils.py:73-83 | a built claim is a value statement of normal rank with no id, qualifiers or references, holding the given datavalue |
| ClaimsUtils.WikidataTime | src/python_aws_starter/models/claims_utils.py:57-60 | the Wikidata time string starts with '+' and has a clock part; a bare date gets both added, a signed one only the clock part when it lacks one |
| ClaimsUtils.WikidataTimeIdempotent | src/python_aws_starter/models/claims_utils.py:57-60 | converting an already converted time string changes nothing |
| ClaimsUtils.TrimTime | src/python_aws_starter/models/claims_utils.py:200-205 | the trimmed time has no 'T' and is a prefix of the time without its sign |
| ClaimsUtils.CreateTimeClaim | src/python_aws_starter/models/claims_utils.py:45-83 | a time statement whose time value is the converted date, with the given precision, the Gregorian calendar and zero offsets |
| ClaimsUtils.CreateEntityClaim | src/python_aws_starter/models/claims_utils.py:86-117 | an entity statement holding the given id and entity type |
| ClaimsUtils.CreateStringClaim | src/python_aws_starter/models/claims_utils.py:120-145 | a string statement holding the given text |
| ClaimsUtils.CreateCoordinateClaim | src/python_aws_starter/models/claims_utils.py:148-180 | built exactly when latitude and longitude are within their bounds; a coordinate statement on Earth without precision |
| ClaimsUtils.ExtractTime | src/python_aws_starter/models/claims_utils.py:183-208 | present exactly when the claim holds a time record under the time tag; then the trimmed time, without a clock part |
| ClaimsUtils.ExtractEntityId | src/python_aws_starter/models/claims_utils.py:211-230 | present exactly when the claim holds an entity record under the entity tag; then its id |
| ClaimsUtils.ExtractString | src/python_aws_starter/models/claims_utils.py:233-248 | present exactly when the main snak has a string-tagged datavalue; a string payload is returned as that text |
| ClaimsUtils.ExtractCoordinate | src/python_aws_starter/models/claims_utils.py:251-270 | present exactly when the claim holds a coordinate record under the coordinate tag; then that record's latitude and longitude, within the bounds |
| ClaimsUtils.TrimWikidataTime | src/python_aws_starter/models/claims_utils.py:57-60 | trimming a converted time gives the same as trimming the date it came from |
| ClaimsUtils.TimeRoundTrip | src/python_aws_starter/models/claims_utils.py:183-208 | reading a built time claim gives the trimmed date back |
| ClaimsUtils.BareDateRoundTrip | src/python_aws_starter/models/claims_utils.py:183-208 | a bare date without sign or clock part is read back unchanged |
| ClaimsUtils.EntityRoundTrip | src/python_aws_starter/models/claims_utils.py:211-230 | reading a built entity claim gives its id back |
| ClaimsUtils.StringRoundTrip | src/python_aws_starter/models/claims_utils.py:233-248 | reading a built string claim gives its text back |
| ClaimsUtils.CoordinateRoundTrip | src/python_aws_starter/models/claims_utils.py:251-270 | reading a built coordinate claim gives its latitude and longitude back |
| ClaimsUtils.ReadersRejectOtherKinds | src/python_aws_starter/models/claims_utils.py:183-270 | each reader returns None on a claim built by another builder |
| PropertySynonyms.GetStartDateProperties | src/python_aws_starter/models/property_synonyms.py:108-110 | exactly the start-date ids, each once |
| PropertySynonyms.GetEndDateProperties | src/python_aws_starter/models/property_synonyms.py:113-115 | exactly the end-date ids, each once |
| PropertySynonyms.FindSynonym | src/python_aws_starter/models/property_synonyms.py:136-153 | the scan finds an entry exactly when the id is in the table, and the entry it finds has that id |
| PropertySynonyms.GetPropertyInfo | src/python_aws_starter/models/property_synonyms.py:133-160 | start_date exactly for a start id, end_date exactly for an end id that is not a start id, unknown exactly for any other id; the entry is from that table; the url is always the id's Wikidata page; an unknown id gets "Unknown property" |
| PropertySynonyms.StartTableDistinct | src/python_aws_starter/models/property_synonyms.py:23-64 | no id appears twice in the start table |
| PropertySynonyms.EndTableDistinct | src/python_aws_starter/models/property_synonyms.py:67-98 | no id appears twice in the end table |
| PropertySynonyms.StartDateIdsContents | src/python_aws_starter/models/property_synonyms.py:101 | the start-date set is exactly P571, P1619, P569, P580, P585, P1319, P2031, P1249 |
| PropertySynonyms.StartDateIdsCount | src/python_aws_starter/models/property_synonyms.py:101 | there are eight start-date ids |
| PropertySynonyms.EndDateIdsContents | src/python_aws_starter/models/property_synonyms.py:102 | the end-date set is exactly P570, P582, P576, P2669, P1326, P2032 |
| PropertySynonyms.EndDateIdsCount | src/python_aws_starter/models/property_synonyms.py:102 | there are six end-date ids |
| PropertySynonyms.StartAndEndDisjoint | src/python_aws_starter/models/property_synonyms.py:101-105 | no id is both a start-date and an end-date property |
| PropertySynonyms.IsStartDateProperty | src/python_aws_starter/models/property_synonyms.py:118-120 | membership in the start-date set, which StartDateIdsContents lists |
| PropertySynonyms.IsEndDateProperty | src/python_aws_starter/models/property_synonyms.py:123-125 | membership in the end-date set, which EndDateIdsContents lists |
| PropertySynonyms.IsDateProperty | src/python_aws_starter/models/property_synonyms.py:128-130 | membership in the union of both sets; DatePropertyIsStartOrEnd states it is one or the other |
| PropertySynonyms.DatePropertyIsStartOrEnd | src/python_aws_starter/models/property_synonyms.py:118-130 | a date property is a start or an end property, never both |
| PropertySynonyms.TableUrlsArePropertyPages | src/python_aws_starter/models/property_synonyms.py:23-98 | every table entry's url is the Wikidata page of its own id |
| PropertySynonyms.StartTimeIsStartDate | src/python_aws_starter/models/property_synonyms.py:136-144 | "start time" P580 is reported as a start date |
| PropertySynonyms.InstanceOfIsUnknown | src/python_aws_starter/models/property_synonyms.py:155-160 | "instance of" P31 is reported as unknown |
| Events.NewEvent | src/python_aws_starter/models/events.py:48-80 | an event is created exactly when its confidence is in [0, 1], with the given id, authors, title, description, start and confidence, and no end, locations or people |
| Events.EventDefaults | src/python_aws_starter/models/events.py:10-80 | a date range defaults to no end and day precision; an event to no end, no locations, no people and confidence 0.5 |
| Geography.ParseGeographyType | src/python_aws_starter/models/geography.py:10-22 | a parsed type's value is the parsed string |
| Geography.GeographyTypeRoundTrip | src/python_aws_starter/models/geography.py:10-22 | every type parses back from its value |
| Geography.NewCoordinate | src/python_aws_starter/models/geography.py:25-30 | a coordinate is created exactly when latitude and longitude are within their bounds |
| Geography.NewGeography | src/python_aws_starter/models/geography.py:53-97 | a geography is created exactly when its confidence is in [0, 1], with the given id, authors, name, type, description and confidence, and no centre, parent, alternate names, children or variants |
| Geography.GeographyDefaults | src/python_aws_starter/models/geography.py:53-97 | a geography defaults to no centre, no parent, no alternate names, children or variants, and confidence 0.5 |
| People.NewPerson | src/python_aws_starter/models/people.py:28-65 | a person is created exactly when their confidence is in [0, 1], with the given id, authors, name, description and confidence, and no dates, occupations, nationalities, relations or organizations |
| People.PersonDefaults | src/python_aws_starter/models/people.py:28-65 | a person defaults to no birth date, no occupations or organizations, and confidence 0.5 |
| Index.IndexOf | src/python_aws_starter/repositories/in_memory.py:9-12 | the dictionary's keys are the ids of the list; each key maps to a list element with that id |
| Index.KeyOrder | src/python_aws_starter/repositories/in_memory.py:9-12 | the insertion order lists every key of the dictionary once |
| Index.BuildIndex | src/python_aws_starter/repositories/in_memory.py:9-12 | the loop builds that dictionary and that key order |
| Index.LastWins | src/python_aws_starter/repositories/in_memory.py:9-12 | of several elements with one id, the last one is kept |
| Index.ValuesInOrder | src/python_aws_starter/repositories/in_memory.py:25-32 | the values of the dictionary, one per key, in key order |
| Index.ValuesOfIndex | src/python_aws_starter/repositories/in_memory.py:25-32 | the listed values are exactly the stored ones, each under its own id, with no id repeated |
| Index.Resolve | src/python_aws_starter/repositories/in_memory.py:44-53 | at most one entity per id, each of them a stored one |
| Index.ResolveFindsKnown | src/python_aws_starter/repositories/in_memory.py:44-53 | every known id in the list contributes its entity |
| Index.ResolveAllKnown | src/python_aws_starter/repositories/in_memory.py:44-53 | when all ids are known, the result is their entities position by position |
| Index.ResolveDropsUnknown | src/python_aws_starter/repositories/in_memory.py:50-52 | an id with no stored entity contributes nothing, wherever it appears in the list |
| Index.ResolveAppend | src/python_aws_starter/repositories/in_memory.py:44-53 | resolving a concatenation is concatenating the resolutions |
| InMemory.EventsMatching | src/python_aws_starter/repositories/in_memory.py:35-42 | the listed events that the criterion selects, and only those |
| InMemory.EventsMatchingDistinct | src/python_aws_starter/repositories/in_memory.py:35-42 | filtering a list without repeated ids repeats none |
| InMemory.InMemoryRepository.constructor | src/python_aws_starter/repositories/in_memory.py:9-12 | the three dictionaries are the lists keyed by id, in insertion order |
| InMemory.InMemoryRepository.GetEventById | src/python_aws_starter/repositories/in_memory.py:15-16 | present exactly when the id is stored; the event stored under it, which has that id |
| InMemory.InMemoryRepository.GetPersonById | src/python_aws_starter/repositories/in_memory.py:18-19 | present exactly when the id is stored; the person stored under it, who has that id |
| InMemory.InMemoryRepository.GetGeoById | src/python_aws_starter/repositories/in_memory.py:21-22 | present exactly when the id is stored; the geography stored under it, which has that id |
| InMemory.InMemoryRepository.ListEvents | src/python_aws_starter/repositories/in_memory.py:25-26 | the stored events in insertion order, no id twice |
| InMemory.InMemoryRepository.ListEventsComplete | src/python_aws_starter/repositories/in_memory.py:25-26 | every stored event is listed and every listed event is stored under its id |
| InMemory.InMemoryRepository.ListPeople | src/python_aws_starter/repositories/in_memory.py:28-29 | the stored people in insertion order, no id twice |
| InMemory.InMemoryRepository.ListPeopleComplete | src/python_aws_starter/repositories/in_memory.py:28-29 | every stored person is listed and every listed person is stored under their id |
| InMemory.InMemoryRepository.ListGeographies | src/python_aws_starter/repositories/in_memory.py:31-32 | the stored geographies in insertion order, no id twice |
| InMemory.InMemoryRepository.ListGeographiesComplete | src/python_aws_starter/repositories/in_memory.py:31-32 | every stored geography is listed and every listed one is stored under its id |
| InMemory.InMemoryRepository.GetEventsByPerson | src/python_aws_starter/repositories/in_memory.py:35-42 | exactly the listed events whose related people include the id, in listing order, no id twice |
| InMemory.InMemoryRepository.GetPeopleByEvent | src/python_aws_starter/repositories/in_memory.py:44-53 | nothing for an unknown event; otherwise its related people that are stored, in reference order; a reference to an unstored person is dropped |
| InMemory.InMemoryRepository.GetEventsByGeo | src/python_aws_starter/repositories/in_memory.py:55-62 | exactly the listed events whose locations include the id, in listing order, no id twice |
| InMemory.InMemoryRepository.GetGeosByEvent | src/python_aws_starter/repositories/in_memory.py:64-73 | nothing for an unknown event; otherwise its locations that are stored, in reference order; a location with no stored geography is dropped |
| InMemory.InMemoryRepository.Pivot | src/python_aws_starter/repositories/in_memory.py:76-89 | each of the four dimension pairs dispatches to its query; any other pair gives the empty list |
| InMemory.IsPivotPair | src/python_aws_starter/repositories/in_memory.py:76-89 | the four (from, to) pairs the pivot routes; SameDimensionIsNotAPivot and PeopleAndPlacesAreNotAPivot state what it excludes |
| InMemory.SameDimensionIsNotAPivot | src/python_aws_starter/repositories/in_memory.py:80-85 | no dimension pivots to itself |
| InMemory.PeopleAndPlacesAreNotAPivot | src/python_aws_starter/repositories/in_memory.py:80-85 | people and geographies do not pivot to each other |
| InMemory.NapoleonEvents | src/python_aws_starter/repositories/in_memory.py:35-42 | on a three-event sample, the person query picks the two events naming the person, in order |
| ClaimConversion.ParseSnakType | src/python_aws_starter/utils/wikidata.py:221 | a snak type is recognised exactly when the value is its wire name |
| ClaimConversion.TagNamed | src/python_aws_starter/utils/wikidata.py:259 | the `hasattr` lookup finds a type exactly when the name is its member name |
| ClaimConversion.TagWithValue | src/python_aws_starter/utils/wikidata.py:259 | the enumeration lookup finds a type exactly when the string is its value |
| ClaimConversion.FallbackTag | src/python_aws_starter/utils/wikidata.py:257-259 | fails exactly when the upper-cased name is a member but the string is no value; otherwise "string" or the type whose value is the string; "string" whenever no member matches |
| ClaimConversion.CoordinateFrom | src/python_aws_starter/utils/wikidata.py:247-253 | a coordinate record holds the latitude and longitude found in the raw value |
| ClaimConversion.ConvertDatavalue | src/python_aws_starter/utils/wikidata.py:224-259 | the datavalue branch; ConvertDatavalueProperties states its contract and DatavalueRoundTrip its inverse |
| ClaimConversion.ConvertDatavalueProperties | src/python_aws_starter/utils/wikidata.py:224-259 | a converted datavalue comes from a dict and its tag and payload agree; its tag is "string" or the one the raw type names; a raw type that is not a string fails |
| ClaimConversion.ConvertMainsnak | src/python_aws_starter/utils/wikidata.py:221-266 | the main snak branch; ConvertMainsnakProperties states its contract and WireSnakRoundTrip its inverse |
| ClaimConversion.ConvertMainsnakProperties | src/python_aws_starter/utils/wikidata.py:221-266 | the snak type is the raw one; a datavalue exactly on a value snak that has one; an unknown snak type fails |
| ClaimConversion.QualifierFrom | src/python_aws_starter/utils/wikidata.py:277-286 | a qualifier carries the property it is listed under, no hash, and a "string" tag on any datavalue |
| ClaimConversion.QualifierList | src/python_aws_starter/utils/wikidata.py:276-286 | one qualifier per raw item, after those already read, each under the property |
| ClaimConversion.QualifierTableShape | src/python_aws_starter/utils/wikidata.py:271-287 | the order lists the raw keys in turn; every qualifier sits under its own property |
| ClaimConversion.ClaimQualifiers | src/python_aws_starter/utils/wikidata.py:269-287 | qualifiers and their order are present exactly when the raw claim has "qualifiers" |
| ClaimConversion.SnakList | src/python_aws_starter/utils/wikidata.py:297-303 | one reference snak per raw item |
| ClaimConversion.SnakTable | src/python_aws_starter/utils/wikidata.py:295-303 | the snak table's keys are the raw keys |
| ClaimConversion.ReferenceFrom | src/python_aws_starter/utils/wikidata.py:294-307 | a reference carries no hash |
| ClaimConversion.ReferenceList | src/python_aws_starter/utils/wikidata.py:292-307 | one reference per raw item |
| ClaimConversion.ClaimReferences | src/python_aws_starter/utils/wikidata.py:289-307 | references are present exactly when the raw claim has "references" |
| ClaimConversion.ConvertClaim | src/python_aws_starter/utils/wikidata.py:214-320 | the whole conversion of one claim; ConvertClaimProperties states its contract and WireRoundTrip its inverse |
| ClaimConversion.ConvertClaimProperties | src/python_aws_starter/utils/wikidata.py:214-320 | None for a non-dict claim, an empty main snak or an unknown snak type; otherwise the raw snak type, a datavalue exactly on a value snak with one, agreeing tag and payload, the default type and rank, and qualifiers and references exactly when present |
| ClaimConversion.ConvertWikidataClaimToClaim | src/python_aws_starter/utils/wikidata.py:214-320 | the loops compute the conversion function |
| ClaimConversion.ReadQualifiers | src/python_aws_starter/utils/wikidata.py:271-287 | the nested loops compute the qualifier table and order |
| ClaimConversion.ReadReference | src/python_aws_starter/utils/wikidata.py:294-307 | the nested loops compute one reference |
| ClaimConversion.Surviving | src/python_aws_starter/utils/wikidata.py:328-331 | the claims of a property that convert, at most one per raw claim, each the conversion of one of them |
| ClaimConversion.SurvivingKeepsAll | src/python_aws_starter/utils/wikidata.py:328-331 | when every claim converts, nothing is dropped and the order is kept |
| ClaimConversion.ClaimTable | src/python_aws_starter/utils/wikidata.py:323-332 | returns exactly when every claim list is iterable; its keys are the raw keys |
| ClaimConversion.ClaimTableKeeps | src/python_aws_starter/utils/wikidata.py:326-327 | a key not among the raw keys keeps its value |
| ClaimConversion.ClaimTableValue | src/python_aws_starter/utils/wikidata.py:326-331 | each raw key maps to the surviving conversions of its list |
| ClaimConversion.ConvertedClaimsShape | src/python_aws_starter/utils/wikidata.py:323-332 | the converted dictionary has exactly the raw keys, each mapped to its surviving claims |
| ClaimConversion.ConvertWikidataClaims | src/python_aws_starter/utils/wikidata.py:323-332 | the loops compute the converted dictionary |
| ClaimConversion.FallbackTagKeeps | src/python_aws_starter/utils/wikidata.py:259 | quantity, url and external-id keep their own tag |
| ClaimConversion.FallbackTagDowngrades | src/python_aws_starter/utils/wikidata.py:259 | monolingualtext and commonsMedia are tagged "string" |
| ClaimConversion.FallbackTagOthers | src/python_aws_starter/utils/wikidata.py:259 | a member name used as the type fails; an unknown type is tagged "string" |
| ClaimConversion.TimeWireRoundTrip | src/python_aws_starter/utils/wikidata.py:231-239 | a time record read from its wire form is itself |
| ClaimConversion.EntityWireRoundTrip | src/python_aws_starter/utils/wikidata.py:241-245 | an entity id read from its wire form is itself |
| ClaimConversion.CoordinateWireRoundTrip | src/python_aws_starter/utils/wikidata.py:247-253 | a coordinate read from its wire form is itself |
| ClaimConversion.DatavalueRoundTrip | src/python_aws_starter/utils/wikidata.py:224-259 | a datavalue whose tag and payload agree, and whose tag is not one of the two downgraded ones, converts back to itself |
| ClaimConversion.TypedDatavalueRoundTrip | src/python_aws_starter/utils/wikidata.py:231-254 | the same for time, entity and coordinate datavalues |
| ClaimConversion.UntypedDatavalueRoundTrip | src/python_aws_starter/utils/wikidata.py:255-259 | the same for the other datavalues |
| ClaimConversion.WireRoundTrip | src/python_aws_starter/utils/wikidata.py:214-320 | a claim without qualifiers or references, whose datavalue sits on a value snak and survives, converts back to itself |
| ClaimConversion.WireClaimFields | src/python_aws_starter/utils/wikidata.py:309-317 | the claim's id, type, rank and main snak are read back from the wire |
| ClaimConversion.WireSnakFields | src/python_aws_starter/utils/wikidata.py:221-266 | the snak type, property, datavalue (present exactly when the snak has one) and datatype are read back from the wire |
| ClaimConversion.WireSnakRoundTrip | src/python_aws_starter/utils/wikidata.py:221-266 | a main snak converts back to itself |
| ClaimConversion.BuiltClaimsRoundTrip | src/python_aws_starter/utils/wikidata.py:214-320 | a built time, entity or string claim converts back to itself, and its reader then gives back the value it was built from |
| ClaimConversion.ReadersOnConvertedClaims | src/python_aws_starter/models/claims_utils.py:183-270 | on a converted claim, the time, entity and coordinate readers succeed exactly when the tag is theirs |
| WikidataUtils.EntityLabel | src/python_aws_starter/utils/wikidata.py:149-158 | raises exactly when the label lookup does; the label when truthy, else the fallback's label when usable and truthy, else the entity id ("" without one); it is truthy whenever the id is |
| WikidataUtils.EntityDescription | src/python_aws_starter/utils/wikidata.py:161-170 | raises exactly when the lookup does; the description when truthy, else the fallback's description or the empty value |
| WikidataUtils.DescriptionMayBeEmpty | src/python_aws_starter/utils/wikidata.py:149-170 | an entity with only an id has an empty description but its id as label |
| WikidataUtils.ClaimValue | src/python_aws_starter/utils/wikidata.py:173-184 | None for a missing property or an empty claim list |
| WikidataUtils.ClaimValueOfWire | src/python_aws_starter/utils/wikidata.py:173-184 | on a wire claim, the main snak's payload when it is a value snak with a datavalue, None otherwise |
| WikidataUtils.ParseWikidataDate | src/python_aws_starter/utils/wikidata.py:187-211 | None for a falsy value; a string is trimmed; a dict gives None for a falsy "time", its trimmed "time" for a string, and raises otherwise; a truthy non-string non-dict raises; a date has no clock part |
| WikidataUtils.ParseWireTime | src/python_aws_starter/utils/wikidata.py:187-211 | a built time value on the wire parses to the trimmed date |
| WikidataUtils.FirstDated | src/python_aws_starter/utils/wikidata.py:344-349 | the date found has no clock part |
| WikidataUtils.EventDates | src/python_aws_starter/utils/wikidata.py:343-370 | start from P580, else P585, else P571, else 0000-01-01, end from P582; stated by EventDatesShape, EventDatesDefault and the Decides lemmas |
| WikidataUtils.ResolveEventDates | src/python_aws_starter/utils/wikidata.py:343-370 | the loop and fallbacks compute the event's date range |
| WikidataUtils.EventDatesShape | src/python_aws_starter/utils/wikidata.py:343-370 | the start date is never empty and has no clock part; day precision exactly for ten or more characters, year otherwise; the end has no clock part |
| WikidataUtils.EventDatesDefault | src/python_aws_starter/utils/wikidata.py:357-358 | without any of the four date properties, the start is 0000-01-01 at day precision and there is no end |
| WikidataUtils.StartTimeDecides | src/python_aws_starter/utils/wikidata.py:344-349 | a built "start time" claim gives the start date |
| WikidataUtils.FirstDatedDecides | src/python_aws_starter/utils/wikidata.py:351-358 | a non-empty date from the loop is the start date |
| WikidataUtils.PointInTimeDecides | src/python_aws_starter/utils/wikidata.py:344-349 | without "start time", a built "point in time" claim gives the start date |
| WikidataUtils.InceptionDecides | src/python_aws_starter/utils/wikidata.py:351-355 | without "start time" and "point in time", a built "inception" claim gives the start date |
| WikidataUtils.PointInTimeSkipped | src/python_aws_starter/utils/wikidata.py:344-349 | a "start time" dict without a time hides "point in time"; without inception the start is the default |
| WikidataUtils.InstanceKind | src/python_aws_starter/utils/wikidata.py:579-585 | country exactly for Q6256, city exactly for Q515 or Q15284, continent exactly for Q5107, other otherwise |
| WikidataUtils.KindFromInstances | src/python_aws_starter/utils/wikidata.py:575-586 | the scan over "instance of" claims; KindFromInstancesStep states each step |
| WikidataUtils.GeographyKind | src/python_aws_starter/utils/wikidata.py:572-589 | "other" without claims, else the scan's result; GeographyKindDefault, GeographyKindOfWire and FirstInstanceDecides state it |
| WikidataUtils.DetermineGeographyKind | src/python_aws_starter/utils/wikidata.py:572-589 | the loop computes the geography type |
| WikidataUtils.GeographyKindDefault | src/python_aws_starter/utils/wikidata.py:573-574 | without "instance of" the type is other |
| WikidataUtils.GeographyKindOfWire | src/python_aws_starter/utils/wikidata.py:575-586 | a built "instance of" claim first in the list decides the type by its id |
| WikidataUtils.KindFromInstancesStep | src/python_aws_starter/utils/wikidata.py:575-586 | a claim whose value is a dict decides the type by its id; any other claim is skipped |
| WikidataUtils.FirstInstanceDecides | src/python_aws_starter/utils/wikidata.py:575-586 | a first claim with an unknown id decides "other", whatever follows |
| WikidataRepository.ParseTime | src/python_aws_starter/repositories/wikidata.py:81-88 | a date exactly for a non-empty string: the string without its leading '+' characters, cut before its first 'T'; None for anything else |
| WikidataRepository.ParseTimeKeepsPlainDate | src/python_aws_starter/repositories/wikidata.py:86 | a non-empty time without leading '+' or 'T' is read unchanged |
| WikidataRepository.ParseTimeAgreesWithTrimTime | src/python_aws_starter/repositories/wikidata.py:81-88 | with at most one leading '+', the repository and the claim readers trim a time alike |
| WikidataRepository.ParseTimeStripsEveryPlus | src/python_aws_starter/repositories/wikidata.py:86 | with two leading '+', the repository strips both and the claim readers one |
| WikidataRepository.ParseWikidataTime | src/python_aws_starter/repositories/wikidata.py:81-88 | a built time string parses to the trimmed date |
| WikidataRepository.FirstClaimTime | src/python_aws_starter/repositories/wikidata.py:97-107 | None without the property; a date has no sign and no clock part |
| WikidataRepository.TimeOfClaim | src/python_aws_starter/repositories/wikidata.py:100 | the time along the path from a claim has no sign and no clock part |
| WikidataRepository.TimeOfWireClaim | src/python_aws_starter/repositories/wikidata.py:100 | the path from a time claim on the wire leads to its own time string |
| WikidataRepository.FirstClaimTimeOfWire | src/python_aws_starter/repositories/wikidata.py:97-107 | a built time claim first in the list gives the trimmed date |
| WikidataRepository.PersonDates | src/python_aws_starter/repositories/wikidata.py:95-107 | birth and death are the first-claim times of P569 and P570: absent without their properties, never with a sign or clock part |
| WikidataRepository.PersonDatesOfWire | src/python_aws_starter/repositories/wikidata.py:95-107 | built birth and death claims give their dates without the clock part |
| WikidataRepository.EventRange | src/python_aws_starter/repositories/wikidata.py:164-176 | the start is the start-time date or ""; the end is present exactly when the end-time date is non-empty; day precision |
| WikidataRepository.EventRangeWithoutStart | src/python_aws_starter/repositories/wikidata.py:176 | without start and end times the range is "" with no end |
| WikidataRepository.Pivot | src/python_aws_starter/repositories/wikidata.py:231-232 | always the empty list |

## Left out

- Network access, HTTP sessions, logging, clocks and configuration are left out. This covers
  `search_wikidata_entities`, `get_wikidata_entity`, `_search_entities`, `_fetch_entity`, the
  `search_*` functions and methods, and the export utility. The model starts from the decoded
  JSON.
- The rest of `wikidata_to_event`, `wikidata_to_person` and `wikidata_to_geography` is not
  modelled: building the final records, the location and coordinate blocks, sources and
  attributions. Only the start-date block and the geography-type block are modelled. The same
  holds for `_entity_to_person`, `_entity_to_geography` and `_entity_to_event`: only the date
  extraction is modelled.
- The outer `except Exception` of `wikidata_to_event` and of `wikidata_to_geography`, which
  turns a raised error into None, is not modelled. The helpers report the error as `Outcome.Raised`.
- Pydantic's lax coercions (a numeric string accepted as an int, and so on) are not modelled.
  Nor is its resolution of a dict payload into one of the typed records. A payload is kept as
  the string or dict it was given, and an int field accepts a JSON int or an integral float.
- Floats are modelled as reals, without rounding.
- `ExtractString`: the `str()` rendering of a non-string payload is kept symbolic, not spelled
  out as Python would print it.
- `GetStartDateProperties` and `GetEndDateProperties` list the ids in table order. Python's
  `list(set)` order is unspecified, so their contracts state only the set of ids and that none
  repeats.
- ClaimConversion.FallbackTag: `UpperSnake` upper-cases ASCII letters only, where Python's
  `upper()` covers all of Unicode. A non-ASCII type whose Python upper-case form names a member
  (for example "tıme") makes the source raise, but the model tags it "string".
- The claims of an entity are taken to be a dict in the utilities and the repository. The
  source reads them with `entity.get("claims", {})`.
- JSON objects are lists of members. A repeated key, which a decoded dict never has, is read
  from its first member by `Lookup`. The qualifier order then lists the key twice, while the
  qualifier table keeps the last list.
- The sources, dimensions, contributions, validation and base-entity modules are not part of
  this model, beyond the identity and confidence fields the entity records carry.

The source is followed where it differs from its own documentation. Two examples: the
monolingual-text and media-file tags are downgraded to "string", and the repository and the
utilities read dates differently, as described above.
