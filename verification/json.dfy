/**
 * JSON-like values as the Wikidata helpers receive them (the result of parsing an API
 * response), together with the handful of Python operations those helpers apply to them:
 * `d.get(k, default)`, `d[k]`, `x[0]`, truthiness, iteration, and the field validation a
 * record class performs when it is built from such a value.
 */
module Json {
  import opened Wrappers
  import opened Strings

  /** A parsed JSON value. An object keeps its members in their order, as a Python dict does. */
  datatype Json =
    | JNull
    | JBool(b: bool)
    | JInt(i: int)
    | JReal(r: real)
    | JString(s: string)
    | JArray(items: seq<Json>)
    | JObject(members: seq<(string, Json)>)

  /** The members of a dict, in insertion order. A Python dict never repeats a key. */
  type Members = seq<(string, Json)>

  /** The outcome of Python code that may raise: `Raised` stands for any exception it lets escape. */
  datatype Outcome<+T> = Returned(value: T) | Raised {

    predicate IsFailure() {
      Raised?
    }

    function PropagateFailure<U>(): Outcome<U>
      requires Raised?
    {
      Raised
    }

    function Extract(): T
      requires Returned?
    {
      value
    }

    /** The same outcome seen through `except Exception`: an exception becomes "absent". */
    function ToOption(): (r: Option<T>)
      ensures r.Some? <==> Returned?
    {
      match this
      case Returned(v) => Some(v)
      case Raised => None
    }
  }

  /** No key appears twice: true of every dict Python builds. */
  predicate DistinctKeys(ms: Members) {
    forall i, j :: 0 <= i < j < |ms| ==> ms[i].0 != ms[j].0
  }

  /** The keys of a dict in insertion order: what `for k, v in d.items()` visits. */
  function KeyList(ms: Members): (r: seq<string>)
    ensures |r| == |ms|
    ensures forall i :: 0 <= i < |ms| ==> r[i] == ms[i].0
  {
    seq(|ms|, i requires 0 <= i < |ms| => ms[i].0)
  }

  /** `d[key]` for a dict: the value stored under `key`, if any. */
  function Lookup(ms: Members, key: string): Option<Json> {
    LookupFrom(ms, key, 0)
  }

  /** The first member at position `i` or later whose key is `key`. */
  function LookupFrom(ms: Members, key: string, i: nat): Option<Json>
    requires i <= |ms|
    decreases |ms| - i
  {
    if i == |ms| then None
    else if ms[i].0 == key then Some(ms[i].1)
    else LookupFrom(ms, key, i + 1)
  }

  /** `key in d` for a dict. */
  predicate HasKey(ms: Members, key: string) {
    Lookup(ms, key).Some?
  }

  /** A dict has a key exactly when some member carries it, and then holds that member's value. */
  lemma {:induction false} LookupFromFinds(ms: Members, key: string, i: nat)
    requires i <= |ms|
    ensures LookupFrom(ms, key, i).None? <==> forall j :: i <= j < |ms| ==> ms[j].0 != key
    ensures LookupFrom(ms, key, i).Some? ==> exists j :: i <= j < |ms| && ms[j] == (key, LookupFrom(ms, key, i).value)
    decreases |ms| - i
  {
    if i < |ms| && ms[i].0 != key {
      LookupFromFinds(ms, key, i + 1);
    }
  }

  /** The member at position `k` is the first one with its key: `d[key]` is its value. */
  lemma LookupAt(ms: Members, key: string, k: nat)
    requires k < |ms| && ms[k].0 == key
    requires forall j :: 0 <= j < k ==> ms[j].0 != key
    ensures Lookup(ms, key) == Some(ms[k].1)
  {
    LookupFromAt(ms, key, 0, k);
  }

  lemma {:induction false} LookupFromAt(ms: Members, key: string, i: nat, k: nat)
    requires i <= k < |ms| && ms[k].0 == key
    requires forall j :: i <= j < k ==> ms[j].0 != key
    ensures LookupFrom(ms, key, i) == Some(ms[k].1)
    decreases k - i
  {
    if i < k {
      LookupFromAt(ms, key, i + 1, k);
    }
  }

  /** No member has the key: `key not in d`. */
  lemma LookupAbsent(ms: Members, key: string)
    requires forall j :: 0 <= j < |ms| ==> ms[j].0 != key
    ensures Lookup(ms, key).None?
  {
    LookupFromFinds(ms, key, 0);
  }

  lemma HasKeyIffListed(ms: Members, key: string)
    ensures HasKey(ms, key) <==> key in KeyList(ms)
    ensures HasKey(ms, key) ==> (key, Lookup(ms, key).value) in ms
  {
    LookupFromFinds(ms, key, 0);
  }

  /** `d.get(key, default)` on a dict. */
  function GetOr(ms: Members, key: string, default: Json): Json {
    Lookup(ms, key).GetOr(default)
  }

  /** `x.get(key, default)` on an arbitrary value: only a dict has `.get` (AttributeError otherwise). */
  function DictGet(x: Json, key: string, default: Json): (r: Outcome<Json>)
    ensures r.Returned? <==> x.JObject?
  {
    match x
    case JObject(ms) => Returned(GetOr(ms, key, default))
    case _ => Raised
  }

  /** Python truthiness: `None`, `False`, zero, and empty strings, lists and dicts are false. */
  predicate Truthy(x: Json) {
    match x
    case JNull => false
    case JBool(b) => b
    case JInt(i) => i != 0
    case JReal(r) => r != 0.0
    case JString(s) => s != []
    case JArray(items) => items != []
    case JObject(ms) => ms != []
  }

  /**
   * The values a `for` loop visits: the items of a list, the one-character strings of a
   * string, the keys of a dict; anything else is not iterable (TypeError).
   */
  function Elements(x: Json): (r: Outcome<seq<Json>>)
    ensures x.JArray? ==> r == Returned(x.items)
  {
    match x
    case JArray(items) => Returned(items)
    case JString(s) => Returned(seq(|s|, i requires 0 <= i < |s| => JString([s[i]])))
    case JObject(ms) => Returned(seq(|ms|, i requires 0 <= i < |ms| => JString(ms[i].0)))
    case _ => Raised
  }

  /** `x[0]`; `None` when Python raises IndexError, KeyError or TypeError. */
  function Index0(x: Json): Option<Json> {
    match x
    case JArray(items) => if items == [] then None else Some(items[0])
    case JString(s) => if s == [] then None else Some(JString([s[0]]))
    case _ => None
  }

  /** `x[key]` for a string key; `None` when Python raises KeyError or TypeError. */
  function Subscript(x: Json, key: string): Option<Json> {
    match x
    case JObject(ms) => Lookup(ms, key)
    case _ => None
  }

  /** A value used as a dict (`.get`, `.items()`); anything else raises AttributeError. */
  function AsDict(x: Json): (r: Option<Members>)
    ensures r.Some? <==> x.JObject?
  {
    match x
    case JObject(ms) => Some(ms)
    case _ => None
  }

  // Field validation of a record class. `None` means the value is rejected (ValidationError).

  /** A `str` field. */
  function AsStr(x: Json): Option<string> {
    match x
    case JString(s) => Some(s)
    case _ => None
  }

  /** An `Optional[str]` field. */
  function AsOptStr(x: Json): Option<Option<string>> {
    match x
    case JNull => Some(None)
    case JString(s) => Some(Some(s))
    case _ => None
  }

  /** An `int` field: an integer, or a float without fractional part. */
  function AsInt(x: Json): Option<int> {
    match x
    case JInt(i) => Some(i)
    case JReal(r) => if r.Floor as real == r then Some(r.Floor) else None
    case _ => None
  }

  /** A `float` field. */
  function AsFloat(x: Json): Option<real> {
    match x
    case JInt(i) => Some(i as real)
    case JReal(r) => Some(r)
    case _ => None
  }

  /** An `Optional[float]` field. */
  function AsOptFloat(x: Json): Option<Option<real>> {
    match x
    case JNull => Some(None)
    case _ => match AsFloat(x) case Some(r) => Some(Some(r)) case None => None
  }

  /** A `List[str]` field. */
  function AsStrList(x: Json): Option<seq<string>> {
    match x
    case JArray(items) => StrItems(items)
    case _ => None
  }

  function StrItems(items: seq<Json>): (r: Option<seq<string>>)
    ensures r.Some? ==> |r.value| == |items|
  {
    if items == [] then Some([])
    else
      match (AsStr(items[0]), StrItems(items[1..]))
      case (Some(s), Some(rest)) => Some([s] + rest)
      case _ => None
  }
}
