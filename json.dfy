/** A JSON / Python-dict value, with Python's reading operations on it:
    `d.get(k)`, truthiness, `a or b`, `int(x)` and `str(x)` for scalars. */
module Json {
  import opened Common

  datatype Json =
    | JNull
    | JBool(b: bool)
    | JInt(i: int)
    | JFloat(f: real)
    | JStr(s: string)
    | JArr(elems: seq<Json>)
    | JObj(fields: map<string, Json>)

  /** A Python dict with string keys (a Mongo document, a scrapy item, a
      parsed API object). */
  type Dict = map<string, Json>

  /** Python `d.get(k)`: None when the key is absent. */
  function Get(d: Dict, k: string): (r: Option<Json>)
    ensures r.Some? <==> k in d
    ensures r.Some? ==> r.value == d[k]
  {
    if k in d then Some(d[k]) else None
  }

  /** Python `d.get(k, default)`. */
  function GetOr(d: Dict, k: string, default: Json): (r: Json)
    ensures k in d ==> r == d[k]
    ensures k !in d ==> r == default
  {
    if k in d then d[k] else default
  }

  /** Python truthiness. */
  predicate Truthy(j: Json) {
    match j
    case JNull => false
    case JBool(b) => b
    case JInt(i) => i != 0
    case JFloat(f) => f != 0.0
    case JStr(s) => s != []
    case JArr(e) => e != []
    case JObj(m) => m != map[]
  }

  /** Python `a or b`. */
  function Or(a: Json, b: Json): (r: Json)
    ensures Truthy(a) ==> r == a
    ensures !Truthy(a) ==> r == b
  {
    if Truthy(a) then a else b
  }

  /** An optional dict lookup read as a Python value (absent reads as None). */
  function GetNull(d: Dict, k: string): Json { GetOr(d, k, JNull) }

  /** Python `int(x)`: booleans are 0/1, floats truncate toward zero, text is
      parsed as a decimal integer; None stands for the raised exception. */
  function ToInt(j: Json): (r: Option<int>)
    ensures j.JInt? ==> r == Some(j.i)
    ensures j.JNull? || j.JArr? || j.JObj? ==> r.None?
  {
    match j
    case JBool(b) => Some(if b then 1 else 0)
    case JInt(i) => Some(i)
    case JFloat(f) => Some(if f >= 0.0 then f.Floor else -((-f).Floor))
    case JStr(s) => ParseInt(s)
    case _ => None
  }

  /** Python `str(x)` for an integer. */
  function IntToString(i: int): string {
    if i < 0 then "-" + NatToString(-i) else NatToString(i)
  }

  /** Python `str(x)` for the scalars a document field holds. */
  function ToStr(j: Json): (r: string)
    ensures j.JStr? ==> r == j.s
  {
    match j
    case JNull => "None"
    case JBool(b) => if b then "True" else "False"
    case JInt(i) => IntToString(i)
    case JStr(s) => s
    case _ => ""
  }

  /** Python `isinstance(x, str)` and a text value, else "". */
  function StrOr(j: Json, default: string): string {
    if j.JStr? then j.s else default
  }

  /** Python `d.get(k) or {}` followed by further `.get` calls: the nested
      object, or the empty dict when the value is missing, falsy or not a
      dict (a non-dict truthy value makes the source raise, which every
      caller catches as a failed parse). */
  function SubDict(d: Dict, k: string): Dict {
    if k in d && d[k].JObj? then d[k].fields else map[]
  }

  /** `d[k]` as a list, or the empty list. */
  function SubList(d: Dict, k: string): seq<Json> {
    if k in d && d[k].JArr? then d[k].elems else []
  }

  /** Python `{k: v for k, v in d.items() if not k.startswith(p)}`. */
  function DropKeysWithPrefix(d: Dict, p: string): (r: Dict)
    ensures forall k :: k in r <==> k in d && !StartsWith(k, p)
    ensures forall k :: k in r ==> r[k] == d[k]
  {
    map k | k in d && !StartsWith(k, p) :: d[k]
  }

  /** Python `x.get(k, default)`: only a dict has `.get`; on anything else
      the call raises (None). */
  function Attr(x: Json, k: string, default: Json): (r: Option<Json>)
    ensures r.Some? <==> x.JObj?
    ensures x.JObj? ==> r.value == GetOr(x.fields, k, default)
  {
    if x.JObj? then Some(GetOr(x.fields, k, default)) else None
  }

  /** What a Python `for` loop over the value sees: a list's elements, a
      text's one-character texts, a dict's keys; anything else raises
      (None). The keys of a dict stand in as empty texts, since no caller
      reads the value of an element that is not a dict. */
  function Iterate(x: Json): (r: Option<seq<Json>>)
    ensures x.JArr? ==> r == Some(x.elems)
    ensures r.Some? ==> x.JArr? || forall k :: 0 <= k < |r.value| ==> r.value[k].JStr?
    ensures r.None? <==> !(x.JArr? || x.JStr? || x.JObj?)
  {
    match x
    case JArr(e) => Some(e)
    case JStr(s) => Some(seq(|s|, k requires 0 <= k < |s| => JStr([s[k]])))
    case JObj(m) => Some(seq(|m.Keys|, _ => JStr("")))
    case _ => None
  }

  /** Python `x.get(k1, {}).get(k2, {}) ... .get(kn, [])`: a walk through
      nested dicts whose last step defaults to the empty list; None when a
      step is applied to something that is not a dict. */
  function Nested(x: Json, keys: seq<string>): Option<Json>
    requires keys != []
    decreases |keys|
  {
    if |keys| == 1 then Attr(x, keys[0], JArr([]))
    else match Attr(x, keys[0], JObj(map[]))
      case None => None
      case Some(y) => Nested(y, keys[1..])
  }

  /** Walking any path through an empty dict ends at the empty list. */
  lemma {:induction false} NestedEmpty(keys: seq<string>)
    requires keys != []
    ensures Nested(JObj(map[]), keys) == Some(JArr([]))
    decreases |keys|
  {
    if |keys| > 1 {
      NestedEmpty(keys[1..]);
    }
  }
}
