/** The result every third-party hot-list aggregator returns: whether the
    fetch worked, the source it was for, the normalised items, the error
    text and a timestamp, with its dictionary form. */
module AggregatorBase {
  import opened Common
  import opened Json

  /** `AggregatorResult` without `raw_data` (the undecoded response is not
      part of the model). The timestamp is the ISO text of the clock
      reading the caller supplies. */
  datatype AggregatorResult = AggregatorResult(
    success: bool,
    source: string,
    items: seq<Dict>,
    error: Option<string>,
    timestamp: string)

  /** `count`: derived from the items, never stored. */
  function Count(r: AggregatorResult): nat { |r.items| }

  function ItemsJson(items: seq<Dict>): (j: Json)
    ensures j.JArr? && |j.elems| == |items|
    ensures forall k :: 0 <= k < |items| ==> j.elems[k] == JObj(items[k])
  {
    JArr(seq(|items|, k requires 0 <= k < |items| => JObj(items[k])))
  }

  function ErrorJson(e: Option<string>): Json {
    match e
    case None => JNull
    case Some(s) => JStr(s)
  }

  /** `to_dict`: exactly the six keys, with `count` the number of items. */
  function ToDict(r: AggregatorResult): (d: Dict)
    ensures d.Keys == {"success", "source", "items", "count", "error", "timestamp"}
    ensures d["count"] == JInt(|r.items|) && d["items"].JArr? && |d["items"].elems| == d["count"].i
  {
    map["success" := JBool(r.success),
        "source" := JStr(r.source),
        "items" := ItemsJson(r.items),
        "count" := JInt(Count(r)),
        "error" := ErrorJson(r.error),
        "timestamp" := JStr(r.timestamp)]
  }

  /** Reading a dictionary of that shape back (the inverse of `to_dict`). */
  function FromDict(d: Dict): Option<AggregatorResult> {
    if "success" in d && d["success"].JBool? && "source" in d && d["source"].JStr?
      && "items" in d && d["items"].JArr? && (forall k :: 0 <= k < |d["items"].elems| ==> d["items"].elems[k].JObj?)
      && "error" in d && (d["error"].JNull? || d["error"].JStr?)
      && "timestamp" in d && d["timestamp"].JStr?
    then
      var elems := d["items"].elems;
      Some(AggregatorResult(d["success"].b, d["source"].s,
        seq(|elems|, k requires 0 <= k < |elems| && elems[k].JObj? => elems[k].fields),
        if d["error"].JNull? then None else Some(d["error"].s),
        d["timestamp"].s))
    else None
  }

  /** `to_dict` loses nothing but the raw response: it reads back to the
      same result. */
  lemma ToDictRoundTrip(r: AggregatorResult)
    ensures FromDict(ToDict(r)) == Some(r)
  {
    var d := ToDict(r);
    var elems := d["items"].elems;
    assert seq(|elems|, k requires 0 <= k < |elems| && elems[k].JObj? => elems[k].fields) == r.items;
  }

  /** `_make_error_result`: a failure with no items. */
  function MakeErrorResult(source: string, error: string, now: string): (r: AggregatorResult)
    ensures !r.success && r.source == source && r.items == [] && r.error == Some(error)
  {
    AggregatorResult(false, source, [], Some(error), now)
  }

  /** `_make_success_result`: a success without an error. */
  function MakeSuccessResult(source: string, items: seq<Dict>, now: string): (r: AggregatorResult)
    ensures r.success && r.source == source && r.items == items && r.error.None?
  {
    AggregatorResult(true, source, items, None, now)
  }

  /** The dictionary of an error result reports failure, zero items and the
      error text; that of a success reports the item count and a null error. */
  lemma ResultDicts(source: string, error: string, items: seq<Dict>, now: string)
    ensures var d := ToDict(MakeErrorResult(source, error, now));
      d["success"] == JBool(false) && d["count"] == JInt(0) && d["items"] == JArr([]) && d["error"] == JStr(error)
    ensures var d := ToDict(MakeSuccessResult(source, items, now));
      d["success"] == JBool(true) && d["count"] == JInt(|items|) && d["error"] == JNull
  {
  }

  /** `fetch_all`: one fetch per source, in the order given, each result
      kept whether it succeeded or not; no list means every supported
      source (an empty list stays empty). `fetch` is the aggregator's own
      `fetch`; the pause between sources is a sleep and changes nothing. */
  method FetchAll(sources: Option<seq<string>>, supported: seq<string>, fetch: string -> AggregatorResult)
    returns (results: seq<AggregatorResult>)
    ensures var srcs := if sources.None? then supported else sources.value;
      |results| == |srcs| && forall k :: 0 <= k < |srcs| ==> results[k] == fetch(srcs[k])
  {
    var srcs := if sources.None? then supported else sources.value;
    results := [];
    for n := 0 to |srcs|
      invariant |results| == n && forall k :: 0 <= k < n ==> results[k] == fetch(srcs[k])
    {
      results := results + [fetch(srcs[n])];
    }
  }
}
