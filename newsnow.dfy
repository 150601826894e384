/** The NewsNow aggregator: one public endpoint, `/api/s?id=<source>`, for
    eighteen hot lists, whose entries name their fields in several ways.
    The HTTP exchange is a parameter, as in the official API aggregator. */
module NewsNow {
  import opened Common
  import opened Json
  import opened AggregatorBase
  import opened Enumerate

  const BaseUrl := "https://newsnow.busiyi.world"

  /** One entry of `SOURCE_MAP`: the endpoint id and the display name. */
  datatype SourceInfo = SourceInfo(id: string, name: string)

  /** `SOURCE_MAP`'s keys in their declared order. */
  const SourceKeys: seq<string> := [
    "weibo", "zhihu", "bilibili-hot-search", "toutiao", "douyin", "github-trending-today",
    "coolapk", "tieba", "wallstreetcn", "thepaper", "cls-hot", "xueqiu", "baidu", "36kr",
    "sspai", "ithome", "juejin", "v2ex"]

  const SourceMap: map<string, SourceInfo> := map[
    "weibo" := SourceInfo("weibo", "微博热搜"),
    "zhihu" := SourceInfo("zhihu", "知乎热榜"),
    "bilibili-hot-search" := SourceInfo("bilibili-hot-search", "B站热搜"),
    "toutiao" := SourceInfo("toutiao", "今日头条"),
    "douyin" := SourceInfo("douyin", "抖音热搜"),
    "github-trending-today" := SourceInfo("github-trending-today", "GitHub Trending"),
    "coolapk" := SourceInfo("coolapk", "酷安热榜"),
    "tieba" := SourceInfo("tieba", "贴吧热议"),
    "wallstreetcn" := SourceInfo("wallstreetcn", "华尔街见闻"),
    "thepaper" := SourceInfo("thepaper", "澎湃新闻"),
    "cls-hot" := SourceInfo("cls-hot", "财联社热榜"),
    "xueqiu" := SourceInfo("xueqiu", "雪球热帖"),
    "baidu" := SourceInfo("baidu", "百度热搜"),
    "36kr" := SourceInfo("36kr", "36氪"),
    "sspai" := SourceInfo("sspai", "少数派"),
    "ithome" := SourceInfo("ithome", "IT之家"),
    "juejin" := SourceInfo("juejin", "掘金"),
    "v2ex" := SourceInfo("v2ex", "V2EX")]

  /** `get_supported_sources`: every configured source, once each. */
  function SupportedSources(): (r: seq<string>)
    ensures forall s :: s in r <==> s in SourceMap
    ensures Distinct(r) && |r| == 18
  {
    SourceKeys
  }

  /** `get_source_name`: the display name, or the source itself. */
  function SourceName(source: string): (n: string)
    ensures source in SourceMap ==> n == SourceMap[source].name
    ensures source !in SourceMap ==> n == source
  {
    if source in SourceMap then SourceMap[source].name else source
  }

  /** Every configured source is fetched under its own name. */
  lemma IdsAreKeys()
    ensures forall s :: s in SourceMap ==> SourceMap[s].id == s
  {
  }

  /** Python `f.get(k1) or f.get(k2) or ... or f.get(kn)`: the first truthy
      value, else the last one read. */
  function FirstTruthy(f: Dict, keys: seq<string>): Json
    requires keys != []
  {
    if |keys| == 1 then GetNull(f, keys[0])
    else Or(GetNull(f, keys[0]), FirstTruthy(f, keys[1..]))
  }

  /** The title: `title`, else `name`, else `word`, else `query`. */
  function TitleOf(f: Dict): Json {
    FirstTruthy(f, ["title", "name", "word", "query"])
  }

  /** The link: `url`, else `link`, else `mobileUrl`, else "". */
  function UrlOf(f: Dict): Json {
    Or(FirstTruthy(f, ["url", "link", "mobileUrl"]), JStr(""))
  }

  /** The heat: `hot`, else `hotValue`, `heat`, `score`, and finally `num`
      whatever it holds. */
  function HotOf(f: Dict): Json {
    FirstTruthy(f, ["hot", "hotValue", "heat", "score", "num"])
  }

  /** The entry's own fields that are kept when present and truthy. */
  const ExtraFields: seq<string> := ["desc", "description", "pic", "image", "category", "tag"]

  /** The `hot_value` stored for a heat: its integer value, or 0 when
      `int()` rejects it. */
  function HotValue(hot: Json): int {
    var n := ToInt(hot);
    if n.Some? then n.value else 0
  }

  /** The normalised item before the extra fields are copied. */
  function BaseItem(title: string, url: Json, rank: nat, source: string, hot: Json): (r: Dict)
    ensures r.Keys == if hot.JNull? then {"title", "url", "position", "platform"}
      else {"title", "url", "position", "platform", "hot_value"}
  {
    var m := map["title" := JStr(title), "url" := url, "position" := JInt(rank), "platform" := JStr(source)];
    if hot.JNull? then m else m["hot_value" := JInt(HotValue(hot))]
  }

  function BaseOf(f: Dict, source: string, rank: nat): Dict {
    BaseItem(Strip(ToStr(TitleOf(f))), UrlOf(f), rank, source, HotOf(f))
  }

  /** `result` with those of the first `n` of `fields` that `f` holds
      truthy, copied from `f`. */
  function WithTruthy(result: Dict, f: Dict, fields: seq<string>, n: nat): Dict
    requires n <= |fields|
  {
    if n == 0 then result
    else
      var k := fields[n - 1];
      var r := WithTruthy(result, f, fields, n - 1);
      if k in f && Truthy(f[k]) then r[k := f[k]] else r
  }

  /** The normalised item of a dict entry. */
  function Normalised(f: Dict, source: string, rank: nat): Dict {
    WithTruthy(BaseOf(f, source, rank), f, ExtraFields, |ExtraFields|)
  }

  /** `_parse_single_item`, as a value: None for an entry that is not a dict
      or has no truthy title. */
  function ItemOf(e: Json, source: string, rank: nat): Option<Dict> {
    if !e.JObj? || !Truthy(TitleOf(e.fields)) then None
    else Some(Normalised(e.fields, source, rank))
  }

  /** A key outside the copied fields keeps its place and value. */
  lemma {:induction false} WithTruthyOther(result: Dict, f: Dict, fields: seq<string>, n: nat, k: string)
    requires n <= |fields| && k !in fields
    ensures var r := WithTruthy(result, f, fields, n);
      (k in r <==> k in result) && (k in r ==> r[k] == result[k])
  {
    if n > 0 {
      WithTruthyOther(result, f, fields, n - 1, k);
    }
  }

  /** A copied field that was not there before is present exactly when `f`
      holds it truthy, with `f`'s value. */
  lemma {:induction false} WithTruthyField(result: Dict, f: Dict, fields: seq<string>, n: nat, k: string)
    requires n <= |fields| && k in fields[..n] && k !in result
    ensures var r := WithTruthy(result, f, fields, n);
      (k in r <==> k in f && Truthy(f[k])) && (k in r ==> r[k] == f[k])
  {
    var r := WithTruthy(result, f, fields, n);
    if fields[n - 1] != k {
      assert k in fields[..n - 1] by {
        var j :| 0 <= j < n && fields[..n][j] == k;
        assert j < n - 1;
        assert fields[..n - 1][j] == k;
      }
      WithTruthyField(result, f, fields, n - 1, k);
    } else if k !in f || !Truthy(f[k]) {
      WithTruthyAbsent(result, f, fields, n - 1, k);
    }
  }

  /** The same, over the whole list of copied fields. */
  lemma WithTruthyAll(result: Dict, f: Dict, fields: seq<string>, k: string)
    requires k in fields && k !in result
    ensures var r := WithTruthy(result, f, fields, |fields|);
      (k in r <==> k in f && Truthy(f[k])) && (k in r ==> r[k] == f[k])
  {
    assert fields[..|fields|] == fields;
    WithTruthyField(result, f, fields, |fields|, k);
  }

  /** A field not there before stays absent while `f` does not hold it
      truthy. */
  lemma {:induction false} WithTruthyAbsent(result: Dict, f: Dict, fields: seq<string>, n: nat, k: string)
    requires n <= |fields| && k !in result && (k !in f || !Truthy(f[k]))
    ensures k !in WithTruthy(result, f, fields, n)
  {
    if n > 0 {
      WithTruthyAbsent(result, f, fields, n - 1, k);
    }
  }

  /** The base item has none of the extra fields. */
  lemma BaseHasNoExtras(title: string, url: Json, rank: nat, source: string, hot: Json)
    ensures forall k :: k in ExtraFields ==> k !in BaseItem(title, url, rank, source, hot)
  {
  }

  /** `_parse_single_item` gives None exactly for an entry that is not a
      dict or lacks a truthy title. */
  lemma ItemOfNone(e: Json, source: string, rank: nat)
    ensures ItemOf(e, source, rank).None? <==> !e.JObj? || !Truthy(TitleOf(e.fields))
  {
  }

  /** Copying the extra fields leaves the base fields as they were. */
  lemma ExtrasKeepBase(title: string, url: Json, rank: nat, source: string, hot: Json, f: Dict)
    ensures var r := WithTruthy(BaseItem(title, url, rank, source, hot), f, ExtraFields, |ExtraFields|);
      && "title" in r && r["title"] == JStr(title)
      && "url" in r && r["url"] == url
      && "position" in r && r["position"] == JInt(rank)
      && "platform" in r && r["platform"] == JStr(source)
      && ("hot_value" in r <==> !hot.JNull?)
      && ("hot_value" in r ==> r["hot_value"] == JInt(HotValue(hot)))
  {
    var base := BaseItem(title, url, rank, source, hot);
    BaseHasNoExtras(title, url, rank, source, hot);
    WithTruthyKeeps(base, f, ExtraFields);
    assert "hot_value" !in ExtraFields;
    WithTruthyOther(base, f, ExtraFields, |ExtraFields|, "hot_value");
  }

  /** Copying fields the result does not have yet keeps what it has. */
  lemma WithTruthyKeeps(result: Dict, f: Dict, fields: seq<string>)
    requires forall k :: k in fields ==> k !in result
    ensures var r := WithTruthy(result, f, fields, |fields|);
      forall k :: k in result ==> k in r && r[k] == result[k]
  {
    forall k | k in result
      ensures var r := WithTruthy(result, f, fields, |fields|); k in r && r[k] == result[k]
    {
      WithTruthyOther(result, f, fields, |fields|, k);
    }
  }

  /** Otherwise the item has the title as stripped text, the first truthy
      link, the rank and the source as platform, and a `hot_value` exactly
      when the heat chain ends in something other than None, always an
      integer. */
  lemma ItemOfBase(e: Json, source: string, rank: nat)
    requires ItemOf(e, source, rank).Some?
    ensures var f := e.fields;
      var r := ItemOf(e, source, rank).value;
      && "title" in r && r["title"] == JStr(Strip(ToStr(TitleOf(f))))
      && "url" in r && r["url"] == UrlOf(f)
      && "position" in r && r["position"] == JInt(rank)
      && "platform" in r && r["platform"] == JStr(source)
      && ("hot_value" in r <==> !HotOf(f).JNull?)
      && ("hot_value" in r ==> r["hot_value"] == JInt(HotValue(HotOf(f))))
  {
    var f := e.fields;
    ExtrasKeepBase(Strip(ToStr(TitleOf(f))), UrlOf(f), rank, source, HotOf(f), f);
  }

  /** ... and each extra field exactly when the entry holds it truthy, with
      the entry's value. */
  lemma ItemOfExtras(e: Json, source: string, rank: nat, k: string)
    requires ItemOf(e, source, rank).Some? && k in ExtraFields
    ensures var r := ItemOf(e, source, rank).value;
      (k in r <==> k in e.fields && Truthy(e.fields[k])) && (k in r ==> r[k] == e.fields[k])
  {
    var f := e.fields;
    var base := BaseOf(f, source, rank);
    assert ItemOf(e, source, rank).value == WithTruthy(base, f, ExtraFields, |ExtraFields|);
    BaseHasNoExtras(Strip(ToStr(TitleOf(f))), UrlOf(f), rank, source, HotOf(f));
    WithTruthyAll(base, f, ExtraFields, k);
  }

  /** The loop that copies the extra fields one by one. */
  method CopyTruthy(result: Dict, f: Dict, fields: seq<string>) returns (r: Dict)
    ensures r == WithTruthy(result, f, fields, |fields|)
  {
    r := result;
    var i := 0;
    while i < |fields|
      invariant 0 <= i <= |fields|
      invariant r == WithTruthy(result, f, fields, i)
    {
      var field := fields[i];
      if field in f && Truthy(f[field]) {
        r := r[field := f[field]];
      }
      i := i + 1;
    }
  }

  /** `_parse_single_item`. */
  method ParseSingleItem(item: Json, source: string, rank: nat) returns (r: Option<Dict>)
    ensures r == ItemOf(item, source, rank)
  {
    if !item.JObj? || !Truthy(TitleOf(item.fields)) {
      return None;
    }
    var result := CopyTruthy(BaseOf(item.fields, source, rank), item.fields, ExtraFields);
    return Some(result);
  }

  /** The loop step of `_parse_items`: an entry that does not parse is
      skipped, none raises. */
  function ItemStep(e: Json, source: string, rank: nat): Step {
    match ItemOf(e, source, rank)
    case None => Skip
    case Some(d) => Keep(d)
  }

  function Stepper(source: string): (Json, nat) -> Step {
    (e: Json, rank: nat) => ItemStep(e, source, rank)
  }

  /** The list `_parse_items` walks: a dict's `items`, else its `data`; a
      list itself; nothing for anything else. None when the chosen value
      cannot be iterated. */
  function RawItems(data: Json): Option<seq<Json>> {
    if data.JObj? then Iterate(Or(GetOr(data.fields, "items", JArr([])), GetOr(data.fields, "data", JArr([]))))
    else if data.JArr? then Some(data.elems)
    else Some([])
  }

  /** `_parse_items`, as a value; None stands for the exception a
      non-iterable list raises. */
  function Parsed(data: Json, source: string): Option<seq<Dict>> {
    match RawItems(data)
    case None => None
    case Some(raw) => Enumerated(raw, Stepper(source))
  }

  method ParseItems(data: Json, source: string) returns (items: Option<seq<Dict>>)
    ensures items == Parsed(data, source)
  {
    var raw := RawItems(data);
    if raw.None? {
      return None;
    }
    var entries := raw.value;
    var collected: seq<Dict> := [];
    var i := 0;
    while i < |entries|
      invariant 0 <= i <= |entries|
      invariant Enumerated(entries[..i], Stepper(source)) == Some(collected)
    {
      EnumeratedSnoc(entries, i, Stepper(source));
      var parsed := ParseSingleItem(entries[i], source, i + 1);
      if parsed.Some? {
        collected := collected + [parsed.value];
      }
      i := i + 1;
    }
    assert entries[..i] == entries;
    return Some(collected);
  }

  /** Parsing fails only when the dict's list is not iterable: a list
      response, or a response that is neither dict nor list, always
      parses. */
  lemma {:induction false} ParseFailsOnlyOnBadList(data: Json, source: string)
    ensures Parsed(data, source).None? <==>
      data.JObj? && RawItems(data).None?
  {
    if RawItems(data).Some? {
      var raw := RawItems(data).value;
      EnumeratedFails(raw, Stepper(source));
      forall i | 0 <= i < |raw| ensures !Stepper(source)(raw[i], i + 1).Raise? { }
    }
  }

  /** What every parsed item carries: a title that is stripped text, the
      source as platform and its rank as position. */
  predicate NormalItem(item: Dict, source: string, rank: nat) {
    "title" in item && item["title"].JStr? && Strip(item["title"].s) == item["title"].s
    && "platform" in item && item["platform"] == JStr(source)
    && "position" in item && item["position"] == JInt(rank)
  }

  lemma KeptIsNormal(e: Json, source: string, rank: nat)
    requires Stepper(source)(e, rank).Keep?
    ensures NormalItem(Stepper(source)(e, rank).item, source, rank)
  {
    ItemOfBase(e, source, rank);
    StripIdempotent(ToStr(TitleOf(e.fields)));
  }

  /** Every parsed item carries a stripped text title and the source as its
      platform, and the positions are the ranks in the raw list, strictly
      increasing. */
  lemma ParsedItems(data: Json, source: string)
    requires Parsed(data, source).Some?
    ensures var items := Parsed(data, source).value;
      (forall k :: 0 <= k < |items| ==>
        "title" in items[k] && items[k]["title"].JStr? && Strip(items[k]["title"].s) == items[k]["title"].s
        && "platform" in items[k] && items[k]["platform"] == JStr(source)
        && "position" in items[k] && items[k]["position"].JInt? && items[k]["position"].i >= 1)
      && forall i, j :: 0 <= i < j < |items| ==> items[i]["position"].i < items[j]["position"].i
  {
    var raw := RawItems(data).value;
    assert Parsed(data, source) == Enumerated(raw, Stepper(source));
    StepperPositions(source);
    EnumeratedPositions(raw, Stepper(source));
    EnumeratedTitled(raw, source);
  }

  /** The source's item builder stamps every kept item with its rank. */
  lemma StepperPositions(source: string)
    ensures PositionsAreRanks(Stepper(source))
  {
    forall e: Json, rank: nat | Stepper(source)(e, rank).Keep?
      ensures "position" in Stepper(source)(e, rank).item && Stepper(source)(e, rank).item["position"] == JInt(rank)
    {
      KeptIsNormal(e, source, rank);
    }
  }

  /** A stripped text title and the source as platform. */
  predicate Titled(item: Dict, source: string) {
    "title" in item && item["title"].JStr? && Strip(item["title"].s) == item["title"].s
    && "platform" in item && item["platform"] == JStr(source)
  }

  /** Every item enumerated from a raw list has a stripped text title and
      the source as its platform. */
  lemma EnumeratedTitled(raw: seq<Json>, source: string)
    requires Enumerated(raw, Stepper(source)).Some?
    ensures var items := Enumerated(raw, Stepper(source)).value;
      forall k :: 0 <= k < |items| ==> Titled(items[k], source)
  {
    var P := (item: Dict) => Titled(item, source);
    forall e: Json, rank: nat | Stepper(source)(e, rank).Keep?
      ensures P(Stepper(source)(e, rank).item)
    {
      KeptIsNormal(e, source, rank);
    }
    EnumeratedKeepsOnly(raw, Stepper(source), P);
  }

  /** `fetch`, given the decoded response (or the error text of the failed
      request) and the text of the exception a parse failure raises. The
      URL is None for an unsupported source, which fails without a
      request. */
  method Fetch(source: string, response: Result<Json, string>, parseError: string, now: string)
    returns (url: Option<string>, r: AggregatorResult)
    ensures url.Some? <==> source in SourceMap
    ensures url.Some? ==> url.value == BaseUrl + "/api/s?id=" + source
    ensures source !in SourceMap ==> r == MakeErrorResult(source, "不支持的数据源: " + source, now)
    ensures source in SourceMap && response.Err? ==> r == MakeErrorResult(source, response.error, now)
    ensures source in SourceMap && response.Ok? && Parsed(response.value, source).None? ==>
      r == MakeErrorResult(source, parseError, now)
    ensures source in SourceMap && response.Ok? && Parsed(response.value, source).Some? ==>
      r == MakeSuccessResult(source, Parsed(response.value, source).value, now)
  {
    if source !in SourceMap {
      return None, MakeErrorResult(source, "不支持的数据源: " + source, now);
    }
    url := Some(BaseUrl + "/api/s?id=" + SourceMap[source].id);
    if response.Err? {
      return url, MakeErrorResult(source, response.error, now);
    }
    var items := ParseItems(response.value, source);
    if items.None? {
      r := MakeErrorResult(source, parseError, now);
    } else {
      r := MakeSuccessResult(source, items.value, now);
    }
  }
}
