/** The aggregator that calls the platforms' own public hot-list APIs:
    Baidu, Douyin, Tieba, Juejin and Bilibili's hot search words. The HTTP
    exchange is a parameter: the decoded response body, or the text of the
    exception the request raised. */
module Official {
  import opened Common
  import opened Json
  import opened AggregatorBase
  import opened Enumerate

  datatype HttpMethod = Get | Post

  /** One entry of `SOURCE_MAP`. */
  datatype SourceInfo = SourceInfo(name: string, url: string, verb: HttpMethod, payload: Option<Dict>)

  /** The request `fetch` sends: JSON payload only for a POST. */
  datatype HttpRequest = HttpRequest(verb: HttpMethod, url: string, body: Option<Dict>)

  /** `SOURCE_MAP`'s keys in their declared order. */
  const SourceKeys: seq<string> := ["baidu", "douyin", "tieba", "juejin", "bilibili_search"]

  const JuejinPayload: Dict :=
    map["id_type" := JInt(2), "sort_type" := JInt(3), "cursor" := JStr("0"), "limit" := JInt(50)]

  const SourceMap: map<string, SourceInfo> := map[
    "baidu" := SourceInfo("百度热搜", "https://top.baidu.com/api/board?platform=wise&tab=realtime", Get, None),
    "douyin" := SourceInfo("抖音热搜", "https://www.douyin.com/aweme/v1/web/hot/search/list/", Get, None),
    "tieba" := SourceInfo("贴吧热议", "https://tieba.baidu.com/hottopic/browse/topicList", Get, None),
    "juejin" := SourceInfo("掘金热榜", "https://api.juejin.cn/recommend_api/v1/article/recommend_all_feed", Post, Some(JuejinPayload)),
    "bilibili_search" := SourceInfo("B站热搜词", "https://s.search.bilibili.com/main/hotword", Get, None)]

  /** `get_supported_sources`: every configured source, once each. */
  function SupportedSources(): (r: seq<string>)
    ensures forall s :: s in r <==> s in SourceMap
    ensures forall i, j :: 0 <= i < j < |r| ==> r[i] != r[j]
  {
    SourceKeys
  }

  /** `get_source_name`: the display name, or the source itself when it is
      not configured. */
  function SourceName(source: string): (n: string)
    ensures source in SourceMap ==> n == SourceMap[source].name
    ensures source !in SourceMap ==> n == source
  {
    if source in SourceMap then SourceMap[source].name else source
  }

  /** The platform a source's items are tagged with. */
  function PlatformOf(source: string): string {
    if source == "bilibili_search" then "bilibili" else source
  }

  /** What every kept item has in common: a truthy title, the rank as its
      position and the platform tag. */
  predicate HotItem(item: Dict, rank: nat, platform: string) {
    "title" in item && Truthy(item["title"])
    && "position" in item && item["position"] == JInt(rank)
    && "platform" in item && item["platform"] == JStr(platform)
  }

  /** One Baidu card entry: the `word`, else the `query`, as title; the URL
      defaults to a search for the title. */
  function BaiduEntry(e: Json, rank: nat): (s: Step)
    ensures s.Raise? <==> !e.JObj?
    ensures e.JObj? ==> (s.Skip? <==> !Truthy(Or(GetNull(e.fields, "word"), GetNull(e.fields, "query"))))
    ensures s.Keep? ==> (HotItem(s.item, rank, "baidu")
      && s.item.Keys == {"title", "url", "position", "platform", "hot_value", "description"}
      && s.item["title"] == Or(GetNull(e.fields, "word"), GetNull(e.fields, "query"))
      && ("url" !in e.fields ==> s.item["url"] == JStr("https://www.baidu.com/s?wd=" + ToStr(s.item["title"]))))
  {
    if !e.JObj? then Raise
    else
      var f := e.fields;
      var title := Or(GetNull(f, "word"), GetNull(f, "query"));
      if !Truthy(title) then Skip
      else Keep(map[
        "title" := title,
        "url" := GetOr(f, "url", JStr("https://www.baidu.com/s?wd=" + ToStr(title))),
        "position" := JInt(rank),
        "platform" := JStr("baidu"),
        "hot_value" := GetOr(f, "hotScore", JInt(0)),
        "description" := GetOr(f, "desc", JStr(""))])
  }

  /** One Douyin hot word: the URL is the search page of the word. */
  function DouyinEntry(e: Json, rank: nat): (s: Step)
    ensures s.Raise? <==> !e.JObj?
    ensures e.JObj? ==> (s.Skip? <==> !Truthy(GetNull(e.fields, "word")))
    ensures s.Keep? ==> (HotItem(s.item, rank, "douyin")
      && s.item.Keys == {"title", "url", "position", "platform", "hot_value"}
      && s.item["title"] == e.fields["word"]
      && s.item["url"] == JStr("https://www.douyin.com/search/" + ToStr(e.fields["word"])))
  {
    if !e.JObj? then Raise
    else
      var f := e.fields;
      var title := GetNull(f, "word");
      if !Truthy(title) then Skip
      else Keep(map[
        "title" := title,
        "url" := JStr("https://www.douyin.com/search/" + ToStr(title)),
        "position" := JInt(rank),
        "platform" := JStr("douyin"),
        "hot_value" := GetOr(f, "hot_value", JInt(0))])
  }

  /** One Tieba topic: its own `topic_url`, or "". */
  function TiebaEntry(e: Json, rank: nat): (s: Step)
    ensures s.Raise? <==> !e.JObj?
    ensures e.JObj? ==> (s.Skip? <==> !Truthy(GetNull(e.fields, "topic_name")))
    ensures s.Keep? ==> (HotItem(s.item, rank, "tieba")
      && s.item.Keys == {"title", "url", "position", "platform", "hot_value"}
      && s.item["title"] == e.fields["topic_name"]
      && s.item["url"] == GetOr(e.fields, "topic_url", JStr("")))
  {
    if !e.JObj? then Raise
    else
      var f := e.fields;
      var title := GetNull(f, "topic_name");
      if !Truthy(title) then Skip
      else Keep(map[
        "title" := title,
        "url" := GetOr(f, "topic_url", JStr("")),
        "position" := JInt(rank),
        "platform" := JStr("tieba"),
        "hot_value" := GetOr(f, "discuss_num", JInt(0))])
  }

  /** The `article_info` and `author_user_info` of a Juejin feed entry. */
  function JuejinArticle(f: Dict): Json { GetOr(f, "article_info", JObj(map[])) }
  function JuejinAuthor(f: Dict): Json { GetOr(f, "author_user_info", JObj(map[])) }

  /** One Juejin feed entry. It raises when the entry, its article, or (for
      an entry that is kept) its author is not a dict; the URL is the post
      page when the article id is truthy, else "". */
  function JuejinEntry(e: Json, rank: nat): (s: Step)
    ensures s.Raise? <==> (!e.JObj? || !JuejinArticle(e.fields).JObj?
      || (Truthy(GetNull(JuejinArticle(e.fields).fields, "title")) && !JuejinAuthor(e.fields).JObj?))
    ensures e.JObj? && JuejinArticle(e.fields).JObj? ==>
      (s.Skip? <==> !Truthy(GetNull(JuejinArticle(e.fields).fields, "title")))
    ensures s.Keep? ==> (HotItem(s.item, rank, "juejin")
      && s.item.Keys == {"title", "url", "position", "platform", "hot_value", "likes", "replies", "author", "description"}
      && s.item["author"] == GetNull(JuejinAuthor(e.fields).fields, "user_name")
      && var id := GetOr(JuejinArticle(e.fields).fields, "article_id", JStr(""));
        s.item["url"] == JStr(if Truthy(id) then "https://juejin.cn/post/" + ToStr(id) else ""))
  {
    if !e.JObj? then Raise
    else
      var article := JuejinArticle(e.fields);
      var author := JuejinAuthor(e.fields);
      if !article.JObj? then Raise
      else
        var a := article.fields;
        var title := GetNull(a, "title");
        if !Truthy(title) then Skip
        else if !author.JObj? then Raise
        else
          Keep(JuejinItem(a, author.fields, rank))
  }

  /** The document built from a Juejin article whose title is truthy. */
  function JuejinItem(a: Dict, author: Dict, rank: nat): (item: Dict)
    requires Truthy(GetNull(a, "title"))
    ensures HotItem(item, rank, "juejin")
    ensures item.Keys == {"title", "url", "position", "platform", "hot_value", "likes", "replies", "author", "description"}
    ensures item["author"] == GetNull(author, "user_name")
    ensures var id := GetOr(a, "article_id", JStr(""));
      item["url"] == JStr(if Truthy(id) then "https://juejin.cn/post/" + ToStr(id) else "")
  {
    var id := GetOr(a, "article_id", JStr(""));
    map[
      "title" := GetNull(a, "title"),
      "url" := JStr(if Truthy(id) then "https://juejin.cn/post/" + ToStr(id) else ""),
      "position" := JInt(rank),
      "platform" := JStr("juejin"),
      "hot_value" := GetOr(a, "view_count", JInt(0)),
      "likes" := GetOr(a, "digg_count", JInt(0)),
      "replies" := GetOr(a, "comment_count", JInt(0)),
      "author" := GetNull(author, "user_name"),
      "description" := GetNull(a, "brief_content")]
  }

  /** One Bilibili hot word: the `keyword`, else the `show_name`; tagged
      with the platform "bilibili". */
  function BilibiliEntry(e: Json, rank: nat): (s: Step)
    ensures s.Raise? <==> !e.JObj?
    ensures e.JObj? ==> (s.Skip? <==> !Truthy(Or(GetNull(e.fields, "keyword"), GetNull(e.fields, "show_name"))))
    ensures s.Keep? ==> (HotItem(s.item, rank, "bilibili")
      && s.item.Keys == {"title", "url", "position", "platform", "hot_value"}
      && s.item["url"] == JStr("https://search.bilibili.com/all?keyword=" + ToStr(s.item["title"])))
  {
    if !e.JObj? then Raise
    else
      var f := e.fields;
      var title := Or(GetNull(f, "keyword"), GetNull(f, "show_name"));
      if !Truthy(title) then Skip
      else Keep(map[
        "title" := title,
        "url" := JStr("https://search.bilibili.com/all?keyword=" + ToStr(title)),
        "position" := JInt(rank),
        "platform" := JStr("bilibili"),
        "hot_value" := GetOr(f, "hot_id", JInt(0))])
  }

  /** The per-entry step of each configured source. */
  function Builder(source: string): (Json, nat) -> Step
    requires source in SourceMap
  {
    if source == "baidu" then BaiduEntry
    else if source == "douyin" then DouyinEntry
    else if source == "tieba" then TiebaEntry
    else if source == "juejin" then JuejinEntry
    else BilibiliEntry
  }

  /** The raw list each parser walks; None when reaching it raises. Baidu
      reads the `content` of the first card, and only when `cards` is
      truthy; a truthy `cards` that is not a list raises. */
  function RawEntries(data: Json, source: string): Option<seq<Json>>
    requires source in SourceMap
  {
    if source == "baidu" then
      match Nested(data, ["data", "cards"])
      case None => None
      case Some(cards) =>
        if !Truthy(cards) then Some([])
        else if !cards.JArr? then None
        else match Attr(cards.elems[0], "content", JArr([]))
          case None => None
          case Some(content) => Iterate(content)
    else
      var path := if source == "douyin" then ["data", "word_list"]
        else if source == "tieba" then ["data", "bang_topic", "topic_list"]
        else if source == "juejin" then ["data"]
        else ["list"];
      match Nested(data, path)
      case None => None
      case Some(list) => Iterate(list)
  }

  /** `_parse_by_source`: the items of a configured source, the empty list
      for any other; None stands for the exception a malformed response
      raises. */
  function Parsed(data: Json, source: string): Option<seq<Dict>> {
    if source !in SourceMap then Some([])
    else match RawEntries(data, source)
      case None => None
      case Some(raw) => Enumerated(raw, Builder(source))
  }

  method ParseBySource(data: Json, source: string) returns (items: Option<seq<Dict>>)
    ensures items == Parsed(data, source)
  {
    if source !in SourceMap {
      return Some([]);
    }
    var raw := RawEntries(data, source);
    if raw.None? {
      return None;
    }
    items := ParseEntries(raw.value, Builder(source));
  }

  lemma BuilderItems(source: string, e: Json, rank: nat)
    requires source in SourceMap
    ensures Builder(source)(e, rank).Keep? ==> HotItem(Builder(source)(e, rank).item, rank, PlatformOf(source))
  {
    SourceCases(source);
  }

  /** The configured sources, one by one. */
  lemma SourceCases(source: string)
    requires source in SourceMap
    ensures source == "baidu" || source == "douyin" || source == "tieba" || source == "juejin" || source == "bilibili_search"
  {
  }

  /** Every parsed item has a truthy title and its source's platform tag,
      and the positions are the items' ranks in the raw list, strictly
      increasing (entries without a title leave gaps). */
  lemma ParsedItems(data: Json, source: string)
    requires source in SourceMap && Parsed(data, source).Some?
    ensures var items := Parsed(data, source).value;
      (forall k :: 0 <= k < |items| ==>
        "title" in items[k] && Truthy(items[k]["title"])
        && "platform" in items[k] && items[k]["platform"] == JStr(PlatformOf(source))
        && "position" in items[k] && items[k]["position"].JInt? && items[k]["position"].i >= 1)
      && forall i, j :: 0 <= i < j < |items| ==> items[i]["position"].i < items[j]["position"].i
  {
    var raw := RawEntries(data, source).value;
    assert Parsed(data, source) == Enumerated(raw, Builder(source));
    var P := (item: Dict) => "title" in item && Truthy(item["title"])
      && "platform" in item && item["platform"] == JStr(PlatformOf(source));
    forall e: Json, rank: nat | Builder(source)(e, rank).Keep?
      ensures "position" in Builder(source)(e, rank).item && Builder(source)(e, rank).item["position"] == JInt(rank)
      ensures P(Builder(source)(e, rank).item)
    {
      BuilderItems(source, e, rank);
    }
    EnumeratedPositions(raw, Builder(source));
    EnumeratedKeepsOnly(raw, Builder(source), P);
  }

  /** A response that is not a JSON object makes every parser raise. */
  lemma NonObjectResponse(data: Json, source: string)
    requires source in SourceMap && !data.JObj?
    ensures Parsed(data, source).None?
  {
  }

  /** An empty response object is no error: its missing lists default to
      empty ones and every parser returns no items. */
  lemma EmptyResponse(source: string)
    requires source in SourceMap
    ensures Parsed(JObj(map[]), source) == Some([])
  {
    var data := JObj(map[]);
    if source != "baidu" {
      var path := if source == "douyin" then ["data", "word_list"]
        else if source == "tieba" then ["data", "bang_topic", "topic_list"]
        else if source == "juejin" then ["data"]
        else ["list"];
      NestedEmpty(path);
    }
  }

  /** `fetch`, given the decoded response (or the error text of the failed
      request) and the text of the exception a parse failure raises. The
      request is None for an unsupported source, which fails without one;
      otherwise it is the configured request, a POST with its payload only
      for Juejin. */
  method Fetch(source: string, response: Result<Json, string>, parseError: string, now: string)
    returns (request: Option<HttpRequest>, r: AggregatorResult)
    ensures request.Some? <==> source in SourceMap
    ensures request.Some? ==> (request.value.url == SourceMap[source].url
      && (request.value.verb == Post <==> source == "juejin")
      && (request.value.body.Some? <==> source == "juejin"))
    ensures source !in SourceMap ==> r == MakeErrorResult(source, "不支持的数据源: " + source, now)
    ensures source in SourceMap && response.Err? ==> r == MakeErrorResult(source, response.error, now)
    ensures source in SourceMap && response.Ok? && Parsed(response.value, source).None? ==>
      r == MakeErrorResult(source, parseError, now)
    ensures source in SourceMap && response.Ok? && Parsed(response.value, source).Some? ==>
      r == MakeSuccessResult(source, Parsed(response.value, source).value, now)
  {
    if source !in SourceMap {
      return None, MakeErrorResult(source, "不支持的数据源: " + source, now);
    }
    var info := SourceMap[source];
    if info.verb == Post {
      request := Some(HttpRequest(Post, info.url, Some(if info.payload.Some? then info.payload.value else map[])));
    } else {
      request := Some(HttpRequest(Get, info.url, None));
    }
    if response.Err? {
      return request, MakeErrorResult(source, response.error, now);
    }
    var items := ParseBySource(response.value, source);
    if items.None? {
      r := MakeErrorResult(source, parseError, now);
    } else {
      r := MakeSuccessResult(source, items.value, now);
    }
  }
}
