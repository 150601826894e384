/** The news-channel live-room (xwzbj) spider: the paged requests to the
    video list API of the day, the JSONP unwrapping of its answers, and
    the news entries it turns into media items. */
module Xwzbj {
  import opened Common
  import opened Json
  import opened Newspaper
  import opened SpiderBase

  /** The column of the programme in the video list API. */
  const ColumnId := "TOPC1451559129520755"

  /** Pages 1 to 19 are asked for. */
  const Pages: nat := 19

  const ApiHead := "https://api.cntv.cn/NewVideo/getVideoListByColumn?id=" + ColumnId + "&n=100&sort=desc&p="

  /** The API URL of one page of the day's list. */
  function PageUrl(dateStr: string, page: nat): string {
    ApiHead + NatToString(page) + "&bd=" + dateStr + "&mode=2&serviceId=tvcctv&cb=cb"
  }

  function PageRequest(dateStr: string, page: nat): Request {
    Request(PageUrl(dateStr, page), map["date" := JStr(dateStr), "page" := JInt(page)])
  }

  /** `start_requests`: one request per page, pages 1 to 19 in order. */
  method StartRequests(dateStr: string) returns (rs: seq<Request>)
    ensures |rs| == Pages
    ensures forall i :: 0 <= i < Pages ==> rs[i] == PageRequest(dateStr, i + 1)
  {
    rs := [];
    var page := 1;
    while page < Pages + 1
      invariant 1 <= page <= Pages + 1
      invariant |rs| == page - 1
      invariant forall i :: 0 <= i < |rs| ==> rs[i] == PageRequest(dateStr, i + 1)
    {
      rs := rs + [PageRequest(dateStr, page)];
      page := page + 1;
    }
  }

  /** Different pages are different URLs. */
  lemma PageUrlsDistinct(dateStr: string, p: nat, q: nat)
    requires p != q
    ensures PageUrl(dateStr, p) != PageUrl(dateStr, q)
  {
    var x := NatToString(p);
    var y := NatToString(q);
    var tail := "&bd=" + dateStr + "&mode=2&serviceId=tvcctv&cb=cb";
    NatToStringRoundTrip(p);
    NatToStringRoundTrip(q);
    assert PageUrl(dateStr, p) == ApiHead + x + tail && PageUrl(dateStr, q) == ApiHead + y + tail;
    MiddleDiffers(ApiHead, x, y, tail);
  }

  /** Two sequences with the same ends and different middles differ. */
  lemma MiddleDiffers<T>(a: seq<T>, x: seq<T>, y: seq<T>, t: seq<T>)
    requires x != y
    ensures a + x + t != a + y + t
  {
    if |x| == |y| {
      assert (a + x + t)[|a|..|a| + |x|] == x;
      assert (a + y + t)[|a|..|a| + |y|] == y;
    }
  }

  // ---------------------------------------------------------------------------
  // Answers
  // ---------------------------------------------------------------------------

  /** The JSON text of an answer: inside a `cb(...)` wrapper the text
      between the opening parenthesis and the last character (Python's
      `body[3:-1]`), otherwise the whole body. */
  function JsonText(body: string): (r: string)
    ensures !StartsWith(body, "cb(") ==> r == body
  {
    if StartsWith(body, "cb(") then (if |body| >= 4 then body[3..|body| - 1] else "") else body
  }

  /** Unwrapping a JSONP answer gives back the JSON inside. */
  lemma JsonTextUnwraps(js: string)
    ensures JsonText("cb(" + js + ")") == js
  {
    var b := "cb(" + js + ")";
    assert b[..3] == "cb(";
    assert b[3..|b| - 1] == js;
  }

  const LiveRoomMarker := "《新闻直播间》"

  /** Python `LiveRoomMarker in title`, None where that raises. */
  function MarkerIn(title: Json): Option<bool> {
    match title
    case JStr(s) => Some(Contains(s, LiveRoomMarker))
    case JArr(e) => Some(JStr(LiveRoomMarker) in e)
    case JObj(m) => Some(LiveRoomMarker in m)
    case _ => None
  }

  /** What one entry of the list gives: skipped, an item, or an exception
      that ends the run. */
  datatype Entry = Skip | Keep(item: Dict) | Raise

  /** The extra data of an entry's item. */
  function Extra(news: Dict): Dict {
    map["video_id" := GetOr(news, "id", JStr("")), "brief" := GetOr(news, "brief", JStr("")),
        "image" := GetOr(news, "image", JStr("")), "length" := GetOr(news, "length", JStr(""))]
  }

  /** One entry: skipped when its title is falsy or mentions the live room
      programme itself; otherwise a media item with the title, the entry's
      URL, the publish date and the extra data. A title that is not text
      raises where Python's `in` or `strip()` does. */
  function NewsEntry(spider: Spider, publishDate: string, news: Json): Entry {
    if !news.JObj? then Raise
    else
      var title := GetOr(news.fields, "title", JStr(""));
      if !Truthy(title) then Skip
      else match MarkerIn(title)
        case None => Raise
        case Some(true) => Skip
        case Some(false) =>
          if title.JStr? then
            Keep(spider.MediaItem(title.s, GetOr(news.fields, "url", JStr("")), JStr(publishDate), JNull,
                                  map["extra" := JObj(Extra(news.fields))]))
          else Raise
  }

  /** What a run of `parse` yields: the items produced before it ended, and
      whether it ended by an exception. */
  datatype Yield = Yield(items: seq<Dict>, raised: bool)

  /** The loop over the list: the items of the entries in order, up to the
      first entry that raises. */
  function NewsItems(spider: Spider, publishDate: string, entries: seq<Json>): (r: Yield)
    ensures |r.items| <= |entries|
    decreases |entries|
  {
    if entries == [] then Yield([], false)
    else
      var rest := NewsItems(spider, publishDate, entries[1..]);
      match NewsEntry(spider, publishDate, entries[0])
      case Skip => rest
      case Raise => Yield([], true)
      case Keep(item) => Yield([item] + rest.items, rest.raised)
  }

  /** `parse`: an answer that cannot be decoded or read as JSON gives
      nothing; otherwise the entries of `data.list`, where a level that is
      not an object raises, a falsy list gives nothing, and a list that is
      not an array raises on its first element. `loads` is `json.loads`,
      None where it raises. */
  function Parse(spider: Spider, body: Option<string>, loads: string -> Option<Json>, metaDate: string): (r: Yield)
    ensures body.None? || loads(JsonText(body.value)).None? ==> r == Yield([], false)
  {
    if body.None? then Yield([], false)
    else match loads(JsonText(body.value))
      case None => Yield([], false)
      case Some(data) =>
        if !data.JObj? then Yield([], true)
        else
          var inner := GetOr(data.fields, "data", JObj(map[]));
          if !inner.JObj? then Yield([], true)
          else
            var list := GetOr(inner.fields, "list", JArr([]));
            if !Truthy(list) then Yield([], false)
            else if list.JArr? then NewsItems(spider, PublishDate(metaDate), list.elems)
            else Yield([], true)
  }

  /** An entry that is an object with a text title, or none: the ones
      that cannot raise. */
  predicate WellFormed(news: Json) {
    news.JObj? && GetOr(news.fields, "title", JStr("")).JStr?
  }

  /** An entry that gives an item. */
  predicate Wanted(news: Json) {
    WellFormed(news) && var t := GetOr(news.fields, "title", JStr("")).s; t != [] && !Contains(t, LiveRoomMarker)
  }

  /** Every item comes from an entry with a non-empty text title that does
      not mention the programme: it carries that title stripped (which
      does not mention it either), the entry's URL, the publish date, no
      content, and the entry's id, brief, image and length. */
  lemma {:induction false} NewsItemsSound(spider: Spider, publishDate: string, entries: seq<Json>)
    requires publishDate != []
    ensures forall it :: it in NewsItems(spider, publishDate, entries).items ==>
      exists k :: 0 <= k < |entries| && Wanted(entries[k]) && ItemOf(spider, publishDate, entries[k].fields, it)
    decreases |entries|
  {
    if entries != [] {
      NewsItemsSound(spider, publishDate, entries[1..]);
      forall it | it in NewsItems(spider, publishDate, entries).items
        ensures exists k :: 0 <= k < |entries| && Wanted(entries[k]) && ItemOf(spider, publishDate, entries[k].fields, it)
      {
        ItemSource(spider, publishDate, entries, it);
      }
    }
  }

  /** An item of a run comes from the first entry or from the run over
      the others. */
  lemma ItemSource(spider: Spider, publishDate: string, entries: seq<Json>, it: Dict)
    requires publishDate != [] && entries != []
    requires it in NewsItems(spider, publishDate, entries).items
    requires forall x :: x in NewsItems(spider, publishDate, entries[1..]).items ==>
      exists k :: 0 <= k < |entries[1..]| && Wanted(entries[1..][k]) && ItemOf(spider, publishDate, entries[1..][k].fields, x)
    ensures exists k :: 0 <= k < |entries| && Wanted(entries[k]) && ItemOf(spider, publishDate, entries[k].fields, it)
  {
    var e := NewsEntry(spider, publishDate, entries[0]);
    if e.Keep? && it == e.item {
      EntryItem(spider, publishDate, entries[0]);
    } else {
      ItemOfRest(spider, publishDate, entries, it);
      var k :| 0 <= k < |entries[1..]| && Wanted(entries[1..][k]) && ItemOf(spider, publishDate, entries[1..][k].fields, it);
      TailIndex(entries, k);
    }
  }

  /** An item of a run that the first entry did not produce is an item of
      the run over the others. */
  lemma ItemOfRest(spider: Spider, publishDate: string, entries: seq<Json>, it: Dict)
    requires entries != [] && it in NewsItems(spider, publishDate, entries).items
    requires var e := NewsEntry(spider, publishDate, entries[0]); !(e.Keep? && it == e.item)
    ensures it in NewsItems(spider, publishDate, entries[1..]).items
  {
  }

  /** What an entry's item holds. */
  predicate ItemOf(spider: Spider, publishDate: string, news: Dict, it: Dict)
    requires "title" in news && news["title"].JStr?
  {
    var t := news["title"].s;
    && "title" in it && it["title"] == JStr(Strip(t)) && !Contains(Strip(t), LiveRoomMarker)
    && "url" in it && it["url"] == GetOr(news, "url", JStr(""))
    && "publish_date" in it && it["publish_date"] == JStr(publishDate)
    && "content" !in it
    && "extra" in it && it["extra"] == JObj(Extra(news))
  }

  lemma EntryItem(spider: Spider, publishDate: string, news: Json)
    requires publishDate != []
    requires NewsEntry(spider, publishDate, news).Keep?
    ensures Wanted(news) && ItemOf(spider, publishDate, news.fields, NewsEntry(spider, publishDate, news).item)
  {
    var t := news.fields["title"].s;
    spider.ArticleFields(t, GetOr(news.fields, "url", JStr("")), publishDate, JNull, JObj(Extra(news.fields)));
    if Contains(Strip(t), LiveRoomMarker) {
      ContainsStrip(t, LiveRoomMarker);
    }
  }

  /** Over well-formed entries the loop never raises, and every wanted
      entry gives an item, in order. */
  lemma {:induction false} NewsItemsComplete(spider: Spider, publishDate: string, entries: seq<Json>)
    requires forall k :: 0 <= k < |entries| ==> WellFormed(entries[k])
    ensures !NewsItems(spider, publishDate, entries).raised
    ensures |NewsItems(spider, publishDate, entries).items| == |FilterWanted(entries)|
    decreases |entries|
  {
    if entries != [] {
      NewsItemsComplete(spider, publishDate, entries[1..]);
      var news := entries[0];
      var title := GetOr(news.fields, "title", JStr(""));
      assert title.JStr?;
      assert MarkerIn(title) == Some(Contains(title.s, LiveRoomMarker));
    }
  }

  /** The wanted entries, in order. */
  function FilterWanted(entries: seq<Json>): (r: seq<Json>)
    ensures |r| <= |entries|
    ensures forall x :: x in r ==> x in entries && Wanted(x)
    decreases |entries|
  {
    if entries == [] then []
    else (if Wanted(entries[0]) then [entries[0]] else []) + FilterWanted(entries[1..])
  }
}
