/** The Economic Daily (jjrb) spider: the dated layout page, the page
    links it follows, the article lists with their relative links, the
    text clean-up and the article id found in an article's URL. */
module Jjrb {
  import opened Common
  import opened Json
  import opened Newspaper
  import opened SpiderBase

  const Host := "http://paper.ce.cn/pc/layout/"

  /** `base_url` of an issue: `YYYYMM/DD/` under the host. */
  function BaseUrl(d: Date): string
    requires ValidDate(d)
  {
    Host + YearStr(d) + MonthStr(d) + "/" + DayStr(d) + "/"
  }

  /** `start_requests`: the first layout page of the issue. */
  function StartRequest(d: Date): Request
    requires ValidDate(d)
  {
    Request(BaseUrl(d) + "node_01.html", map["date" := JStr(DateStr(d)), "base_url" := JStr(BaseUrl(d))])
  }

  /** The layout URL holds year and month, then the day, at fixed places
      after the host, and they read back as the issue's date. */
  lemma StartRequestDate(d: Date, r: Request)
    requires ValidDate(d) && r == StartRequest(d)
    ensures var u := r.url; var p := |Host|;
      && |u| > p + 9 && u[..p] == Host
      && ReadsAs(u[p..p + 4], d.year) && ReadsAs(u[p + 4..p + 6], d.month)
      && u[p + 6] == '/' && ReadsAs(u[p + 7..p + 9], d.day) && u[p + 9] == '/'
      && "date" in r.meta && r.meta["date"] == JStr(DateStr(d))
      && "base_url" in r.meta && r.meta["base_url"] == JStr(u[..p + 10])
  {
    DatePartWidths(d);
    ZeroPadRoundTrip(d.year, 4);
    ZeroPadRoundTrip(d.month, 2);
    ZeroPadRoundTrip(d.day, 2);
    JoinedDatedUrl(Host, YearStr(d), MonthStr(d), DayStr(d), "node_01.html");
  }

  // ---------------------------------------------------------------------------
  // Layout index
  // ---------------------------------------------------------------------------

  /** One `<li>` of the layout list: followed when it holds a link with a
      non-empty `href`. */
  function IndexRequest(baseUrl: string, date: Json, a: Option<Anchor>): Option<Request> {
    if a.Some? && AttrOr(a.value, "href", "") != [] then
      Some(Request(baseUrl + a.value.attrs["href"] + "?t=4", map["date" := date, "base_url" := JStr(baseUrl)]))
    else None
  }

  /** `parse_index` over the `<li>` elements of the layout list. */
  function IndexRequests(baseUrl: string, date: Json, lis: seq<Option<Anchor>>): seq<Request> {
    Select(lis, (a: Option<Anchor>) => IndexRequest(baseUrl, date, a))
  }

  /** Exactly the entries whose link has a non-empty `href` are followed,
      at the base URL joined with it and `?t=4`. */
  lemma IndexFollowsLinks(baseUrl: string, date: Json, lis: seq<Option<Anchor>>)
    ensures |IndexRequests(baseUrl, date, lis)| <= |lis|
    ensures forall r :: r in IndexRequests(baseUrl, date, lis) ==>
      && (exists i :: 0 <= i < |lis| && lis[i].Some? && AttrOr(lis[i].value, "href", "") != []
                      && r.url == baseUrl + lis[i].value.attrs["href"] + "?t=4")
      && "date" in r.meta && r.meta["date"] == date
      && "base_url" in r.meta && r.meta["base_url"] == JStr(baseUrl)
    ensures forall i :: 0 <= i < |lis| && lis[i].Some? && AttrOr(lis[i].value, "href", "") != [] ==>
      IndexRequest(baseUrl, date, lis[i]).value in IndexRequests(baseUrl, date, lis)
  {
    SelectMembers(lis, (a: Option<Anchor>) => IndexRequest(baseUrl, date, a));
  }

  // ---------------------------------------------------------------------------
  // Article lists
  // ---------------------------------------------------------------------------

  const Relative := "../../../"
  const Root := "http://paper.ce.cn/pc/"

  /** An article link with every `../../../` made the site root. */
  function ArticleUrl(href: string): string {
    ReplaceAll(href, Relative, Root)
  }

  /** A link three levels up, with no further such step, lands under the
      site root. */
  lemma ArticleUrlRelative(rest: string)
    requires !Contains(rest, Relative)
    ensures ArticleUrl(Relative + rest) == Root + rest
  {
    assert (Relative + rest)[..|Relative|] == Relative;
    assert (Relative + rest)[|Relative|..] == rest;
    ReplaceAbsent(rest, Relative, Root);
  }

  /** One `<li>` of the article list: a request for the link made absolute,
      carrying the date and the title. */
  function PageRequest(date: Json, li: Option<Anchor>): Option<Request> {
    match PageTitle(li)
    case None => None
    case Some(t) =>
      Some(Request(ArticleUrl(AttrOr(li.value, "href", "")), map["date" := date, "news_title" := JStr(t)]))
  }

  /** `parse_page` over the `<li>` elements of the article list. */
  function PageRequests(date: Json, lis: seq<Option<Anchor>>): seq<Request> {
    Select(lis, (li: Option<Anchor>) => PageRequest(date, li))
  }

  /** Every request comes from an entry with a link whose stripped text is
      not editorial, and carries that text without spaces; every such
      entry is requested. */
  lemma PageRequestsKept(date: Json, lis: seq<Option<Anchor>>)
    ensures |PageRequests(date, lis)| <= |lis|
    ensures forall r :: r in PageRequests(date, lis) ==>
      exists i :: 0 <= i < |lis| && lis[i].Some? && !Editorial(Strip(lis[i].value.text))
        && r.url == ArticleUrl(AttrOr(lis[i].value, "href", ""))
        && "news_title" in r.meta && r.meta["news_title"] == JStr(PageTitle(lis[i]).value)
        && ' ' !in PageTitle(lis[i]).value
    ensures forall i :: 0 <= i < |lis| && lis[i].Some? && !Editorial(Strip(lis[i].value.text)) ==>
      PageRequest(date, lis[i]).value in PageRequests(date, lis)
  {
    SelectMembers(lis, (li: Option<Anchor>) => PageRequest(date, li));
    forall i | 0 <= i < |lis| && PageTitle(lis[i]).Some?
      ensures ' ' !in PageTitle(lis[i]).value
    {
      PageTitleChars(lis[i]);
    }
  }

  // ---------------------------------------------------------------------------
  // Articles
  // ---------------------------------------------------------------------------

  /** The article text clean-up: spaces go, then double line breaks. */
  function CleanText(text: string): string {
    ReplaceAll(ReplaceAll(text, " ", ""), "\n\n", "")
  }

  /** The cleaned text holds no space and nothing that was not in the text. */
  lemma CleanTextChars(text: string)
    ensures ' ' !in CleanText(text)
    ensures forall x :: x in CleanText(text) ==> x in text
  {
    ReplaceCharGone(text, ' ', "");
    ReplaceChars(ReplaceAll(text, " ", ""), "\n\n", "");
  }

  /** The end of the shortest run from j, without a line break, that is
      followed by `.html`: the lazy `(.*?)\.html` of a regular expression
      whose `.` does not match a line break. */
  function LazyEnd(s: string, j: nat): (r: Option<nat>)
    requires j <= |s|
    ensures r.Some? ==> j <= r.value <= |s| && OccursAt(s, ".html", r.value)
    ensures r.Some? ==> forall k :: j <= k < r.value ==> s[k] != '\n' && !OccursAt(s, ".html", k)
    decreases |s| - j
  {
    if OccursAt(s, ".html", j) then Some(j)
    else if j < |s| && s[j] != '\n' then LazyEnd(s, j + 1)
    else None
  }

  /** `re.search(r"content_(.*?)\.html", s)` from position i on: the group
      of the leftmost match. */
  function ContentMatch(s: string, i: nat): (r: Option<string>)
    requires i <= |s|
    ensures r.Some? ==> exists m, e ::
      i <= m && m + 8 <= e <= |s| && OccursAt(s, "content_", m) && OccursAt(s, ".html", e) && r.value == s[m + 8..e]
    ensures r.Some? ==> '\n' !in r.value
    decreases |s| - i
  {
    if OccursAt(s, "content_", i) && LazyEnd(s, i + 8).Some? then
      var e := LazyEnd(s, i + 8).value;
      Some(s[i + 8..e])
    else if i < |s| then ContentMatch(s, i + 1)
    else None
  }

  /** `_parse_article_id`: the issue date and the matched group, or empty
      when the URL does not match. */
  function ArticleId(dateStr: string, url: string): (r: string)
    ensures r == [] <==> ContentMatch(url, 0).None?
  {
    match ContentMatch(url, 0)
    case None => ""
    case Some(g) => dateStr + "-" + g
  }

  /** A URL `<pre>content_<id>.html<post>` with no earlier `content_`, and
      no line break and no `.html` inside the id, gives the id
      `<date>-<id>`. */
  lemma ArticleIdOf(dateStr: string, pre: string, id: string, post: string)
    requires var u := pre + "content_" + id + ".html" + post;
      forall p :: 0 <= p < |pre| ==> !OccursAt(u, "content_", p)
    requires var u := pre + "content_" + id + ".html" + post;
      forall k :: 0 <= k < |id| ==> id[k] != '\n' && !OccursAt(u, ".html", |pre| + 8 + k)
    ensures ArticleId(dateStr, pre + "content_" + id + ".html" + post) == dateStr + "-" + id
  {
    var u := pre + "content_" + id + ".html" + post;
    var m := |pre|;
    var e := m + 8 + |id|;
    assert u[m..m + 8] == "content_";
    assert u[e..e + 5] == ".html";
    assert u[m + 8..e] == id;
    forall k | m + 8 <= k < e ensures u[k] != '\n' && !OccursAt(u, ".html", k) {
      assert u[k] == id[k - (m + 8)];
    }
    LazyEndAt(u, m + 8, e);
    ContentMatchAt(u, 0, m);
  }

  lemma {:induction false} LazyEndAt(s: string, j: nat, e: nat)
    requires j <= e <= |s| && OccursAt(s, ".html", e)
    requires forall k :: j <= k < e ==> s[k] != '\n' && !OccursAt(s, ".html", k)
    ensures LazyEnd(s, j) == Some(e)
    decreases e - j
  {
    if j < e {
      LazyEndAt(s, j + 1, e);
    }
  }

  lemma {:induction false} ContentMatchAt(s: string, i: nat, m: nat)
    requires i <= m && OccursAt(s, "content_", m) && LazyEnd(s, m + 8).Some?
    requires forall p :: i <= p < m ==> !OccursAt(s, "content_", p)
    ensures ContentMatch(s, i) == Some(s[m + 8..LazyEnd(s, m + 8).value])
    decreases m - i
  {
    if i < m {
      assert !OccursAt(s, "content_", i) && i < |s|;
      ContentMatchAt(s, i + 1, m);
      assert ContentMatch(s, i) == ContentMatch(s, i + 1);
    }
  }

  /** `parse`: nothing when the article has no content block; otherwise a
      media item with the request's title, the URL, the publish date cut
      from the request's date, the cleaned text and the article id. */
  function Parse(spider: Spider, newsTitle: string, url: string, metaDate: string, dateStr: string,
                 text: Option<string>): Option<Dict> {
    match text
    case None => None
    case Some(t) => Some(Article(spider, newsTitle, url, PublishDate(metaDate), CleanText(t), ArticleId(dateStr, url)))
  }

  /** The item carries the stripped title, the URL, the `YYYY-MM-DD` date,
      the cleaned text when it is not empty, and the id found in the URL. */
  lemma ParseItem(spider: Spider, newsTitle: string, url: string, metaDate: string, dateStr: string,
                  text: Option<string>)
    ensures Parse(spider, newsTitle, url, metaDate, dateStr, text).Some? <==> text.Some?
    ensures text.Some? ==> var r := Parse(spider, newsTitle, url, metaDate, dateStr, text).value;
      && "title" in r && r["title"] == JStr(Strip(newsTitle))
      && "url" in r && r["url"] == JStr(url)
      && "publish_date" in r && r["publish_date"] == JStr(PublishDate(metaDate))
      && ("content" in r <==> CleanText(text.value) != [])
      && ("content" in r ==> r["content"] == JStr(CleanText(text.value)))
      && "extra" in r && r["extra"] == JObj(map["article_id" := JStr(ArticleId(dateStr, url))])
      && "platform" in r && r["platform"] == JStr(spider.platform)
  {
    if text.Some? {
      PublishDateParts(metaDate);
      ArticleItem(spider, newsTitle, url, PublishDate(metaDate), CleanText(text.value), ArticleId(dateStr, url));
    }
  }
}
