/** The Guangming Daily (gmrb) spider: the dated front page, the page
    links it follows, the article lists, the text clean-up and the
    article id read out of an article's URL. */
module Gmrb {
  import opened Common
  import opened Json
  import opened Newspaper
  import opened SpiderBase

  const Host := "https://epaper.gmw.cn/gmrb/html/"

  /** `base_url` of an issue: `YYYY-MM/DD/` under the host. */
  function BaseUrl(d: Date): string
    requires ValidDate(d)
  {
    Host + YearStr(d) + "-" + MonthStr(d) + "/" + DayStr(d) + "/"
  }

  /** `start_requests`: the front page of the issue. */
  function StartRequest(d: Date): Request
    requires ValidDate(d)
  {
    Request(BaseUrl(d) + "nbs.D110000gmrb_01.htm",
            map["date" := JStr(DateStr(d)), "base_url" := JStr(BaseUrl(d))])
  }

  /** The front-page URL holds year, month and day at fixed places after
      the host, and they read back as the issue's date; the request keeps
      the `YYYYMMDD` date and the base URL, a prefix of its own URL. */
  lemma StartRequestDate(d: Date, r: Request)
    requires ValidDate(d) && r == StartRequest(d)
    ensures var u := r.url; var p := |Host|;
      && |u| > p + 11 && u[..p] == Host
      && ReadsAs(u[p..p + 4], d.year) && u[p + 4] == '-'
      && ReadsAs(u[p + 5..p + 7], d.month) && u[p + 7] == '/'
      && ReadsAs(u[p + 8..p + 10], d.day) && u[p + 10] == '/'
      && "date" in r.meta && r.meta["date"] == JStr(DateStr(d))
      && "base_url" in r.meta && r.meta["base_url"] == JStr(u[..p + 11])
  {
    DatePartWidths(d);
    ZeroPadRoundTrip(d.year, 4);
    ZeroPadRoundTrip(d.month, 2);
    ZeroPadRoundTrip(d.day, 2);
    DatedUrl(Host, YearStr(d), "-", MonthStr(d), DayStr(d), "nbs.D110000gmrb_01.htm");
  }

  // ---------------------------------------------------------------------------
  // Page index
  // ---------------------------------------------------------------------------

  /** A page link's `href` with every `./` taken out. */
  function PageHref(a: Anchor): string {
    ReplaceAll(AttrOr(a, "href", ""), "./", "")
  }

  /** One link of the page list: followed when it has an `id` attribute
      and its cleaned `href` is not empty. */
  function IndexRequest(baseUrl: string, date: Json, a: Anchor): Option<Request> {
    if "id" in a.attrs && PageHref(a) != [] then
      Some(Request(baseUrl + PageHref(a) + "?t=2", map["date" := date, "base_url" := JStr(baseUrl)]))
    else None
  }

  /** `parse_index` over the links of the page list, in document order
      (none when the page list is missing). */
  function IndexRequests(baseUrl: string, date: Json, links: seq<Anchor>): seq<Request> {
    Select(links, (a: Anchor) => IndexRequest(baseUrl, date, a))
  }

  /** Exactly the links with an `id` and a non-empty cleaned `href` are
      followed, each at the base URL joined with that `href` and `?t=2`,
      passing the date and the base URL on. */
  lemma IndexFollowsIdLinks(baseUrl: string, date: Json, links: seq<Anchor>)
    ensures |IndexRequests(baseUrl, date, links)| <= |links|
    ensures forall r :: r in IndexRequests(baseUrl, date, links) ==>
      && (exists i :: 0 <= i < |links| && "id" in links[i].attrs && PageHref(links[i]) != []
                      && r.url == baseUrl + PageHref(links[i]) + "?t=2")
      && "date" in r.meta && r.meta["date"] == date
      && "base_url" in r.meta && r.meta["base_url"] == JStr(baseUrl)
    ensures forall i :: 0 <= i < |links| && "id" in links[i].attrs && PageHref(links[i]) != [] ==>
      IndexRequest(baseUrl, date, links[i]).value in IndexRequests(baseUrl, date, links)
  {
    SelectMembers(links, (a: Anchor) => IndexRequest(baseUrl, date, a));
  }

  /** An `href` without `./` is used unchanged. */
  lemma PageHrefPlain(a: Anchor)
    requires !Contains(AttrOr(a, "href", ""), "./")
    ensures PageHref(a) == AttrOr(a, "href", "")
  {
    ReplaceAbsent(AttrOr(a, "href", ""), "./", "");
  }

  // ---------------------------------------------------------------------------
  // Article lists
  // ---------------------------------------------------------------------------

  /** One `<li>` of a page's article list: a request for the base URL
      joined with the link's `href`, carrying the date and the title. */
  function PageRequest(baseUrl: string, date: Json, li: Option<Anchor>): Option<Request> {
    match PageTitle(li)
    case None => None
    case Some(t) =>
      Some(Request(baseUrl + AttrOr(li.value, "href", ""), map["date" := date, "news_title" := JStr(t)]))
  }

  /** `parse_page` over the `<li>` elements of the article list. */
  function PageRequests(baseUrl: string, date: Json, lis: seq<Option<Anchor>>): seq<Request> {
    Select(lis, (li: Option<Anchor>) => PageRequest(baseUrl, date, li))
  }

  /** Every request comes from an entry with a link whose stripped text is
      not editorial, and carries that text without spaces; every such
      entry is requested. */
  lemma PageRequestsKept(baseUrl: string, date: Json, lis: seq<Option<Anchor>>)
    ensures |PageRequests(baseUrl, date, lis)| <= |lis|
    ensures forall r :: r in PageRequests(baseUrl, date, lis) ==>
      exists i :: 0 <= i < |lis| && lis[i].Some? && !Editorial(Strip(lis[i].value.text))
        && r.url == baseUrl + AttrOr(lis[i].value, "href", "")
        && "news_title" in r.meta && r.meta["news_title"] == JStr(PageTitle(lis[i]).value)
        && ' ' !in PageTitle(lis[i]).value
    ensures forall i :: 0 <= i < |lis| && lis[i].Some? && !Editorial(Strip(lis[i].value.text)) ==>
      PageRequest(baseUrl, date, lis[i]).value in PageRequests(baseUrl, date, lis)
  {
    SelectMembers(lis, (li: Option<Anchor>) => PageRequest(baseUrl, date, li));
    forall i | 0 <= i < |lis| && PageTitle(lis[i]).Some?
      ensures ' ' !in PageTitle(lis[i]).value
    {
      PageTitleChars(lis[i]);
    }
  }

  // ---------------------------------------------------------------------------
  // Articles
  // ---------------------------------------------------------------------------

  /** The article text clean-up: a double ideographic space becomes a line
      break, double line breaks go, em spaces go, no-break spaces become
      plain spaces. */
  function CleanText(text: string): string {
    var t1 := ReplaceAll(text, "\U{3000}\U{3000}", "\n");
    var t2 := ReplaceAll(t1, "\n\n", "");
    var t3 := ReplaceAll(t2, "\U{2003}", "");
    ReplaceAll(t3, "\U{00A0}", " ")
  }

  /** The cleaned text holds no em space and no no-break space, and no
      character that was not in the text other than a line break or a
      space. */
  lemma CleanTextChars(text: string)
    ensures '\U{2003}' !in CleanText(text) && '\U{00A0}' !in CleanText(text)
    ensures forall x :: x in CleanText(text) ==> x in text || x == '\n' || x == ' '
  {
    var t1 := ReplaceAll(text, "\U{3000}\U{3000}", "\n");
    var t2 := ReplaceAll(t1, "\n\n", "");
    var t3 := ReplaceAll(t2, "\U{2003}", "");
    ReplaceChars(text, "\U{3000}\U{3000}", "\n");
    ReplaceChars(t1, "\n\n", "");
    ReplaceCharGone(t2, '\U{2003}', "");
    ReplaceCharGone(t3, '\U{00A0}', " ");
  }

  /** `f"{n:02d}"`: at least two digits, the sign counting towards the
      width. */
  function Pad2(n: int): (r: string)
    ensures n >= 0 ==> AllDigits(r) && |r| >= 2 && DigitsValue(r) == n
    ensures n < 0 ==> |r| >= 2 && r[0] == '-' && AllDigits(r[1..]) && DigitsValue(r[1..]) == -n
  {
    if n >= 0 then
      ZeroPadRoundTrip(n, 2);
      ZeroPad(n, 2)
    else
      NatToStringRoundTrip(-n);
      assert ("-" + NatToString(-n))[1..] == NatToString(-n);
      "-" + NatToString(-n)
  }

  /** The last `/`-separated segment of a URL. */
  function LastSegment(url: string): string {
    var parts := Split(url, '/');
    parts[|parts| - 1]
  }

  /** The `_`-separated words of the URL's last segment. */
  function Words(url: string): seq<string> {
    Split(LastSegment(url), '_')
  }

  /** `_parse_article_id`: from the last segment's words, the second, the
      third's number before any `-` padded to two digits, and what follows
      that `-` up to a `.` ("01" when there is no `-`). Empty when there
      are fewer than three words or that number is not an integer. */
  function ArticleId(url: string): (r: string)
    ensures r == [] <==> |Words(url)| < 3 || ParseInt(Split(Words(url)[2], '-')[0]).None?
  {
    var words := Words(url);
    if |words| < 3 then ""
    else
      var w2 := Split(words[2], '-');
      match ParseInt(w2[0])
      case None => ""
      case Some(n) =>
        var w3 := if |w2| > 1 then Split(w2[1], '.')[0] else "01";
        words[1] + "-" + Pad2(n) + "-" + w3
  }

  /** An article URL `.../<prefix>_<w1>_<n>-<w3>.<ext>` gives the id
      `<w1>-<n, two digits>-<w3>`. */
  lemma ArticleIdOf(dir: string, prefix: string, w1: string, n: nat, w3: string, ext: string)
    requires '/' !in prefix && '/' !in w1 && '/' !in w3 && '/' !in ext
    requires '_' !in prefix && '_' !in w1 && '_' !in w3 && '_' !in ext
    requires '-' !in w3 && '-' !in ext && '.' !in w3
    ensures ArticleId(dir + "/" + prefix + "_" + w1 + "_" + NatToString(n) + "-" + w3 + "." + ext)
         == w1 + "-" + ZeroPad(n, 2) + "-" + w3
  {
    var tail := w3 + "." + ext;
    var mid := NatToString(n) + "-" + tail;
    assert '/' !in tail && '_' !in tail;
    NumberSeparators(n);
    UrlWords(dir, prefix, w1, mid);
    var url := dir + "/" + prefix + "_" + w1 + "_" + NatToString(n) + "-" + w3 + "." + ext;
    assert url == dir + "/" + prefix + "_" + w1 + "_" + mid;
    DashParts(n, tail);
    ParseIntOfNat(n);
    assert tail == w3 + ['.'] + ext;
    SplitAppend(w3, ext, '.');
    SplitNoSep(w3, '.');
  }

  /** Without a dash the third word still carries the file extension,
      which `int()` rejects, so `.../<prefix>_<w1>_<n>.<ext>` gives no id:
      the "01" default is reached only by a last segment with no extension. */
  lemma ArticleIdNoDash(dir: string, prefix: string, w1: string, n: nat, ext: string)
    requires '/' !in prefix && '/' !in w1 && '/' !in ext
    requires '_' !in prefix && '_' !in w1 && '_' !in ext
    requires '-' !in ext
    ensures ArticleId(dir + "/" + prefix + "_" + w1 + "_" + NatToString(n) + "." + ext) == ""
  {
    var mid := NatToString(n) + "." + ext;
    NumberSeparators(n);
    assert '/' !in mid && '_' !in mid && '-' !in mid;
    UrlWords(dir, prefix, w1, mid);
    var url := dir + "/" + prefix + "_" + w1 + "_" + NatToString(n) + "." + ext;
    assert url == dir + "/" + prefix + "_" + w1 + "_" + mid;
    SplitNoSep(mid, '-');
    NumberDotNotInt(n, ext);
  }

  /** `int()` rejects a number followed by a dot and more text. */
  lemma NumberDotNotInt(n: nat, ext: string)
    ensures ParseInt(NatToString(n) + "." + ext).None?
  {
    var num := NatToString(n);
    var m := num + "." + ext;
    StripProps(m);
    var r := Strip(m);
    var i := StripStart(m);
    assert IsDigit(m[0]) && !IsSpace(m[0]);
    assert i == 0;
    assert m[|num|] == '.' && !IsSpace('.');
    assert |num| < |r|;
    assert r[|num|] == '.';
    assert !AllDigits(r);
    assert r[0] == m[0];
  }

  /** A number's digits hold none of the separators. */
  lemma NumberSeparators(n: nat)
    ensures '/' !in NatToString(n) && '_' !in NatToString(n) && '-' !in NatToString(n) && '.' !in NatToString(n)
  {
    var num := NatToString(n);
    forall k | 0 <= k < |num| ensures IsDigit(num[k]) { }
  }

  /** The words of `<dir>/<a>_<b>_<c>`. */
  lemma UrlWords(dir: string, a: string, b: string, c: string)
    requires '/' !in a && '/' !in b && '/' !in c
    requires '_' !in a && '_' !in b && '_' !in c
    ensures Words(dir + "/" + a + "_" + b + "_" + c) == [a, b, c]
  {
    var last := a + "_" + b + "_" + c;
    assert dir + "/" + a + "_" + b + "_" + c == dir + ['/'] + last;
    SplitAppend(dir, last, '/');
    SplitNoSep(last, '/');
    assert LastSegment(dir + ['/'] + last) == last;
    assert last == a + ['_'] + (b + ['_'] + c);
    SplitAppend(a, b + ['_'] + c, '_');
    SplitAppend(b, c, '_');
    SplitNoSep(a, '_');
    SplitNoSep(b, '_');
    SplitNoSep(c, '_');
  }

  /** `<n>-<tail>` splits at its dash into the number and the tail. */
  lemma DashParts(n: nat, tail: string)
    requires '-' !in tail
    ensures Split(NatToString(n) + "-" + tail, '-') == [NatToString(n), tail]
  {
    NumberSeparators(n);
    assert NatToString(n) + "-" + tail == NatToString(n) + ['-'] + tail;
    SplitAppend(NatToString(n), tail, '-');
    SplitNoSep(NatToString(n), '-');
    SplitNoSep(tail, '-');
  }

  /** `parse`: nothing when the article has no content block; otherwise a
      media item with the request's title, the URL, the publish date cut
      from the request's date, the cleaned text and the article id. */
  function Parse(spider: Spider, newsTitle: string, url: string, metaDate: string, text: Option<string>): Option<Dict> {
    match text
    case None => None
    case Some(t) => Some(Article(spider, newsTitle, url, PublishDate(metaDate), CleanText(t), ArticleId(url)))
  }

  /** The item carries the stripped title, the URL, the `YYYY-MM-DD` date,
      the cleaned text when it is not empty, and the id read from the URL. */
  lemma ParseItem(spider: Spider, newsTitle: string, url: string, metaDate: string, text: Option<string>)
    ensures Parse(spider, newsTitle, url, metaDate, text).Some? <==> text.Some?
    ensures text.Some? ==> var r := Parse(spider, newsTitle, url, metaDate, text).value;
      && "title" in r && r["title"] == JStr(Strip(newsTitle))
      && "url" in r && r["url"] == JStr(url)
      && "publish_date" in r && r["publish_date"] == JStr(PublishDate(metaDate))
      && ("content" in r <==> CleanText(text.value) != [])
      && ("content" in r ==> r["content"] == JStr(CleanText(text.value)))
      && "extra" in r && r["extra"] == JObj(map["article_id" := JStr(ArticleId(url))])
      && "platform" in r && r["platform"] == JStr(spider.platform)
  {
    if text.Some? {
      PublishDateParts(metaDate);
      ArticleItem(spider, newsTitle, url, PublishDate(metaDate), CleanText(text.value), ArticleId(url));
    }
  }
}
