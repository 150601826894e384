/** The Xinhua Daily Telegraph (mrdx) spider: the dated index page, the
    page links it follows, the content guard on articles, and the article
    id read out of a page link. */
module Mrdx {
  import opened Common
  import opened Json
  import opened Newspaper
  import opened SpiderBase

  const UrlPrefix := "http://mrdx.cn/content/"

  /** `base_url` for an issue. */
  function BaseUrl(dateStr: string): string {
    UrlPrefix + dateStr + "/"
  }

  /** `start_requests`: the front-page index of the issue. */
  function StartRequest(d: Date): (r: Request)
    requires ValidDate(d)
  {
    Request(BaseUrl(DateStr(d)) + "Page01DK.htm",
            map["date" := JStr(DateStr(d)), "base_url" := JStr(BaseUrl(DateStr(d)))])
  }

  /** The index URL carries the issue's eight-digit date right after the
      prefix, from which year, month and day read back. */
  lemma StartRequestDate(d: Date, r: Request)
    requires ValidDate(d) && r == StartRequest(d)
    ensures var u := r.url; var p := |UrlPrefix|;
      && u == UrlPrefix + DateStr(d) + "/" + "Page01DK.htm"
      && |u| >= p + 8 && u[p..p + 8] == DateStr(d)
      && ReadsAs(u[p..p + 4], d.year) && ReadsAs(u[p + 4..p + 6], d.month)
      && ReadsAs(u[p + 6..p + 8], d.day)
      && "base_url" in r.meta && r.meta["base_url"] == JStr(u[..p + 9])
  {
    var s := DateStr(d);
    var u := r.url;
    var p := |UrlPrefix|;
    DateStrRoundTrip(d);
    PrefixedDate(UrlPrefix, s, "/", "Page01DK.htm");
    assert u[p..p + 4] == s[..4] && u[p + 4..p + 6] == s[4..6] && u[p + 6..p + 8] == s[6..];
    assert u[..p + 9] == BaseUrl(s);
  }

  /** One `<li>` of the index: followed when its link carries a non-empty
      `daoxiang` attribute. */
  function IndexRequest(baseUrl: string, date: Json, li: Option<Anchor>): Option<Request> {
    if li.Some? && AttrOr(li.value, "daoxiang", "") != [] then
      var dx := li.value.attrs["daoxiang"];
      Some(Request(baseUrl + dx, map["date" := date, "title" := JStr(Strip(li.value.text)), "ext_url" := JStr(dx)]))
    else None
  }

  /** `parse_index` over the `<li>` elements of every list of the
      navigation block, in document order. */
  function IndexRequests(baseUrl: string, date: Json, lis: seq<Option<Anchor>>): seq<Request> {
    Select(lis, (li: Option<Anchor>) => IndexRequest(baseUrl, date, li))
  }

  /** Exactly the links with a `daoxiang` attribute are followed, each at
      the base URL joined with that attribute, which the request also
      keeps as `ext_url`. */
  lemma IndexFollowsDaoxiang(baseUrl: string, date: Json, lis: seq<Option<Anchor>>)
    ensures |IndexRequests(baseUrl, date, lis)| <= |lis|
    ensures forall r :: r in IndexRequests(baseUrl, date, lis) ==>
      exists i :: 0 <= i < |lis| && lis[i].Some? && AttrOr(lis[i].value, "daoxiang", "") != []
        && r.url == baseUrl + lis[i].value.attrs["daoxiang"]
        && "ext_url" in r.meta && r.meta["ext_url"] == JStr(lis[i].value.attrs["daoxiang"])
    ensures forall i :: 0 <= i < |lis| && lis[i].Some? && AttrOr(lis[i].value, "daoxiang", "") != [] ==>
      IndexRequest(baseUrl, date, lis[i]).value in IndexRequests(baseUrl, date, lis)
  {
    SelectMembers(lis, (li: Option<Anchor>) => IndexRequest(baseUrl, date, li));
  }

  // ---------------------------------------------------------------------------
  // Article id
  // ---------------------------------------------------------------------------

  /** The longest prefix of digits. */
  function DigitRun(s: string): (r: string)
    ensures AllDigits(r) && |r| <= |s| && r == s[..|r|]
    ensures |r| == |s| || !IsDigit(s[|r|])
  {
    if s != [] && IsDigit(s[0]) then [s[0]] + DigitRun(s[1..]) else []
  }

  /** `re.findall(r"\d+", s)[0]`: the first maximal run of digits, None
      when there is none. */
  function FirstDigitRun(s: string): (r: Option<string>)
    ensures r.None? <==> forall k :: 0 <= k < |s| ==> !IsDigit(s[k])
    ensures r.Some? ==> r.value != [] && AllDigits(r.value)
  {
    if s == [] then None
    else if IsDigit(s[0]) then Some(DigitRun(s))
    else
      var r := FirstDigitRun(s[1..]);
      assert (forall k :: 0 <= k < |s| ==> !IsDigit(s[k])) <==> (forall k :: 0 <= k < |s[1..]| ==> !IsDigit(s[1..][k])) by {
        assert forall k :: 1 <= k < |s| ==> s[k] == s[1..][k - 1];
      }
      r
  }

  /** Two digits read as a number below 100. */
  lemma TwoDigitsBelow100(s: string)
    requires |s| == 2 && AllDigits(s)
    ensures DigitsValue(s) < 100
  {
    var a := s[..1];
    assert a[..0] == [] && a[0] == s[0];
    assert DigitsValue(a) == DigitValue(s[0]) <= 9;
    assert s[..|s| - 1] == a;
    assert DigitValue(s[1]) <= 9;
  }

  /** The article number of a digit run: its fourth and fifth digits
      less one (the paper numbers each page's articles from 2), floored
      at zero; "01", and so zero, for a run shorter than five. */
  function ArticleNumber(run: string): (v: nat)
    requires AllDigits(run)
    ensures v < 100
    ensures v == if |run| >= 5 && DigitsValue(run[3..5]) >= 1 then DigitsValue(run[3..5]) - 1 else 0
  {
    var numStr := if |run| >= 5 then run[3..5] else "01";
    TwoDigitsBelow100(numStr);
    var n := DigitsValue(numStr) - 1;
    if n > 0 then n else 0
  }

  /** `_parse_article_id`: the issue date, the first two digits of the
      first digit run (the page), and the article number padded to two
      digits. Empty when the link holds no digit. */
  function ArticleId(dateStr: string, extUrl: string): (r: string)
    ensures r == [] <==> FirstDigitRun(extUrl).None?
  {
    match FirstDigitRun(extUrl)
    case None => ""
    case Some(run) => dateStr + "-" + Take(run, 2) + "-" + ZeroPad(ArticleNumber(run), 2)
  }

  /** The id is the date, the page and a two-digit article number whose
      value is the run's fourth and fifth digits less one (zero at
      least), or zero for a run shorter than five. */
  lemma ArticleIdShape(dateStr: string, extUrl: string)
    requires FirstDigitRun(extUrl).Some?
    ensures var run := FirstDigitRun(extUrl).value; var r := ArticleId(dateStr, extUrl);
      var page := Take(run, 2); var head := |dateStr| + |page| + 2;
      && |r| == head + 2
      && r[..head] == dateStr + "-" + page + "-"
      && AllDigits(r[head..])
      && DigitsValue(r[head..]) ==
           (if |run| >= 5 && DigitsValue(run[3..5]) >= 1 then DigitsValue(run[3..5]) - 1 else 0)
  {
    var run := FirstDigitRun(extUrl).value;
    var v := ArticleNumber(run);
    assert Pow10(2) == 100;
    ZeroPadWidth(v, 2);
    ZeroPadRoundTrip(v, 2);
    var head := |dateStr| + |Take(run, 2)| + 2;
    IdParts(dateStr + "-" + Take(run, 2) + "-", ZeroPad(v, 2));
  }

  lemma IdParts(head: string, tail: string)
    ensures (head + tail)[..|head|] == head && (head + tail)[|head|..] == tail
  {
  }

  /** Text without digits before a run and a non-digit (or the end) after
      it: that run is the one the id is read from. */
  lemma {:induction false} FirstDigitRunOf(before: string, run: string, after: string)
    requires forall k :: 0 <= k < |before| ==> !IsDigit(before[k])
    requires run != [] && AllDigits(run)
    requires after == [] || !IsDigit(after[0])
    ensures FirstDigitRun(before + run + after) == Some(run)
    decreases |before|
  {
    var s := before + run + after;
    if before == [] {
      DigitRunOf(run, after);
      assert s == run + after;
    } else {
      assert s[1..] == before[1..] + run + after;
      FirstDigitRunOf(before[1..], run, after);
    }
  }

  lemma {:induction false} DigitRunOf(run: string, after: string)
    requires AllDigits(run)
    requires after == [] || !IsDigit(after[0])
    ensures DigitRun(run + after) == run
    decreases |run|
  {
    if run != [] {
      assert (run + after)[1..] == run[1..] + after;
      DigitRunOf(run[1..], after);
    }
  }

  // ---------------------------------------------------------------------------
  // Articles
  // ---------------------------------------------------------------------------

  /** `parse`: nothing when the extracted content is empty; otherwise a
      media item with the title, the page URL, the publish date cut from
      the request's date, the content, and the article id read from the
      page link as its extra data. */
  function Parse(spider: Spider, fullTitle: string, url: string, metaDate: string, content: string,
                 extUrl: string, dateStr: string): Option<Dict> {
    if content == [] then None
    else Some(Article(spider, fullTitle, url, PublishDate(metaDate), content, ArticleId(dateStr, extUrl)))
  }

  /** An article yields an item exactly when it has content. */
  lemma ParseGuard(spider: Spider, fullTitle: string, url: string, metaDate: string, content: string,
                   extUrl: string, dateStr: string)
    ensures Parse(spider, fullTitle, url, metaDate, content, extUrl, dateStr).None? <==> content == []
  {
  }

  /** The item carries the stripped title, the URL, the `YYYY-MM-DD`
      date, the content and the article id. */
  lemma ParseItem(spider: Spider, fullTitle: string, url: string, metaDate: string, content: string,
                  extUrl: string, dateStr: string)
    requires content != []
    ensures var r := Parse(spider, fullTitle, url, metaDate, content, extUrl, dateStr).value;
      && "title" in r && r["title"] == JStr(Strip(fullTitle))
      && "url" in r && r["url"] == JStr(url)
      && "publish_date" in r && r["publish_date"] == JStr(PublishDate(metaDate))
      && "content" in r && r["content"] == JStr(content)
      && "extra" in r && r["extra"] == JObj(map["article_id" := JStr(ArticleId(dateStr, extUrl))])
      && "platform" in r && r["platform"] == JStr(spider.platform)
  {
    PublishDateParts(metaDate);
    ArticleItem(spider, fullTitle, url, PublishDate(metaDate), content, ArticleId(dateStr, extUrl));
  }
}
