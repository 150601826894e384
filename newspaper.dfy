/** What the newspaper spiders share: the issue date (the day asked for on
    the command line, or today), its zero-padded `YYYYMMDD` form, the
    `YYYY-MM-DD` publish date cut back out of that form, the filter on
    the titles of a page's article list, and the article item. */
module Newspaper {
  import opened Common
  import opened Json
  import opened SpiderBase

  /** A calendar day, as Python's `date`. */
  datatype Date = Date(year: int, month: int, day: int)

  predicate IsLeap(y: int) {
    y % 4 == 0 && (y % 100 != 0 || y % 400 == 0)
  }

  function DaysInMonth(y: int, m: int): int
    requires 1 <= m <= 12
  {
    if m == 2 then (if IsLeap(y) then 29 else 28)
    else if m == 4 || m == 6 || m == 9 || m == 11 then 30
    else 31
  }

  /** What `date(year, month, day)` accepts. */
  predicate ValidDate(d: Date) {
    1 <= d.year <= 9999 && 1 <= d.month <= 12 && 1 <= d.day <= DaysInMonth(d.year, d.month)
  }

  /** The target date of `__init__`: when year, month and day are all
      given (truthy), `date(int(year), int(month), int(day))`, where None
      stands for the exception raised by a value `int()` rejects or a day
      that does not exist; otherwise today. */
  function TargetDate(year: Json, month: Json, day: Json, today: Date): (r: Option<Date>)
    requires ValidDate(today)
    ensures r.Some? ==> ValidDate(r.value)
    ensures !(Truthy(year) && Truthy(month) && Truthy(day)) ==> r == Some(today)
    ensures Truthy(year) && Truthy(month) && Truthy(day) ==>
      (r.Some? <==> ToInt(year).Some? && ToInt(month).Some? && ToInt(day).Some?
                    && ValidDate(Date(ToInt(year).value, ToInt(month).value, ToInt(day).value)))
    ensures r.Some? && Truthy(year) && Truthy(month) && Truthy(day) ==>
      r.value == Date(ToInt(year).value, ToInt(month).value, ToInt(day).value)
  {
    if Truthy(year) && Truthy(month) && Truthy(day) then
      var y := ToInt(year);
      var m := ToInt(month);
      var d := ToInt(day);
      if y.None? || m.None? || d.None? then None
      else if ValidDate(Date(y.value, m.value, d.value)) then Some(Date(y.value, m.value, d.value))
      else None
    else Some(today)
  }

  function Pow10(n: nat): nat {
    if n == 0 then 1 else 10 * Pow10(n - 1)
  }

  /** A number below 10^w prints in at most w digits. */
  lemma {:induction false} NatToStringWidth(n: nat, w: nat)
    requires 1 <= w && n < Pow10(w)
    ensures |NatToString(n)| <= w
    decreases w
  {
    if n >= 10 {
      assert w > 1;
      NatToStringWidth(n / 10, w - 1);
    }
  }

  /** `f"{n:0Wd}"` is exactly w characters for a number below 10^w. */
  lemma ZeroPadWidth(n: nat, w: nat)
    requires 1 <= w && n < Pow10(w)
    ensures |ZeroPad(n, w)| == w
  {
    NatToStringWidth(n, w);
  }

  function YearStr(d: Date): string requires ValidDate(d) { ZeroPad(d.year, 4) }
  function MonthStr(d: Date): string requires ValidDate(d) { ZeroPad(d.month, 2) }
  function DayStr(d: Date): string requires ValidDate(d) { ZeroPad(d.day, 2) }

  /** `date_str`, the `YYYYMMDD` form. */
  function DateStr(d: Date): string
    requires ValidDate(d)
  {
    YearStr(d) + MonthStr(d) + DayStr(d)
  }

  /** The parts have their fixed widths. */
  lemma DatePartWidths(d: Date)
    requires ValidDate(d)
    ensures |YearStr(d)| == 4 && |MonthStr(d)| == 2 && |DayStr(d)| == 2
  {
    assert Pow10(4) == 10000 && Pow10(2) == 100;
    ZeroPadWidth(d.year, 4);
    ZeroPadWidth(d.month, 2);
    ZeroPadWidth(d.day, 2);
  }

  /** The text is all digits and reads as the number v. */
  predicate ReadsAs(s: string, v: int) {
    AllDigits(s) && DigitsValue(s) == v
  }

  /** Where the parts of a dated URL `<h><yyyy><s1><mm>/<dd>/<tail>` sit. */
  lemma DatedUrl(h: string, y: string, s1: string, m: string, dd: string, tail: string)
    requires |y| == 4 && |m| == 2 && |dd| == 2 && |s1| <= 1
    ensures var base := h + y + s1 + m + "/" + dd + "/"; var u := base + tail;
      var p := |h|; var q := p + 4 + |s1|;
      && |u| >= q + 6 && u[..p] == h && u[p..p + 4] == y && (|s1| == 1 ==> u[p + 4] == s1[0])
      && u[q..q + 2] == m && u[q + 2] == '/' && u[q + 3..q + 5] == dd && u[q + 5] == '/'
      && u[..q + 6] == base
  {
    var base := h + y + s1 + m + "/" + dd + "/";
    var u := base + tail;
    var p := |h|;
    var q := p + 4 + |s1|;
    assert u[..q + 6] == base;
    assert base[..p] == h;
    assert base[p..p + 4] == y;
    assert base[q..q + 2] == m;
    assert base[q + 3..q + 5] == dd;
  }

  /** Where the parts of a dated URL `<h><yyyy><mm>/<dd>/<tail>` sit. */
  lemma JoinedDatedUrl(h: string, y: string, m: string, dd: string, tail: string)
    requires |y| == 4 && |m| == 2 && |dd| == 2
    ensures var base := h + y + m + "/" + dd + "/"; var u := base + tail; var p := |h|;
      && |u| >= p + 10 && u[..p] == h && u[p..p + 4] == y
      && u[p + 4..p + 6] == m && u[p + 6] == '/' && u[p + 7..p + 9] == dd && u[p + 9] == '/'
      && u[..p + 10] == base
  {
    var base := h + y + m + "/" + dd + "/";
    var u := base + tail;
    var p := |h|;
    assert u[..p + 10] == base;
    assert base[..p] == h;
    assert base[p..p + 4] == y;
    assert base[p + 4..p + 6] == m;
    assert base[p + 7..p + 9] == dd;
  }

  /** Where an eight-letter date sits in `<h><date><sep><rest>`. */
  lemma PrefixedDate(h: string, s: string, sep: string, rest: string)
    requires |s| == 8 && |sep| == 1
    ensures var u := h + s + sep + rest; var p := |h|;
      && |u| >= p + 9 && u[p..p + 8] == s
      && u[p..p + 4] == s[..4] && u[p + 4..p + 6] == s[4..6] && u[p + 6..p + 8] == s[6..]
      && u[..p + 9] == h + s + sep
  {
    var u := h + s + sep + rest;
    var p := |h|;
    assert u[..p + 9] == h + s + sep;
    assert u[p..p + 8] == s;
    SliceOfSlice(u, p, p + 8, 0, 4);
    SliceOfSlice(u, p, p + 8, 4, 6);
    SliceOfSlice(u, p, p + 8, 6, 8);
  }

  /** `date_str` is eight digits from which year, month and day read back,
      so two valid dates with the same string are the same date. */
  lemma DateStrRoundTrip(d: Date)
    requires ValidDate(d)
    ensures var s := DateStr(d);
      && |s| == 8 && AllDigits(s)
      && s[..4] == YearStr(d) && s[4..6] == MonthStr(d) && s[6..] == DayStr(d)
      && DigitsValue(s[..4]) == d.year && DigitsValue(s[4..6]) == d.month && DigitsValue(s[6..]) == d.day
  {
    DatePartWidths(d);
    var s := DateStr(d);
    assert s[..4] == YearStr(d) && s[4..6] == MonthStr(d) && s[6..] == DayStr(d);
    ZeroPadRoundTrip(d.year, 4);
    ZeroPadRoundTrip(d.month, 2);
    ZeroPadRoundTrip(d.day, 2);
  }

  /** Python `s[i:j]` for non-negative bounds: both are clamped to the
      length, and an empty slice results when they cross. */
  function Slice(s: string, i: nat, j: nat): (r: string)
    ensures i <= j <= |s| ==> r == s[i..j]
    ensures |s| <= i ==> r == []
  {
    var a := if i < |s| then i else |s|;
    var b := if j < |s| then j else |s|;
    if a <= b then s[a..b] else []
  }

  /** `f"{date_str[:4]}-{date_str[4:6]}-{date_str[6:8]}"`. */
  function PublishDate(dateStr: string): string {
    Slice(dateStr, 0, 4) + "-" + Slice(dateStr, 4, 6) + "-" + Slice(dateStr, 6, 8)
  }

  /** Whatever the string, the publish date is its first eight characters
      with two dashes put in, so it is never empty. */
  lemma PublishDateParts(dateStr: string)
    ensures Slice(dateStr, 0, 4) + Slice(dateStr, 4, 6) + Slice(dateStr, 6, 8) == Take(dateStr, 8)
    ensures |PublishDate(dateStr)| == |Take(dateStr, 8)| + 2
  {
    var s := dateStr;
    if |s| >= 8 {
      assert s[..4] + s[4..6] + s[6..8] == s[..8];
    } else if |s| >= 6 {
      assert s[..4] + s[4..6] + s[6..] == s;
    } else if |s| >= 4 {
      assert s[..4] + s[4..] == s;
    }
  }

  /** For a real date the publish date is `YYYY-MM-DD`. */
  lemma PublishDateOfDate(d: Date)
    requires ValidDate(d)
    ensures PublishDate(DateStr(d)) == YearStr(d) + "-" + MonthStr(d) + "-" + DayStr(d)
  {
    DateStrRoundTrip(d);
    var s := DateStr(d);
    assert s[6..8] == s[6..];
  }

  // ---------------------------------------------------------------------------
  // Article lists and articles
  // ---------------------------------------------------------------------------

  /** The list entries that are not articles: the page editor's line and
      advertisements. */
  predicate Editorial(title: string) {
    Contains(title, "本版责编") || Contains(title, "广告")
  }

  /** The title of one `<li>` of a page's article list: none when it holds
      no link or the link's stripped text is editorial; otherwise that
      text with its spaces removed. */
  function PageTitle(li: Option<Anchor>): (r: Option<string>)
    ensures r.Some? <==> li.Some? && !Editorial(Strip(li.value.text))
  {
    if li.None? then None
    else
      var t := Strip(li.value.text);
      if Editorial(t) then None else Some(ReplaceAll(t, " ", ""))
  }

  /** A kept title holds no space, and every character of it comes from the
      link's stripped text. */
  lemma PageTitleChars(li: Option<Anchor>)
    requires PageTitle(li).Some?
    ensures ' ' !in PageTitle(li).value
    ensures forall x :: x in PageTitle(li).value ==> x in Strip(li.value.text)
  {
    ReplaceCharGone(Strip(li.value.text), ' ', "");
  }

  /** `make_media_item(title=..., url=..., publish_date=..., content=...,
      extra={"article_id": ...})`. */
  function Article(spider: Spider, title: string, url: string, publishDate: string, content: string,
                   articleId: string): Dict {
    spider.MediaItem(title, JStr(url), JStr(publishDate), JStr(content),
                     map["extra" := JObj(map["article_id" := JStr(articleId)])])
  }

  /** An article item carries the stripped title, the URL, the date, the
      content when it is not empty, the article id and the platform. */
  lemma ArticleItem(spider: Spider, title: string, url: string, publishDate: string, content: string,
                    articleId: string)
    requires publishDate != []
    ensures var r := Article(spider, title, url, publishDate, content, articleId);
      && "title" in r && r["title"] == JStr(Strip(title))
      && "url" in r && r["url"] == JStr(url)
      && "publish_date" in r && r["publish_date"] == JStr(publishDate)
      && ("content" in r <==> content != []) && ("content" in r ==> r["content"] == JStr(content))
      && "extra" in r && r["extra"] == JObj(map["article_id" := JStr(articleId)])
      && "platform" in r && r["platform"] == JStr(spider.platform)
  {
    spider.ArticleFields(title, JStr(url), publishDate, JStr(content), JObj(map["article_id" := JStr(articleId)]));
  }
}
