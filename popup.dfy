/** The browser-extension popup that exports a logged-in platform's cookies
    to the deep-crawl service: it recognises the platform of the current
    tab, keeps the server address and token in extension storage, renders
    one shortcut button per platform and posts the cookie header to
    `<server>/login/<code>/paste`. The page's DOM state is the state of a
    `PopupPage`; the tab URL, the browser's cookies and the server's answer
    are parameters. */
module Popup {
  import opened Common
  import opened Json
  import CookieManager

  datatype PlatformInfo = PlatformInfo(code: string, name: string, cookieDomain: string)

  /** `DOMAIN_MAP`, in insertion order. */
  const DomainMap: seq<(string, PlatformInfo)> := [
    ("douyin.com", PlatformInfo("dy", "抖音", ".douyin.com")),
    ("xiaohongshu.com", PlatformInfo("xhs", "小红书", ".xiaohongshu.com")),
    ("bilibili.com", PlatformInfo("bili", "B站", ".bilibili.com")),
    ("weibo.com", PlatformInfo("wb", "微博", ".weibo.com")),
    ("weibo.cn", PlatformInfo("wb", "微博", ".weibo.cn")),
    ("kuaishou.com", PlatformInfo("ks", "快手", ".kuaishou.com")),
    ("baidu.com", PlatformInfo("tieba", "贴吧", ".baidu.com")),
    ("zhihu.com", PlatformInfo("zhihu", "知乎", ".zhihu.com"))]

  // ---------------------------------------------------------------------------
  // `matchPlatform` and `platformNameByCode`
  // ---------------------------------------------------------------------------

  /** The host is the domain itself or one of its subdomains. */
  predicate HostMatches(hostname: string, domain: string) {
    hostname == domain || EndsWith(hostname, "." + domain)
  }

  /** The index of the first entry whose domain the host matches. */
  function FirstDomain(entries: seq<(string, PlatformInfo)>, hostname: string): (r: Option<nat>)
    ensures r.Some? ==> r.value < |entries| && HostMatches(hostname, entries[r.value].0)
    ensures r.Some? ==> forall k :: 0 <= k < r.value ==> !HostMatches(hostname, entries[k].0)
    ensures r.None? <==> forall k :: 0 <= k < |entries| ==> !HostMatches(hostname, entries[k].0)
  {
    if entries == [] then None
    else if HostMatches(hostname, entries[0].0) then Some(0)
    else match FirstDomain(entries[1..], hostname)
      case None => None
      case Some(k) => Some(k + 1)
  }

  /** `matchPlatform`: the first platform, in table order, whose domain the
      host is or lies under; null when there is none. */
  function MatchPlatform(hostname: string): (r: Option<PlatformInfo>)
    ensures r.None? <==> forall k :: 0 <= k < |DomainMap| ==> !HostMatches(hostname, DomainMap[k].0)
    ensures r.Some? ==>
      exists k :: (0 <= k < |DomainMap| && HostMatches(hostname, DomainMap[k].0) && DomainMap[k].1 == r.value
        && forall j :: 0 <= j < k ==> !HostMatches(hostname, DomainMap[j].0))
  {
    match FirstDomain(DomainMap, hostname)
    case None => None
    case Some(k) => Some(DomainMap[k].1)
  }

  /** A host is not under a domain when their lengths differ and no dot
      stands where the domain's suffix would begin. */
  lemma NotUnder(hostname: string, domain: string)
    requires |hostname| != |domain|
    requires |domain| + 1 <= |hostname| ==> hostname[|hostname| - |domain| - 1] != '.'
    ensures !HostMatches(hostname, domain)
  {
    if |domain| + 1 <= |hostname| {
      var p := "." + domain;
      assert hostname[|hostname| - |p|..][0] == hostname[|hostname| - |domain| - 1];
      assert p[0] == '.';
    }
  }

  /** A host that merely ends in a platform's name, without the dot, is not
      that platform. */
  lemma LookalikeRejected()
    ensures MatchPlatform("evildouyin.com").None?
  {
    forall k | 0 <= k < |DomainMap| ensures !HostMatches("evildouyin.com", DomainMap[k].0) {
      LookalikeNotUnder(k);
    }
  }

  lemma LookalikeNotUnder(k: nat)
    requires k < |DomainMap|
    ensures !HostMatches("evildouyin.com", DomainMap[k].0)
  {
    var h := "evildouyin.com";
    var d := DomainMap[k].0;
    assert |h| == 14;
    if k == 0 { assert d == "douyin.com" && h[3] == 'l'; }
    else if k == 1 { assert |d| == 15; }
    else if k == 2 { assert d == "bilibili.com" && h[1] == 'v'; }
    else if k == 3 { assert d == "weibo.com" && h[4] == 'd'; }
    else if k == 4 { assert d == "weibo.cn" && h[5] == 'o'; }
    else if k == 5 { assert d == "kuaishou.com" && h[1] == 'v'; }
    else if k == 6 { assert d == "baidu.com" && h[4] == 'd'; }
    else { assert d == "zhihu.com" && h[4] == 'd'; }
    NotUnder(h, d);
  }

  /** A subdomain of a platform's domain is that platform. */
  lemma SubdomainAccepted()
    ensures MatchPlatform("www.douyin.com") == Some(DomainMap[0].1)
  {
    var w := "www.douyin.com";
    assert w[|w| - 11..] == ".douyin.com";
    assert HostMatches(w, DomainMap[0].0);
  }

  /** The first entry with this code. */
  function FirstCode(entries: seq<(string, PlatformInfo)>, code: string): (r: Option<nat>)
    ensures r.Some? ==> r.value < |entries| && entries[r.value].1.code == code
    ensures r.Some? ==> forall k :: 0 <= k < r.value ==> entries[k].1.code != code
    ensures r.None? <==> forall k :: 0 <= k < |entries| ==> entries[k].1.code != code
  {
    if entries == [] then None
    else if entries[0].1.code == code then Some(0)
    else match FirstCode(entries[1..], code)
      case None => None
      case Some(k) => Some(k + 1)
  }

  /** `platformNameByCode`: the name of the first platform with the code,
      else the code itself. */
  function PlatformNameByCode(code: string): (r: string)
    ensures (forall k :: 0 <= k < |DomainMap| ==> DomainMap[k].1.code != code) ==> r == code
    ensures forall k :: (0 <= k < |DomainMap| && DomainMap[k].1.code == code
      && (forall j :: 0 <= j < k ==> DomainMap[j].1.code != code)) ==> r == DomainMap[k].1.name
  {
    FirstCodeExact(DomainMap, code);
    match FirstCode(DomainMap, code)
    case None => code
    case Some(k) => DomainMap[k].1.name
  }

  /** An entry with the code and none before it is the one FirstCode finds. */
  lemma FirstCodeExact(entries: seq<(string, PlatformInfo)>, code: string)
    ensures forall k :: (0 <= k < |entries| && entries[k].1.code == code
      && forall j :: 0 <= j < k ==> entries[j].1.code != code) ==> FirstCode(entries, code) == Some(k)
  {
    forall k | 0 <= k < |entries| && entries[k].1.code == code
      && (forall j :: 0 <= j < k ==> entries[j].1.code != code)
      ensures FirstCode(entries, code) == Some(k)
    {
      assert FirstCode(entries, code).Some?;
    }
  }

  // ---------------------------------------------------------------------------
  // Settings, the cookie header and the request URL
  // ---------------------------------------------------------------------------

  /** The characters JavaScript's `trim()` removes: the ECMAScript
      WhiteSpace characters (tab, vertical tab, form feed, the byte order
      mark and the Unicode space separators) and the line terminators. */
  predicate JsIsSpace(c: char) {
    ('\t' <= c <= '\r') || c == ' ' || c == '\U{00A0}' || c == '\U{1680}'
    || ('\U{2000}' <= c <= '\U{200A}') || c == '\U{2028}' || c == '\U{2029}'
    || c == '\U{202F}' || c == '\U{205F}' || c == '\U{3000}' || c == '\U{FEFF}'
  }

  function JsTrimStart(s: string): (r: string)
    ensures |r| <= |s| && r == s[|s| - |r|..]
    ensures r == [] || !JsIsSpace(r[0])
    ensures forall k :: 0 <= k < |s| - |r| ==> JsIsSpace(s[k])
  {
    if s != [] && JsIsSpace(s[0]) then JsTrimStart(s[1..]) else s
  }

  function JsTrimEnd(s: string): (r: string)
    ensures |r| <= |s| && r == s[..|r|]
    ensures r == [] || !JsIsSpace(r[|r| - 1])
    ensures forall k :: |r| <= k < |s| ==> JsIsSpace(s[k])
  {
    if s != [] && JsIsSpace(s[|s| - 1]) then JsTrimEnd(s[..|s| - 1]) else s
  }

  /** JavaScript `s.trim()`. */
  function JsTrim(s: string): string { JsTrimEnd(JsTrimStart(s)) }

  /** Where the trimmed text starts in the input. */
  function JsTrimOffset(s: string): nat { |s| - |JsTrimStart(s)| }

  /** trim() returns a slice of the input with no whitespace at either
      end. */
  lemma JsTrimSlice(s: string)
    ensures var r := JsTrim(s); var i := JsTrimOffset(s);
      && (r == [] || (!JsIsSpace(r[0]) && !JsIsSpace(r[|r| - 1])))
      && i + |r| <= |s| && r == s[i..i + |r|]
  {
    var l := JsTrimStart(s);
    var r := JsTrimEnd(l);
    if r != [] {
      assert r[0] == l[0];
    }
  }

  /** Everything trim() cuts on either side is whitespace. */
  lemma JsTrimCut(s: string)
    ensures forall k :: 0 <= k < JsTrimOffset(s) ==> JsIsSpace(s[k])
    ensures forall k :: JsTrimOffset(s) + |JsTrim(s)| <= k < |s| ==> JsIsSpace(s[k])
  {
    var l := JsTrimStart(s);
    var r := JsTrimEnd(l);
    forall k | JsTrimOffset(s) + |r| <= k < |s| ensures JsIsSpace(s[k]) {
      assert s[k] == l[k - JsTrimOffset(s)];
    }
  }

  /** `trim()` is not Python's `strip()`: the byte order mark is trimmed
      by the one and kept by the other, and the unit separator U+001F the
      other way round. */
  lemma TrimSetsDiffer()
    ensures JsIsSpace('\U{FEFF}') && !IsSpace('\U{FEFF}')
    ensures IsSpace('\U{001F}') && !JsIsSpace('\U{001F}')
  {
  }

  /** `value.trim().replace(/\/+$/, "")` */
  function NormalizeUrl(raw: string): (r: string)
    ensures r == [] || r[|r| - 1] != '/'
    ensures |r| <= |JsTrim(raw)| && r == JsTrim(raw)[..|r|]
    ensures forall k :: |r| <= k < |JsTrim(raw)| ==> JsTrim(raw)[k] == '/'
  {
    TrimTrailing(JsTrim(raw), '/')
  }

  /** What the save-settings click stores: the normalised address and the
      trimmed token, or nothing when the address comes out empty. */
  function Saved(urlInput: string, tokenInput: string): (r: Option<(string, string)>)
    ensures r.None? <==> NormalizeUrl(urlInput) == ""
    ensures r.Some? ==> r.value.0 == NormalizeUrl(urlInput) && r.value.0[|r.value.0| - 1] != '/'
    ensures r.Some? ==> r.value.1 == JsTrim(tokenInput)
  {
    var url := NormalizeUrl(urlInput);
    if url == "" then None else Some((url, JsTrim(tokenInput)))
  }

  /** The address is rejected exactly when it is blank or only slashes. */
  lemma NormalizeUrlEmpty(raw: string)
    ensures NormalizeUrl(raw) == "" <==> forall k :: 0 <= k < |JsTrim(raw)| ==> JsTrim(raw)[k] == '/'
  {
    var s := JsTrim(raw);
    var r := NormalizeUrl(raw);
    assert r != [] ==> r[|r| - 1] == s[|r| - 1];
  }

  /** The header of the export: "name=value" pairs joined by "; ", the same
      format as the service's `format_cookies_for_config`. */
  function PopupCookieString(cookies: seq<(string, string)>): string {
    CookieManager.CookieString(seq(|cookies|, k requires 0 <= k < |cookies| => (cookies[k].0, JStr(cookies[k].1))))
  }

  /** The header is exactly the "name=value" texts joined by "; ". */
  lemma PopupCookieStringSpec(cookies: seq<(string, string)>)
    ensures PopupCookieString(cookies) == Join(seq(|cookies|, k requires 0 <= k < |cookies| => cookies[k].0 + "=" + cookies[k].1), "; ")
  {
    var jar := seq(|cookies|, k requires 0 <= k < |cookies| => (cookies[k].0, JStr(cookies[k].1)));
    assert CookieManager.PairTexts(jar) == seq(|cookies|, k requires 0 <= k < |cookies| => cookies[k].0 + "=" + cookies[k].1);
  }

  /** Characters `encodeURIComponent` leaves as they are. */
  predicate Unreserved(c: char) {
    ('A' <= c <= 'Z') || ('a' <= c <= 'z') || ('0' <= c <= '9')
    || c == '-' || c == '_' || c == '.' || c == '!' || c == '~' || c == '*' || c == '\'' || c == '(' || c == ')'
  }

  predicate UpperHex(c: char) { ('0' <= c <= '9') || ('A' <= c <= 'F') }

  function HexDigit(d: nat): (r: char)
    requires d < 16
    ensures UpperHex(r)
  {
    "0123456789ABCDEF"[d]
  }

  /** The UTF-8 bytes of a character. */
  function Utf8(c: char): (r: seq<nat>)
    ensures 1 <= |r| <= 4 && forall k :: 0 <= k < |r| ==> r[k] < 256
  {
    var n := c as int;
    if n < 0x80 then [n]
    else if n < 0x800 then [0xC0 + n / 64, 0x80 + n % 64]
    else if n < 0x10000 then [0xE0 + n / 4096, 0x80 + (n / 64) % 64, 0x80 + n % 64]
    else [0xF0 + n / 262144, 0x80 + (n / 4096) % 64, 0x80 + (n / 64) % 64, 0x80 + n % 64]
  }

  /** "%XX" for each byte. */
  function Percent(bytes: seq<nat>): (r: string)
    requires forall k :: 0 <= k < |bytes| ==> bytes[k] < 256
    ensures |r| == 3 * |bytes|
    ensures forall k :: 0 <= k < |r| ==> r[k] == '%' || UpperHex(r[k])
  {
    if bytes == [] then ""
    else
      var b := bytes[|bytes| - 1];
      Percent(bytes[..|bytes| - 1]) + ['%', HexDigit(b / 16), HexDigit(b % 16)]
  }

  /** JavaScript `encodeURIComponent` (on text without lone surrogates):
      unreserved characters stay, every other character becomes the
      percent-escapes of its UTF-8 bytes. */
  function EncodeUriComponent(s: string): (r: string)
    ensures forall k :: 0 <= k < |r| ==> Unreserved(r[k]) || r[k] == '%' || UpperHex(r[k])
  {
    if s == [] then ""
    else
      var c := s[|s| - 1];
      EncodeUriComponent(s[..|s| - 1]) + (if Unreserved(c) then [c] else Percent(Utf8(c)))
  }

  /** Text made of unreserved characters passes through unchanged. */
  lemma {:induction false} EncodeUnreserved(s: string)
    requires forall k :: 0 <= k < |s| ==> Unreserved(s[k])
    ensures EncodeUriComponent(s) == s
  {
    if s != [] {
      EncodeUnreserved(s[..|s| - 1]);
    }
  }

  /** An encoded token cannot end the query parameter or start another. */
  lemma EncodedTokenStaysInParameter(token: string)
    ensures '&' !in EncodeUriComponent(token) && '#' !in EncodeUriComponent(token)
      && '=' !in EncodeUriComponent(token) && ' ' !in EncodeUriComponent(token)
  {
    var r := EncodeUriComponent(token);
    forall k | 0 <= k < |r| ensures r[k] != '&' && r[k] != '#' && r[k] != '=' && r[k] != ' ' {
      assert Unreserved(r[k]) || r[k] == '%' || UpperHex(r[k]);
    }
  }

  /** The request URL of `exportCookies`. */
  function ExportUrl(serverUrl: string, code: string, token: string): string {
    serverUrl + "/login/" + code + "/paste?token=" + EncodeUriComponent(token)
  }

  /** The request the popup sends: its URL and the `cookie_str` of its body. */
  datatype Request = Request(url: string, cookieStr: string)

  /** How the request ended, as far as the popup can see: an exception
      (network failure, unreadable JSON) with its message, an HTTP error
      status with its body, or the parsed JSON answer. */
  datatype Reply = Failed(message: string) | HttpError(status: int, body: string) | Answer(data: Dict)

  /** JavaScript text of a JSON value in a template string (a missing field
      is `undefined`). */
  function JsText(j: Option<Json>): string {
    match j
    case None => "undefined"
    case Some(v) => JsValueText(v)
  }

  /** JavaScript `String(v)` of a parsed JSON value: a whole number prints
      without a fraction, an array joins its elements' texts with "," (null
      giving ""), and every object prints as "[object Object]". */
  function JsValueText(v: Json): string
    decreases v
  {
    match v
    case JNull => "null"
    case JBool(b) => if b then "true" else "false"
    case JInt(i) => IntToString(i)
    case JFloat(f) => if f == f.Floor as real then IntToString(f.Floor) else ""
    case JStr(s) => s
    case JArr(elems) => JsJoin(elems, v)
    case JObj(_) => "[object Object]"
  }

  /** `Array.prototype.join(",")` on the elements of `whole`. */
  function JsJoin(elems: seq<Json>, ghost whole: Json): string
    requires whole.JArr? && elems <= whole.elems
    decreases whole, |elems|
  {
    if elems == [] then ""
    else
      var init := JsJoin(elems[..|elems| - 1], whole);
      var last := elems[|elems| - 1];
      assert last in whole.elems;
      var t := if last.JNull? then "" else JsValueText(last);
      if |elems| == 1 then t else init + "," + t
  }

  /** What `${data.count}` shows for each shape of count. */
  lemma JsTextExamples()
    ensures JsText(None) == "undefined"
    ensures JsText(Some(JFloat(3.0))) == "3"
    ensures JsText(Some(JArr([JStr("a"), JNull, JStr("b")]))) == "a,,b"
    ensures JsText(Some(JObj(map[]))) == "[object Object]"
  {
    assert IntToString(3) == "3";
    var a := JArr([JStr("a"), JNull, JStr("b")]);
    assert a.elems[..2] == [JStr("a"), JNull];
    assert a.elems[..2][..1] == [JStr("a")];
    assert a.elems[..2][..1][..0] == [];
    assert JsJoin(a.elems[..2][..1], a) == "a";
    assert JsJoin(a.elems[..2], a) == "a,";
    assert JsJoin(a.elems, a) == "a,,b";
  }

  /** JavaScript truthiness (every object and array is truthy). */
  predicate JsTruthy(j: Option<Json>) {
    match j
    case None => false
    case Some(JNull) => false
    case Some(JBool(b)) => b
    case Some(JInt(i)) => i != 0
    case Some(JFloat(f)) => f != 0.0
    case Some(JStr(s)) => s != ""
    case Some(_) => true
  }

  const NoCookiesMessage: string := "未找到 Cookie，请先在浏览器中登录该平台"

  /** The outcome `exportCookies` shows once it has read the cookies:
      success and its text. */
  function Outcome(cookies: seq<(string, string)>, reply: Reply): (bool, string) {
    if cookies == [] then (false, NoCookiesMessage)
    else match reply
      case Failed(m) => (false, m)
      case HttpError(st, body) => (false, "HTTP " + IntToString(st) + ": " + body)
      case Answer(d) =>
        if Get(d, "status") == Some(JStr("success")) then (true, "已导出 " + JsText(Get(d, "count")) + " 个 Cookie")
        else (false, if JsTruthy(Get(d, "message")) then JsText(Get(d, "message")) else "服务器返回错误")
  }

  /** Only a "success" answer to a request that was sent counts as success. */
  lemma OutcomeSuccess(cookies: seq<(string, string)>, reply: Reply)
    ensures Outcome(cookies, reply).0 <==> cookies != [] && reply.Answer? && Get(reply.data, "status") == Some(JStr("success"))
  {
  }

  // ---------------------------------------------------------------------------
  // `renderPlatformButtons`
  // ---------------------------------------------------------------------------

  /** The platforms of the entries, first of each code only. */
  function UniqueByCode(entries: seq<(string, PlatformInfo)>): seq<PlatformInfo> {
    if entries == [] then []
    else
      var init := entries[..|entries| - 1];
      var info := entries[|entries| - 1].1;
      UniqueByCode(init) + (if info.code in CodesOf(init) then [] else [info])
  }

  function CodesOf(entries: seq<(string, PlatformInfo)>): set<string> {
    set k | 0 <= k < |entries| :: entries[k].1.code
  }

  lemma CodesOfSnoc(entries: seq<(string, PlatformInfo)>, i: nat)
    requires i < |entries|
    ensures CodesOf(entries[..i + 1]) == CodesOf(entries[..i]) + {entries[i].1.code}
  {
    var a := entries[..i + 1];
    forall c | c in CodesOf(a) ensures c in CodesOf(entries[..i]) + {entries[i].1.code} {
      var k :| 0 <= k < |a| && a[k].1.code == c;
      if k < i { assert entries[..i][k] == a[k]; }
    }
    forall c | c in CodesOf(entries[..i]) ensures c in CodesOf(a) {
      var k :| 0 <= k < i && entries[..i][k].1.code == c;
      assert a[k] == entries[..i][k];
    }
    assert a[i] == entries[i];
  }

  /** The codes of a list of platforms. */
  function InfoCodes(u: seq<PlatformInfo>): set<string> {
    set k | 0 <= k < |u| :: u[k].code
  }

  predicate CodesDistinct(u: seq<PlatformInfo>) {
    forall i, j :: 0 <= i < j < |u| ==> u[i].code != u[j].code
  }

  /** Entry i is the first of the table with its code. */
  predicate FirstWithCode(entries: seq<(string, PlatformInfo)>, i: int) {
    0 <= i < |entries| && forall j :: 0 <= j < i ==> entries[j].1.code != entries[i].1.code
  }

  /** Every platform of u is the first entry of the table with its code. */
  ghost predicate FromFirsts(entries: seq<(string, PlatformInfo)>, u: seq<PlatformInfo>) {
    forall k :: 0 <= k < |u| ==> exists i :: 0 <= i < |entries| && FirstWithCode(entries, i) && entries[i].1 == u[k]
  }

  /** The kept platforms carry exactly the codes of the table. */
  lemma {:induction false} UniqueCodes(entries: seq<(string, PlatformInfo)>)
    ensures InfoCodes(UniqueByCode(entries)) == CodesOf(entries)
  {
    if entries != [] {
      var n := |entries| - 1;
      var init := entries[..n];
      var info := entries[n].1;
      UniqueCodes(init);
      CodesOfSnoc(entries, n);
      assert entries[..n + 1] == entries;
      assert entries[..n] == init;
      var u0 := UniqueByCode(init);
      var extra := if info.code in CodesOf(init) then [] else [info];
      var u := UniqueByCode(entries);
      assert u == u0 + extra;
      forall c | c in InfoCodes(u) ensures c in CodesOf(entries) {
        var k :| 0 <= k < |u| && u[k].code == c;
        if k < |u0| { assert u0[k].code in InfoCodes(u0); }
      }
      forall c | c in CodesOf(entries) ensures c in InfoCodes(u) {
        if c in InfoCodes(u0) {
          var k :| 0 <= k < |u0| && u0[k].code == c;
          assert u[k] == u0[k];
        } else {
          assert u[|u0|] == info;
        }
      }
    }
  }

  /** No code is kept twice. */
  lemma {:induction false} UniqueDistinct(entries: seq<(string, PlatformInfo)>)
    ensures CodesDistinct(UniqueByCode(entries))
  {
    if entries != [] {
      var n := |entries| - 1;
      var init := entries[..n];
      var info := entries[n].1;
      UniqueDistinct(init);
      UniqueCodes(init);
      var u0 := UniqueByCode(init);
      var extra := if info.code in CodesOf(init) then [] else [info];
      var u := UniqueByCode(entries);
      assert u == u0 + extra;
      forall i, j | 0 <= i < j < |u| ensures u[i].code != u[j].code {
        if j >= |u0| {
          assert u[j] == info;
          assert u[i] == u0[i] && u0[i].code in InfoCodes(u0);
        }
      }
    }
  }

  /** Each kept platform is the first entry of the table with its code. */
  lemma {:induction false} UniqueFirsts(entries: seq<(string, PlatformInfo)>)
    ensures FromFirsts(entries, UniqueByCode(entries))
  {
    if entries != [] {
      var n := |entries| - 1;
      var init := entries[..n];
      UniqueFirsts(init);
      var u := UniqueByCode(entries);
      forall k | 0 <= k < |u| ensures exists i :: 0 <= i < |entries| && FirstWithCode(entries, i) && entries[i].1 == u[k] {
        var i := UniqueFirstsStep(entries, k);
        assert 0 <= i < |entries| && FirstWithCode(entries, i) && entries[i].1 == u[k];
      }
    }
  }

  /** The step of `UniqueFirsts`: the witness for one kept platform. */
  lemma UniqueFirstsStep(entries: seq<(string, PlatformInfo)>, k: nat) returns (i: nat)
    requires entries != [] && FromFirsts(entries[..|entries| - 1], UniqueByCode(entries[..|entries| - 1]))
    requires k < |UniqueByCode(entries)|
    ensures i < |entries| && FirstWithCode(entries, i) && entries[i].1 == UniqueByCode(entries)[k]
  {
    var n := |entries| - 1;
    var init := entries[..n];
    var info := entries[n].1;
    var u0 := UniqueByCode(init);
    var extra := if info.code in CodesOf(init) then [] else [info];
    var u := UniqueByCode(entries);
    assert u == u0 + extra;
    if k < |u0| {
      assert u[k] == u0[k];
      var j0 :| 0 <= j0 < |init| && FirstWithCode(init, j0) && init[j0].1 == u0[k];
      i := j0;
      assert entries[i] == init[i];
      forall j | 0 <= j < i ensures entries[j].1.code != entries[i].1.code { assert entries[j] == init[j]; }
    } else {
      assert extra == [info] && u[k] == info;
      i := n;
      forall j | 0 <= j < n ensures entries[j].1.code != info.code {
        assert entries[j] == init[j];
        assert init[j].1.code in CodesOf(init);
      }
    }
  }

  /** A shortcut button: its platform, CSS class and label. */
  datatype Button = Button(info: PlatformInfo, className: string, text: string)

  function Fresh(infos: seq<PlatformInfo>): (r: seq<Button>)
    ensures |r| == |infos| && forall k :: 0 <= k < |r| ==> r[k] == Button(infos[k], "", infos[k].name)
  {
    seq(|infos|, k requires 0 <= k < |infos| => Button(infos[k], "", infos[k].name))
  }

  lemma FreshSnoc(infos: seq<PlatformInfo>, info: PlatformInfo)
    ensures Fresh(infos + [info]) == Fresh(infos) + [Button(info, "", info.name)]
  {
  }

  /** The buttons `renderPlatformButtons` appends: one per distinct code of
      the table, in table order. */
  function TableButtons(): seq<Button> {
    Fresh(UniqueByCode(DomainMap))
  }

  /** Every button of the table is labelled with the name `platformNameByCode`
      gives its code, so restoring the label after an export keeps it. */
  lemma ButtonLabels()
    ensures forall b :: b in TableButtons() ==> b.text == PlatformNameByCode(b.info.code)
  {
    UniqueFirsts(DomainMap);
    var u := UniqueByCode(DomainMap);
    forall b | b in Fresh(u) ensures b.text == PlatformNameByCode(b.info.code) {
      var k :| 0 <= k < |u| && Fresh(u)[k] == b;
      var i :| FirstWithCode(DomainMap, i) && DomainMap[i].1 == u[k];
    }
  }

  // ---------------------------------------------------------------------------
  // The page
  // ---------------------------------------------------------------------------

  /** Which element started an export. */
  datatype Trigger = MainButton | Shortcut(index: nat)

  class PopupPage {
    /** `chrome.storage.local` `serverUrl` and `token` ("" when unset). */
    var storedUrl: string
    var storedToken: string
    var settingsStatus: string
    var settingsError: bool
    var platformLabel: string
    var currentPlatform: Option<PlatformInfo>
    /** The main export button. */
    var exportDisabled: bool
    var exportText: string
    /** The result line and its class. */
    var resultText: string
    var resultClass: string
    /** The shortcut buttons, in the order they were appended. */
    var buttons: seq<Button>

    /** The page as it opens (the markup's initial state of the export
        button is a parameter). */
    constructor(url: string, token: string, exportInitiallyDisabled: bool)
      ensures storedUrl == url && storedToken == token && currentPlatform.None?
      ensures exportDisabled == exportInitiallyDisabled && buttons == []
    {
      storedUrl := url;
      storedToken := token;
      settingsStatus := "";
      settingsError := false;
      platformLabel := "";
      currentPlatform := None;
      exportDisabled := exportInitiallyDisabled;
      exportText := "一键导出 Cookie";
      resultText := "";
      resultClass := "";
      buttons := [];
    }

    /** The save-settings click: a blank address is refused and nothing is
        written; otherwise the normalised address and the trimmed token are
        stored. */
    method SaveSettings(urlInput: string, tokenInput: string)
      modifies this
      ensures Saved(urlInput, tokenInput).None? ==>
        storedUrl == old(storedUrl) && storedToken == old(storedToken)
        && settingsStatus == "请输入服务器地址" && settingsError
      ensures Saved(urlInput, tokenInput).Some? ==>
        (storedUrl, storedToken) == Saved(urlInput, tokenInput).value
        && settingsStatus == "已保存" && !settingsError
      ensures currentPlatform == old(currentPlatform) && buttons == old(buttons)
      ensures exportDisabled == old(exportDisabled) && resultText == old(resultText)
    {
      var saved := Saved(urlInput, tokenInput);
      if saved.None? {
        settingsStatus := "请输入服务器地址";
        settingsError := true;
      } else {
        storedUrl := saved.value.0;
        storedToken := saved.value.1;
        settingsStatus := "已保存";
        settingsError := false;
      }
    }

    /** `renderPlatformButtons`: one button per distinct code, appended. */
    method RenderPlatformButtons()
      modifies this
      ensures buttons == old(buttons) + TableButtons()
      ensures storedUrl == old(storedUrl) && storedToken == old(storedToken)
      ensures currentPlatform == old(currentPlatform) && platformLabel == old(platformLabel)
      ensures exportDisabled == old(exportDisabled) && exportText == old(exportText)
      ensures resultText == old(resultText) && resultClass == old(resultClass)
      ensures settingsStatus == old(settingsStatus) && settingsError == old(settingsError)
    {
      AppendButtons(DomainMap);
    }

    /** The loop of `renderPlatformButtons` over a table of domains: a
        button for each code not seen before, in table order. */
    method AppendButtons(table: seq<(string, PlatformInfo)>)
      modifies this
      ensures buttons == old(buttons) + Fresh(UniqueByCode(table))
      ensures storedUrl == old(storedUrl) && storedToken == old(storedToken)
      ensures currentPlatform == old(currentPlatform) && platformLabel == old(platformLabel)
      ensures exportDisabled == old(exportDisabled) && exportText == old(exportText)
      ensures resultText == old(resultText) && resultClass == old(resultClass)
      ensures settingsStatus == old(settingsStatus) && settingsError == old(settingsError)
    {
      var seen: set<string> := {};
      var added: seq<PlatformInfo> := [];
      var i := 0;
      while i < |table|
        invariant 0 <= i <= |table|
        invariant seen == CodesOf(table[..i])
        invariant added == UniqueByCode(table[..i])
        invariant buttons == old(buttons) + Fresh(added)
        invariant storedUrl == old(storedUrl) && storedToken == old(storedToken)
        invariant currentPlatform == old(currentPlatform) && platformLabel == old(platformLabel)
        invariant exportDisabled == old(exportDisabled) && exportText == old(exportText)
        invariant resultText == old(resultText) && resultClass == old(resultClass)
        invariant settingsStatus == old(settingsStatus) && settingsError == old(settingsError)
      {
        var info := table[i].1;
        CodesOfSnoc(table, i);
        assert table[..i + 1][..i] == table[..i];
        if info.code !in seen {
          seen := seen + {info.code};
          FreshSnoc(added, info);
          added := added + [info];
          buttons := buttons + [Button(info, "", info.name)];
        } else {
          seen := seen + {info.code};
        }
        i := i + 1;
      }
      assert table[..i] == table;
    }

    /** The tab query on opening: an unreadable tab leaves the platform
        unknown; otherwise the host (None when the URL does not parse) is
        matched and, when recognised, the export button is enabled. The
        buttons are rendered in every case. */
    method DetectPlatform(tabUrl: string, hostname: Option<string>)
      modifies this
      ensures tabUrl == "" ==>
        (platformLabel == "无法识别当前页面" && currentPlatform == old(currentPlatform)
         && exportDisabled == old(exportDisabled))
      ensures tabUrl != "" ==> currentPlatform == (if hostname.Some? then MatchPlatform(hostname.value) else None)
      ensures tabUrl != "" && currentPlatform.Some? ==>
        platformLabel == "当前平台: " + currentPlatform.value.name + " (" + currentPlatform.value.code + ")"
        && !exportDisabled
      ensures tabUrl != "" && currentPlatform.None? ==>
        platformLabel == "当前页面不属于已配置平台" && exportDisabled == old(exportDisabled)
      ensures buttons == old(buttons) + TableButtons()
      ensures storedUrl == old(storedUrl) && storedToken == old(storedToken)
    {
      if tabUrl == "" {
        platformLabel := "无法识别当前页面";
      } else {
        var p := if hostname.Some? then MatchPlatform(hostname.value) else None;
        currentPlatform := p;
        if p.Some? {
          platformLabel := "当前平台: " + p.value.name + " (" + p.value.code + ")";
          exportDisabled := false;
        } else {
          platformLabel := "当前页面不属于已配置平台";
        }
      }
      RenderPlatformButtons();
    }

    /** `exportCookies`: without a server address only an error is shown;
        otherwise the cookies of the domain are posted (none is an error
        before any request), the outcome is shown, the main button is
        re-enabled, and a shortcut button ends marked done or fail. */
    method ExportCookies(code: string, trigger: Trigger, cookies: seq<(string, string)>, reply: Reply)
      returns (sent: Option<Request>)
      requires trigger.Shortcut? ==> trigger.index < |buttons|
      modifies this
      ensures storedUrl == old(storedUrl) && storedToken == old(storedToken)
      ensures currentPlatform == old(currentPlatform)
      ensures old(storedUrl) == "" ==>
        sent.None? && resultText == "请先设置服务器地址" && resultClass == "error"
        && buttons == old(buttons) && exportDisabled == old(exportDisabled) && exportText == old(exportText)
      ensures old(storedUrl) != "" ==>
        && sent == (if cookies == [] then None
                    else Some(Request(ExportUrl(storedUrl, code, storedToken), PopupCookieString(cookies))))
        && resultText == Outcome(cookies, reply).1
        && resultClass == (if Outcome(cookies, reply).0 then "success" else "error")
        && (trigger.MainButton? ==>
              buttons == old(buttons) && !exportDisabled && exportText == "一键导出 Cookie")
        && (trigger.Shortcut? ==>
              && exportDisabled == old(exportDisabled) && exportText == old(exportText)
              && buttons == old(buttons)[trigger.index := old(buttons)[trigger.index].(
                   className := if Outcome(cookies, reply).0 then "done" else "fail",
                   text := PlatformNameByCode(code))])
    {
      if storedUrl == "" {
        resultText := "请先设置服务器地址";
        resultClass := "error";
        return None;
      }
      ShowProgress(trigger);
      if cookies == [] {
        sent := None;
      } else {
        sent := Some(Request(ExportUrl(storedUrl, code, storedToken), PopupCookieString(cookies)));
      }
      ShowOutcome(code, trigger, Outcome(cookies, reply));
    }

    /** The page while the export runs: the trigger shows progress and the
        result line says the cookies are being read. */
    method ShowProgress(trigger: Trigger)
      requires trigger.Shortcut? ==> trigger.index < |buttons|
      modifies this
      ensures storedUrl == old(storedUrl) && storedToken == old(storedToken)
      ensures currentPlatform == old(currentPlatform)
      ensures resultText == "正在读取 Cookie..." && resultClass == "loading"
      ensures trigger.MainButton? ==> buttons == old(buttons) && exportDisabled && exportText == "导出中..."
      ensures trigger.Shortcut? ==>
        && exportDisabled == old(exportDisabled) && exportText == old(exportText)
        && |buttons| == |old(buttons)|
        && buttons == old(buttons)[trigger.index := old(buttons)[trigger.index].(className := "exporting", text := "...")]
    {
      if trigger.MainButton? {
        exportDisabled := true;
        exportText := "导出中...";
      } else {
        buttons := buttons[trigger.index := buttons[trigger.index].(className := "exporting", text := "...")];
      }
      resultText := "正在读取 Cookie...";
      resultClass := "loading";
    }

    /** The page once the export has ended: the result line shows the
        outcome, the main button is re-enabled, a shortcut button is marked
        done or fail and shows the platform's name. */
    method ShowOutcome(code: string, trigger: Trigger, outcome: (bool, string))
      requires trigger.Shortcut? ==> trigger.index < |buttons|
      modifies this
      ensures storedUrl == old(storedUrl) && storedToken == old(storedToken)
      ensures currentPlatform == old(currentPlatform)
      ensures resultText == outcome.1 && resultClass == (if outcome.0 then "success" else "error")
      ensures trigger.MainButton? ==> buttons == old(buttons) && !exportDisabled && exportText == "一键导出 Cookie"
      ensures trigger.Shortcut? ==>
        && exportDisabled == old(exportDisabled) && exportText == old(exportText)
        && buttons == old(buttons)[trigger.index := old(buttons)[trigger.index].(
             className := if outcome.0 then "done" else "fail", text := PlatformNameByCode(code))]
    {
      resultText := outcome.1;
      resultClass := if outcome.0 then "success" else "error";
      if trigger.Shortcut? {
        buttons := buttons[trigger.index := buttons[trigger.index].(
          className := if outcome.0 then "done" else "fail", text := PlatformNameByCode(code))];
      } else {
        exportDisabled := false;
        exportText := "一键导出 Cookie";
      }
    }

    /** The main export click: nothing without a recognised platform. */
    method ClickExport(cookies: seq<(string, string)>, reply: Reply) returns (sent: Option<Request>)
      modifies this
      ensures old(currentPlatform).None? ==> sent.None? && buttons == old(buttons) && resultText == old(resultText)
      ensures old(currentPlatform).Some? && old(storedUrl) != "" && cookies != [] ==>
        sent == Some(Request(ExportUrl(old(storedUrl), old(currentPlatform).value.code, old(storedToken)), PopupCookieString(cookies)))
      ensures old(currentPlatform).Some? && old(storedUrl) != "" ==> !exportDisabled
    {
      if currentPlatform.None? {
        return None;
      }
      sent := ExportCookies(currentPlatform.value.code, MainButton, cookies, reply);
    }

    /** A shortcut button's click: exports that button's platform and marks
        the button with the outcome. */
    method ClickShortcut(index: nat, cookies: seq<(string, string)>, reply: Reply) returns (sent: Option<Request>)
      requires index < |buttons|
      modifies this
      ensures old(storedUrl) != "" && cookies != [] ==>
        sent == Some(Request(ExportUrl(old(storedUrl), old(buttons)[index].info.code, old(storedToken)), PopupCookieString(cookies)))
      ensures old(storedUrl) != "" ==>
        |buttons| == |old(buttons)| && buttons[index].text == PlatformNameByCode(old(buttons)[index].info.code)
        && buttons[index].className == (if Outcome(cookies, reply).0 then "done" else "fail")
      ensures exportDisabled == old(exportDisabled) && exportText == old(exportText)
    {
      sent := ExportCookies(buttons[index].info.code, Shortcut(index), cookies, reply);
    }
  }
}
