/** The cookie store of the deep-crawl service: one document per platform
    (the collection's unique key), saved active, loaded only while active,
    marked expired, and listed with the platforms that have none. Also the
    cookie-header format shared with the browser extension. The clock is a
    parameter; the health check and the browser injection talk to the
    network and a browser and are not part of this model. */
module CookieManager {
  import opened Common
  import opened Json
  import Alert

  /** `_SESSION_COOKIE_KEYS`, in its declaration order. */
  const SessionCookieKeys: seq<(string, string)> := [
    ("xhs", "web_session"), ("dy", "LOGIN_STATUS"), ("bili", "SESSDATA"), ("wb", "SSOLoginState"),
    ("ks", "passToken"), ("tieba", "BDUSS"), ("zhihu", "z_c0")]

  /** The platforms of `_SESSION_COOKIE_KEYS`. */
  const KnownPlatforms: seq<string> := ["xhs", "dy", "bili", "wb", "ks", "tieba", "zhihu"]

  /** Seven days, `7 * 86400`. */
  const ExpiryHintSec: int := 7 * 86400

  /** `get_session_cookie_key`: the platform's session cookie, "" for an
      unknown platform. */
  function SessionCookieKey(platform: string): (r: string)
    ensures r != "" <==> platform in KnownPlatforms
  {
    if platform == "xhs" then "web_session"
    else if platform == "dy" then "LOGIN_STATUS"
    else if platform == "bili" then "SESSDATA"
    else if platform == "wb" then "SSOLoginState"
    else if platform == "ks" then "passToken"
    else if platform == "tieba" then "BDUSS"
    else if platform == "zhihu" then "z_c0"
    else ""
  }

  /** The lookup agrees with the table, entry by entry. */
  lemma SessionCookieKeyTable()
    ensures |KnownPlatforms| == |SessionCookieKeys|
    ensures forall k :: 0 <= k < |SessionCookieKeys| ==>
      KnownPlatforms[k] == SessionCookieKeys[k].0 && SessionCookieKey(SessionCookieKeys[k].0) == SessionCookieKeys[k].1
  {
  }

  // ---------------------------------------------------------------------------
  // The cookie header
  // ---------------------------------------------------------------------------

  /** A cookie dict's items in insertion order. */
  type Jar = seq<(string, Json)>

  /** `f"{k}={v}"` */
  function PairText(p: (string, Json)): string { p.0 + "=" + ToStr(p.1) }

  function PairTexts(jar: Jar): (r: seq<string>)
    ensures |r| == |jar|
    ensures forall k :: 0 <= k < |jar| ==> r[k] == PairText(jar[k])
  {
    if jar == [] then [] else PairTexts(jar[..|jar| - 1]) + [PairText(jar[|jar| - 1])]
  }

  /** `format_cookies_for_config`: the pairs joined by "; ". */
  function CookieString(jar: Jar): string { Join(PairTexts(jar), "; ") }

  /** The parts after the first, each with the space the separator leaves. */
  function Spaced(parts: seq<string>): (r: seq<string>)
    requires parts != []
    ensures |r| == |parts| && r[0] == parts[0]
    ensures forall k :: 1 <= k < |parts| ==> r[k] == " " + parts[k]
  {
    if |parts| == 1 then parts else Spaced(parts[..|parts| - 1]) + [" " + parts[|parts| - 1]]
  }

  /** Joining by "; " is joining by ";" the parts with their spaces. */
  lemma {:induction false} JoinSpaced(parts: seq<string>)
    requires parts != []
    ensures Join(parts, "; ") == Join(Spaced(parts), ";")
  {
    if |parts| > 1 {
      var n := |parts|;
      var init, last := parts[..n - 1], parts[n - 1];
      JoinSpaced(init);
      var x := Join(init, "; ");
      assert Join(Spaced(parts), ";") == x + "; " + last by {
        var sp := Spaced(parts);
        assert sp[..n - 1] == Spaced(init) && sp[n - 1] == " " + last;
        assert x + ";" + (" " + last) == x + "; " + last;
      }
    }
  }

  lemma SpacedNoSep(parts: seq<string>, c: char)
    requires parts != [] && c != ' '
    requires forall k :: 0 <= k < |parts| ==> c !in parts[k]
    ensures forall k :: 0 <= k < |Spaced(parts)| ==> c !in Spaced(parts)[k]
  {
    var sp := Spaced(parts);
    forall k | 0 <= k < |sp| ensures c !in sp[k] {
      if k > 0 {
        assert sp[k] == [' '] + parts[k];
      }
    }
  }

  /** Parts without ';' joined by "; " split at ';' back into the parts,
      each after the first with its leading space. */
  lemma SpacedSplits(parts: seq<string>)
    requires parts != []
    requires forall k :: 0 <= k < |parts| ==> ';' !in parts[k]
    ensures Split(Join(parts, "; "), ';') == Spaced(parts)
  {
    JoinSpaced(parts);
    SpacedNoSep(parts, ';');
    JoinSplit(Spaced(parts), ';');
    assert [';'] == ";";
  }

  /** The header splits at ';' back into its pairs (each after the first
      with one leading space) when no name or value contains ';': the
      format loses no pair. */
  lemma CookieStringSplits(jar: Jar)
    requires jar != []
    requires forall k :: 0 <= k < |jar| ==> ';' !in PairText(jar[k])
    ensures Split(CookieString(jar), ';') == Spaced(PairTexts(jar))
  {
    var parts := PairTexts(jar);
    assert forall k :: 0 <= k < |parts| ==> ';' !in parts[k];
    SpacedSplits(parts);
  }

  // ---------------------------------------------------------------------------
  // The store
  // ---------------------------------------------------------------------------

  /** Python `int(t)` for a clock value. */
  function IntPart(t: real): int {
    if t >= 0.0 then t.Floor else -((-t).Floor)
  }

  /** The fields `save_cookies` sets. */
  function SavedDoc(platform: string, cookies: Dict, now: real): Dict {
    var t := IntPart(now);
    map["platform" := JStr(platform), "cookies" := JObj(cookies), "saved_at" := JInt(t),
      "expires_hint" := JInt(t + ExpiryHintSec), "status" := JStr("active")]
  }

  /** A row of `get_all_status`. */
  datatype StatusRow = StatusRow(platform: string, status: Json, savedAt: Json, expiresHint: Json)

  function RowOf(platform: string, doc: Dict): StatusRow {
    StatusRow(platform, GetOr(doc, "status", JStr("unknown")), GetNull(doc, "saved_at"), GetNull(doc, "expires_hint"))
  }

  function MissingRow(platform: string): StatusRow {
    StatusRow(platform, JStr("missing"), JNull, JNull)
  }

  function RowKey(r: StatusRow): string { r.platform }

  function RowPlatforms(rows: seq<StatusRow>): (r: seq<string>)
    ensures |r| == |rows|
    ensures forall k :: 0 <= k < |rows| ==> r[k] == rows[k].platform
  {
    if rows == [] then [] else RowPlatforms(rows[..|rows| - 1]) + [rows[|rows| - 1].platform]
  }

  /** Each row is its document's row, or a "missing" row for a platform
      without a document. */
  ghost predicate RowsMatch(rows: seq<StatusRow>, docs: map<string, Dict>) {
    forall r :: r in rows ==>
      (if r.platform in docs then r == RowOf(r.platform, docs[r.platform]) else r == MissingRow(r.platform))
  }

  /** No platform has two rows. */
  ghost predicate DistinctPlatforms(rows: seq<StatusRow>) {
    forall i, j :: 0 <= i < j < |rows| ==> rows[i].platform != rows[j].platform
  }

  /** A permutation keeps distinct keys distinct. */
  lemma DistinctKeysPerm(a: seq<StatusRow>, b: seq<StatusRow>)
    requires multiset(a) == multiset(b)
    requires DistinctPlatforms(a)
    ensures DistinctPlatforms(b)
  {
    forall i, j | 0 <= i < j < |b| ensures b[i].platform != b[j].platform {
      assert b[i] in multiset(a) && b[j] in multiset(a);
      var x :| 0 <= x < |a| && a[x] == b[i];
      var y :| 0 <= y < |a| && a[y] == b[j];
      if x == y {
        assert multiset(b)[b[i]] >= 2 by { RepeatCount(b, i, j); }
        DistinctCount(a, b[i]);
      }
    }
  }

  /** A permutation has the same rows and so the same platforms. */
  lemma PermRows(a: seq<StatusRow>, b: seq<StatusRow>)
    requires multiset(a) == multiset(b)
    ensures forall r :: r in b ==> r in a
    ensures forall p :: p in RowPlatforms(b) <==> p in RowPlatforms(a)
  {
    forall r | r in b ensures r in a {
      assert r in multiset(a);
    }
    forall p ensures p in RowPlatforms(b) <==> p in RowPlatforms(a) {
      if p in RowPlatforms(b) {
        var i :| 0 <= i < |b| && b[i].platform == p;
        assert b[i] in multiset(a);
        var j :| 0 <= j < |a| && a[j] == b[i];
        assert RowPlatforms(a)[j] == p;
      }
      if p in RowPlatforms(a) {
        var i :| 0 <= i < |a| && a[i].platform == p;
        assert a[i] in multiset(b);
        var j :| 0 <= j < |b| && b[j] == a[i];
        assert RowPlatforms(b)[j] == p;
      }
    }
  }

  /** Appending a "missing" row for an unlisted platform without a
      document keeps the rows matching and distinct. */
  lemma AppendMissing(rows: seq<StatusRow>, q: string, docs: map<string, Dict>)
    requires RowsMatch(rows, docs) && DistinctPlatforms(rows)
    requires q !in RowPlatforms(rows) && q !in docs
    ensures RowsMatch(rows + [MissingRow(q)], docs) && DistinctPlatforms(rows + [MissingRow(q)])
    ensures RowPlatforms(rows + [MissingRow(q)]) == RowPlatforms(rows) + [q]
  {
    var t := rows + [MissingRow(q)];
    assert t[..|rows|] == rows;
    forall i, j | 0 <= i < j < |t| ensures t[i].platform != t[j].platform {
      if j == |rows| {
        assert RowPlatforms(rows)[i] == t[i].platform;
      }
    }
  }

  class Store {
    /** The `platform_cookies` collection, by platform. */
    var docs: map<string, Dict>

    /** Every document carries its own platform, as the unique index keys it. */
    ghost predicate Valid()
      reads this
    {
      forall p :: p in docs ==> "platform" in docs[p] && docs[p]["platform"] == JStr(p)
    }

    constructor(initial: map<string, Dict>)
      requires forall p :: p in initial ==> "platform" in initial[p] && initial[p]["platform"] == JStr(p)
      ensures Valid() && docs == initial
    {
      docs := initial;
    }

    /** `save_cookies`: an upsert that sets the cookies, the save time, the
        seven-day hint and status active, keeping other fields. */
    method SaveCookies(platform: string, cookies: Dict, now: real)
      requires Valid()
      modifies this
      ensures Valid()
      ensures docs == old(docs)[platform := (if platform in old(docs) then old(docs)[platform] else map[]) +
        SavedDoc(platform, cookies, now)]
    {
      var base := if platform in docs then docs[platform] else map[];
      docs := docs[platform := base + SavedDoc(platform, cookies, now)];
    }

    /** `load_cookies`: the cookies of an active document (None, read as
        JNull, when it has none), None otherwise. */
    method LoadCookies(platform: string) returns (r: Option<Json>)
      ensures r.Some? <==> platform in docs && "status" in docs[platform] && docs[platform]["status"] == JStr("active")
      ensures r.Some? ==> r.value == GetNull(docs[platform], "cookies")
    {
      if platform in docs && "status" in docs[platform] && docs[platform]["status"] == JStr("active") {
        return Some(GetNull(docs[platform], "cookies"));
      }
      return None;
    }

    /** `mark_expired`: an update without upsert, then
        `alert_cookie_expired` for the platform through `alerter` (`port`
        and `token` are the login console settings, `reply` the push
        service's answer). */
    method MarkExpired(platform: string, now: real, alerter: Alert.Alerter, port: string, token: string, reply: Option<Dict>)
      requires Valid()
      modifies this, alerter
      ensures Valid()
      ensures docs == if platform in old(docs)
        then old(docs)[platform := old(docs)[platform] + map["status" := JStr("expired"), "expired_at" := JInt(IntPart(now))]]
        else old(docs)
      ensures alerter.last == Alert.AfterAlert(alerter.key, old(alerter.last), platform, now)
    {
      if platform in docs {
        docs := docs[platform := docs[platform] + map["status" := JStr("expired"), "expired_at" := JInt(IntPart(now))]];
      }
      var sent := alerter.AlertCookieExpired(platform, port, token, now, reply);
    }

    /** `get_all_status`: one row per stored document and one "missing" row
        per known platform without a document, sorted by platform. */
    method GetAllStatus() returns (rows: seq<StatusRow>)
      requires Valid()
      ensures SortedBy(rows, RowKey)
      ensures forall i, j :: 0 <= i < j < |rows| ==> rows[i].platform != rows[j].platform
      ensures forall p :: p in RowPlatforms(rows) <==> p in docs || p in KnownPlatforms
      ensures forall r :: r in rows ==>
        (if r.platform in docs then r == RowOf(r.platform, docs[r.platform]) else r == MissingRow(r.platform))
    {
      var stored := StoredRows();
      var all := AddMissing(stored, KnownPlatforms);
      rows := SortBy(all, RowKey);
      SortByProps(all, RowKey);
      DistinctKeysPerm(all, rows);
      PermRows(all, rows);
    }

    /** The first loop of `get_all_status`: a row per document, in the
        collection's order. */
    method StoredRows() returns (result: seq<StatusRow>)
      ensures forall r :: r in result ==> r.platform in docs && r == RowOf(r.platform, docs[r.platform])
      ensures forall p :: p in RowPlatforms(result) <==> p in docs
      ensures forall i, j :: 0 <= i < j < |result| ==> result[i].platform != result[j].platform
    {
      result := [];
      var remaining := docs.Keys;
      while remaining != {}
        invariant remaining <= docs.Keys
        invariant forall r :: r in result ==> r.platform in docs && r == RowOf(r.platform, docs[r.platform])
        invariant forall p :: p in RowPlatforms(result) <==> p in docs && p !in remaining
        invariant forall i, j :: 0 <= i < j < |result| ==> result[i].platform != result[j].platform
        decreases remaining
      {
        var p :| p in remaining;
        assert RowPlatforms(result + [RowOf(p, docs[p])]) == RowPlatforms(result) + [p];
        result := result + [RowOf(p, docs[p])];
        remaining := remaining - {p};
      }
    }

    /** The second loop: a "missing" row per known platform not yet listed. */
    method AddMissing(stored: seq<StatusRow>, known: seq<string>) returns (result: seq<StatusRow>)
      requires forall r :: r in stored ==> r.platform in docs && r == RowOf(r.platform, docs[r.platform])
      requires forall p :: p in RowPlatforms(stored) <==> p in docs
      requires DistinctPlatforms(stored)
      ensures RowsMatch(result, docs)
      ensures forall p :: p in RowPlatforms(result) <==> p in docs || p in known
      ensures DistinctPlatforms(result)
    {
      result := stored;
      for k := 0 to |known|
        invariant RowsMatch(result, docs)
        invariant forall p :: p in RowPlatforms(result) <==> p in docs || p in known[..k]
        invariant DistinctPlatforms(result)
      {
        var q := known[k];
        assert known[..k + 1] == known[..k] + [q];
        if q !in RowPlatforms(result) {
          AppendMissing(result, q, docs);
          result := result + [MissingRow(q)];
        }
      }
      assert known[..|known|] == known;
    }
  }
}
