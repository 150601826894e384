/** The deep-crawl topic matcher: before a user topic is crawled it is
    compared with the topics already crawled. An exact 24-hour user-task
    hit short-circuits; otherwise a keyword (Jaccard) shortlist is judged by
    the language model, with a keyword-only fallback. Keywords to search for
    are expanded separately. The stored tasks and candidates, jieba (`cut`),
    the model's reply text, `json.loads` (`loads`) and the crawl-statistics
    queries (`stats`, `statsByTitle`) are parameters. */
module TopicMatcher {
  import opened Common
  import opened Json
  import SignalDetector
  import Dispatcher

  const MatchDuplicate: string := "duplicate"
  const MatchDevelopment: string := "development"
  const MatchDifferent: string := "different"

  /** A markdown code fence. */
  const Fence: string := "```"

  // ---------------------------------------------------------------------------
  // `_parse_llm_json`
  // ---------------------------------------------------------------------------

  /** A slice of a text in which sub does not occur does not contain it. */
  lemma SliceAvoids(s: string, sub: string, i: nat, j: nat)
    requires i <= j <= |s| && !Contains(s, sub)
    ensures !Contains(s[i..j], sub)
  {
    var t := s[i..j];
    if Contains(t, sub) {
      var p := Find(t, sub).value;
      assert OccursAt(t, sub, p);
      forall q | p <= q < p + |sub| ensures t[q] == s[i + q] {
      }
      assert s[i + p..i + p + |sub|] == t[p..p + |sub|];
      ContainsWitness(s, sub, i + p);
    }
  }

  /** `t.split("```")[1]`: the text after the first fence, up to the next
      fence or the end. */
  function AfterFence(t: string): (r: string)
    requires Contains(t, Fence)
    ensures !Contains(r, Fence)
    ensures var k := Find(t, Fence).value; k + 3 + |r| <= |t| && r == t[k + 3..k + 3 + |r|]
  {
    var k := Find(t, Fence).value;
    var rest := t[k + 3..];
    match Find(rest, Fence)
    case None => rest
    case Some(j) =>
      assert !Contains(rest[..j], Fence) by {
        if Contains(rest[..j], Fence) {
          var p := Find(rest[..j], Fence).value;
          assert rest[..j][p..p + 3] == rest[p..p + 3];
          assert p < j && OccursAt(rest, Fence, p);
        }
      }
      rest[..j]
  }

  /** The fenced case of `_parse_llm_json`: the first fenced segment,
      without a leading "json" language tag, stripped. */
  function FencedText(t: string): (r: string)
    requires Contains(t, Fence)
    ensures !Contains(r, Fence) && Strip(r) == r
  {
    var seg := AfterFence(t);
    var body := if StartsWith(seg, "json") then seg[4..] else seg;
    SliceAvoids(seg, Fence, |seg| - |body|, |seg|);
    assert body == seg[|seg| - |body|..|seg|];
    StripAvoids(body, Fence);
    Strip(body)
  }

  /** Stripping keeps a text free of sub and is idempotent. */
  lemma StripAvoids(s: string, sub: string)
    requires !Contains(s, sub)
    ensures !Contains(Strip(s), sub) && Strip(Strip(s)) == Strip(s)
  {
    StripSlice(s);
    SliceAvoids(s, sub, StripStart(s), StripStart(s) + |Strip(s)|);
    StripIdempotent(s);
  }

  /** The text `_parse_llm_json` hands to `json.loads`: the stripped reply,
      or, when it holds a fence, the stripped first fenced segment. */
  function LlmJsonText(text: string): (r: string)
    ensures !Contains(Strip(text), Fence) ==> r == Strip(text)
    ensures Contains(Strip(text), Fence) ==> !Contains(r, Fence) && Strip(r) == r
  {
    var t := Strip(text);
    if Contains(t, Fence) then FencedText(t) else t
  }

  /** In a backtick-free segment followed by a fence, the first fence is
      that closing one. */
  lemma ClosingFence(seg: string)
    requires '`' !in seg
    ensures Find(seg + Fence, Fence) == Some(|seg|)
  {
    var rest := seg + Fence;
    var e := |seg|;
    assert rest[e..e + 3] == Fence;
    assert OccursAt(rest, Fence, e);
    forall p | 0 <= p < e ensures !OccursAt(rest, Fence, p) {
      assert rest[p] == seg[p];
    }
  }

  /** When a second fence follows the first, the segment is what lies
      between them. */
  lemma AfterFenceAt(t: string, k: nat, j: nat)
    requires Find(t, Fence) == Some(k) && k + 3 <= |t| && Find(t[k + 3..], Fence) == Some(j)
    ensures AfterFence(t) == t[k + 3..][..j]
  {
  }

  /** A backtick-free segment between two fences is what follows the
      first fence. */
  lemma BetweenFences(seg: string)
    requires '`' !in seg
    ensures Contains(Fence + seg + Fence, Fence)
    ensures AfterFence(Fence + seg + Fence) == seg
  {
    var t := Fence + seg + Fence;
    assert t[0..3] == Fence;
    assert OccursAt(t, Fence, 0);
    assert Find(t, Fence) == Some(0);
    var rest := t[3..];
    assert rest == seg + Fence;
    ClosingFence(seg);
    AfterFenceAt(t, 0, |seg|);
    assert rest[..|seg|] == seg;
  }

  /** A reply fenced as a json code block yields exactly its stripped body. */
  lemma FencedReply(body: string)
    requires '`' !in body
    ensures LlmJsonText("```json" + body + "```") == Strip(body)
  {
    var t := "```json" + body + "```";
    var seg := "json" + body;
    assert t == Fence + seg + Fence;
    assert t[0] == '`' && t[|t| - 1] == '`';
    StripFixed(t);
    assert '`' !in seg by {
      assert forall q :: 0 <= q < |body| ==> seg[q + 4] == body[q];
    }
    BetweenFences(seg);
    assert StartsWith(seg, "json") && seg[4..] == body;
    assert FencedText(t) == Strip(body);
  }

  /** The parsed verdict of the model: None when the call or the parse
      raised, or when the JSON is not an object (`.get` raises). */
  function Verdict(reply: Option<string>, loads: string -> Option<Json>): Option<Dict> {
    if reply.None? then None
    else match loads(LlmJsonText(reply.value))
      case Some(JObj(fields)) => Some(fields)
      case _ => None
  }

  // ---------------------------------------------------------------------------
  // Keyword sets and Jaccard overlap
  // ---------------------------------------------------------------------------

  /** `_extract_keywords` as a set (the same stopwords as the signal detector). */
  function KeywordSet(title: string, cut: string -> seq<string>): set<string> {
    set w | w in SignalDetector.Keywords(title, cut)
  }

  lemma KeywordSetSpec(title: string, cut: string -> seq<string>)
    ensures forall w :: w in KeywordSet(title, cut) <==> title != "" && w in cut(title) && SignalDetector.IsKeyword(w)
  {
    SignalDetector.KeywordsSpec(title, cut);
  }

  /** A stored title: non-text titles count as empty. */
  function TitleText(j: Json): string { if j.JStr? then j.s else "" }

  /** `[canonical_title] + source_titles` of a candidate. */
  function CandidateTitles(c: Dict): (r: seq<string>)
    ensures |r| >= 1 && r[0] == TitleText(GetOr(c, "canonical_title", JStr("")))
    ensures var src := GetOr(c, "source_titles", JArr([]));
      src.JArr? ==> |r| == 1 + |src.elems| && forall k :: 0 <= k < |src.elems| ==> r[k + 1] == TitleText(src.elems[k])
  {
    var src := GetOr(c, "source_titles", JArr([]));
    var elems := if src.JArr? then src.elems else [];
    [TitleText(GetOr(c, "canonical_title", JStr("")))] + seq(|elems|, k requires 0 <= k < |elems| => TitleText(elems[k]))
  }

  /** The union of the keyword sets of the titles. */
  function UnionKeywords(titles: seq<string>, cut: string -> seq<string>): set<string> {
    if titles == [] then {} else UnionKeywords(titles[..|titles| - 1], cut) + KeywordSet(titles[|titles| - 1], cut)
  }

  lemma {:induction false} UnionKeywordsWitness(titles: seq<string>, cut: string -> seq<string>, w: string)
    requires w in UnionKeywords(titles, cut)
    ensures exists k :: 0 <= k < |titles| && w in KeywordSet(titles[k], cut)
  {
    var init := titles[..|titles| - 1];
    if w in UnionKeywords(init, cut) {
      UnionKeywordsWitness(init, cut, w);
      var k :| 0 <= k < |init| && w in KeywordSet(init[k], cut);
      assert titles[k] == init[k];
    } else {
      assert w in KeywordSet(titles[|titles| - 1], cut);
    }
  }

  lemma {:induction false} UnionKeywordsHas(titles: seq<string>, cut: string -> seq<string>, k: nat, w: string)
    requires k < |titles| && w in KeywordSet(titles[k], cut)
    ensures w in UnionKeywords(titles, cut)
  {
    var init := titles[..|titles| - 1];
    if k < |init| {
      assert init[k] == titles[k];
      UnionKeywordsHas(init, cut, k, w);
    }
  }

  /** A keyword is in the union exactly when some title has it. */
  lemma UnionKeywordsSpec(titles: seq<string>, cut: string -> seq<string>)
    ensures forall w :: w in UnionKeywords(titles, cut) <==> exists k :: 0 <= k < |titles| && w in KeywordSet(titles[k], cut)
  {
    forall w ensures w in UnionKeywords(titles, cut) <==> exists k :: 0 <= k < |titles| && w in KeywordSet(titles[k], cut) {
      if w in UnionKeywords(titles, cut) {
        UnionKeywordsWitness(titles, cut, w);
      }
      if exists k :: 0 <= k < |titles| && w in KeywordSet(titles[k], cut) {
        var k :| 0 <= k < |titles| && w in KeywordSet(titles[k], cut);
        UnionKeywordsHas(titles, cut, k, w);
      }
    }
  }

  function CandidateKeywords(c: Dict, cut: string -> seq<string>): set<string> {
    UnionKeywords(CandidateTitles(c), cut)
  }

  /** A subset is no larger, and equally large only when equal. */
  lemma {:induction false} SubsetCard<T>(a: set<T>, b: set<T>)
    requires a <= b
    ensures |a| <= |b|
    ensures |a| == |b| ==> a == b
    decreases |a|
  {
    if a != {} {
      var x :| x in a;
      SubsetCard(a - {x}, b - {x});
      assert |a - {x}| == |a| - 1 && |b - {x}| == |b| - 1;
      if |a| == |b| {
        assert a == (a - {x}) + {x} && b == (b - {x}) + {x};
      }
    } else if |b| == 0 {
      assert b == {};
    }
  }

  /** `len(A & B) / len(A | B)` */
  function Jaccard(a: set<string>, b: set<string>): real
    requires a + b != {}
  {
    (|a * b| as real) / (|a + b| as real)
  }

  /** The overlap is a ratio in [0, 1], and 1 exactly for equal sets. */
  lemma JaccardBounds(a: set<string>, b: set<string>)
    requires a + b != {}
    ensures 0.0 <= Jaccard(a, b) <= 1.0
    ensures Jaccard(a, b) == 1.0 <==> a == b
  {
    SubsetCard(a * b, a + b);
    var n := |a * b| as real;
    var d := |a + b| as real;
    assert d > 0.0 && n <= d;
    assert Jaccard(a, b) * d == n;
    if a == b {
      assert a * b == a + b;
    }
    if Jaccard(a, b) == 1.0 {
      assert n == d;
      assert a * b == a + b;
      forall x | x in a + b ensures x in a && x in b {
        assert x in a * b;
      }
    }
  }

  // ---------------------------------------------------------------------------
  // `_jieba_prefilter`
  // ---------------------------------------------------------------------------

  /** A shortlisted candidate with its overlap. */
  datatype Scored = Scored(cand: Dict, overlap: real)

  /** The shortlist entry a candidate yields, if any: candidates without
      keywords are skipped, the rest are kept at an overlap of at least 0.3. */
  function Qualify(userKw: set<string>, c: Dict, cut: string -> seq<string>): Option<Scored> {
    var candKw := CandidateKeywords(c, cut);
    if candKw == {} then None
    else if Jaccard(userKw, candKw) >= 3.0 / 10.0 then Some(Scored(c, Jaccard(userKw, candKw)))
    else None
  }

  /** A candidate qualifies with itself, non-empty keywords and its true
      overlap of at least 0.3. */
  lemma QualifyProps(userKw: set<string>, c: Dict, cut: string -> seq<string>)
    ensures Qualify(userKw, c, cut).Some? ==>
      var candKw := CandidateKeywords(c, cut);
      && candKw != {}
      && Qualify(userKw, c, cut).value == Scored(c, Jaccard(userKw, candKw))
      && Jaccard(userKw, candKw) >= 3.0 / 10.0
  {
  }

  /** The `scored` list, in candidate order. */
  function ScoredList(userKw: set<string>, cands: seq<Dict>, cut: string -> seq<string>): seq<Scored> {
    Select(cands, c => Qualify(userKw, c, cut))
  }

  /** The shortlist holds exactly the entries the candidates qualify for. */
  lemma ScoredListMembers(userKw: set<string>, cands: seq<Dict>, cut: string -> seq<string>)
    ensures forall e :: e in ScoredList(userKw, cands, cut) ==> exists i :: 0 <= i < |cands| && Qualify(userKw, cands[i], cut) == Some(e)
    ensures forall i :: 0 <= i < |cands| && Qualify(userKw, cands[i], cut).Some? ==> Qualify(userKw, cands[i], cut).value in ScoredList(userKw, cands, cut)
  {
    SelectMembers(cands, c => Qualify(userKw, c, cut));
  }

  predicate Descending(s: seq<Scored>) {
    forall i, j :: 0 <= i < j < |s| ==> s[j].overlap <= s[i].overlap
  }

  /** Insert before the first entry that is not larger, so that equal
      overlaps keep their order (Python's sort is stable). */
  function InsertDesc(x: Scored, s: seq<Scored>): seq<Scored> {
    if s == [] || s[0].overlap <= x.overlap then [x] + s else [s[0]] + InsertDesc(x, s[1..])
  }

  /** `scored.sort(key=overlap, reverse=True)` */
  function SortDesc(s: seq<Scored>): seq<Scored> {
    if s == [] then [] else InsertDesc(s[0], SortDesc(s[1..]))
  }

  lemma {:induction false} InsertDescPerm(x: Scored, s: seq<Scored>)
    ensures multiset(InsertDesc(x, s)) == multiset(s) + multiset{x}
  {
    if s != [] && x.overlap < s[0].overlap {
      InsertDescPerm(x, s[1..]);
      assert s == [s[0]] + s[1..];
    }
  }

  lemma {:induction false} InsertDescBelow(x: Scored, s: seq<Scored>, b: real)
    requires x.overlap <= b && forall k :: 0 <= k < |s| ==> s[k].overlap <= b
    ensures forall k :: 0 <= k < |InsertDesc(x, s)| ==> InsertDesc(x, s)[k].overlap <= b
  {
    if s != [] && x.overlap < s[0].overlap {
      var t := InsertDesc(x, s[1..]);
      InsertDescBelow(x, s[1..], b);
      var r := [s[0]] + t;
      forall k | 0 <= k < |r| ensures r[k].overlap <= b {
        if k > 0 {
          assert r[k] == t[k - 1];
        }
      }
    } else {
      var r := [x] + s;
      forall k | 0 <= k < |r| ensures r[k].overlap <= b {
        if k > 0 {
          assert r[k] == s[k - 1];
        }
      }
    }
  }

  lemma {:induction false} InsertDescSorted(x: Scored, s: seq<Scored>)
    requires Descending(s)
    ensures Descending(InsertDesc(x, s))
  {
    if s != [] && x.overlap < s[0].overlap {
      var t := InsertDesc(x, s[1..]);
      InsertDescSorted(x, s[1..]);
      InsertDescBelow(x, s[1..], s[0].overlap);
      var r := [s[0]] + t;
      forall a, b | 0 <= a < b < |r| ensures r[b].overlap <= r[a].overlap {
        assert r[b] == t[b - 1];
        if a > 0 {
          assert r[a] == t[a - 1];
        }
      }
    } else {
      var r := [x] + s;
      forall a, b | 0 <= a < b < |r| ensures r[b].overlap <= r[a].overlap {
        assert r[b] == s[b - 1];
        if a > 0 {
          assert r[a] == s[a - 1];
        }
      }
    }
  }

  /** Inserting keeps the order descending and adds exactly the new entry. */
  lemma InsertDescProps(x: Scored, s: seq<Scored>)
    requires Descending(s)
    ensures Descending(InsertDesc(x, s))
    ensures multiset(InsertDesc(x, s)) == multiset(s) + multiset{x}
  {
    InsertDescSorted(x, s);
    InsertDescPerm(x, s);
  }

  lemma {:induction false} SortDescProps(s: seq<Scored>)
    ensures Descending(SortDesc(s))
    ensures multiset(SortDesc(s)) == multiset(s)
  {
    if s != [] {
      SortDescProps(s[1..]);
      InsertDescProps(s[0], SortDesc(s[1..]));
      assert s == [s[0]] + s[1..];
    }
  }

  /** `_jieba_prefilter`: nothing for a title without keywords, else the ten
      best-scoring entries. */
  function Prefiltered(title: string, cands: seq<Dict>, cut: string -> seq<string>): seq<Scored> {
    var userKw := KeywordSet(title, cut);
    if userKw == {} then [] else Take(SortDesc(ScoredList(userKw, cands, cut)), 10)
  }

  /** Every sorted entry is the entry of some candidate. */
  lemma SortedEntries(userKw: set<string>, cands: seq<Dict>, cut: string -> seq<string>)
    ensures Descending(SortDesc(ScoredList(userKw, cands, cut)))
    ensures forall e :: e in SortDesc(ScoredList(userKw, cands, cut)) ==>
      exists i :: 0 <= i < |cands| && Qualify(userKw, cands[i], cut) == Some(e)
  {
    var scored := ScoredList(userKw, cands, cut);
    SortDescProps(scored);
    ScoredListMembers(userKw, cands, cut);
    forall e | e in SortDesc(scored) ensures exists i :: 0 <= i < |cands| && Qualify(userKw, cands[i], cut) == Some(e) {
      assert e in multiset(SortDesc(scored));
      assert e in scored;
    }
  }

  /** The shortlist holds at most ten candidates, in descending overlap, each
      one taken from the input with its true Jaccard overlap of at least 0.3. */
  lemma PrefilteredProps(title: string, cands: seq<Dict>, cut: string -> seq<string>)
    ensures var r := Prefiltered(title, cands, cut);
      && |r| <= 10 && Descending(r)
      && (KeywordSet(title, cut) == {} ==> r == [])
      && (forall e :: e in r ==>
            && (exists i :: 0 <= i < |cands| && cands[i] == e.cand)
            && CandidateKeywords(e.cand, cut) != {}
            && e.overlap == Jaccard(KeywordSet(title, cut), CandidateKeywords(e.cand, cut))
            && e.overlap >= 3.0 / 10.0)
  {
    var userKw := KeywordSet(title, cut);
    if userKw != {} {
      var sorted := SortDesc(ScoredList(userKw, cands, cut));
      SortedEntries(userKw, cands, cut);
      var r := Take(sorted, 10);
      forall e | e in r
        ensures exists i :: 0 <= i < |cands| && cands[i] == e.cand
        ensures CandidateKeywords(e.cand, cut) != {}
        ensures e.overlap == Jaccard(KeywordSet(title, cut), CandidateKeywords(e.cand, cut))
        ensures e.overlap >= 3.0 / 10.0
      {
        assert e in sorted;
        var i :| 0 <= i < |cands| && Qualify(userKw, cands[i], cut) == Some(e);
        QualifyProps(userKw, cands[i], cut);
      }
    }
  }

  /** A qualifying candidate's entry is in the sorted list, which is
      descending. */
  lemma SortedHas(userKw: set<string>, cands: seq<Dict>, cut: string -> seq<string>, i: nat)
    requires i < |cands| && Qualify(userKw, cands[i], cut).Some?
    ensures Descending(SortDesc(ScoredList(userKw, cands, cut)))
    ensures Qualify(userKw, cands[i], cut).value in SortDesc(ScoredList(userKw, cands, cut))
  {
    var scored := ScoredList(userKw, cands, cut);
    SortDescProps(scored);
    ScoredListMembers(userKw, cands, cut);
    assert Qualify(userKw, cands[i], cut).value in multiset(scored);
  }

  /** A candidate whose overlap clears 0.3 is on the shortlist, unless ten
      entries at least as good are already there. */
  lemma PrefilteredComplete(title: string, cands: seq<Dict>, cut: string -> seq<string>, i: nat)
    requires i < |cands| && KeywordSet(title, cut) != {} && CandidateKeywords(cands[i], cut) != {}
    requires Jaccard(KeywordSet(title, cut), CandidateKeywords(cands[i], cut)) >= 3.0 / 10.0
    ensures var r := Prefiltered(title, cands, cut);
      var j := Jaccard(KeywordSet(title, cut), CandidateKeywords(cands[i], cut));
      Scored(cands[i], j) in r || (|r| == 10 && forall k :: 0 <= k < |r| ==> j <= r[k].overlap)
  {
    var userKw := KeywordSet(title, cut);
    var sorted := SortDesc(ScoredList(userKw, cands, cut));
    QualifyProps(userKw, cands[i], cut);
    var e := Qualify(userKw, cands[i], cut).value;
    SortedHas(userKw, cands, cut, i);
    var p :| 0 <= p < |sorted| && sorted[p] == e;
    var r := Take(sorted, 10);
    assert Prefiltered(title, cands, cut) == r;
    if p >= 10 {
      forall k | 0 <= k < |r| ensures e.overlap <= r[k].overlap {
        assert r[k] == sorted[k];
      }
    } else {
      assert r[p] == e;
    }
  }

  // ---------------------------------------------------------------------------
  // Match results, `_jieba_fallback` and `_llm_match`
  // ---------------------------------------------------------------------------

  /** The dict `match` returns (the free-text `reason` is not modelled). */
  datatype MatchResult = MatchResult(
    matchType: Json,
    candidateId: Json,
    canonicalTitle: Json,
    status: Json,
    sourceTitles: Json,
    crawlStats: Dict,
    via: string,
    confidence: Json)

  /** Python `round(x)` on an exact value: to the nearest integer, ties to even. */
  function RoundHalfEven(x: real): (r: int)
    ensures x - 0.5 <= r as real <= x + 0.5
  {
    var n := x.Floor;
    var frac := x - n as real;
    if frac > 0.5 then n + 1
    else if frac < 0.5 then n
    else if n % 2 == 0 then n else n + 1
  }

  /** `round(x, 2)` */
  function Round2(x: real): (r: real)
    ensures x - 0.005 <= r <= x + 0.005
  {
    (RoundHalfEven(x * 100.0) as real) / 100.0
  }

  /** The first entry with an overlap of at least 0.6. */
  function FirstStrong(s: seq<Scored>): (r: Option<nat>)
    ensures r.Some? ==> r.value < |s| && s[r.value].overlap >= 0.6
    ensures r.Some? ==> forall k :: 0 <= k < r.value ==> s[k].overlap < 0.6
    ensures r.None? <==> forall k :: 0 <= k < |s| ==> s[k].overlap < 0.6
  {
    if s == [] then None
    else if s[0].overlap >= 0.6 then Some(0)
    else match FirstStrong(s[1..])
      case None => None
      case Some(k) => Some(k + 1)
  }

  /** The duplicate verdict of the keyword fallback for one entry. */
  function JiebaDuplicate(e: Scored, stats: Json -> Dict): MatchResult {
    var id := GetOr(e.cand, "candidate_id", JStr(""));
    MatchResult(JStr(MatchDuplicate), id, GetOr(e.cand, "canonical_title", JStr("")),
      GetOr(e.cand, "status", JStr("")), GetOr(e.cand, "source_titles", JArr([])),
      stats(id), "jieba", JFloat(Round2(e.overlap)))
  }

  /** `_jieba_fallback`: the first shortlist entry with an overlap of at
      least 0.6 is a duplicate; with none, no match. */
  function Fallback(shortlist: seq<Scored>, stats: Json -> Dict): (r: Option<MatchResult>)
    ensures r.None? <==> forall k :: 0 <= k < |shortlist| ==> shortlist[k].overlap < 0.6
    ensures r.Some? ==>
      exists k :: (0 <= k < |shortlist| && shortlist[k].overlap >= 0.6
        && (forall j :: 0 <= j < k ==> shortlist[j].overlap < 0.6)
        && r.value == JiebaDuplicate(shortlist[k], stats))
    ensures r.Some? ==> r.value.matchType == JStr(MatchDuplicate) && r.value.via == "jieba"
  {
    match FirstStrong(shortlist)
    case None => None
    case Some(k) => Some(JiebaDuplicate(shortlist[k], stats))
  }

  /** The first shortlist entry whose `candidate_id` equals id. */
  function FindById(s: seq<Scored>, id: Json): (r: Option<nat>)
    ensures r.Some? ==> r.value < |s| && GetNull(s[r.value].cand, "candidate_id") == id
    ensures r.Some? ==> forall k :: 0 <= k < r.value ==> GetNull(s[k].cand, "candidate_id") != id
    ensures r.None? <==> forall k :: 0 <= k < |s| ==> GetNull(s[k].cand, "candidate_id") != id
  {
    if s == [] then None
    else if GetNull(s[0].cand, "candidate_id") == id then Some(0)
    else match FindById(s[1..], id)
      case None => None
      case Some(k) => Some(k + 1)
  }

  /** `_llm_match`: no match when the call or the parse fails, when the
      model says "different" or names no id, or when the id is not on the
      shortlist; otherwise the model's verdict on that candidate. */
  function LlmMatch(shortlist: seq<Scored>, reply: Option<string>, loads: string -> Option<Json>, stats: Json -> Dict)
    : (r: Option<MatchResult>)
    ensures r.Some? <==>
      && Verdict(reply, loads).Some?
      && GetOr(Verdict(reply, loads).value, "type", JStr(MatchDifferent)) != JStr(MatchDifferent)
      && Truthy(GetNull(Verdict(reply, loads).value, "matched_id"))
      && exists k :: 0 <= k < |shortlist| && GetNull(shortlist[k].cand, "candidate_id") == GetNull(Verdict(reply, loads).value, "matched_id")
    ensures r.Some? ==>
      && r.value.matchType == GetOr(Verdict(reply, loads).value, "type", JStr(MatchDifferent))
      && r.value.candidateId == GetNull(Verdict(reply, loads).value, "matched_id")
      && r.value.via == "llm"
      && exists k :: 0 <= k < |shortlist| && GetNull(shortlist[k].cand, "candidate_id") == r.value.candidateId
           && r.value.canonicalTitle == GetOr(shortlist[k].cand, "canonical_title", JStr(""))
  {
    match Verdict(reply, loads)
    case None => None
    case Some(v) =>
      var t := GetOr(v, "type", JStr(MatchDifferent));
      var id := GetNull(v, "matched_id");
      if t == JStr(MatchDifferent) || !Truthy(id) then None
      else match FindById(shortlist, id)
        case None => None
        case Some(k) =>
          var c := shortlist[k].cand;
          Some(MatchResult(t, id, GetOr(c, "canonical_title", JStr("")), GetOr(c, "status", JStr("")),
            GetOr(c, "source_titles", JArr([])), stats(id), "llm", GetOr(v, "confidence", JFloat(0.0))))
  }

  // ---------------------------------------------------------------------------
  // `_check_recent_user_tasks` and `_fetch_deep_crawled_candidates`
  // ---------------------------------------------------------------------------

  /** The exact-dedup query: a user task with this title created at or
      after the cutoff. */
  predicate ExactQuery(d: Dict, title: string, cutoff: int) {
    && GetNull(d, "topic_title") == JStr(title)
    && GetNull(d, "_source") == JStr("user")
    && Dispatcher.NumField(d, "created_at").Some?
    && Dispatcher.NumField(d, "created_at").value >= cutoff as real
  }

  /** `find_one(query, sort=created_at descending)`: the newest matching
      task (the first of equally new ones). */
  function Latest(tasks: seq<Dict>, title: string, cutoff: int): (r: Option<Dict>)
    ensures r.None? <==> forall d :: d in tasks ==> !ExactQuery(d, title, cutoff)
    ensures r.Some? ==> r.value in tasks && ExactQuery(r.value, title, cutoff)
    ensures r.Some? ==> forall d :: d in tasks && ExactQuery(d, title, cutoff) ==>
      Dispatcher.NumField(d, "created_at").value <= Dispatcher.NumField(r.value, "created_at").value
  {
    if tasks == [] then None
    else
      var rest := Latest(tasks[1..], title, cutoff);
      assert forall d :: d in tasks ==> d == tasks[0] || d in tasks[1..];
      if ExactQuery(tasks[0], title, cutoff)
        && (rest.None? || Dispatcher.NumField(rest.value, "created_at").value <= Dispatcher.NumField(tasks[0], "created_at").value)
      then Some(tasks[0])
      else rest
  }

  /** The exact-hit result for a stored user task. */
  function ExactResult(doc: Dict, title: string, statsByTitle: string -> Dict): MatchResult {
    MatchResult(JStr(MatchDuplicate), GetOr(doc, "candidate_id", JStr("user_api")), JStr(title),
      GetOr(doc, "status", JStr("pending")), JArr([JStr(title)]), statsByTitle(title), "exact", JFloat(1.0))
  }

  /** `_check_recent_user_tasks`: the newest user task with the same title
      from the last 24 hours (cutoff `int(now) - 86400`), as a duplicate. */
  function CheckRecent(tasks: seq<Dict>, title: string, now: real, statsByTitle: string -> Dict): (r: Option<MatchResult>)
    ensures r.Some? <==> exists d :: d in tasks && ExactQuery(d, title, Dispatcher.IntPart(now) - 86400)
    ensures r.Some? ==>
      (r.value.matchType == JStr(MatchDuplicate) && r.value.via == "exact"
        && r.value.canonicalTitle == JStr(title) && r.value.confidence == JFloat(1.0))
  {
    match Latest(tasks, title, Dispatcher.IntPart(now) - 86400)
    case None => None
    case Some(d) => Some(ExactResult(d, title, statsByTitle))
  }

  /** The candidate made from one aggregated user-task group. */
  function GroupCandidate(g: Dict, title: Json): Dict {
    map["candidate_id" := GetOr(g, "candidate_id", JStr("user_api")), "canonical_title" := title,
        "source_titles" := JArr([title]), "status" := GetOr(g, "status", JStr("completed"))]
  }

  /** The candidates contributed by the task groups: a group whose title is
      truthy and not seen yet; a group without `_id` ends the scan (the
      KeyError is caught by the surrounding handler). */
  function GroupEntries(groups: seq<Dict>, seen: set<Json>): (r: seq<Dict>)
    ensures |r| <= |groups|
    ensures forall k :: 0 <= k < |r| ==>
      ("canonical_title" in r[k] && Truthy(r[k]["canonical_title"]) && r[k]["canonical_title"] !in seen)
    ensures forall i, j :: 0 <= i < j < |r| ==> r[i]["canonical_title"] != r[j]["canonical_title"]
  {
    if groups == [] || "_id" !in groups[0] then []
    else
      var t := groups[0]["_id"];
      if Truthy(t) && t !in seen then
        var rest := GroupEntries(groups[1..], seen + {t});
        [GroupCandidate(groups[0], t)] + rest
      else GroupEntries(groups[1..], seen)
  }

  function CanonicalTitles(docs: seq<Dict>): set<Json> {
    set k | 0 <= k < |docs| :: GetOr(docs[k], "canonical_title", JStr(""))
  }

  /** `_fetch_deep_crawled_candidates`: the candidate documents first, then
      the user-task groups whose titles are new. */
  function FetchCandidates(candDocs: seq<Dict>, groups: seq<Dict>): (r: seq<Dict>)
    ensures |candDocs| <= |r| <= |candDocs| + |groups| && r[..|candDocs|] == candDocs
    ensures forall k :: |candDocs| <= k < |r| ==>
      ("canonical_title" in r[k] && r[k]["canonical_title"] !in CanonicalTitles(candDocs))
  {
    candDocs + GroupEntries(groups, CanonicalTitles(candDocs))
  }

  // ---------------------------------------------------------------------------
  // `expand_keywords`
  // ---------------------------------------------------------------------------

  /** The extras kept from the model's list: `str(kw).strip()`, non-empty
      and different from the title. */
  function Extras(xs: seq<Json>, title: string): seq<string> {
    if xs == [] then []
    else
      var kw := Strip(ToStr(xs[|xs| - 1]));
      Extras(xs[..|xs| - 1], title) + (if kw != "" && kw != title then [kw] else [])
  }

  lemma ExtrasSnoc(xs: seq<Json>, i: nat, title: string)
    requires i < |xs|
    ensures var kw := Strip(ToStr(xs[i]));
      Extras(xs[..i + 1], title) == Extras(xs[..i], title) + (if kw != "" && kw != title then [kw] else [])
  {
    assert xs[..i + 1][..i] == xs[..i];
  }

  lemma {:induction false} ExtrasProps(xs: seq<Json>, title: string)
    ensures |Extras(xs, title)| <= |xs|
    ensures forall k :: 0 <= k < |Extras(xs, title)| ==>
      var kw := Extras(xs, title)[k]; kw != "" && kw != title && Strip(kw) == kw
  {
    if xs != [] {
      var init := xs[..|xs| - 1];
      var kw := Strip(ToStr(xs[|xs| - 1]));
      var prev := Extras(init, title);
      var r := prev + (if kw != "" && kw != title then [kw] else []);
      assert Extras(xs, title) == r;
      ExtrasProps(init, title);
      StripIdempotent(ToStr(xs[|xs| - 1]));
      forall k | 0 <= k < |r| ensures r[k] != "" && r[k] != title && Strip(r[k]) == r[k] {
        if k < |prev| {
          assert r[k] == prev[k];
        }
      }
    }
  }

  /** The extras taken from a parsed reply: the first two entries of its
      `extra_keywords` list, none when that is not a list. */
  function ExtrasOf(v: Dict, title: string): seq<string> {
    var extra := GetOr(v, "extra_keywords", JArr([]));
    if extra.JArr? then Extras(Take(extra.elems, 2), title) else []
  }

  lemma ExtrasOfProps(v: Dict, title: string)
    ensures |ExtrasOf(v, title)| <= 2
    ensures forall k :: 0 <= k < |ExtrasOf(v, title)| ==>
      var kw := ExtrasOf(v, title)[k]; kw != "" && kw != title && Strip(kw) == kw
  {
    var extra := GetOr(v, "extra_keywords", JArr([]));
    if extra.JArr? {
      ExtrasProps(Take(extra.elems, 2), title);
    }
  }

  /** The search keywords `expand_keywords` returns. */
  function Expanded(title: string, llmAvailable: bool, reply: Option<string>, loads: string -> Option<Json>): seq<string> {
    if !llmAvailable then [title]
    else match Verdict(reply, loads)
      case None => [title]
      case Some(v) => [title] + ExtrasOf(v, title)
  }

  lemma ExpandedShape(title: string, llmAvailable: bool, reply: Option<string>, loads: string -> Option<Json>)
    ensures Expanded(title, llmAvailable, reply, loads) ==
      [title] + (if llmAvailable && Verdict(reply, loads).Some? then ExtrasOf(Verdict(reply, loads).value, title) else [])
  {
  }

  lemma TitleThenExtras(title: string, e: seq<string>)
    requires |e| <= 2
    requires forall k :: 0 <= k < |e| ==> e[k] != "" && e[k] != title && Strip(e[k]) == e[k]
    ensures var r := [title] + e;
      && 1 <= |r| <= 3 && r[0] == title
      && (forall k :: 1 <= k < |r| ==> r[k] != "" && r[k] != title && Strip(r[k]) == r[k])
  {
    var r := [title] + e;
    forall k | 1 <= k < |r| ensures r[k] != "" && r[k] != title && Strip(r[k]) == r[k] {
      assert r[k] == e[k - 1];
    }
  }

  /** The title comes first, at most two extras follow, each stripped,
      non-empty and different from the title; without a model the title is
      all there is. */
  lemma ExpandedProps(title: string, llmAvailable: bool, reply: Option<string>, loads: string -> Option<Json>)
    ensures var r := Expanded(title, llmAvailable, reply, loads);
      && 1 <= |r| <= 3 && r[0] == title
      && (forall k :: 1 <= k < |r| ==> r[k] != "" && r[k] != title && Strip(r[k]) == r[k])
      && (!llmAvailable || reply.None? ==> r == [title])
  {
    ExpandedShape(title, llmAvailable, reply, loads);
    var v := Verdict(reply, loads);
    if llmAvailable && v.Some? {
      ExtrasOfProps(v.value, title);
      TitleThenExtras(title, ExtrasOf(v.value, title));
    } else {
      TitleThenExtras(title, []);
    }
  }

  // ---------------------------------------------------------------------------
  // The matcher
  // ---------------------------------------------------------------------------

  /** The inner loop of `_jieba_prefilter`: the union of the titles'
      keyword sets. */
  method CollectKeywords(titles: seq<string>, cut: string -> seq<string>) returns (kw: set<string>)
    ensures kw == UnionKeywords(titles, cut)
  {
    kw := {};
    var j := 0;
    while j < |titles|
      invariant 0 <= j <= |titles|
      invariant kw == UnionKeywords(titles[..j], cut)
    {
      assert titles[..j + 1][..j] == titles[..j];
      kw := kw + KeywordSet(titles[j], cut);
      j := j + 1;
    }
    assert titles[..j] == titles;
  }

  lemma ScoredListSnoc(userKw: set<string>, cands: seq<Dict>, i: nat, cut: string -> seq<string>)
    requires i < |cands|
    ensures var q := Qualify(userKw, cands[i], cut);
      ScoredList(userKw, cands[..i + 1], cut) == ScoredList(userKw, cands[..i], cut) + (if q.Some? then [q.value] else [])
  {
    assert cands[..i + 1] == cands[..i] + [cands[i]];
    SelectSnoc(cands[..i], cands[i], c => Qualify(userKw, c, cut));
  }

  /** The outer loop of `_jieba_prefilter`: the `scored` list. */
  method ScoreAll(userKw: set<string>, cands: seq<Dict>, cut: string -> seq<string>) returns (scored: seq<Scored>)
    ensures scored == ScoredList(userKw, cands, cut)
  {
    scored := [];
    var i := 0;
    while i < |cands|
      invariant 0 <= i <= |cands|
      invariant scored == ScoredList(userKw, cands[..i], cut)
    {
      var c := cands[i];
      ScoredListSnoc(userKw, cands, i, cut);
      var candKw := CollectKeywords(CandidateTitles(c), cut);
      if candKw != {} {
        var overlap := Jaccard(userKw, candKw);
        if overlap >= 3.0 / 10.0 {
          scored := scored + [Scored(c, overlap)];
        }
      }
      i := i + 1;
    }
    assert cands[..i] == cands;
  }

  /** The loop over `extra[:2]` of `expand_keywords`. */
  method KeepExtras(xs: seq<Json>, title: string) returns (kept: seq<string>)
    ensures kept == Extras(xs, title)
  {
    kept := [];
    var i := 0;
    while i < |xs|
      invariant 0 <= i <= |xs|
      invariant kept == Extras(xs[..i], title)
    {
      ExtrasSnoc(xs, i, title);
      var kw := Strip(ToStr(xs[i]));
      if kw != "" && kw != title {
        kept := kept + [kw];
      }
      i := i + 1;
    }
    assert xs[..i] == xs;
  }

  class TopicMatcher {
    /** The model name (`qwen-flash` unless configured). */
    const model: string
    /** Both an API key and a base URL are configured. */
    const llmAvailable: bool

    /** `__init__`: the matcher's own settings, falling back to the main ones. */
    constructor(matcherKey: string, mainKey: string, matcherBase: string, mainBase: string, modelName: string)
      ensures llmAvailable <==> (matcherKey != "" || mainKey != "") && (matcherBase != "" || mainBase != "")
      ensures model == (if modelName != "" then modelName else "qwen-flash")
    {
      var key := if matcherKey != "" then matcherKey else mainKey;
      var base := if matcherBase != "" then matcherBase else mainBase;
      model := if modelName != "" then modelName else "qwen-flash";
      llmAvailable := key != "" && base != "";
    }

    /** `_jieba_prefilter` */
    method Prefilter(title: string, cands: seq<Dict>, cut: string -> seq<string>) returns (r: seq<Scored>)
      ensures r == Prefiltered(title, cands, cut)
    {
      var userKw := KeywordSet(title, cut);
      if userKw == {} {
        return [];
      }
      var scored := ScoreAll(userKw, cands, cut);
      r := Take(SortDesc(scored), 10);
    }

    /** `match`: an exact recent hit wins; no candidates or an empty
        shortlist mean no match; then the model's verdict when it gives one,
        else the keyword fallback. */
    method Match(title: string, tasks: seq<Dict>, now: real, candDocs: seq<Dict>, groups: seq<Dict>,
                 cut: string -> seq<string>, reply: Option<string>, loads: string -> Option<Json>,
                 stats: Json -> Dict, statsByTitle: string -> Dict)
      returns (r: Option<MatchResult>)
      ensures CheckRecent(tasks, title, now, statsByTitle).Some? ==> r == CheckRecent(tasks, title, now, statsByTitle)
      ensures CheckRecent(tasks, title, now, statsByTitle).None? ==>
        var cands := FetchCandidates(candDocs, groups);
        var shortlist := Prefiltered(title, cands, cut);
        && (cands == [] || shortlist == [] ==> r.None?)
        && (cands != [] && shortlist != [] ==>
              if llmAvailable && LlmMatch(shortlist, reply, loads, stats).Some?
              then r == LlmMatch(shortlist, reply, loads, stats)
              else r == Fallback(shortlist, stats))
    {
      var exact := CheckRecent(tasks, title, now, statsByTitle);
      if exact.Some? {
        return exact;
      }
      var cands := FetchCandidates(candDocs, groups);
      if cands == [] {
        return None;
      }
      var shortlist := Prefilter(title, cands, cut);
      if shortlist == [] {
        return None;
      }
      if llmAvailable {
        var llm := LlmMatch(shortlist, reply, loads, stats);
        if llm.Some? {
          return llm;
        }
      }
      r := Fallback(shortlist, stats);
    }

    /** `expand_keywords` */
    method ExpandKeywords(title: string, reply: Option<string>, loads: string -> Option<Json>) returns (r: seq<string>)
      ensures r == Expanded(title, llmAvailable, reply, loads)
    {
      ExpandedShape(title, llmAvailable, reply, loads);
      r := [title];
      if !llmAvailable {
        return;
      }
      var v := Verdict(reply, loads);
      if v.None? {
        return;
      }
      var extra := GetOr(v.value, "extra_keywords", JArr([]));
      if extra.JArr? {
        var kept := KeepExtras(Take(extra.elems, 2), title);
        r := r + kept;
      }
    }
  }
}
