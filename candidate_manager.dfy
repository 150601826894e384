/** The candidate-topic lifecycle (BroadTopicExtraction/analyzer/
    candidate_manager.py): signals are matched to candidates by keyword
    overlap or admitted as new ones, every round adds a score snapshot (or a
    decayed one), a prioritised state machine moves candidates through
    emerging, rising, confirmed, exploded, tracking, closed and faded, and
    reaching exploded emits deep-crawl tasks.

    Platform weights, decay and overlap thresholds are exact rationals
    (`real`); `int(x)` is truncation toward zero. md5, jieba and the clock
    are parameters; MongoDB and Redis are left out. */
module CandidateManager {
  import opened Common
  import opened Json
  import opened SignalDetector

  // ---------------------------------------------------------------------------
  // Constants
  // ---------------------------------------------------------------------------

  /** `_SURFACE_TO_DEEP`: surface platform name to deep-crawl platform code. */
  const SurfaceToDeep: map<string, string> := map[
    "weibo" := "wb", "bilibili" := "bili", "douyin" := "dy", "zhihu" := "zhihu",
    "kuaishou" := "ks", "tieba" := "tieba", "xiaohongshu" := "xhs", "xhs" := "xhs"]

  datatype Status = Emerging | Rising | Confirmed | Exploded | Tracking | Closed | Faded

  /** `_ACTIVE_STATUSES`. */
  predicate Active(s: Status) { s != Closed && s != Faded }

  datatype CrawlScale = CrawlScale(platforms: nat, maxNotes: nat, priority: nat)

  /** `_CRAWL_SCALE`: only exploded has a crawl scale. */
  function CrawlScaleOf(s: Status): Option<CrawlScale> {
    if s == Exploded then Some(CrawlScale(7, 20, 3)) else None
  }

  const DefaultPlatformWeight: real := 0.5

  /** The candidate thresholds (DEFAULT_CANDIDATE_THRESHOLDS merged with the
      caller's overrides). */
  datatype CandidateThresholds = CandidateThresholds(overlapMin: real, newEntryMaxPosition: int, decay: real)

  const DefaultCandidateThresholds := CandidateThresholds(0.6, 10, 0.8)

  /** One score snapshot of a candidate. */
  datatype Snapshot = Snapshot(ts: int, scorePos: int, sumHot: int)

  /** Python `int(x)` on a float: truncation toward zero. */
  function Trunc(x: real): (r: int)
    ensures x >= 0.0 ==> r as real <= x < r as real + 1.0
    ensures x < 0.0 ==> r as real - 1.0 < x <= r as real
  {
    if x >= 0.0 then x.Floor else -((-x).Floor)
  }

  // ---------------------------------------------------------------------------
  // Declining trend
  // ---------------------------------------------------------------------------

  /** `_is_declining`: the last rounds+1 snapshots exist and each score is
      strictly above the next. */
  predicate IsDeclining(snaps: seq<Snapshot>, rounds: nat) {
    |snaps| >= rounds + 1 &&
    var recent := snaps[|snaps| - (rounds + 1)..];
    forall i :: 0 <= i < rounds ==> recent[i].scorePos > recent[i + 1].scorePos
  }

  /** A declining run drops strictly over any span: within the last rounds+1
      snapshots, an earlier score is above every later one. */
  lemma {:induction false} DecliningDrops(snaps: seq<Snapshot>, rounds: nat, a: nat, b: nat)
    requires IsDeclining(snaps, rounds) && a < b <= rounds
    ensures snaps[|snaps| - (rounds + 1) + a].scorePos > snaps[|snaps| - (rounds + 1) + b].scorePos
    decreases b - a
  {
    var base := |snaps| - (rounds + 1);
    var recent := snaps[base..];
    assert recent[a].scorePos > recent[a + 1].scorePos;
    if a + 1 < b {
      DecliningDrops(snaps, rounds, a + 1, b);
    }
  }

  /** Declining for more rounds implies declining for fewer. */
  lemma DecliningFewerRounds(snaps: seq<Snapshot>, rounds: nat)
    requires IsDeclining(snaps, rounds + 1)
    ensures IsDeclining(snaps, rounds)
  {
    var n := |snaps|;
    var long := snaps[n - (rounds + 2)..];
    var short := snaps[n - (rounds + 1)..];
    forall i | 0 <= i < rounds ensures short[i].scorePos > short[i + 1].scorePos {
      assert short[i] == snaps[n - (rounds + 1) + i] == long[i + 1];
      assert short[i + 1] == snaps[n - (rounds + 1) + i + 1] == long[i + 2];
      assert long[i + 1].scorePos > long[i + 2].scorePos;
    }
  }

  // ---------------------------------------------------------------------------
  // Keyword overlap
  // ---------------------------------------------------------------------------

  lemma IntersectionBound(a: set<string>, b: set<string>)
    ensures |a * b| <= |a| && |a * b| <= |b|
  {
    assert a * b <= a;
    assert a * b <= b;
    SubsetCard(a * b, a);
    SubsetCard(a * b, b);
  }

  lemma {:induction false} SubsetCard(x: set<string>, y: set<string>)
    requires x <= y
    ensures |x| <= |y|
    decreases |y|
  {
    if x != {} {
      var e :| e in x;
      SubsetCard(x - {e}, y - {e});
    }
  }

  /** `_compute_overlap`: |A ∩ B| / min(|A|, |B|), or 0 when either set is
      empty; always within [0, 1]. */
  function Overlap(a: set<string>, b: set<string>): (r: real)
    ensures 0.0 <= r <= 1.0
  {
    if a == {} || b == {} then 0.0
    else
      IntersectionBound(a, b);
      var m := if |a| < |b| then |a| else |b|;
      RatioBound(|a * b|, m);
      (|a * b| as real) / (m as real)
  }

  lemma RatioBound(x: nat, m: nat)
    requires 0 < m && x <= m
    ensures 0.0 <= (x as real) / (m as real) <= 1.0
  {
    assert (x as real) / (m as real) * (m as real) == x as real;
  }

  /** The overlap is the share of the smaller set the two have in common:
      0 when either set is empty, and exactly 1 when one set contains the
      other. */
  lemma OverlapProps(a: set<string>, b: set<string>)
    ensures a == {} || b == {} ==> Overlap(a, b) == 0.0
    ensures a != {} && b != {} ==>
      Overlap(a, b) * (if |a| < |b| then |a| else |b|) as real == |a * b| as real
    ensures a != {} && b != {} && (a <= b || b <= a) ==> Overlap(a, b) == 1.0
  {
    if a != {} && b != {} {
      var m := if |a| < |b| then |a| else |b|;
      assert Overlap(a, b) == (|a * b| as real) / (m as real);
      if a <= b {
        assert a * b == a;
        SubsetCard(a, b);
      }
      if b <= a {
        assert a * b == b;
        SubsetCard(b, a);
      }
    }
  }

  /** The keyword set of a title. */
  function KeywordSetOf(title: string, cut: string -> seq<string>): set<string> {
    set w | w in Keywords(title, cut)
  }

  /** The union of the keyword sets of a candidate's source titles. */
  function TitlesKeywords(titles: seq<string>, cut: string -> seq<string>): set<string> {
    if titles == [] then {}
    else TitlesKeywords(titles[..|titles| - 1], cut) + KeywordSetOf(titles[|titles| - 1], cut)
  }

  /** Every keyword of a candidate comes from one of its titles. */
  lemma {:induction false} TitlesKeywordsWitness(titles: seq<string>, cut: string -> seq<string>, w: string)
    requires w in TitlesKeywords(titles, cut)
    ensures exists k :: 0 <= k < |titles| && w in KeywordSetOf(titles[k], cut)
  {
    var init := titles[..|titles| - 1];
    assert TitlesKeywords(titles, cut) == TitlesKeywords(init, cut) + KeywordSetOf(titles[|titles| - 1], cut);
    if w in TitlesKeywords(init, cut) {
      TitlesKeywordsWitness(init, cut, w);
      var k :| 0 <= k < |init| && w in KeywordSetOf(init[k], cut);
      assert titles[k] == init[k];
    } else {
      assert w in KeywordSetOf(titles[|titles| - 1], cut);
    }
  }

  /** Every keyword of every title is a keyword of the candidate. */
  lemma {:induction false} TitlesKeywordsHas(titles: seq<string>, cut: string -> seq<string>, k: nat, w: string)
    requires k < |titles| && w in KeywordSetOf(titles[k], cut)
    ensures w in TitlesKeywords(titles, cut)
  {
    var init := titles[..|titles| - 1];
    if k < |init| {
      assert init[k] == titles[k];
      TitlesKeywordsHas(init, cut, k, w);
    }
  }

  /** A candidate's keywords are exactly the keywords of its titles. */
  lemma TitlesKeywordsMembers(titles: seq<string>, cut: string -> seq<string>, w: string)
    ensures w in TitlesKeywords(titles, cut) <==> exists k :: 0 <= k < |titles| && w in KeywordSetOf(titles[k], cut)
  {
    if w in TitlesKeywords(titles, cut) {
      TitlesKeywordsWitness(titles, cut, w);
    }
    if exists k :: 0 <= k < |titles| && w in KeywordSetOf(titles[k], cut) {
      var k :| 0 <= k < |titles| && w in KeywordSetOf(titles[k], cut);
      TitlesKeywordsHas(titles, cut, k, w);
    }
  }

  // ---------------------------------------------------------------------------
  // Admission
  // ---------------------------------------------------------------------------

  /** `details.get("position", 999)`: only new-entry details carry a position. */
  function AdmissionPosition(d: Details): int {
    if d.NewEntryDetails? then d.position else 999
  }

  /** `_check_admission`, on the stored type name: cross-platform, velocity
      and position-jump signals are admitted, a new entry only when it ranks
      within maxPos, and any other type never. */
  function Admits(stype: string, d: Details, maxPos: int): (r: bool)
    ensures stype == "cross_platform" || stype == "velocity" || stype == "position_jump" ==> r
    ensures stype == "new_entry" ==> (r <==> AdmissionPosition(d) <= maxPos)
    ensures r ==> stype in {"cross_platform", "velocity", "position_jump", "new_entry"}
  {
    if stype in {"cross_platform", "velocity", "position_jump"} then true
    else if stype == "new_entry" then AdmissionPosition(d) <= maxPos
    else false
  }

  /** A detected new entry is admitted exactly when its rank (a missing rank
      reading 999) is within the candidate threshold: one that fired only on
      its hot value with a low rank stays out. */
  lemma NewEntryAdmission(item: HotItem, collection: string, th: ValidThresholds, now: int, hash: string -> string, maxPos: int)
    requires NewEntryRule(item, collection, th, now, hash).Some?
    ensures var s := NewEntryRule(item, collection, th, now, hash).value;
      Admits(TypeName(s.signalType), s.details, maxPos) <==> PositionOr999(item) <= maxPos
  {
  }

  // ---------------------------------------------------------------------------
  // Scores
  // ---------------------------------------------------------------------------

  /** `_PLATFORM_WEIGHTS.get(plat, DEFAULT_PLATFORM_WEIGHT)`. */
  function WeightOf(weights: map<string, real>, plat: Option<string>): real {
    if plat.Some? && plat.value in weights then weights[plat.value] else DefaultPlatformWeight
  }

  /** `int(10000 / pos * w)`. */
  function RankScore(pos: int, w: real): int
    requires pos > 0
  {
    Trunc(10000.0 / pos as real * w)
  }

  /** A better rank (smaller position) never scores less, and a non-negative
      weight never gives a negative score. */
  lemma RankScoreMonotone(p: int, q: int, w: real)
    requires 0 < p <= q && w >= 0.0
    ensures 0 <= RankScore(q, w) <= RankScore(p, w)
  {
    var x := 10000.0 / p as real;
    var y := 10000.0 / q as real;
    QuotientAntitone(p as real, q as real);
    ScaleMonotone(y, x, w);
    TruncMonotone(y * w, x * w);
  }

  /** 10000 / q <= 10000 / p for 0 < p <= q, and both are positive. */
  lemma QuotientAntitone(p: real, q: real)
    requires 0.0 < p <= q
    ensures 0.0 < 10000.0 / q <= 10000.0 / p
  {
    var x := 10000.0 / p;
    var y := 10000.0 / q;
    assert x * p == 10000.0 && y * q == 10000.0;
    assert x * (q - p) >= 0.0;
    assert (x - y) * q == x * (q - p);
  }

  lemma ScaleMonotone(y: real, x: real, w: real)
    requires 0.0 <= y <= x && w >= 0.0
    ensures 0.0 <= y * w <= x * w
  {
    assert (x - y) * w >= 0.0;
  }

  lemma TruncMonotone(y: real, x: real)
    requires 0.0 <= y <= x
    ensures 0 <= Trunc(y) <= Trunc(x)
  {
  }

  /** The items of a cross-platform signal's `platform_items`. */
  function PlatformItems(s: Signal): seq<(string, PlatformItem)> {
    if s.details.CrossDetails? then s.details.platformItems else []
  }

  /** The contribution of one platform item to a cross-platform score: only
      items with a positive position count. */
  function ItemScore(entry: (string, PlatformItem), weights: map<string, real>): int {
    var pos := entry.1.position;
    if pos.Some? && pos.value > 0 then RankScore(pos.value, WeightOf(weights, Some(entry.0))) else 0
  }

  function CrossScore(items: seq<(string, PlatformItem)>, weights: map<string, real>): int {
    if items == [] then 0
    else CrossScore(items[..|items| - 1], weights) + ItemScore(items[|items| - 1], weights)
  }

  /** `details.get("position") or details.get("current_position")`. */
  function FallbackPosition(d: Details): Option<int> {
    if d.NewEntryDetails? && d.position != 0 then Some(d.position)
    else if d.JumpDetails? then Some(d.currentPosition)
    else None
  }

  function PositionHistory(s: Signal): seq<Point> {
    if s.history.Some? then s.history.value.positionHistory else []
  }

  function HotHistory(s: Signal): seq<Point> {
    if s.history.Some? then s.history.value.hotHistory else []
  }

  /** `_calc_score_pos` for a single-platform signal: the latest recorded
      position if positive, else the position in the details, else 0. */
  function LayerOneScore(s: Signal, weights: map<string, real>): int {
    var w := WeightOf(weights, s.platform);
    var ph := PositionHistory(s);
    if ph != [] && ph[|ph| - 1].val > 0 then RankScore(ph[|ph| - 1].val, w)
    else
      var pos := FallbackPosition(s.details);
      if pos.Some? && pos.value > 0 then RankScore(pos.value, w) else 0
  }

  /** `_calc_score_pos`. */
  function ScorePos(s: Signal, weights: map<string, real>): int {
    if s.signalType == CrossPlatform then CrossScore(PlatformItems(s), weights) else LayerOneScore(s, weights)
  }

  predicate NonNegativeWeights(weights: map<string, real>) {
    forall p :: p in weights ==> weights[p] >= 0.0
  }

  /** With non-negative weights every score is non-negative, and a
      cross-platform score is at least each platform's own contribution. */
  lemma {:induction false} CrossScoreBounds(items: seq<(string, PlatformItem)>, weights: map<string, real>, k: nat)
    requires NonNegativeWeights(weights) && k < |items|
    ensures 0 <= ItemScore(items[k], weights) <= CrossScore(items, weights)
  {
    var last := items[|items| - 1];
    ItemScoreNonNegative(last, weights);
    if k < |items| - 1 {
      CrossScoreBounds(items[..|items| - 1], weights, k);
    } else {
      CrossScoreNonNegative(items[..|items| - 1], weights);
    }
  }

  lemma ItemScoreNonNegative(entry: (string, PlatformItem), weights: map<string, real>)
    requires NonNegativeWeights(weights)
    ensures ItemScore(entry, weights) >= 0
  {
    var pos := entry.1.position;
    if pos.Some? && pos.value > 0 {
      RankScoreMonotone(pos.value, pos.value, WeightOf(weights, Some(entry.0)));
    }
  }

  lemma {:induction false} CrossScoreNonNegative(items: seq<(string, PlatformItem)>, weights: map<string, real>)
    requires NonNegativeWeights(weights)
    ensures CrossScore(items, weights) >= 0
  {
    if items != [] {
      CrossScoreNonNegative(items[..|items| - 1], weights);
      ItemScoreNonNegative(items[|items| - 1], weights);
    }
  }

  /** `_calc_score_pos`: the loop over the platform items. */
  method CalcScorePos(s: Signal, weights: map<string, real>) returns (total: int)
    ensures total == ScorePos(s, weights)
    ensures NonNegativeWeights(weights) ==> total >= 0
  {
    if s.signalType == CrossPlatform {
      var items := PlatformItems(s);
      total := 0;
      for k := 0 to |items|
        invariant total == CrossScore(items[..k], weights)
      {
        assert items[..k + 1][..k] == items[..k];
        total := total + ItemScore(items[k], weights);
      }
      assert items[..|items|] == items;
      if NonNegativeWeights(weights) {
        CrossScoreNonNegative(items, weights);
      }
    } else {
      total := LayerOneScore(s, weights);
      if NonNegativeWeights(weights) {
        var w := WeightOf(weights, s.platform);
        var ph := PositionHistory(s);
        if ph != [] && ph[|ph| - 1].val > 0 {
          RankScoreMonotone(ph[|ph| - 1].val, ph[|ph| - 1].val, w);
        } else {
          var pos := FallbackPosition(s.details);
          if pos.Some? && pos.value > 0 {
            RankScoreMonotone(pos.value, pos.value, w);
          }
        }
      }
    }
  }

  /** `plat_info.get("hot_value") or 0`. */
  function ItemHot(entry: (string, PlatformItem)): int {
    if entry.1.hotValue.Some? then entry.1.hotValue.value else 0
  }

  function CrossHot(items: seq<(string, PlatformItem)>): int {
    if items == [] then 0 else CrossHot(items[..|items| - 1]) + ItemHot(items[|items| - 1])
  }

  /** `details.get("hot_value", 0)`. */
  function DetailsHot(d: Details): int {
    if d.NewEntryDetails? then d.hotValue else 0
  }

  /** `_calc_sum_hot`. */
  function SumHot(s: Signal): int {
    if s.signalType == CrossPlatform then CrossHot(PlatformItems(s))
    else
      var hh := HotHistory(s);
      if hh != [] then hh[|hh| - 1].val else DetailsHot(s.details)
  }

  /** `_calc_sum_hot`: the loop over the platform items. */
  method CalcSumHot(s: Signal) returns (total: int)
    ensures total == SumHot(s)
  {
    if s.signalType == CrossPlatform {
      var items := PlatformItems(s);
      total := 0;
      for k := 0 to |items|
        invariant total == CrossHot(items[..k])
      {
        assert items[..k + 1][..k] == items[..k];
        total := total + ItemHot(items[k]);
      }
      assert items[..|items|] == items;
    } else {
      var hh := HotHistory(s);
      total := if hh != [] then hh[|hh| - 1].val else DetailsHot(s.details);
    }
  }

  /** A cross-platform signal's hot value is the sum over its platforms, so
      adding a platform adds exactly that platform's hot value. */
  lemma CrossHotSnoc(items: seq<(string, PlatformItem)>, entry: (string, PlatformItem))
    ensures CrossHot(items + [entry]) == CrossHot(items) + ItemHot(entry)
  {
    assert (items + [entry])[..|items|] == items;
  }

  // ---------------------------------------------------------------------------
  // State machine
  // ---------------------------------------------------------------------------

  datatype Condition = ScoreBelow(n: int) | ScoreAtLeast(n: int) | Declining(rounds: nat)

  /** One entry of TRANSITION_RULES; `from == None` is the wildcard "*". */
  datatype Rule = Rule(from: Option<Status>, to: Status, cond: Condition, reason: string)

  /** TRANSITION_RULES, in priority order. */
  const Rules: seq<Rule> := [
    Rule(None, Faded, ScoreBelow(100), "score_pos < 100"),
    Rule(Some(Tracking), Closed, ScoreBelow(300), "score_pos < 300 while tracking"),
    Rule(None, Tracking, Declining(3), "score_pos declining for 3 rounds"),
    Rule(Some(Confirmed), Exploded, ScoreAtLeast(10000), "score_pos >= 10000"),
    Rule(Some(Rising), Confirmed, ScoreAtLeast(4000), "score_pos >= 4000"),
    Rule(Some(Emerging), Rising, ScoreAtLeast(1500), "score_pos >= 1500")]

  /** A rule's condition on the snapshots, read at the latest score. */
  predicate Holds(c: Condition, snaps: seq<Snapshot>)
    requires snaps != []
  {
    match c
    case ScoreBelow(n) => snaps[|snaps| - 1].scorePos < n
    case ScoreAtLeast(n) => snaps[|snaps| - 1].scorePos >= n
    case Declining(r) => IsDeclining(snaps, r)
  }

  /** Rule r may fire for a candidate in this status: the source status
      matches, a tracking candidate is never lifted back up the ladder, and
      the condition holds. */
  predicate Fires(r: Rule, status: Status, snaps: seq<Snapshot>)
    requires snaps != []
  {
    && (r.from.None? || r.from.value == status)
    && !(status == Tracking && r.to in {Rising, Confirmed, Exploded})
    && Holds(r.cond, snaps)
  }

  /** The first rule from position k on that fires. */
  function FirstFiring(status: Status, snaps: seq<Snapshot>, k: nat): (r: Option<nat>)
    requires snaps != []
    ensures r.Some? ==> k <= r.value < |Rules|
    decreases |Rules| - k
  {
    if k >= |Rules| then None
    else if Fires(Rules[k], status, snaps) then Some(k)
    else FirstFiring(status, snaps, k + 1)
  }

  /** The rule found fires and none between k and it does; none is found
      only when no rule from k on fires. */
  lemma {:induction false} FirstFiringProps(status: Status, snaps: seq<Snapshot>, k: nat)
    requires snaps != []
    ensures var r := FirstFiring(status, snaps, k);
      && (r.Some? ==> k <= r.value < |Rules| && Fires(Rules[r.value], status, snaps))
      && (r.Some? ==> forall j :: k <= j < r.value ==> !Fires(Rules[j], status, snaps))
      && (r.None? ==> forall j :: k <= j < |Rules| ==> !Fires(Rules[j], status, snaps))
    decreases |Rules| - k
  {
    if k < |Rules| && !Fires(Rules[k], status, snaps) {
      FirstFiringProps(status, snaps, k + 1);
    }
  }

  /** The transition `_evaluate_transitions` applies to one candidate, if any:
      only active candidates with snapshots are evaluated. */
  function NextRule(status: Status, snaps: seq<Snapshot>): Option<Rule> {
    if !Active(status) || snaps == [] then None
    else
      var k := FirstFiring(status, snaps, 0);
      if k.Some? then Some(Rules[k.value]) else None
  }

  /** Closed and faded are final. */
  lemma FinalStatusesStay(status: Status, snaps: seq<Snapshot>)
    requires status == Closed || status == Faded
    ensures NextRule(status, snaps).None?
  {
  }

  /** A tracking candidate only moves to faded, closed or tracking. */
  lemma TrackingNeverRises(snaps: seq<Snapshot>)
    ensures var r := NextRule(Tracking, snaps);
      r.Some? ==> r.value.to in {Faded, Closed, Tracking}
  {
    if snaps != [] {
      var k := FirstFiring(Tracking, snaps, 0);
      FirstFiringProps(Tracking, snaps, 0);
      if k.Some? {
        assert Fires(Rules[k.value], Tracking, snaps);
      }
    }
  }

  /** A score below 100 fades any active candidate first. */
  lemma LowScoreFades(status: Status, snaps: seq<Snapshot>)
    requires Active(status) && snaps != [] && snaps[|snaps| - 1].scorePos < 100
    ensures NextRule(status, snaps) == Some(Rules[0]) && Rules[0].to == Faded
  {
    assert Fires(Rules[0], status, snaps);
  }

  /** The ladder climbs one step at a time: a non-tracking candidate either
      stays, fades, starts tracking, or moves to the next rung. */
  lemma LadderOneStep(status: Status, snaps: seq<Snapshot>)
    requires status in {Emerging, Rising, Confirmed, Exploded}
    ensures var r := NextRule(status, snaps);
      r.Some? ==> r.value.to in {Faded, Tracking} || r.value.to == NextRung(status)
  {
    if snaps != [] {
      var k := FirstFiring(status, snaps, 0);
      FirstFiringProps(status, snaps, 0);
      if k.Some? {
        assert Fires(Rules[k.value], status, snaps);
      }
    }
  }

  function NextRung(s: Status): Status {
    match s
    case Emerging => Rising
    case Rising => Confirmed
    case Confirmed => Exploded
    case _ => s
  }

  /** An emerging candidate with a score of at least 1500 that is not
      declining rises. */
  lemma EmergingRises(snaps: seq<Snapshot>)
    requires snaps != [] && snaps[|snaps| - 1].scorePos >= 1500 && !IsDeclining(snaps, 3)
    ensures NextRule(Emerging, snaps) == Some(Rules[5]) && Rules[5].to == Rising
  {
    assert !Fires(Rules[0], Emerging, snaps) && !Fires(Rules[1], Emerging, snaps) && !Fires(Rules[2], Emerging, snaps);
    assert !Fires(Rules[3], Emerging, snaps) && !Fires(Rules[4], Emerging, snaps) && Fires(Rules[5], Emerging, snaps);
  }

  /** `for rule in TRANSITION_RULES: ... break`: the first rule that fires. */
  method FindRule(status: Status, snaps: seq<Snapshot>) returns (k: Option<nat>)
    requires snaps != []
    ensures k == FirstFiring(status, snaps, 0)
  {
    k := None;
    var i := 0;
    while i < |Rules|
      invariant 0 <= i <= |Rules|
      invariant forall j :: 0 <= j < i ==> !Fires(Rules[j], status, snaps)
    {
      var rule := Rules[i];
      if rule.from.Some? && rule.from.value != status {
        i := i + 1;
        continue;
      }
      if status == Tracking && rule.to in {Rising, Confirmed, Exploded} {
        i := i + 1;
        continue;
      }
      if Holds(rule.cond, snaps) {
        k := Some(i);
        FirstFiringFrom(status, snaps, i);
        return;
      }
      i := i + 1;
    }
    FirstFiringNone(status, snaps, 0);
  }

  /** FirstFiring from 0 is the first rule that fires. */
  lemma FirstFiringFrom(status: Status, snaps: seq<Snapshot>, i: nat)
    requires snaps != [] && i < |Rules| && Fires(Rules[i], status, snaps)
    requires forall j :: 0 <= j < i ==> !Fires(Rules[j], status, snaps)
    ensures FirstFiring(status, snaps, 0) == Some(i)
  {
    FirstFiringProps(status, snaps, 0);
  }

  lemma FirstFiringNone(status: Status, snaps: seq<Snapshot>, k: nat)
    requires snaps != [] && forall j :: 0 <= j < |Rules| ==> !Fires(Rules[j], status, snaps)
    ensures FirstFiring(status, snaps, k) == None
  {
    FirstFiringProps(status, snaps, k);
  }

  // ---------------------------------------------------------------------------
  // Crawl tasks
  // ---------------------------------------------------------------------------

  /** One `crawl_tasks` document. */
  datatype CrawlTask = CrawlTask(
    taskId: string,
    candidateId: string,
    topicTitle: string,
    searchKeywords: seq<string>,
    platform: string,
    maxNotes: nat,
    priority: nat,
    status: string,
    createdAt: int,
    attempts: nat)

  /** `_SURFACE_TO_DEEP.get(plat)`. */
  function DeepCode(p: string): Option<string> {
    if p in SurfaceToDeep then Some(SurfaceToDeep[p]) else None
  }

  /** The deep-crawl platforms of a candidate: mapped codes, unknown
      platforms dropped, first occurrences in order, at most cap of them. */
  function DeepPlatformsOf(platforms: seq<string>, cap: nat): seq<string> {
    Take(Dedup(Select(platforms, DeepCode)), cap)
  }

  lemma DeepPlatformsProps(platforms: seq<string>, cap: nat)
    ensures var r := DeepPlatformsOf(platforms, cap);
      && Distinct(r) && |r| <= cap
      && (forall c :: c in r ==> exists p :: p in SurfaceToDeep && SurfaceToDeep[p] == c && p in platforms)
      && (|r| < cap ==> forall p :: p in platforms && p in SurfaceToDeep ==> SurfaceToDeep[p] in r)
  {
    var sel := Select(platforms, DeepCode);
    SelectMembers(platforms, DeepCode);
    DedupProps(sel);
    var d := Dedup(sel);
    var r := Take(d, cap);
    forall c | c in r ensures exists p :: p in SurfaceToDeep && SurfaceToDeep[p] == c && p in platforms {
      assert c in d;
      var i :| 0 <= i < |platforms| && DeepCode(platforms[i]) == Some(c);
    }
    forall p | p in platforms && p in SurfaceToDeep && |r| < cap ensures SurfaceToDeep[p] in r {
      var i :| 0 <= i < |platforms| && platforms[i] == p;
      assert DeepCode(platforms[i]).Some?;
      assert r == d;
    }
  }

  /** The deep-crawl platform loop of `_emit_crawl_tasks`. */
  method DeepPlatforms(platforms: seq<string>, cap: nat) returns (codes: seq<string>)
    ensures codes == DeepPlatformsOf(platforms, cap)
  {
    codes := [];
    for k := 0 to |platforms|
      invariant codes == Dedup(Select(platforms[..k], DeepCode))
    {
      ExtendCodes(platforms, k);
      var code := DeepCode(platforms[k]);
      if code.Some? && code.value !in codes {
        codes := codes + [code.value];
      }
    }
    assert platforms[..|platforms|] == platforms;
    codes := Take(codes, cap);
  }

  lemma ExtendCodes(platforms: seq<string>, k: nat)
    requires k < |platforms|
    ensures var d := Dedup(Select(platforms[..k], DeepCode)); var c := DeepCode(platforms[k]);
      Dedup(Select(platforms[..k + 1], DeepCode)) == if c.Some? && c.value !in d then d + [c.value] else d
  {
    var x := platforms[k];
    assert platforms[..k + 1] == platforms[..k] + [x];
    SelectSnoc(platforms[..k], x, DeepCode);
    if DeepCode(x).Some? {
      assert Select(platforms[..k + 1], DeepCode) == Select(platforms[..k], DeepCode) + [DeepCode(x).value];
      DedupSnoc(Select(platforms[..k], DeepCode), DeepCode(x).value);
    } else {
      assert Select(platforms[..k + 1], DeepCode) == Select(platforms[..k], DeepCode);
    }
  }

  predicate NonEmpty(s: string) { s != "" }

  /** The search keywords of a candidate: the canonical title, then the first
      two distinct non-empty other source titles. */
  function SearchKeywordsOf(canonical: string, titles: seq<string>): seq<string> {
    [canonical] + Take(Dedup(Filter(titles, OtherTitle(canonical))), 2)
  }

  /** A source title worth searching besides the canonical one. */
  function OtherTitle(canonical: string): string -> bool {
    t => t != "" && t != canonical
  }

  lemma SearchKeywordsProps(canonical: string, titles: seq<string>)
    ensures var r := SearchKeywordsOf(canonical, titles);
      && r[0] == canonical && 1 <= |r| <= 3 && Distinct(r)
      && (forall k :: 1 <= k < |r| ==> r[k] != "" && r[k] in titles)
  {
    var p := OtherTitle(canonical);
    FilterMembers(titles, p);
    DedupProps(Filter(titles, p));
    var extras := Take(Dedup(Filter(titles, p)), 2);
    var r := [canonical] + extras;
    forall i, j | 0 <= i < j < |r| ensures r[i] != r[j] {
      if i > 0 {
        assert r[i] == Dedup(Filter(titles, p))[i - 1];
        assert r[j] == Dedup(Filter(titles, p))[j - 1];
      } else {
        assert r[j] in Dedup(Filter(titles, p));
      }
    }
    forall k | 1 <= k < |r| ensures r[k] != "" && r[k] in titles {
      assert r[k] in Dedup(Filter(titles, p));
    }
  }

  /** The keyword loop of `_emit_crawl_tasks`, which stops once it holds
      three keywords. */
  method SearchKeywords(canonical: string, titles: seq<string>) returns (kws: seq<string>)
    ensures kws == SearchKeywordsOf(canonical, titles)
  {
    kws := [canonical];
    var k := 0;
    while k < |titles| && |kws| < 3
      invariant 0 <= k <= |titles| && |kws| <= 3
      invariant kws == [canonical] + Dedup(Filter(titles[..k], OtherTitle(canonical)))
    {
      var t := titles[k];
      assert titles[..k + 1] == titles[..k] + [t];
      SearchStep(canonical, titles[..k], t, kws);
      if t != "" && t != canonical && t !in kws {
        kws := kws + [t];
      }
      k := k + 1;
    }
    SearchDone(canonical, titles, k, kws);
  }

  /** One step of the keyword loop: a title is kept exactly when the
      deduplicated list of other titles grows by it. */
  lemma SearchStep(canonical: string, pre: seq<string>, t: string, kws: seq<string>)
    requires kws == [canonical] + Dedup(Filter(pre, OtherTitle(canonical)))
    ensures [canonical] + Dedup(Filter(pre + [t], OtherTitle(canonical)))
        == if t != "" && t != canonical && t !in kws then kws + [t] else kws
  {
    var p := OtherTitle(canonical);
    var f := Filter(pre, p);
    var extras := Dedup(f);
    FilterSnoc(pre, t, p);
    assert p(t) <==> t != "" && t != canonical;
    assert t in kws <==> t == canonical || t in extras;
    if p(t) {
      assert Filter(pre + [t], p) == f + [t];
      DedupSnoc(f, t);
      if t !in extras {
        assert [canonical] + (extras + [t]) == kws + [t];
      }
    } else {
      assert Filter(pre + [t], p) == f;
    }
  }

  /** Once the loop stops, the list holds the search keywords. */
  lemma SearchDone(canonical: string, titles: seq<string>, k: nat, kws: seq<string>)
    requires k <= |titles| && kws == [canonical] + Dedup(Filter(titles[..k], OtherTitle(canonical))) && |kws| <= 3
    requires k == |titles| || |kws| == 3
    ensures kws == SearchKeywordsOf(canonical, titles)
  {
    var p := OtherTitle(canonical);
    DedupFilterPrefix(titles, k, p);
    assert titles[..|titles|] == titles;
  }

  predicate HasTaskFor(tasks: seq<CrawlTask>, plat: string) {
    exists k :: 0 <= k < |tasks| && tasks[k].platform == plat
  }

  /** The pending task document for one platform. */
  function TaskFor(candidateId: string, canonical: string, kws: seq<string>, scale: CrawlScale, plat: string, now: int): CrawlTask {
    CrawlTask("ct_" + candidateId + "_" + plat + "_" + IntToString(now), candidateId, canonical,
      kws, plat, scale.maxNotes, scale.priority, "pending", now, 0)
  }

  /** The tasks planned for these platforms: one per platform without an
      active task, in platform order. */
  function PlannedTasks(codes: seq<string>, active: set<string>, candidateId: string, canonical: string,
                        kws: seq<string>, scale: CrawlScale, now: int): seq<CrawlTask>
  {
    if codes == [] then []
    else
      var last := codes[|codes| - 1];
      PlannedTasks(codes[..|codes| - 1], active, candidateId, canonical, kws, scale, now)
        + (if last in active then [] else [TaskFor(candidateId, canonical, kws, scale, last, now)])
  }

  /** What `_emit_crawl_tasks` inserts for a candidate in this status. */
  function EmittedTasks(candidateId: string, canonical: string, titles: seq<string>, platforms: seq<string>,
                        status: Status, now: int, active: set<string>): seq<CrawlTask>
  {
    var scale := CrawlScaleOf(status);
    if scale.None? then []
    else PlannedTasks(DeepPlatformsOf(platforms, scale.value.platforms), active, candidateId, canonical,
                      SearchKeywordsOf(canonical, titles), scale.value, now)
  }

  /** Planned tasks are for distinct platforms without an active task, one
      for each such platform, each a pending task of this candidate. */
  lemma PlannedTasksProps(codes: seq<string>, active: set<string>, candidateId: string, canonical: string,
                          kws: seq<string>, scale: CrawlScale, now: int)
    requires Distinct(codes)
    ensures var tasks := PlannedTasks(codes, active, candidateId, canonical, kws, scale, now);
      && |tasks| <= |codes|
      && (forall k :: 0 <= k < |tasks| ==>
            tasks[k].platform in codes && tasks[k].platform !in active
            && tasks[k] == TaskFor(candidateId, canonical, kws, scale, tasks[k].platform, now))
      && (forall c :: c in codes && c !in active ==> HasTaskFor(tasks, c))
      && (forall k, l :: 0 <= k < l < |tasks| ==> tasks[k].platform != tasks[l].platform)
  {
    PlannedShape(codes, active, candidateId, canonical, kws, scale, now);
    PlannedCover(codes, active, candidateId, canonical, kws, scale, now);
    PlannedDistinct(codes, active, candidateId, canonical, kws, scale, now);
  }

  lemma {:induction false} PlannedShape(codes: seq<string>, active: set<string>, candidateId: string, canonical: string,
                                        kws: seq<string>, scale: CrawlScale, now: int)
    ensures var tasks := PlannedTasks(codes, active, candidateId, canonical, kws, scale, now);
      && |tasks| <= |codes|
      && (forall k :: 0 <= k < |tasks| ==>
            tasks[k].platform in codes && tasks[k].platform !in active
            && tasks[k] == TaskFor(candidateId, canonical, kws, scale, tasks[k].platform, now))
  {
    if codes != [] {
      var init := codes[..|codes| - 1];
      PlannedShape(init, active, candidateId, canonical, kws, scale, now);
      var before := PlannedTasks(init, active, candidateId, canonical, kws, scale, now);
      var tasks := PlannedTasks(codes, active, candidateId, canonical, kws, scale, now);
      forall k | 0 <= k < |tasks|
        ensures tasks[k].platform in codes && tasks[k].platform !in active
          && tasks[k] == TaskFor(candidateId, canonical, kws, scale, tasks[k].platform, now)
      {
        if k < |before| {
          assert tasks[k] == before[k];
          assert before[k].platform in init;
        }
      }
    }
  }

  lemma {:induction false} PlannedCover(codes: seq<string>, active: set<string>, candidateId: string, canonical: string,
                                        kws: seq<string>, scale: CrawlScale, now: int)
    ensures var tasks := PlannedTasks(codes, active, candidateId, canonical, kws, scale, now);
      forall c :: c in codes && c !in active ==> HasTaskFor(tasks, c)
  {
    if codes != [] {
      var init := codes[..|codes| - 1];
      var last := codes[|codes| - 1];
      PlannedCover(init, active, candidateId, canonical, kws, scale, now);
      var before := PlannedTasks(init, active, candidateId, canonical, kws, scale, now);
      var tasks := PlannedTasks(codes, active, candidateId, canonical, kws, scale, now);
      forall c | c in codes && c !in active ensures HasTaskFor(tasks, c) {
        if c == last {
          assert tasks[|tasks| - 1].platform == c;
        } else {
          assert c in init;
          var k :| 0 <= k < |before| && before[k].platform == c;
          assert tasks[k] == before[k];
        }
      }
    }
  }

  lemma {:induction false} PlannedDistinct(codes: seq<string>, active: set<string>, candidateId: string, canonical: string,
                                           kws: seq<string>, scale: CrawlScale, now: int)
    requires Distinct(codes)
    ensures var tasks := PlannedTasks(codes, active, candidateId, canonical, kws, scale, now);
      forall k, l :: 0 <= k < l < |tasks| ==> tasks[k].platform != tasks[l].platform
  {
    if codes != [] {
      var init := codes[..|codes| - 1];
      var last := codes[|codes| - 1];
      PlannedDistinct(init, active, candidateId, canonical, kws, scale, now);
      PlannedShape(init, active, candidateId, canonical, kws, scale, now);
      var before := PlannedTasks(init, active, candidateId, canonical, kws, scale, now);
      var tasks := PlannedTasks(codes, active, candidateId, canonical, kws, scale, now);
      assert last !in init;
      forall k, l | 0 <= k < l < |tasks| ensures tasks[k].platform != tasks[l].platform {
        assert tasks[k] == before[k];
        if l < |before| {
          assert tasks[l] == before[l];
        } else {
          assert tasks[l].platform == last;
          assert before[k].platform in init;
        }
      }
    }
  }

  /** The task loop of `_emit_crawl_tasks`: one task per platform without an
      active one, in order. */
  method BuildTasks(codes: seq<string>, active: set<string>, candidateId: string, canonical: string,
                    kws: seq<string>, scale: CrawlScale, now: int)
    returns (tasks: seq<CrawlTask>)
    ensures tasks == PlannedTasks(codes, active, candidateId, canonical, kws, scale, now)
  {
    tasks := [];
    for q := 0 to |codes|
      invariant tasks == PlannedTasks(codes[..q], active, candidateId, canonical, kws, scale, now)
    {
      var plat := codes[q];
      assert codes[..q + 1][..q] == codes[..q];
      if plat !in active {
        tasks := tasks + [TaskFor(candidateId, canonical, kws, scale, plat, now)];
      }
    }
    assert codes[..|codes|] == codes;
  }

  /** `_emit_crawl_tasks` for a candidate that has just reached status.
      `active` holds the deep platforms that already have a pending or
      running task for this candidate. One pending task per remaining
      platform; none when the status has no crawl scale or no platform maps. */
  method EmitCrawlTasks(candidateId: string, canonical: string, titles: seq<string>, platforms: seq<string>,
                        status: Status, now: int, active: set<string>)
    returns (tasks: seq<CrawlTask>)
    ensures tasks == EmittedTasks(candidateId, canonical, titles, platforms, status, now, active)
    ensures CrawlScaleOf(status).None? ==> tasks == []
    ensures |tasks| <= 7
    ensures forall k :: 0 <= k < |tasks| ==>
      && tasks[k].platform in DeepPlatformsOf(platforms, 7) && tasks[k].platform !in active
      && tasks[k] == TaskFor(candidateId, canonical, SearchKeywordsOf(canonical, titles), CrawlScale(7, 20, 3), tasks[k].platform, now)
    ensures CrawlScaleOf(status).Some? ==>
      forall c :: c in DeepPlatformsOf(platforms, 7) && c !in active ==> HasTaskFor(tasks, c)
    ensures forall k, l :: 0 <= k < l < |tasks| ==> tasks[k].platform != tasks[l].platform
  {
    tasks := [];
    var scale := CrawlScaleOf(status);
    if scale.None? {
      return;
    }
    var codes := DeepPlatforms(platforms, scale.value.platforms);
    DeepPlatformsProps(platforms, 7);
    if codes == [] {
      return;
    }
    DedupProps(Select(platforms, DeepCode));
    var kws := SearchKeywords(canonical, titles);
    tasks := BuildTasks(codes, active, candidateId, canonical, kws, scale.value, now);
    PlannedTasksProps(codes, active, candidateId, canonical, kws, scale.value, now);
  }

  // ---------------------------------------------------------------------------
  // Candidate documents
  // ---------------------------------------------------------------------------

  datatype StatusEntry = StatusEntry(ts: int, status: Status, reason: string)

  /** A document of the candidates collection; hasSignal is the transient
      `_has_signal` mark of the current round. */
  datatype CandidateDoc = CandidateDoc(
    candidateId: string,
    canonicalTitle: string,
    sourceTitles: seq<string>,
    status: Status,
    platforms: seq<string>,
    platformCount: nat,
    snapshots: seq<Snapshot>,
    firstSeenAt: int,
    updatedAt: int,
    statusHistory: seq<StatusEntry>,
    hasSignal: bool)

  /** What every candidate the manager builds satisfies: the canonical title
      heads the source titles, the platform count is the platform list's
      length, there is a snapshot, and the last history entry records the
      current status. */
  predicate WellFormed(d: CandidateDoc) {
    && d.sourceTitles != [] && d.sourceTitles[0] == d.canonicalTitle
    && d.platformCount == |d.platforms|
    && d.snapshots != []
    && d.statusHistory != [] && d.statusHistory[|d.statusHistory| - 1].status == d.status
  }

  /** The titles of a cross-platform signal's platform items, in order. */
  function SignalTitles(s: Signal): seq<string> {
    if s.signalType == CrossPlatform then
      var items := PlatformItems(s);
      seq(|items|, k requires 0 <= k < |items| => items[k].1.title)
    else []
  }

  /** The platforms a signal brings: a cross-platform signal's list, else its
      own platform when it has a non-empty one. */
  function NewPlatforms(s: Signal): seq<string> {
    if s.signalType == CrossPlatform then s.platforms
    else if s.platform.Some? && s.platform.value != "" then [s.platform.value]
    else []
  }

  /** `_create_candidate`. */
  function CreatedDoc(s: Signal, now: int, hash: string -> string, weights: map<string, real>): CandidateDoc {
    var plats := NewPlatforms(s);
    CandidateDoc(
      "cand_" + TitleHash(s.title, hash), s.title,
      [s.title] + Filter(SignalTitles(s), OtherTitle(s.title)),
      Emerging, plats, |plats|,
      [Snapshot(now, ScorePos(s, weights), SumHot(s))],
      now, now,
      [StatusEntry(now, Emerging, TypeName(s.signalType) + " signal")],
      false)
  }

  /** A new candidate is well formed and emerging, seen first now, with the
      signal's score as its only snapshot; its source titles are the
      signal's title followed by the non-empty item titles that differ from
      it, so every item title appears, and its platforms are the signal's. */
  lemma CreatedProps(s: Signal, now: int, hash: string -> string, weights: map<string, real>)
    ensures var d := CreatedDoc(s, now, hash, weights);
      && WellFormed(d)
      && d.status == Emerging && d.firstSeenAt == now && d.updatedAt == now && !d.hasSignal
      && d.snapshots == [Snapshot(now, ScorePos(s, weights), SumHot(s))]
      && d.candidateId == "cand_" + TitleHash(s.title, hash)
      && (forall t :: t in d.sourceTitles[1..] ==> t != "" && t != s.title)
      && (forall t :: t in SignalTitles(s) && t != "" ==> t in d.sourceTitles)
      && (forall p :: p in d.platforms <==> p in NewPlatforms(s))
  {
    var d := CreatedDoc(s, now, hash, weights);
    FilterMembers(SignalTitles(s), OtherTitle(s.title));
    assert d.sourceTitles[1..] == Filter(SignalTitles(s), OtherTitle(s.title));
  }

  /** xs's elements appended to s in order, each only when not yet present. */
  function AddAbsent<T(==)>(s: seq<T>, xs: seq<T>): seq<T> {
    if xs == [] then s
    else
      var r := AddAbsent(s, xs[..|xs| - 1]);
      var x := xs[|xs| - 1];
      if x in r then r else r + [x]
  }

  lemma AddAbsentSnoc<T>(s: seq<T>, xs: seq<T>, x: T)
    ensures AddAbsent(s, xs + [x]) == var r := AddAbsent(s, xs); if x in r then r else r + [x]
  {
    assert (xs + [x])[..|xs + [x]| - 1] == xs;
  }

  /** Merging keeps everything that was there, in place, adds exactly the
      missing elements, and keeps a duplicate-free list duplicate free. */
  lemma {:induction false} AddAbsentProps<T>(s: seq<T>, xs: seq<T>)
    ensures var r := AddAbsent(s, xs);
      && |s| <= |r| <= |s| + |xs| && r[..|s|] == s
      && (forall x :: x in r <==> x in s || x in xs)
      && (Distinct(s) ==> Distinct(r))
  {
    if xs != [] {
      AddAbsentProps(s, xs[..|xs| - 1]);
      assert xs == xs[..|xs| - 1] + [xs[|xs| - 1]];
    }
  }

  /** Merging what is already present changes nothing. */
  lemma {:induction false} AddAbsentPresent<T>(s: seq<T>, xs: seq<T>)
    requires forall x :: x in xs ==> x in s
    ensures AddAbsent(s, xs) == s
  {
    if xs != [] {
      AddAbsentPresent(s, xs[..|xs| - 1]);
    }
  }

  /** Merging the same list twice is the same as merging it once. */
  lemma AddAbsentIdempotent<T>(s: seq<T>, xs: seq<T>)
    ensures AddAbsent(AddAbsent(s, xs), xs) == AddAbsent(s, xs)
  {
    AddAbsentProps(s, xs);
    AddAbsentPresent(AddAbsent(s, xs), xs);
  }

  /** Adds a round's score: into the latest snapshot when it is of this same
      round, else as a new snapshot. */
  function AddScore(snaps: seq<Snapshot>, now: int, score: int, hot: int): seq<Snapshot> {
    if snaps != [] && snaps[|snaps| - 1].ts == now then
      var last := snaps[|snaps| - 1];
      snaps[..|snaps| - 1] + [Snapshot(now, last.scorePos + score, last.sumHot + hot)]
    else snaps + [Snapshot(now, score, hot)]
  }

  function TotalScore(snaps: seq<Snapshot>): int {
    if snaps == [] then 0 else TotalScore(snaps[..|snaps| - 1]) + snaps[|snaps| - 1].scorePos
  }

  function TotalHot(snaps: seq<Snapshot>): int {
    if snaps == [] then 0 else TotalHot(snaps[..|snaps| - 1]) + snaps[|snaps| - 1].sumHot
  }

  /** Adding a score leaves earlier rounds alone, ends with a snapshot of
      this round, and adds exactly the score and hot value to the totals;
      a second signal in the same round adds no snapshot. */
  lemma AddScoreProps(snaps: seq<Snapshot>, now: int, score: int, hot: int)
    ensures var r := AddScore(snaps, now, score, hot);
      && r != [] && r[|r| - 1].ts == now
      && (|r| == |snaps| || |r| == |snaps| + 1)
      && (snaps != [] ==> r[..|snaps| - 1] == snaps[..|snaps| - 1])
      && TotalScore(r) == TotalScore(snaps) + score
      && TotalHot(r) == TotalHot(snaps) + hot
      && |AddScore(r, now, score, hot)| == |r|
  {
    var r := AddScore(snaps, now, score, hot);
    if snaps != [] && snaps[|snaps| - 1].ts == now {
      assert r[..|r| - 1] == snaps[..|snaps| - 1];
    } else {
      assert r[..|r| - 1] == snaps;
    }
  }

  /** `_update_candidate`. */
  function UpdatedDoc(d: CandidateDoc, s: Signal, now: int, weights: map<string, real>): CandidateDoc {
    var plats := AddAbsent(d.platforms, NewPlatforms(s));
    d.(sourceTitles := AddAbsent(d.sourceTitles, Filter([s.title] + SignalTitles(s), NonEmpty)),
       platforms := plats, platformCount := |plats|,
       snapshots := AddScore(d.snapshots, now, ScorePos(s, weights), SumHot(s)),
       updatedAt := now, hasSignal := true)
  }

  /** An update keeps a candidate well formed with its identity, status,
      history and first-seen time, and marks it as signalled this round. */
  lemma UpdatedShape(d: CandidateDoc, s: Signal, now: int, weights: map<string, real>)
    requires WellFormed(d)
    ensures var u := UpdatedDoc(d, s, now, weights);
      && WellFormed(u)
      && u.candidateId == d.candidateId && u.canonicalTitle == d.canonicalTitle
      && u.status == d.status && u.statusHistory == d.statusHistory && u.firstSeenAt == d.firstSeenAt
      && u.updatedAt == now && u.hasSignal
  {
    AddAbsentProps(d.sourceTitles, Filter([s.title] + SignalTitles(s), NonEmpty));
    AddScoreProps(d.snapshots, now, ScorePos(s, weights), SumHot(s));
  }

  /** An update keeps every source title in place and adds the signal's
      non-empty titles that are missing, each once. */
  lemma UpdatedTitles(d: CandidateDoc, s: Signal, now: int, weights: map<string, real>)
    ensures var u := UpdatedDoc(d, s, now, weights);
      && |d.sourceTitles| <= |u.sourceTitles| && u.sourceTitles[..|d.sourceTitles|] == d.sourceTitles
      && (forall t :: t in u.sourceTitles <==> t in d.sourceTitles || (t != "" && (t == s.title || t in SignalTitles(s))))
      && (Distinct(d.sourceTitles) ==> Distinct(u.sourceTitles))
  {
    var xs := [s.title] + SignalTitles(s);
    var ys := Filter(xs, NonEmpty);
    FilterMembers(xs, NonEmpty);
    AddAbsentProps(d.sourceTitles, ys);
    var u := UpdatedDoc(d, s, now, weights);
    assert u.sourceTitles == AddAbsent(d.sourceTitles, ys);
    forall t ensures t in ys <==> t != "" && (t == s.title || t in SignalTitles(s)) {
      assert t in xs <==> t == s.title || t in SignalTitles(s);
    }
  }

  /** An update keeps every platform in place and adds the signal's
      platforms that are missing, each once. */
  lemma UpdatedPlatforms(d: CandidateDoc, s: Signal, now: int, weights: map<string, real>)
    ensures var u := UpdatedDoc(d, s, now, weights);
      && |d.platforms| <= |u.platforms| && u.platforms[..|d.platforms|] == d.platforms
      && (forall p :: p in u.platforms <==> p in d.platforms || p in NewPlatforms(s))
      && (Distinct(d.platforms) ==> Distinct(u.platforms))
  {
    AddAbsentProps(d.platforms, NewPlatforms(s));
  }

  /** An update adds the signal's score and hot value to the totals, and a
      second update in the same round adds no snapshot. */
  lemma UpdatedScores(d: CandidateDoc, s: Signal, now: int, weights: map<string, real>)
    ensures var u := UpdatedDoc(d, s, now, weights);
      && TotalScore(u.snapshots) == TotalScore(d.snapshots) + ScorePos(s, weights)
      && TotalHot(u.snapshots) == TotalHot(d.snapshots) + SumHot(s)
      && u.snapshots != [] && u.snapshots[|u.snapshots| - 1].ts == now
      && (d.snapshots != [] && d.snapshots[|d.snapshots| - 1].ts == now ==> |u.snapshots| == |d.snapshots|)
  {
    AddScoreProps(d.snapshots, now, ScorePos(s, weights), SumHot(s));
  }

  /** Updating twice with the same signal in the same round adds its score
      twice but no title and no platform the first update did not. */
  lemma UpdateTwiceSameTitles(d: CandidateDoc, s: Signal, now: int, weights: map<string, real>)
    ensures var u := UpdatedDoc(d, s, now, weights); var v := UpdatedDoc(u, s, now, weights);
      v.sourceTitles == u.sourceTitles && v.platforms == u.platforms && |v.snapshots| == |u.snapshots|
  {
    AddAbsentIdempotent(d.sourceTitles, Filter([s.title] + SignalTitles(s), NonEmpty));
    AddAbsentIdempotent(d.platforms, NewPlatforms(s));
    AddScoreProps(d.snapshots, now, ScorePos(s, weights), SumHot(s));
  }

  /** `_apply_decay` for one candidate: an active candidate without a signal
      this round gets a snapshot at its last values scaled by decay. */
  function DecayedDoc(d: CandidateDoc, now: int, decay: real): CandidateDoc {
    if d.hasSignal || !Active(d.status) || d.snapshots == [] then d
    else
      var last := d.snapshots[|d.snapshots| - 1];
      d.(snapshots := d.snapshots + [Snapshot(now, Scale(last.scorePos, decay), Scale(last.sumHot, decay))],
         updatedAt := now)
  }

  /** `int(v * decay)`. */
  function Scale(v: int, decay: real): int {
    Trunc(v as real * decay)
  }

  /** Decay keeps a candidate well formed and touches only its snapshots and
      update time; with a decay factor in [0, 1) a positive score strictly
      falls and never goes negative. */
  lemma DecayedProps(d: CandidateDoc, now: int, decay: real)
    requires WellFormed(d)
    ensures var e := DecayedDoc(d, now, decay);
      && WellFormed(e)
      && e.(snapshots := d.snapshots, updatedAt := d.updatedAt) == d
      && (d.hasSignal || !Active(d.status) ==> e == d)
      && (!d.hasSignal && Active(d.status) ==> |e.snapshots| == |d.snapshots| + 1 && e.snapshots[..|d.snapshots|] == d.snapshots)
      && (!d.hasSignal && Active(d.status) && 0.0 <= decay < 1.0 && d.snapshots[|d.snapshots| - 1].scorePos > 0 ==>
            0 <= e.snapshots[|e.snapshots| - 1].scorePos < d.snapshots[|d.snapshots| - 1].scorePos)
  {
    if !d.hasSignal && Active(d.status) && 0.0 <= decay < 1.0 {
      var x := d.snapshots[|d.snapshots| - 1].scorePos;
      if x > 0 {
        assert x as real * decay < x as real;
        assert Scale(x, decay) == Trunc(x as real * decay);
      }
    }
  }

  /** With the default factor 0.8, a score of 1000 decays to 800, 640 and
      512 over three quiet rounds, which makes it declining for three rounds. */
  lemma DecayThreeRounds(d: CandidateDoc, t: int)
    requires WellFormed(d) && !d.hasSignal && d.status == Rising
    requires d.snapshots == [Snapshot(t, 1000, 0)]
    ensures var e := DecayedDoc(DecayedDoc(DecayedDoc(d, t + 1, 0.8), t + 2, 0.8), t + 3, 0.8);
      && e.snapshots == [Snapshot(t, 1000, 0), Snapshot(t + 1, 800, 0), Snapshot(t + 2, 640, 0), Snapshot(t + 3, 512, 0)]
      && IsDeclining(e.snapshots, 3)
  {
    assert Scale(1000, 0.8) == Trunc(800.0) == 800;
    assert Scale(800, 0.8) == Trunc(640.0) == 640;
    assert Scale(640, 0.8) == Trunc(512.0) == 512;
    assert Scale(0, 0.8) == Trunc(0.0) == 0;
  }

  /** `_apply_transition` driven by `_evaluate_transitions`. */
  function TransitionedDoc(d: CandidateDoc, now: int): CandidateDoc {
    match NextRule(d.status, d.snapshots)
    case None => d
    case Some(r) =>
      d.(status := r.to, statusHistory := d.statusHistory + [StatusEntry(now, r.to, r.reason)], updatedAt := now)
  }

  /** The crawl tasks a transition emits; `active` holds the deep platforms
      with a pending or running task for this candidate. */
  function TransitionTasks(d: CandidateDoc, now: int, active: set<string>): seq<CrawlTask> {
    match NextRule(d.status, d.snapshots)
    case None => []
    case Some(r) => EmittedTasks(d.candidateId, d.canonicalTitle, d.sourceTitles, d.platforms, r.to, now, active)
  }

  /** A transition keeps a candidate well formed, records itself as the one
      new history entry, and changes nothing else; only a move to exploded
      emits tasks, at most seven. */
  lemma TransitionedProps(d: CandidateDoc, now: int, active: set<string>)
    requires WellFormed(d)
    ensures var e := TransitionedDoc(d, now);
      && WellFormed(e)
      && e.(status := d.status, statusHistory := d.statusHistory, updatedAt := d.updatedAt) == d
      && (NextRule(d.status, d.snapshots).None? ==> e == d && TransitionTasks(d, now, active) == [])
      && (NextRule(d.status, d.snapshots).Some? ==>
            |e.statusHistory| == |d.statusHistory| + 1 && e.statusHistory[..|d.statusHistory|] == d.statusHistory)
      && (TransitionTasks(d, now, active) != [] ==> e.status == Exploded && d.status == Confirmed)
      && |TransitionTasks(d, now, active)| <= 7
  {
    TransitionTasksProps(d, now, active);
  }

  /** Only a move from confirmed to exploded emits tasks: at most seven,
      each a pending task of this candidate at the exploded crawl scale. */
  lemma TransitionTasksProps(d: CandidateDoc, now: int, active: set<string>)
    ensures var tasks := TransitionTasks(d, now, active);
      && |tasks| <= 7
      && (tasks != [] ==> TransitionedDoc(d, now).status == Exploded && d.status == Confirmed)
      && (forall t :: t in tasks ==>
            t.candidateId == d.candidateId && t.status == "pending" && t.createdAt == now
            && t.maxNotes == 20 && t.priority == 3)
  {
    var r := NextRule(d.status, d.snapshots);
    if r.Some? && r.value.to == Exploded {
      var k := FirstFiring(d.status, d.snapshots, 0);
      FirstFiringProps(d.status, d.snapshots, 0);
      assert Rules[k.value].to == Exploded;
      EmittedTasksProps(d.candidateId, d.canonicalTitle, d.sourceTitles, d.platforms, now, active);
    }
  }

  /** The tasks emitted on reaching exploded: at most seven, each a pending
      task of this candidate at the exploded crawl scale. */
  lemma EmittedTasksProps(candidateId: string, canonical: string, titles: seq<string>, platforms: seq<string>,
                          now: int, active: set<string>)
    ensures var tasks := EmittedTasks(candidateId, canonical, titles, platforms, Exploded, now, active);
      && |tasks| <= 7
      && (forall t :: t in tasks ==>
            t.candidateId == candidateId && t.status == "pending" && t.createdAt == now
            && t.maxNotes == 20 && t.priority == 3)
  {
    var codes := DeepPlatformsOf(platforms, 7);
    var kws := SearchKeywordsOf(canonical, titles);
    var scale := CrawlScale(7, 20, 3);
    var tasks := PlannedTasks(codes, active, candidateId, canonical, kws, scale, now);
    DeepPlatformsProps(platforms, 7);
    PlannedShape(codes, active, candidateId, canonical, kws, scale, now);
    forall t | t in tasks
      ensures t.candidateId == candidateId && t.status == "pending" && t.createdAt == now
        && t.maxNotes == 20 && t.priority == 3
    {
      var k :| 0 <= k < |tasks| && tasks[k] == t;
    }
  }

  // ---------------------------------------------------------------------------
  // Candidates in place
  // ---------------------------------------------------------------------------

  /** A candidate document as the mutable dict the manager updates in place. */
  /** The title list of a new candidate: the signal's title, then each of
      its other non-empty titles that differs from it, in order. */
  method SourceTitles(title: string, others: seq<string>) returns (titles: seq<string>)
    ensures titles == [title] + Filter(others, OtherTitle(title))
  {
    titles := [title];
    for k := 0 to |others|
      invariant titles == [title] + Filter(others[..k], OtherTitle(title))
    {
      SliceSnoc(others, 0, k);
      FilterSnoc(others[..k], others[k], OtherTitle(title));
      if others[k] != "" && others[k] != title {
        titles := titles + [others[k]];
      }
    }
    assert others[..|others|] == others;
  }

  class Candidate {
    var candidateId: string
    var canonicalTitle: string
    var sourceTitles: seq<string>
    var status: Status
    var platforms: seq<string>
    var platformCount: nat
    var snapshots: seq<Snapshot>
    var firstSeenAt: int
    var updatedAt: int
    var statusHistory: seq<StatusEntry>
    var hasSignal: bool

    function Doc(): CandidateDoc
      reads this
    {
      CandidateDoc(candidateId, canonicalTitle, sourceTitles, status, platforms, platformCount,
        snapshots, firstSeenAt, updatedAt, statusHistory, hasSignal)
    }

    /** `_create_candidate`. */
    constructor FromSignal(s: Signal, now: int, hash: string -> string, weights: map<string, real>)
      ensures Doc() == CreatedDoc(s, now, hash, weights)
    {
      var title := s.title;
      var score := CalcScorePos(s, weights);
      var hot := CalcSumHot(s);
      var titles := SourceTitles(title, SignalTitles(s));
      var plats := NewPlatforms(s);
      candidateId := "cand_" + TitleHash(title, hash);
      canonicalTitle := title;
      sourceTitles := titles;
      status := Emerging;
      platforms := plats;
      platformCount := |plats|;
      snapshots := [Snapshot(now, score, hot)];
      firstSeenAt := now;
      updatedAt := now;
      statusHistory := [StatusEntry(now, Emerging, TypeName(s.signalType) + " signal")];
      hasSignal := false;
    }

    /** `_update_candidate`. */
    method Update(s: Signal, now: int, weights: map<string, real>)
      modifies this
      ensures Doc() == UpdatedDoc(old(Doc()), s, now, weights)
    {
      var titles := MergeTitles(sourceTitles, [s.title] + SignalTitles(s));
      var plats := MergePlatforms(platforms, NewPlatforms(s));
      var score := CalcScorePos(s, weights);
      var hot := CalcSumHot(s);
      var snaps := AddScore(snapshots, now, score, hot);
      assert UpdatedDoc(Doc(), s, now, weights)
        == Doc().(sourceTitles := titles, platforms := plats, platformCount := |plats|,
                  snapshots := snaps, updatedAt := now, hasSignal := true);
      sourceTitles := titles;
      platforms := plats;
      platformCount := |plats|;
      snapshots := snaps;
      updatedAt := now;
      hasSignal := true;
    }

    /** `_apply_decay` for this candidate. */
    method Decay(now: int, decay: real)
      modifies this
      ensures Doc() == DecayedDoc(old(Doc()), now, decay)
    {
      if hasSignal || !Active(status) || snapshots == [] {
        return;
      }
      var last := snapshots[|snapshots| - 1];
      var next := Snapshot(now, Scale(last.scorePos, decay), Scale(last.sumHot, decay));
      snapshots := snapshots + [next];
      updatedAt := now;
    }

    /** Updates with each signal in turn. */
    method UpdateAll(sigs: seq<Signal>, now: int, weights: map<string, real>)
      modifies this
      ensures Doc() == FoldUpdates(old(Doc()), sigs, now, weights)
    {
      ghost var first := Doc();
      for k := 0 to |sigs|
        invariant Doc() == FoldUpdates(first, sigs[..k], now, weights)
      {
        SliceSnoc(sigs, 0, k);
        FoldSnoc(first, sigs[..k], sigs[k], now, weights);
        Update(sigs[k], now, weights);
      }
      assert sigs[..|sigs|] == sigs;
    }

    /** `_evaluate_transitions` for this candidate, with `_apply_transition`
        and the tasks it emits. */
    method Transition(now: int, active: set<string>) returns (fired: bool, tasks: seq<CrawlTask>)
      modifies this
      ensures Doc() == TransitionedDoc(old(Doc()), now)
      ensures fired <==> NextRule(old(status), old(snapshots)).Some?
      ensures tasks == TransitionTasks(old(Doc()), now, active)
    {
      ghost var d := Doc();
      fired := false;
      tasks := [];
      if !Active(status) || snapshots == [] {
        assert NextRule(d.status, d.snapshots).None?;
        return;
      }
      var k := FindRule(status, snapshots);
      if k.None? {
        assert NextRule(d.status, d.snapshots).None?;
        return;
      }
      var rule := Rules[k.value];
      assert NextRule(d.status, d.snapshots) == Some(rule);
      status := rule.to;
      statusHistory := statusHistory + [StatusEntry(now, rule.to, rule.reason)];
      updatedAt := now;
      fired := true;
      assert Doc() == TransitionedDoc(d, now);
      if CrawlScaleOf(rule.to).Some? {
        tasks := EmitCrawlTasks(candidateId, canonicalTitle, sourceTitles, platforms, rule.to, now, active);
      }
    }
  }

  /** The title merge of `_update_candidate`: each non-empty title not yet
      present is appended. */
  method MergeTitles(titles: seq<string>, xs: seq<string>) returns (r: seq<string>)
    ensures r == AddAbsent(titles, Filter(xs, NonEmpty))
  {
    r := titles;
    for k := 0 to |xs|
      invariant r == AddAbsent(titles, Filter(xs[..k], NonEmpty))
    {
      assert xs[..k + 1] == xs[..k] + [xs[k]];
      FilterSnoc(xs[..k], xs[k], NonEmpty);
      if xs[k] != "" {
        assert Filter(xs[..k + 1], NonEmpty) == Filter(xs[..k], NonEmpty) + [xs[k]];
        AddAbsentSnoc(titles, Filter(xs[..k], NonEmpty), xs[k]);
        if xs[k] !in r {
          r := r + [xs[k]];
        }
      } else {
        assert Filter(xs[..k + 1], NonEmpty) == Filter(xs[..k], NonEmpty);
      }
    }
    assert xs[..|xs|] == xs;
  }

  /** The platform merge of `_update_candidate`. */
  method MergePlatforms(plats: seq<string>, xs: seq<string>) returns (r: seq<string>)
    ensures r == AddAbsent(plats, xs)
  {
    r := plats;
    for k := 0 to |xs|
      invariant r == AddAbsent(plats, xs[..k])
    {
      assert xs[..k + 1] == xs[..k] + [xs[k]];
      AddAbsentSnoc(plats, xs[..k], xs[k]);
      if xs[k] !in r {
        r := r + [xs[k]];
      }
    }
    assert xs[..|xs|] == xs;
  }

  // ---------------------------------------------------------------------------
  // One round over all candidates
  // ---------------------------------------------------------------------------

  /** The documents of the candidates, in order. */
  function Docs(cands: seq<Candidate>): (r: seq<CandidateDoc>)
    reads set c | c in cands
    ensures |r| == |cands| && forall i :: 0 <= i < |cands| ==> r[i] == cands[i].Doc()
  {
    if cands == [] then [] else Docs(cands[..|cands| - 1]) + [cands[|cands| - 1].Doc()]
  }

  /** `_apply_decay` over the round's candidates, each updated in place. */
  method ApplyDecay(cands: seq<Candidate>, now: int, decay: real)
    requires Distinct(cands)
    modifies set c | c in cands
    ensures forall i :: 0 <= i < |cands| ==> cands[i].Doc() == DecayedDoc(old(cands[i].Doc()), now, decay)
  {
    for k := 0 to |cands|
      invariant forall i :: 0 <= i < k ==> cands[i].Doc() == DecayedDoc(old(cands[i].Doc()), now, decay)
      invariant forall i :: k <= i < |cands| ==> cands[i].Doc() == old(cands[i].Doc())
    {
      cands[k].Decay(now, decay);
    }
  }

  /** How many of these candidates a round of the state machine moves. */
  function FiredCount(docs: seq<CandidateDoc>): (n: nat)
    ensures n <= |docs|
  {
    if docs == [] then 0
    else FiredCount(docs[..|docs| - 1]) + (if NextRule(docs[|docs| - 1].status, docs[|docs| - 1].snapshots).Some? then 1 else 0)
  }

  /** The active crawl tasks recorded for a candidate. */
  function ActiveFor(active: map<string, set<string>>, candidateId: string): set<string> {
    if candidateId in active then active[candidateId] else {}
  }

  /** The crawl tasks a round of the state machine emits, candidate by
      candidate. */
  function RoundTasks(docs: seq<CandidateDoc>, now: int, active: map<string, set<string>>): seq<CrawlTask> {
    if docs == [] then []
    else
      var d := docs[|docs| - 1];
      RoundTasks(docs[..|docs| - 1], now, active) + TransitionTasks(d, now, ActiveFor(active, d.candidateId))
  }

  /** Every task of a round is a pending exploded-scale task of one of the
      round's candidates that moved from confirmed to exploded. */
  lemma {:induction false} RoundTasksOrigin(docs: seq<CandidateDoc>, now: int, active: map<string, set<string>>)
    ensures forall t :: t in RoundTasks(docs, now, active) ==>
      t.status == "pending" && t.createdAt == now && t.maxNotes == 20 && t.priority == 3 &&
      exists i :: 0 <= i < |docs| && docs[i].candidateId == t.candidateId && docs[i].status == Confirmed
        && TransitionedDoc(docs[i], now).status == Exploded
  {
    if docs != [] {
      var init := docs[..|docs| - 1];
      var d := docs[|docs| - 1];
      var last := TransitionTasks(d, now, ActiveFor(active, d.candidateId));
      RoundTasksOrigin(init, now, active);
      TransitionTasksProps(d, now, ActiveFor(active, d.candidateId));
      assert RoundTasks(docs, now, active) == RoundTasks(init, now, active) + last;
      forall t | t in RoundTasks(docs, now, active)
        ensures t.status == "pending" && t.createdAt == now && t.maxNotes == 20 && t.priority == 3 &&
          exists i :: 0 <= i < |docs| && docs[i].candidateId == t.candidateId && docs[i].status == Confirmed
            && TransitionedDoc(docs[i], now).status == Exploded
      {
        if t in RoundTasks(init, now, active) {
          var i :| 0 <= i < |init| && init[i].candidateId == t.candidateId && init[i].status == Confirmed
            && TransitionedDoc(init[i], now).status == Exploded;
          assert docs[i] == init[i];
        } else {
          assert t in last;
          assert docs[|docs| - 1] == d;
        }
      }
    }
  }

  /** The count and the tasks of a round grow candidate by candidate. */
  lemma RoundAppend(seen: seq<CandidateDoc>, d: CandidateDoc, now: int, active: map<string, set<string>>)
    ensures FiredCount(seen + [d]) == FiredCount(seen) + (if NextRule(d.status, d.snapshots).Some? then 1 else 0)
    ensures RoundTasks(seen + [d], now, active) == RoundTasks(seen, now, active) + TransitionTasks(d, now, ActiveFor(active, d.candidateId))
  {
    assert (seen + [d])[..|seen|] == seen;
  }

  /** `_evaluate_transitions` over the round's candidates: each moves at
      most once, the count is the number that moved, and the tasks are those
      the moves emit, in candidate order. `active` maps a candidate id to
      the deep platforms with a pending or running task. */
  method EvaluateTransitions(cands: seq<Candidate>, now: int, active: map<string, set<string>>)
    returns (count: nat, tasks: seq<CrawlTask>)
    requires Distinct(cands)
    modifies set c | c in cands
    ensures forall i :: 0 <= i < |cands| ==> cands[i].Doc() == TransitionedDoc(old(cands[i].Doc()), now)
    ensures count == FiredCount(old(Docs(cands)))
    ensures tasks == RoundTasks(old(Docs(cands)), now, active)
  {
    count := 0;
    tasks := [];
    ghost var seen: seq<CandidateDoc> := [];
    for k := 0 to |cands|
      invariant forall i :: 0 <= i < k ==> cands[i].Doc() == TransitionedDoc(old(cands[i].Doc()), now)
      invariant forall i :: k <= i < |cands| ==> cands[i].Doc() == old(cands[i].Doc())
      invariant |seen| == k && forall i :: 0 <= i < k ==> seen[i] == old(cands[i].Doc())
      invariant count == FiredCount(seen) && tasks == RoundTasks(seen, now, active)
    {
      ghost var d := cands[k].Doc();
      assert d == old(cands[k].Doc());
      RoundAppend(seen, d, now, active);
      var fired, emitted := cands[k].Transition(now, ActiveFor(active, cands[k].candidateId));
      if fired {
        count := count + 1;
      }
      tasks := tasks + emitted;
      ghost var prev := seen;
      seen := seen + [d];
      assert forall i :: 0 <= i < k ==> seen[i] == prev[i];
    }
    assert seen == old(Docs(cands));
  }

  // ---------------------------------------------------------------------------
  // Matching signals to candidates
  // ---------------------------------------------------------------------------

  /** A candidate's keywords: the union over its source titles. */
  method CandidateKeywords(titles: seq<string>, cut: string -> seq<string>) returns (kw: set<string>)
    ensures kw == TitlesKeywords(titles, cut)
  {
    kw := {};
    for k := 0 to |titles|
      invariant kw == TitlesKeywords(titles[..k], cut)
    {
      assert titles[..k + 1][..k] == titles[..k];
      kw := kw + KeywordSetOf(titles[k], cut);
    }
    assert titles[..|titles|] == titles;
  }

  /** The keyword sets of candidates given by their source titles. */
  function KeywordSets(titles: seq<seq<string>>, cut: string -> seq<string>): (r: seq<set<string>>)
    ensures |r| == |titles| && forall k :: 0 <= k < |titles| ==> r[k] == TitlesKeywords(titles[k], cut)
  {
    if titles == [] then [] else KeywordSets(titles[..|titles| - 1], cut) + [TitlesKeywords(titles[|titles| - 1], cut)]
  }

  /** `_match_candidate`'s scan: the candidate kept so far and its overlap,
      replaced only by an overlap of at least min that beats it. */
  function BestMatch(sig: set<string>, kws: seq<set<string>>, min: real): (Option<nat>, real) {
    if kws == [] then (None, 0.0)
    else
      var prev := BestMatch(sig, kws[..|kws| - 1], min);
      var ov := Overlap(sig, kws[|kws| - 1]);
      if ov >= min && ov > prev.1 then (Some(|kws| - 1), ov) else prev
  }

  /** A candidate can be matched: its overlap reaches min and is positive. */
  predicate Eligible(sig: set<string>, kw: set<string>, min: real) {
    Overlap(sig, kw) >= min && Overlap(sig, kw) > 0.0
  }

  /** The match is the first eligible candidate with the highest overlap,
      and there is none exactly when no candidate is eligible. */
  lemma {:induction false} BestMatchProps(sig: set<string>, kws: seq<set<string>>, min: real)
    ensures var b := BestMatch(sig, kws, min);
      && (b.0.None? <==> forall j :: 0 <= j < |kws| ==> !Eligible(sig, kws[j], min))
      && (b.0.None? ==> b.1 == 0.0)
      && (b.0.Some? ==>
            && b.0.value < |kws| && Eligible(sig, kws[b.0.value], min) && b.1 == Overlap(sig, kws[b.0.value])
            && (forall j :: 0 <= j < |kws| && Overlap(sig, kws[j]) >= min ==> Overlap(sig, kws[j]) <= b.1)
            && (forall j :: 0 <= j < b.0.value && Overlap(sig, kws[j]) >= min ==> Overlap(sig, kws[j]) < b.1))
  {
    if kws != [] {
      var init := kws[..|kws| - 1];
      BestMatchProps(sig, init, min);
      assert forall j :: 0 <= j < |init| ==> kws[j] == init[j];
    }
  }

  /** `_match_candidate` over candidates given by their source titles:
      the index of the matched candidate, if any. */
  method MatchCandidate(sig: set<string>, titles: seq<seq<string>>, min: real, cut: string -> seq<string>)
    returns (best: Option<nat>)
    ensures best == BestMatch(sig, KeywordSets(titles, cut), min).0
  {
    best := None;
    var bestOverlap := 0.0;
    for k := 0 to |titles|
      invariant (best, bestOverlap) == BestMatch(sig, KeywordSets(titles[..k], cut), min)
    {
      assert titles[..k + 1][..k] == titles[..k];
      var kw := CandidateKeywords(titles[k], cut);
      var ov := Overlap(sig, kw);
      if ov >= min && ov > bestOverlap {
        best := Some(k);
        bestOverlap := ov;
      }
    }
    assert titles[..|titles|] == titles;
  }

  // ---------------------------------------------------------------------------
  // Clustering unmatched signals
  // ---------------------------------------------------------------------------

  predicate InCluster(clusters: seq<seq<nat>>, c: int, j: nat) {
    0 <= c < |clusters| && j in clusters[c]
  }

  ghost predicate Clustered(clusters: seq<seq<nat>>, j: nat) {
    exists c :: InCluster(clusters, c, j)
  }

  /** A cluster: its seed first, members increasing, every later member
      overlapping the seed by at least min. */
  predicate Seeded(kws: seq<set<string>>, min: real, cl: seq<nat>) {
    && cl != [] && Increasing(cl)
    && (forall k :: 0 <= k < |cl| ==> cl[k] < |kws|)
    && (forall k :: 1 <= k < |cl| ==> Overlap(kws[cl[0]], kws[cl[k]]) >= min)
  }

  /** `used` holds exactly the clustered signals. */
  ghost predicate UsedExact(clusters: seq<seq<nat>>, used: set<nat>) {
    forall j: nat :: j in used <==> Clustered(clusters, j)
  }

  ghost predicate PrefixUsed(i: nat, used: set<nat>) {
    forall j: nat :: j < i ==> j in used
  }

  /** Every cluster is seeded, by a signal below i. */
  predicate AllSeeded(kws: seq<set<string>>, min: real, i: nat, clusters: seq<seq<nat>>) {
    forall c :: 0 <= c < |clusters| ==> Seeded(kws, min, clusters[c]) && clusters[c][0] < i
  }

  predicate SeedsOrdered(clusters: seq<seq<nat>>) {
    forall c1, c2 :: 0 <= c1 < c2 < |clusters| ==>
      clusters[c1] != [] && clusters[c2] != [] && clusters[c1][0] < clusters[c2][0]
  }

  ghost predicate Disjoint(clusters: seq<seq<nat>>) {
    forall c1, c2, j: nat :: InCluster(clusters, c1, j) && InCluster(clusters, c2, j) ==> c1 == c2
  }

  /** A signal in a later cluster does not overlap an earlier seed by min. */
  ghost predicate EarlierMiss(kws: seq<set<string>>, min: real, clusters: seq<seq<nat>>) {
    forall c1, c2, j: nat :: 0 <= c1 < c2 && InCluster(clusters, c2, j) && j < |kws| ==>
      clusters[c1] != [] && clusters[c1][0] < |kws| && Overlap(kws[clusters[c1][0]], kws[j]) < min
  }

  /** A signal not yet placed does not overlap any seed by min. */
  ghost predicate UnusedMiss(kws: seq<set<string>>, min: real, clusters: seq<seq<nat>>, used: set<nat>) {
    forall c, j: nat :: 0 <= c < |clusters| && j < |kws| && j !in used ==>
      clusters[c] != [] && clusters[c][0] < |kws| && Overlap(kws[clusters[c][0]], kws[j]) < min
  }

  /** The clusters built from the first i signals, with `used` the
      signals placed so far. */
  ghost predicate ClustersSoFar(kws: seq<set<string>>, min: real, i: nat, clusters: seq<seq<nat>>, used: set<nat>) {
    && UsedExact(clusters, used) && PrefixUsed(i, used)
    && AllSeeded(kws, min, i, clusters) && SeedsOrdered(clusters) && Disjoint(clusters)
    && EarlierMiss(kws, min, clusters) && UnusedMiss(kws, min, clusters, used)
  }

  /** A signal already placed seeds nothing: the clusters stand for the
      first i + 1 signals. */
  lemma SkipUsed(kws: seq<set<string>>, min: real, i: nat, clusters: seq<seq<nat>>, used: set<nat>)
    requires PrefixUsed(i, used) && AllSeeded(kws, min, i, clusters) && i in used
    ensures PrefixUsed(i + 1, used) && AllSeeded(kws, min, i + 1, clusters)
  {
  }

  /** The cluster seeded by i after scanning the signals below j. */
  ghost predicate Gathering(kws: seq<set<string>>, min: real, i: nat, j: nat, cur: seq<nat>, before: set<nat>, used: set<nat>) {
    && i < |kws| && i !in before && j <= |kws|
    && (forall m: nat :: m < i ==> m in before)
    && cur != [] && cur[0] == i && Increasing(cur)
    && (forall k :: 1 <= k < |cur| ==> i < cur[k] < j && cur[k] !in before && Overlap(kws[i], kws[cur[k]]) >= min)
    && (forall m: nat :: m in used <==> m in before || m in cur)
    && (forall m: nat :: m < j && m < |kws| && m !in used ==> Overlap(kws[i], kws[m]) < min)
  }

  lemma GatherStep(kws: seq<set<string>>, min: real, i: nat, j: nat, cur: seq<nat>, before: set<nat>, used: set<nat>)
    requires Gathering(kws, min, i, j, cur, before, used) && j < |kws|
    ensures j !in used && Overlap(kws[i], kws[j]) >= min ==>
      Gathering(kws, min, i, j + 1, cur + [j], before, used + {j})
    ensures !(j !in used && Overlap(kws[i], kws[j]) >= min) ==>
      Gathering(kws, min, i, j + 1, cur, before, used)
  {
    if j !in used && Overlap(kws[i], kws[j]) >= min {
      GatherJoin(kws, min, i, j, cur, before, used);
    }
  }

  /** Signal j overlaps the seed enough and is unused: it joins the cluster. */
  lemma GatherJoin(kws: seq<set<string>>, min: real, i: nat, j: nat, cur: seq<nat>, before: set<nat>, used: set<nat>)
    requires Gathering(kws, min, i, j, cur, before, used) && j < |kws|
    requires j !in used && Overlap(kws[i], kws[j]) >= min
    ensures Gathering(kws, min, i, j + 1, cur + [j], before, used + {j})
  {
    var cur' := cur + [j];
    assert j != i && j !in before;
    assert i < j;
    IncreasingSnoc(cur, j);
    forall m: nat ensures m in used + {j} <==> m in before || m in cur' {
      assert m in cur' <==> m in cur || m == j;
    }
  }

  lemma IncreasingSnoc(s: seq<nat>, x: nat)
    requires Increasing(s) && forall k :: 0 <= k < |s| ==> s[k] < x
    ensures Increasing(s + [x])
  {
    var t := s + [x];
    forall a, b | 0 <= a < b < |t| ensures t[a] < t[b] {
      if b == |s| {
        assert t[a] == s[a];
      }
    }
  }

  /** A finished cluster extends the clusters of the first i signals to
      those of the first i + 1. */
  lemma CloseCluster(kws: seq<set<string>>, min: real, i: nat, clusters: seq<seq<nat>>, before: set<nat>,
                     cur: seq<nat>, used: set<nat>)
    requires ClustersSoFar(kws, min, i, clusters, before)
    requires Gathering(kws, min, i, |kws|, cur, before, used)
    ensures ClustersSoFar(kws, min, i + 1, clusters + [cur], used)
  {
    CloseUsed(kws, min, i, clusters, before, cur, used);
    ClosePrefix(kws, min, i, before, cur, used);
    CloseSeeded(kws, min, i, clusters, before, cur, used);
    CloseUnique(kws, min, i, clusters, before, cur, used);
    CloseMaximal(kws, min, i, clusters, before, cur, used);
  }

  lemma ClosePrefix(kws: seq<set<string>>, min: real, i: nat, before: set<nat>, cur: seq<nat>, used: set<nat>)
    requires PrefixUsed(i, before)
    requires Gathering(kws, min, i, |kws|, cur, before, used)
    ensures PrefixUsed(i + 1, used)
  {
    assert i in cur;
  }

  lemma CloseSeeded(kws: seq<set<string>>, min: real, i: nat, clusters: seq<seq<nat>>, before: set<nat>,
                    cur: seq<nat>, used: set<nat>)
    requires AllSeeded(kws, min, i, clusters) && SeedsOrdered(clusters)
    requires Gathering(kws, min, i, |kws|, cur, before, used)
    ensures AllSeeded(kws, min, i + 1, clusters + [cur]) && SeedsOrdered(clusters + [cur])
  {
    var cs := clusters + [cur];
    assert Seeded(kws, min, cur);
    forall c | 0 <= c < |cs| ensures Seeded(kws, min, cs[c]) && cs[c][0] < i + 1 {
      if c < |clusters| {
        assert cs[c] == clusters[c];
      }
    }
    forall c1, c2 | 0 <= c1 < c2 < |cs| ensures cs[c1] != [] && cs[c2] != [] && cs[c1][0] < cs[c2][0] {
      assert cs[c1] == clusters[c1];
      if c2 < |clusters| {
        assert cs[c2] == clusters[c2];
      }
    }
  }

  lemma CloseUsed(kws: seq<set<string>>, min: real, i: nat, clusters: seq<seq<nat>>, before: set<nat>,
                  cur: seq<nat>, used: set<nat>)
    requires UsedExact(clusters, before)
    requires Gathering(kws, min, i, |kws|, cur, before, used)
    ensures UsedExact(clusters + [cur], used)
  {
    var cs := clusters + [cur];
    forall j: nat ensures j in used <==> Clustered(cs, j) {
      if j in used {
        if j in before {
          var c :| InCluster(clusters, c, j);
          assert InCluster(cs, c, j);
        } else {
          assert InCluster(cs, |clusters|, j);
        }
      }
      if Clustered(cs, j) {
        var c :| InCluster(cs, c, j);
        if c < |clusters| {
          assert InCluster(clusters, c, j);
        }
      }
    }
  }

  lemma CloseUnique(kws: seq<set<string>>, min: real, i: nat, clusters: seq<seq<nat>>, before: set<nat>,
                    cur: seq<nat>, used: set<nat>)
    requires Disjoint(clusters) && UsedExact(clusters, before)
    requires Gathering(kws, min, i, |kws|, cur, before, used)
    ensures Disjoint(clusters + [cur])
  {
    var cs := clusters + [cur];
    forall c, j: nat | 0 <= c < |clusters| && j in clusters[c] ensures j in before {
      assert InCluster(clusters, c, j);
    }
    forall k | 0 <= k < |cur| ensures cur[k] !in before {
    }
    forall c1, c2, j: nat | InCluster(cs, c1, j) && InCluster(cs, c2, j) ensures c1 == c2 {
      if c1 < |clusters| && c2 < |clusters| {
        assert InCluster(clusters, c1, j) && InCluster(clusters, c2, j);
      }
    }
  }

  lemma CloseMaximal(kws: seq<set<string>>, min: real, i: nat, clusters: seq<seq<nat>>, before: set<nat>,
                     cur: seq<nat>, used: set<nat>)
    requires EarlierMiss(kws, min, clusters) && UnusedMiss(kws, min, clusters, before)
    requires Gathering(kws, min, i, |kws|, cur, before, used)
    ensures EarlierMiss(kws, min, clusters + [cur]) && UnusedMiss(kws, min, clusters + [cur], used)
  {
    var cs := clusters + [cur];
    forall c1, c2, j: nat | 0 <= c1 < c2 && InCluster(cs, c2, j) && j < |kws|
      ensures cs[c1] != [] && cs[c1][0] < |kws| && Overlap(kws[cs[c1][0]], kws[j]) < min
    {
      assert cs[c1] == clusters[c1];
      if c2 < |clusters| {
        assert InCluster(clusters, c2, j);
      } else {
        assert j in cur;
        assert j !in before;
      }
    }
    forall c, j: nat | 0 <= c < |cs| && j < |kws| && j !in used
      ensures cs[c] != [] && cs[c][0] < |kws| && Overlap(kws[cs[c][0]], kws[j]) < min
    {
      if c < |clusters| {
        assert cs[c] == clusters[c];
      } else {
        assert cs[c] == cur;
      }
    }
  }

  /** The clustering step of `run_cycle` over the keyword sets of the
      unmatched single-platform signals: each signal not yet placed seeds a
      cluster and takes every unplaced signal overlapping it by at least
      min. The clusters partition the signals, seeds come first and in
      order, and no later cluster holds a signal an earlier seed could have
      taken. */
  method ClusterUnmatched(kws: seq<set<string>>, min: real) returns (clusters: seq<seq<nat>>)
    ensures forall c :: 0 <= c < |clusters| ==> Seeded(kws, min, clusters[c])
    ensures forall j: nat :: j < |kws| ==> Clustered(clusters, j)
    ensures forall c1, c2, j: nat :: InCluster(clusters, c1, j) && InCluster(clusters, c2, j) ==> c1 == c2
    ensures forall c1, c2 :: 0 <= c1 < c2 < |clusters| ==>
      clusters[c1] != [] && clusters[c2] != [] && clusters[c1][0] < clusters[c2][0]
    ensures forall c1, c2, j: nat :: 0 <= c1 < c2 && InCluster(clusters, c2, j) && j < |kws| ==>
      clusters[c1] != [] && clusters[c1][0] < |kws| && Overlap(kws[clusters[c1][0]], kws[j]) < min
  {
    clusters := [];
    var used: set<nat> := {};
    for i := 0 to |kws|
      invariant ClustersSoFar(kws, min, i, clusters, used)
    {
      if i in used {
        SkipUsed(kws, min, i, clusters, used);
        continue;
      }
      ghost var before := used;
      var cur;
      cur, used := Gather(kws, min, i, used);
      CloseCluster(kws, min, i, clusters, before, cur, used);
      clusters := clusters + [cur];
    }
  }

  /** The inner loop: the unused signal i seeds a cluster, and every later
      unused signal overlapping it enough joins. */
  method Gather(kws: seq<set<string>>, min: real, i: nat, before: set<nat>) returns (cur: seq<nat>, used: set<nat>)
    requires i < |kws| && i !in before && forall m: nat :: m < i ==> m in before
    ensures Gathering(kws, min, i, |kws|, cur, before, used)
  {
    cur := [i];
    used := before + {i};
    for j := 0 to |kws|
      invariant Gathering(kws, min, i, j, cur, before, used)
    {
      GatherStep(kws, min, i, j, cur, before, used);
      if j !in used && Overlap(kws[i], kws[j]) >= min {
        cur := cur + [j];
        used := used + {j};
      }
    }
  }

  // ---------------------------------------------------------------------------
  // New candidates from clusters
  // ---------------------------------------------------------------------------

  /** Updates with each signal in turn. */
  function FoldUpdates(d: CandidateDoc, sigs: seq<Signal>, now: int, weights: map<string, real>): CandidateDoc {
    if sigs == [] then d
    else UpdatedDoc(FoldUpdates(d, sigs[..|sigs| - 1], now, weights), sigs[|sigs| - 1], now, weights)
  }

  function SumScores(sigs: seq<Signal>, weights: map<string, real>): int {
    if sigs == [] then 0 else SumScores(sigs[..|sigs| - 1], weights) + ScorePos(sigs[|sigs| - 1], weights)
  }

  /** Folding updates into a candidate keeps it well formed with its
      identity and status, and marks it as signalled. */
  lemma {:induction false} FoldShape(d: CandidateDoc, sigs: seq<Signal>, now: int, weights: map<string, real>)
    requires WellFormed(d)
    ensures var e := FoldUpdates(d, sigs, now, weights);
      && WellFormed(e) && e.status == d.status && e.candidateId == d.candidateId && e.canonicalTitle == d.canonicalTitle
      && (sigs != [] ==> e.hasSignal)
  {
    if sigs != [] {
      FoldShape(d, sigs[..|sigs| - 1], now, weights);
      UpdatedShape(FoldUpdates(d, sigs[..|sigs| - 1], now, weights), sigs[|sigs| - 1], now, weights);
    }
  }

  /** Folding updates keeps every title and adds every signal's non-empty
      title. */
  lemma {:induction false} FoldTitles(d: CandidateDoc, sigs: seq<Signal>, now: int, weights: map<string, real>)
    ensures HasTitles(FoldUpdates(d, sigs, now, weights), d, sigs)
  {
    if sigs != [] {
      var init := sigs[..|sigs| - 1];
      FoldTitles(d, init, now, weights);
      var e0 := FoldUpdates(d, init, now, weights);
      TitleKept(e0, sigs[|sigs| - 1], now, weights);
      TitlesStep(d, sigs, e0, UpdatedDoc(e0, sigs[|sigs| - 1], now, weights));
    }
  }

  /** `e` keeps every title of `d` and has every signal's non-empty title. */
  ghost predicate HasTitles(e: CandidateDoc, d: CandidateDoc, sigs: seq<Signal>) {
    && (forall t :: t in d.sourceTitles ==> t in e.sourceTitles)
    && (forall k :: 0 <= k < |sigs| && sigs[k].title != "" ==> sigs[k].title in e.sourceTitles)
  }

  lemma TitlesStep(d: CandidateDoc, sigs: seq<Signal>, e0: CandidateDoc, u: CandidateDoc)
    requires sigs != [] && HasTitles(e0, d, sigs[..|sigs| - 1])
    requires forall t :: t in e0.sourceTitles ==> t in u.sourceTitles
    requires sigs[|sigs| - 1].title != "" ==> sigs[|sigs| - 1].title in u.sourceTitles
    ensures HasTitles(u, d, sigs)
  {
    forall k | 0 <= k < |sigs| && sigs[k].title != "" ensures sigs[k].title in u.sourceTitles {
      if k < |sigs| - 1 {
        assert sigs[..|sigs| - 1][k] == sigs[k];
      }
    }
  }

  /** One update keeps every title and adds the signal's non-empty title. */
  lemma TitleKept(e0: CandidateDoc, s: Signal, now: int, weights: map<string, real>)
    ensures var u := UpdatedDoc(e0, s, now, weights);
      (forall t :: t in e0.sourceTitles ==> t in u.sourceTitles) && (s.title != "" ==> s.title in u.sourceTitles)
  {
    UpdatedTitles(e0, s, now, weights);
  }

  /** Every element of xs occurs in plats. */
  predicate Covers(plats: seq<string>, xs: seq<string>) {
    forall p :: p in xs ==> p in plats
  }

  lemma CoversTrans(a: seq<string>, b: seq<string>, c: seq<string>)
    requires Covers(a, b) && Covers(b, c)
    ensures Covers(a, c)
  {
  }

  lemma UpdatedCovers(d: CandidateDoc, s: Signal, now: int, weights: map<string, real>)
    ensures Covers(UpdatedDoc(d, s, now, weights).platforms, d.platforms)
    ensures Covers(UpdatedDoc(d, s, now, weights).platforms, NewPlatforms(s))
  {
    AddAbsentProps(d.platforms, NewPlatforms(s));
  }

  /** All platforms the signals bring, in order. */
  function AllPlatforms(sigs: seq<Signal>): seq<string> {
    if sigs == [] then [] else AllPlatforms(sigs[..|sigs| - 1]) + NewPlatforms(sigs[|sigs| - 1])
  }

  /** Folding updates keeps every platform and adds every signal's
      platforms. */
  lemma {:induction false} FoldPlatforms(d: CandidateDoc, sigs: seq<Signal>, now: int, weights: map<string, real>)
    ensures var e := FoldUpdates(d, sigs, now, weights);
      Covers(e.platforms, d.platforms) && Covers(e.platforms, AllPlatforms(sigs))
  {
    if sigs != [] {
      var init := sigs[..|sigs| - 1];
      var last := sigs[|sigs| - 1];
      FoldPlatforms(d, init, now, weights);
      var e0 := FoldUpdates(d, init, now, weights);
      var e := UpdatedDoc(e0, last, now, weights);
      assert FoldUpdates(d, sigs, now, weights) == e;
      UpdatedCovers(e0, last, now, weights);
      CoversTrans(e.platforms, e0.platforms, d.platforms);
      CoversTrans(e.platforms, e0.platforms, AllPlatforms(init));
    }
  }

  /** Folding the updates of one round adds up the signals' scores and adds
      no snapshot when the candidate already has one for this round. */
  lemma {:induction false} FoldScores(d: CandidateDoc, sigs: seq<Signal>, now: int, weights: map<string, real>)
    requires d.snapshots != [] && d.snapshots[|d.snapshots| - 1].ts == now
    ensures var e := FoldUpdates(d, sigs, now, weights);
      && TotalScore(e.snapshots) == TotalScore(d.snapshots) + SumScores(sigs, weights)
      && |e.snapshots| == |d.snapshots| && e.snapshots[|e.snapshots| - 1].ts == now
  {
    if sigs != [] {
      FoldScores(d, sigs[..|sigs| - 1], now, weights);
      UpdatedScores(FoldUpdates(d, sigs[..|sigs| - 1], now, weights), sigs[|sigs| - 1], now, weights);
    }
  }

  /** The candidate a cluster of unmatched signals founds: created from the
      first signal and updated with the others. */
  function ClusterDoc(sigs: seq<Signal>, now: int, hash: string -> string, weights: map<string, real>): CandidateDoc
    requires sigs != []
  {
    FoldUpdates(CreatedDoc(sigs[0], now, hash, weights).(hasSignal := true), sigs[1..], now, weights)
  }

  /** A cluster's candidate is well formed, emerging and named after its
      first signal, has a single snapshot holding the whole cluster's score,
      and carries every signal's non-empty title and platforms. */
  lemma ClusterDocProps(sigs: seq<Signal>, now: int, hash: string -> string, weights: map<string, real>)
    requires sigs != []
    ensures var d := ClusterDoc(sigs, now, hash, weights);
      && WellFormed(d) && d.status == Emerging && d.hasSignal
      && d.candidateId == "cand_" + TitleHash(sigs[0].title, hash) && d.canonicalTitle == sigs[0].title
      && |d.snapshots| == 1 && d.snapshots[0].scorePos == SumScores(sigs, weights)
      && (forall k :: 0 <= k < |sigs| && sigs[k].title != "" ==> sigs[k].title in d.sourceTitles)
      && Covers(d.platforms, AllPlatforms(sigs))
  {
    var c := CreatedDoc(sigs[0], now, hash, weights).(hasSignal := true);
    CreatedProps(sigs[0], now, hash, weights);
    FoldShape(c, sigs[1..], now, weights);
    FoldTitles(c, sigs[1..], now, weights);
    FoldPlatforms(c, sigs[1..], now, weights);
    FoldScores(c, sigs[1..], now, weights);
    var d := ClusterDoc(sigs, now, hash, weights);
    assert d == FoldUpdates(c, sigs[1..], now, weights);
    ClusterTitles(sigs, c, d);
    ClusterScore(sigs, weights, c, d);
    ClusterPlatforms(sigs, c, d);
  }

  /** The titles of a cluster: the first signal's in the founding candidate,
      the others' from the fold. */
  lemma ClusterTitles(sigs: seq<Signal>, c: CandidateDoc, d: CandidateDoc)
    requires sigs != [] && sigs[0].title in c.sourceTitles && HasTitles(d, c, sigs[1..])
    ensures forall k :: 0 <= k < |sigs| && sigs[k].title != "" ==> sigs[k].title in d.sourceTitles
  {
    forall k | 0 <= k < |sigs| && sigs[k].title != "" ensures sigs[k].title in d.sourceTitles {
      if k > 0 {
        assert sigs[1..][k - 1] == sigs[k];
      }
    }
  }

  /** The single snapshot of a cluster holds the first signal's score plus
      the others'. */
  lemma ClusterScore(sigs: seq<Signal>, weights: map<string, real>, c: CandidateDoc, d: CandidateDoc)
    requires sigs != [] && |c.snapshots| == 1 && c.snapshots[0].scorePos == ScorePos(sigs[0], weights)
    requires |d.snapshots| == 1 && TotalScore(d.snapshots) == TotalScore(c.snapshots) + SumScores(sigs[1..], weights)
    ensures d.snapshots[0].scorePos == SumScores(sigs, weights)
  {
    SumScoresHead(sigs, weights);
    assert TotalScore(c.snapshots) == ScorePos(sigs[0], weights) by {
      assert c.snapshots[..0] == [];
    }
    assert TotalScore(d.snapshots) == d.snapshots[0].scorePos by {
      assert d.snapshots[..0] == [];
    }
  }

  /** The platforms of a cluster: the first signal's in the founding
      candidate, the others' from the fold. */
  lemma ClusterPlatforms(sigs: seq<Signal>, c: CandidateDoc, d: CandidateDoc)
    requires sigs != [] && Covers(c.platforms, NewPlatforms(sigs[0]))
    requires Covers(d.platforms, c.platforms) && Covers(d.platforms, AllPlatforms(sigs[1..]))
    ensures Covers(d.platforms, AllPlatforms(sigs))
  {
    AllPlatformsHead(sigs);
  }

  lemma {:induction false} AllPlatformsHead(sigs: seq<Signal>)
    requires sigs != []
    ensures AllPlatforms(sigs) == NewPlatforms(sigs[0]) + AllPlatforms(sigs[1..])
  {
    if |sigs| > 1 {
      var init := sigs[..|sigs| - 1];
      AllPlatformsHead(init);
      assert init[1..] == sigs[1..][..|sigs[1..]| - 1];
    } else {
      assert sigs[1..] == [];
      assert AllPlatforms(sigs) == AllPlatforms([]) + NewPlatforms(sigs[0]);
    }
  }

  lemma {:induction false} SumScoresHead(sigs: seq<Signal>, weights: map<string, real>)
    requires sigs != []
    ensures SumScores(sigs, weights) == ScorePos(sigs[0], weights) + SumScores(sigs[1..], weights)
  {
    if |sigs| > 1 {
      var init := sigs[..|sigs| - 1];
      SumScoresHead(init, weights);
      assert init[1..] == sigs[1..][..|sigs[1..]| - 1];
    } else {
      assert sigs[1..] == [];
    }
  }

  lemma FoldSnoc(d: CandidateDoc, pre: seq<Signal>, x: Signal, now: int, weights: map<string, real>)
    ensures FoldUpdates(d, pre + [x], now, weights) == UpdatedDoc(FoldUpdates(d, pre, now, weights), x, now, weights)
  {
    assert (pre + [x])[..|pre|] == pre;
  }

  /** A cluster founds a candidate: it has two or more signals, or its one
      signal passes admission. */
  predicate Founds(sigs: seq<Signal>, maxPos: int)
    requires sigs != []
  {
    |sigs| >= 2 || Admits(TypeName(sigs[0].signalType), sigs[0].details, maxPos)
  }

  /** Lines 554-572 of `run_cycle` for one cluster: two or more signals
      found a candidate together; a lone signal does only when admitted. */
  method CandidateForCluster(sigs: seq<Signal>, now: int, hash: string -> string, weights: map<string, real>, maxPos: int)
    returns (c: Candidate?)
    requires sigs != []
    ensures Founds(sigs, maxPos) ==> c != null && fresh(c) && c.Doc() == ClusterDoc(sigs, now, hash, weights)
    ensures !Founds(sigs, maxPos) ==> c == null
  {
    if Founds(sigs, maxPos) {
      c := FoundCandidate(sigs, now, hash, weights);
    } else {
      c := null;
    }
  }

  /** The candidate created from a cluster's first signal and updated with
      the others. */
  method FoundCandidate(sigs: seq<Signal>, now: int, hash: string -> string, weights: map<string, real>)
    returns (c: Candidate)
    requires sigs != []
    ensures fresh(c) && c.Doc() == ClusterDoc(sigs, now, hash, weights)
  {
    c := new Candidate.FromSignal(sigs[0], now, hash, weights);
    c.hasSignal := true;
    c.UpdateAll(sigs[1..], now, weights);
  }
}
