/** Signal detection over hot-list items (BroadTopicExtraction/analyzer/
    signal_detector.py): three per-item rules over the history snapshots
    (velocity, new entry, position jump) and cross-platform resonance, which
    clusters items that share keywords with a union-find and reports the
    clusters that span enough distinct platforms.

    md5 (`hash`), jieba tokenisation (`cut`) and the clock (`now`) are
    parameters. */
module SignalDetector {
  import opened Common
  import opened UnionFind

  // ---------------------------------------------------------------------------
  // Items, thresholds and signals
  // ---------------------------------------------------------------------------

  /** One history snapshot `{"ts": .., "val": ..}`; a missing `val` reads 0. */
  datatype Point = Point(ts: int, val: int)

  /** A hot-list document. `itemId` and `title` read "" when absent; the
      histories read [] when absent or null; the Option fields are None
      when absent or null. */
  datatype HotItem = HotItem(
    itemId: string,
    title: string,
    platform: Option<string>,
    hotValue: Option<int>,
    position: Option<int>,
    hotHistory: seq<Point>,
    positionHistory: seq<Point>,
    firstSeenAt: Option<int>,
    lastSeenAt: Option<int>)

  /** The detector thresholds; the growth rate is the ratio
      growthNum / growthDen. */
  datatype Thresholds = Thresholds(
    growthNum: int,
    growthDen: int,
    velocityMinHot: int,
    newEntryMaxAge: int,
    newEntryMinHot: int,
    newEntryMaxPosition: int,
    positionJumpMin: int,
    crossMinKeywords: nat,
    crossMinPlatforms: nat)

  type ValidThresholds = th: Thresholds | th.growthDen > 0
    witness Thresholds(1, 2, 10000, 1800, 50000, 10, 10, 2, 3)

  /** DEFAULT_THRESHOLDS: growth 0.5, velocity floor 10000, new entries
      younger than 1800 s with hot value 50000 or rank 10, jumps of 10
      ranks, 2 shared keywords across 3 platforms. */
  const DefaultThresholds: ValidThresholds := Thresholds(1, 2, 10000, 1800, 50000, 10, 10, 2, 3)

  /** More than this many items sharing a keyword make it too common to link. */
  const MaxKeywordFrequency: nat := 50

  datatype SignalType = Velocity | NewEntry | PositionJump | CrossPlatform

  function TypeName(t: SignalType): string {
    match t
    case Velocity => "velocity"
    case NewEntry => "new_entry"
    case PositionJump => "position_jump"
    case CrossPlatform => "cross_platform"
  }

  /** What a cross-platform signal keeps of the first item of each platform. */
  datatype PlatformItem = PlatformItem(
    title: string,
    hotValue: Option<int>,
    position: Option<int>,
    hotHistory: seq<Point>,
    positionHistory: seq<Point>)

  /** `details` of each signal type. The velocity growth rate is kept as the
      exact ratio growthNum / growthDen. */
  datatype Details =
    | VelocityDetails(previousValue: int, currentValue: int, growthNum: int, growthDen: int)
    | NewEntryDetails(hotValue: int, position: int, ageSeconds: int)
    | JumpDetails(previousPosition: int, currentPosition: int, jump: int)
    | CrossDetails(platformCount: nat, platformItems: seq<(string, PlatformItem)>, commonKeywords: seq<string>)

  /** The histories a layer-1 signal copies from its item. */
  datatype ItemHistory = ItemHistory(
    hotHistory: seq<Point>,
    positionHistory: seq<Point>,
    firstSeenAt: Option<int>,
    lastSeenAt: Option<int>)

  datatype Signal = Signal(
    signalId: string,
    signalType: SignalType,
    layer: nat,
    title: string,
    platform: Option<string>,
    platforms: seq<string>,
    sourceCollection: string,
    details: Details,
    history: Option<ItemHistory>)

  // ---------------------------------------------------------------------------
  // Keywords and platform names
  // ---------------------------------------------------------------------------

  const Stopwords: set<string> := {
    "的", "了", "在", "是", "我", "有", "和", "就", "不", "人", "都", "一", "一个", "上",
    "也", "很", "到", "说", "要", "去", "你", "会", "着", "没有", "看", "好", "自己", "这",
    "他", "她", "它", "们", "那", "被", "从", "把", "让", "用", "为", "什么", "怎么", "如何",
    "如何看待", "哪些", "为什么", "怎样", "可以", "这个", "那个", "还是", "或者", "以及",
    "但是", "然而", "因为", "所以", "如果", "虽然", "已经", "正在", "关于", "对于", "通过",
    "进行", "开始", "之后", "之前", "以来", "目前", "今天", "昨天", "明天", "最新", "最近",
    "突发", "热搜", "曝光", "回应", "官方", "发布", "公布", "通报"
  }

  predicate IsKeyword(w: string) { |w| >= 2 && w !in Stopwords }

  /** `_extract_keywords`, as a duplicate-free list in token order (`cut`
      stands for jieba). */
  function Keywords(title: string, cut: string -> seq<string>): (r: seq<string>)
    ensures title == "" ==> r == []
  {
    if title == "" then [] else Dedup(Filter(cut(title), IsKeyword))
  }

  /** The keywords are exactly the distinct tokens of length at least 2 that
      are not stopwords; an empty title has none. */
  lemma KeywordsSpec(title: string, cut: string -> seq<string>)
    ensures Distinct(Keywords(title, cut))
    ensures forall w :: w in Keywords(title, cut) <==> title != "" && w in cut(title) && IsKeyword(w)
  {
    if title != "" {
      FilterMembers(cut(title), IsKeyword);
      DedupProps(Filter(cut(title), IsKeyword));
    }
  }

  const PlatformAlias: map<string, string> := map[
    "bilibili-hot-search" := "bilibili",
    "cls-hot" := "cls",
    "douban-movie" := "douban",
    "github-trending-today" := "github"]

  /** `_normalize_platform`: aggregator variants map to the platform name,
      every other name passes through. */
  function NormalizePlatform(p: string): (r: string)
    ensures p in PlatformAlias ==> r == PlatformAlias[p]
    ensures p !in PlatformAlias ==> r == p
  {
    if p in PlatformAlias then PlatformAlias[p] else p
  }

  /** Normalised names are fixed points: no alias maps to another alias. */
  lemma NormalizeIdempotent(p: string)
    ensures NormalizePlatform(NormalizePlatform(p)) == NormalizePlatform(p)
    ensures NormalizePlatform(p) !in PlatformAlias
  {
    assert "bilibili" !in PlatformAlias && "cls" !in PlatformAlias;
    assert "douban" !in PlatformAlias && "github" !in PlatformAlias;
  }

  // ---------------------------------------------------------------------------
  // Signal documents
  // ---------------------------------------------------------------------------

  /** `md5(title)[:12]`, with md5's hex digest as the parameter hash. */
  function TitleHash(title: string, hash: string -> string): string {
    Take(hash(title), 12)
  }

  /** The text an f-string gives for an optional platform. */
  function PlatformText(p: Option<string>): string {
    if p.Some? then p.value else "None"
  }

  /** `item.get("platform", "")`. */
  function ItemPlatform(item: HotItem): string {
    if item.platform.Some? then item.platform.value else ""
  }

  /** `_build_signal`. An empty titleOverride stands for no override (the
      source's `title_override or ...`); an empty platform list for none. */
  function BuildSignal(t: SignalType, item: Option<HotItem>, collection: string, details: Details,
                       titleOverride: string, platforms: seq<string>, hash: string -> string): (s: Signal)
    ensures s.signalType == t && s.details == details && s.sourceCollection == collection
    ensures s.platforms == platforms
    ensures s.layer == 2 <==> t == CrossPlatform
    ensures s.layer == 1 <==> t != CrossPlatform
    ensures s.title == if titleOverride != "" then titleOverride else if item.Some? then item.value.title else ""
    ensures platforms != [] || item.None? ==> s.platform.None?
    ensures platforms == [] && item.Some? ==> s.platform == Some(ItemPlatform(item.value))
    ensures StartsWith(s.signalId, TypeName(t) + "_" + TitleHash(s.title, hash))
    ensures s.layer == 1 ==> s.signalId == TypeName(t) + "_" + TitleHash(s.title, hash) + "_" + PlatformText(s.platform)
    ensures s.layer == 2 ==> s.signalId == TypeName(t) + "_" + TitleHash(s.title, hash)
    ensures s.history.Some? <==> item.Some? && s.layer == 1
    ensures s.history.Some? ==> s.history.value == ItemHistory(item.value.hotHistory, item.value.positionHistory, item.value.firstSeenAt, item.value.lastSeenAt)
  {
    var title := if titleOverride != "" then titleOverride else if item.Some? then item.value.title else "";
    var platform := if platforms == [] && item.Some? then Some(ItemPlatform(item.value)) else None;
    var th := TitleHash(title, hash);
    var layer := if t == CrossPlatform then 2 else 1;
    var prefix := TypeName(t) + "_" + th;
    var id := if layer == 1 then prefix + "_" + PlatformText(platform) else prefix;
    assert id[..|prefix|] == prefix;
    var history := if item.Some? && layer == 1
      then Some(ItemHistory(item.value.hotHistory, item.value.positionHistory, item.value.firstSeenAt, item.value.lastSeenAt))
      else None;
    Signal(id, t, layer, title, platform, platforms, collection, details, history)
  }

  /** Signals of different types never share an id, so their upserts never
      overwrite each other. */
  lemma SignalIdsSeparateTypes(s1: Signal, s2: Signal, hash: string -> string)
    requires StartsWith(s1.signalId, TypeName(s1.signalType) + "_" + TitleHash(s1.title, hash))
    requires StartsWith(s2.signalId, TypeName(s2.signalType) + "_" + TitleHash(s2.title, hash))
    requires s1.signalType != s2.signalType
    ensures s1.signalId != s2.signalId
  {
    assert s1.signalId[0] == TypeName(s1.signalType)[0];
    assert s2.signalId[0] == TypeName(s2.signalType)[0];
  }

  // ---------------------------------------------------------------------------
  // Layer 1 rules
  // ---------------------------------------------------------------------------

  /** `_detect_velocity` for one item. */
  function VelocityRule(item: HotItem, collection: string, th: ValidThresholds, hash: string -> string): (r: Option<Signal>)
    ensures var h := item.hotHistory;
      r.Some? <==> |h| >= 2 && h[|h| - 2].val > 0 && h[|h| - 1].val >= th.velocityMinHot
                   && h[|h| - 1].val * th.growthDen >= h[|h| - 2].val * (th.growthDen + th.growthNum)
    ensures r.Some? ==> var h := item.hotHistory;
      && r.value.signalType == Velocity && r.value.title == item.title
      && r.value.details == VelocityDetails(h[|h| - 2].val, h[|h| - 1].val, h[|h| - 1].val - h[|h| - 2].val, h[|h| - 2].val)
      && r.value.platform == Some(ItemPlatform(item))
  {
    var h := item.hotHistory;
    if |h| < 2 then None
    else
      var prev := h[|h| - 2].val;
      var curr := h[|h| - 1].val;
      if prev <= 0 || curr < th.velocityMinHot then None
      else if (curr - prev) * th.growthDen >= th.growthNum * prev then
        Some(BuildSignal(Velocity, Some(item), collection, VelocityDetails(prev, curr, curr - prev, prev), "", [], hash))
      else None
  }

  /** With the default thresholds an item fires when its hot value is at
      least 10000 and at least one and a half times the previous one. */
  lemma VelocityDefaults(item: HotItem, collection: string, hash: string -> string)
    requires |item.hotHistory| >= 2
    requires item.hotHistory[|item.hotHistory| - 2].val > 0
    ensures var h := item.hotHistory;
      VelocityRule(item, collection, DefaultThresholds, hash).Some?
      <==> h[|h| - 1].val >= 10000 && 2 * h[|h| - 1].val >= 3 * h[|h| - 2].val
  {
  }

  /** `item.get("first_seen_at", 0)`. */
  function FirstSeen(item: HotItem): int {
    if item.firstSeenAt.Some? then item.firstSeenAt.value else 0
  }

  /** `item.get("hot_value", 0) or 0`. */
  function HotOrZero(item: HotItem): int {
    if item.hotValue.Some? then item.hotValue.value else 0
  }

  /** `item.get("position") or 999`: missing, null and 0 all read 999. */
  function PositionOr999(item: HotItem): int {
    if item.position.Some? && item.position.value != 0 then item.position.value else 999
  }

  /** `_detect_new_entry` for one item at time now. */
  function NewEntryRule(item: HotItem, collection: string, th: ValidThresholds, now: int, hash: string -> string): (r: Option<Signal>)
    ensures r.Some? <==> FirstSeen(item) != 0 && now - FirstSeen(item) <= th.newEntryMaxAge
                         && (HotOrZero(item) >= th.newEntryMinHot || PositionOr999(item) <= th.newEntryMaxPosition)
    ensures r.Some? ==> && r.value.signalType == NewEntry && r.value.title == item.title
                        && r.value.details == NewEntryDetails(HotOrZero(item), PositionOr999(item), now - FirstSeen(item))
  {
    var firstSeen := FirstSeen(item);
    if firstSeen == 0 || now - firstSeen > th.newEntryMaxAge then None
    else
      var hot := HotOrZero(item);
      var position := PositionOr999(item);
      if hot >= th.newEntryMinHot || position <= th.newEntryMaxPosition then
        Some(BuildSignal(NewEntry, Some(item), collection, NewEntryDetails(hot, position, now - firstSeen), "", [], hash))
      else None
  }

  /** An item without a position qualifies as new only by its hot value. */
  lemma NewEntryWithoutPosition(item: HotItem, collection: string, th: ValidThresholds, now: int, hash: string -> string)
    requires item.position.None? && th.newEntryMaxPosition < 999
    ensures NewEntryRule(item, collection, th, now, hash).Some? ==> HotOrZero(item) >= th.newEntryMinHot
  {
  }

  /** `_detect_position_jump` for one item (smaller positions rank higher). */
  function PositionJumpRule(item: HotItem, collection: string, th: ValidThresholds, hash: string -> string): (r: Option<Signal>)
    ensures var h := item.positionHistory;
      r.Some? <==> |h| >= 2 && h[|h| - 2].val > 0 && h[|h| - 1].val > 0
                   && h[|h| - 2].val - h[|h| - 1].val >= th.positionJumpMin
    ensures r.Some? ==> var h := item.positionHistory;
      && r.value.signalType == PositionJump && r.value.title == item.title
      && r.value.details.JumpDetails?
      && r.value.details.jump == r.value.details.previousPosition - r.value.details.currentPosition
      && r.value.details.previousPosition == h[|h| - 2].val && r.value.details.currentPosition == h[|h| - 1].val
      && (th.positionJumpMin > 0 ==> r.value.details.currentPosition < r.value.details.previousPosition)
  {
    var h := item.positionHistory;
    if |h| < 2 then None
    else
      var prev := h[|h| - 2].val;
      var curr := h[|h| - 1].val;
      if prev <= 0 || curr <= 0 then None
      else if prev - curr >= th.positionJumpMin then
        Some(BuildSignal(PositionJump, Some(item), collection, JumpDetails(prev, curr, prev - curr), "", [], hash))
      else None
  }

  function VelocityOf(collection: string, th: ValidThresholds, hash: string -> string): HotItem -> Option<Signal> {
    item => VelocityRule(item, collection, th, hash)
  }

  function NewEntryOf(collection: string, th: ValidThresholds, now: int, hash: string -> string): HotItem -> Option<Signal> {
    item => NewEntryRule(item, collection, th, now, hash)
  }

  function PositionJumpOf(collection: string, th: ValidThresholds, hash: string -> string): HotItem -> Option<Signal> {
    item => PositionJumpRule(item, collection, th, hash)
  }

  /** `_detect_velocity`: one signal per firing item, in item order. */
  method DetectVelocity(items: seq<HotItem>, collection: string, th: ValidThresholds, hash: string -> string)
    returns (signals: seq<Signal>)
    ensures signals == Select(items, VelocityOf(collection, th, hash))
    ensures |signals| <= |items|
    ensures forall s :: s in signals ==> s.signalType == Velocity && s.layer == 1 && s.sourceCollection == collection
  {
    signals := [];
    for i := 0 to |items|
      invariant signals == Select(items[..i], VelocityOf(collection, th, hash))
      invariant |signals| <= i
      invariant forall s :: s in signals ==> s.signalType == Velocity && s.layer == 1 && s.sourceCollection == collection
    {
      var s := VelocityRule(items[i], collection, th, hash);
      assert items[..i + 1] == items[..i] + [items[i]];
      SelectSnoc(items[..i], items[i], VelocityOf(collection, th, hash));
      if s.Some? {
        signals := signals + [s.value];
      }
    }
    assert items[..|items|] == items;
  }

  /** `_detect_new_entry` at time now. */
  method DetectNewEntry(items: seq<HotItem>, collection: string, th: ValidThresholds, now: int, hash: string -> string)
    returns (signals: seq<Signal>)
    ensures signals == Select(items, NewEntryOf(collection, th, now, hash))
    ensures |signals| <= |items|
    ensures forall s :: s in signals ==> s.signalType == NewEntry && s.layer == 1 && s.sourceCollection == collection
  {
    signals := [];
    for i := 0 to |items|
      invariant signals == Select(items[..i], NewEntryOf(collection, th, now, hash))
      invariant |signals| <= i
      invariant forall s :: s in signals ==> s.signalType == NewEntry && s.layer == 1 && s.sourceCollection == collection
    {
      var s := NewEntryRule(items[i], collection, th, now, hash);
      assert items[..i + 1] == items[..i] + [items[i]];
      SelectSnoc(items[..i], items[i], NewEntryOf(collection, th, now, hash));
      if s.Some? {
        signals := signals + [s.value];
      }
    }
    assert items[..|items|] == items;
  }

  /** `_detect_position_jump`. */
  method DetectPositionJump(items: seq<HotItem>, collection: string, th: ValidThresholds, hash: string -> string)
    returns (signals: seq<Signal>)
    ensures signals == Select(items, PositionJumpOf(collection, th, hash))
    ensures |signals| <= |items|
    ensures forall s :: s in signals ==> s.signalType == PositionJump && s.layer == 1 && s.sourceCollection == collection
  {
    signals := [];
    for i := 0 to |items|
      invariant signals == Select(items[..i], PositionJumpOf(collection, th, hash))
      invariant |signals| <= i
      invariant forall s :: s in signals ==> s.signalType == PositionJump && s.layer == 1 && s.sourceCollection == collection
    {
      var s := PositionJumpRule(items[i], collection, th, hash);
      assert items[..i + 1] == items[..i] + [items[i]];
      SelectSnoc(items[..i], items[i], PositionJumpOf(collection, th, hash));
      if s.Some? {
        signals := signals + [s.value];
      }
    }
    assert items[..|items|] == items;
  }

  /** Every item that passes a layer-1 rule yields exactly its signal, and
      every signal comes from a passing item. */
  lemma LayerOneComplete(items: seq<HotItem>, f: HotItem -> Option<Signal>, i: nat)
    requires i < |items| && f(items[i]).Some?
    ensures f(items[i]).value in Select(items, f)
    ensures forall s :: s in Select(items, f) ==> exists k :: 0 <= k < |items| && f(items[k]) == Some(s)
  {
    SelectMembers(items, f);
  }

  // ---------------------------------------------------------------------------
  // Layer 2: cross-platform resonance
  // ---------------------------------------------------------------------------

  /** An `item_data` entry: the item id, the item and its keywords. */
  datatype Entry = Entry(id: string, item: HotItem, keywords: seq<string>)

  /** An item takes part in clustering when it has an id and keywords. */
  predicate Qualifies(item: HotItem, cut: string -> seq<string>) {
    item.itemId != "" && Keywords(item.title, cut) != []
  }

  /** Some entry has this id. */
  predicate HasId(data: seq<Entry>, id: string) {
    exists k :: 0 <= k < |data| && data[k].id == id
  }

  /** The position of the entry with this id, or |data|. */
  function IdIndex(data: seq<Entry>, id: string): (k: nat)
    ensures k <= |data|
    ensures k < |data| ==> data[k].id == id
    ensures k == |data| ==> !HasId(data, id)
  {
    if data == [] then 0
    else if data[0].id == id then 0
    else 1 + IdIndex(data[1..], id)
  }

  /** An entry as step 1 builds it from its item. */
  predicate GoodEntry(e: Entry, cut: string -> seq<string>) {
    e.id == e.item.itemId && e.id != "" && e.keywords == Keywords(e.item.title, cut) && e.keywords != []
  }

  predicate DistinctIds(data: seq<Entry>) {
    forall k, l :: 0 <= k < l < |data| ==> data[k].id != data[l].id
  }

  /** `item_data[item_id] = entry`: an existing id keeps its position and
      takes the new value, a new id goes at the end. */
  function Upsert(data: seq<Entry>, e: Entry): (r: seq<Entry>)
    ensures |r| >= |data|
  {
    var k := IdIndex(data, e.id);
    if k < |data| then data[k := e] else data + [e]
  }

  /** The item position each entry was taken from, kept alongside Upsert. */
  ghost function UpsertSrc(data: seq<Entry>, src: seq<nat>, e: Entry, i: nat): seq<nat>
    requires |src| == |data|
  {
    var k := IdIndex(data, e.id);
    if k < |data| then src[k := i] else src + [i]
  }

  /** What CollectEntries keeps after the first i items; src[k] is the item
      entry k was taken from. */
  ghost predicate Collected(items: seq<HotItem>, cut: string -> seq<string>, i: nat, data: seq<Entry>, src: seq<nat>) {
    && |src| == |data|
    && DistinctIds(data)
    && (forall k :: 0 <= k < |data| ==> src[k] < i && src[k] < |items| && data[k].item == items[src[k]] && GoodEntry(data[k], cut))
    && (forall j :: 0 <= j < i && j < |items| && Qualifies(items[j], cut) ==> HasId(data, items[j].itemId))
    && (forall k, j :: 0 <= k < |data| && 0 <= j < i && j < |items| && Qualifies(items[j], cut) && items[j].itemId == data[k].id ==>
          j <= src[k])
  }

  lemma UpsertEntries(items: seq<HotItem>, cut: string -> seq<string>, i: nat, data: seq<Entry>, src: seq<nat>)
    requires Collected(items, cut, i, data, src) && i < |items| && Qualifies(items[i], cut)
    ensures var e := Entry(items[i].itemId, items[i], Keywords(items[i].title, cut));
      var data' := Upsert(data, e);
      var src' := UpsertSrc(data, src, e, i);
      && |src'| == |data'|
      && DistinctIds(data')
      && (forall k :: 0 <= k < |data'| ==> src'[k] < i + 1 && src'[k] < |items| && data'[k].item == items[src'[k]] && GoodEntry(data'[k], cut))
  {
    var e := Entry(items[i].itemId, items[i], Keywords(items[i].title, cut));
    assert GoodEntry(e, cut);
    var kk := IdIndex(data, e.id);
    if kk < |data| {
      UpsertReplaced(items, cut, i, data, src, e, kk);
    } else {
      UpsertAppended(items, cut, i, data, src, e);
    }
  }

  /** The shape UpsertEntries keeps, for an entry list and its origins. */
  ghost predicate EntriesFrom(items: seq<HotItem>, cut: string -> seq<string>, i: nat, data: seq<Entry>, src: seq<nat>) {
    && |src| == |data|
    && DistinctIds(data)
    && (forall k :: 0 <= k < |data| ==> src[k] < i && src[k] < |items| && data[k].item == items[src[k]] && GoodEntry(data[k], cut))
  }

  /** An id already present: its entry is replaced in place. */
  lemma UpsertReplaced(items: seq<HotItem>, cut: string -> seq<string>, i: nat, data: seq<Entry>, src: seq<nat>,
                       e: Entry, kk: nat)
    requires EntriesFrom(items, cut, i, data, src) && i < |items|
    requires e.item == items[i] && GoodEntry(e, cut) && kk < |data| && data[kk].id == e.id
    ensures EntriesFrom(items, cut, i + 1, data[kk := e], src[kk := i])
  {
    var data', src' := data[kk := e], src[kk := i];
    forall a, b | 0 <= a < b < |data'| ensures data'[a].id != data'[b].id {
      assert data'[a].id == data[a].id && data'[b].id == data[b].id;
    }
    forall a | 0 <= a < |data'|
      ensures src'[a] < i + 1 && src'[a] < |items| && data'[a].item == items[src'[a]] && GoodEntry(data'[a], cut)
    {
      if a != kk {
        assert data'[a] == data[a] && src'[a] == src[a];
      }
    }
  }

  /** A new id: its entry goes at the end. */
  lemma UpsertAppended(items: seq<HotItem>, cut: string -> seq<string>, i: nat, data: seq<Entry>, src: seq<nat>, e: Entry)
    requires EntriesFrom(items, cut, i, data, src) && i < |items|
    requires e.item == items[i] && GoodEntry(e, cut) && !HasId(data, e.id)
    ensures EntriesFrom(items, cut, i + 1, data + [e], src + [i])
  {
    var data', src' := data + [e], src + [i];
    forall a, b | 0 <= a < b < |data'| ensures data'[a].id != data'[b].id {
      if b == |data| {
        assert data[a].id != e.id;
      } else {
        assert data'[a] == data[a] && data'[b] == data[b];
      }
    }
    forall a | 0 <= a < |data'|
      ensures src'[a] < i + 1 && src'[a] < |items| && data'[a].item == items[src'[a]] && GoodEntry(data'[a], cut)
    {
      if a < |data| {
        assert data'[a] == data[a] && src'[a] == src[a];
      }
    }
  }


  /** An upsert has the new id and keeps every id it had. */
  lemma UpsertCovers(data: seq<Entry>, e: Entry)
    ensures HasId(Upsert(data, e), e.id)
    ensures forall id :: HasId(data, id) ==> HasId(Upsert(data, e), id)
  {
    var kk := IdIndex(data, e.id);
    var data' := if kk < |data| then data[kk := e] else data + [e];
    assert Upsert(data, e) == data';
    var at := if kk < |data| then kk else |data|;
    assert data'[at].id == e.id;
    forall id | HasId(data, id) ensures HasId(data', id) {
      var l :| 0 <= l < |data| && data[l].id == id;
      assert data'[l].id == data[l].id;
    }
  }

  /** Every qualifying item up to i keeps its id present after the upsert
      of item i. */
  lemma CoversStep(items: seq<HotItem>, cut: string -> seq<string>, i: nat, data: seq<Entry>, e: Entry)
    requires i < |items| && e.id == items[i].itemId
    requires forall j :: 0 <= j < i && j < |items| && Qualifies(items[j], cut) ==> HasId(data, items[j].itemId)
    ensures forall j :: 0 <= j < i + 1 && j < |items| && Qualifies(items[j], cut) ==> HasId(Upsert(data, e), items[j].itemId)
  {
    UpsertCovers(data, e);
    forall j | 0 <= j < i + 1 && j < |items| && Qualifies(items[j], cut) ensures HasId(Upsert(data, e), items[j].itemId) {
      if j < i {
        assert HasId(data, items[j].itemId);
      }
    }
  }

  lemma UpsertKeepsLast(items: seq<HotItem>, cut: string -> seq<string>, i: nat, data: seq<Entry>, src: seq<nat>)
    requires Collected(items, cut, i, data, src) && i < |items| && Qualifies(items[i], cut)
    requires DistinctIds(Upsert(data, Entry(items[i].itemId, items[i], Keywords(items[i].title, cut))))
    ensures var e := Entry(items[i].itemId, items[i], Keywords(items[i].title, cut));
      var data' := Upsert(data, e);
      var src' := UpsertSrc(data, src, e, i);
      forall k, j :: 0 <= k < |data'| && 0 <= j < i + 1 && j < |items| && Qualifies(items[j], cut) && items[j].itemId == data'[k].id ==>
        j <= src'[k]
  {
    var e := Entry(items[i].itemId, items[i], Keywords(items[i].title, cut));
    var data' := Upsert(data, e);
    var src' := UpsertSrc(data, src, e, i);
    var kk := IdIndex(data, e.id);
    forall k, j | 0 <= k < |data'| && 0 <= j < i + 1 && j < |items| && Qualifies(items[j], cut) && items[j].itemId == data'[k].id
      ensures j <= src'[k]
    {
      if k != kk {
        assert data'[kk].id == e.id;
        assert j < i;
        assert data'[k] == data[k] && src'[k] == src[k];
      }
    }
  }

  lemma UpsertStep(items: seq<HotItem>, cut: string -> seq<string>, i: nat, data: seq<Entry>, src: seq<nat>)
    requires Collected(items, cut, i, data, src) && i < |items| && Qualifies(items[i], cut)
    ensures var e := Entry(items[i].itemId, items[i], Keywords(items[i].title, cut));
      Collected(items, cut, i + 1, Upsert(data, e), UpsertSrc(data, src, e, i))
  {
    UpsertEntries(items, cut, i, data, src);
    var e := Entry(items[i].itemId, items[i], Keywords(items[i].title, cut));
    CoversStep(items, cut, i, data, e);
    UpsertKeepsLast(items, cut, i, data, src);
  }

  lemma SkipStep(items: seq<HotItem>, cut: string -> seq<string>, i: nat, data: seq<Entry>, src: seq<nat>)
    requires Collected(items, cut, i, data, src) && i < |items| && !Qualifies(items[i], cut)
    ensures Collected(items, cut, i + 1, data, src)
  {
  }

  /** Step 1 of `_detect_cross_platform`: the `item_data` dict. Ids are
      distinct, every qualifying item's id is present, and the entry kept for
      an id is a qualifying item with that id no earlier than any other (the
      last one: a repeated id keeps its first position and its last value). */
  method CollectEntries(items: seq<HotItem>, cut: string -> seq<string>) returns (data: seq<Entry>)
    ensures DistinctIds(data)
    ensures forall k :: 0 <= k < |data| ==> data[k].item in items && GoodEntry(data[k], cut)
    ensures forall j :: 0 <= j < |items| && Qualifies(items[j], cut) ==> HasId(data, items[j].itemId)
    ensures forall k, j :: 0 <= k < |data| && 0 <= j < |items| && Qualifies(items[j], cut) && items[j].itemId == data[k].id ==>
      data[k].item in items[j..]
  {
    data := [];
    ghost var src: seq<nat> := [];
    for i := 0 to |items|
      invariant Collected(items, cut, i, data, src)
    {
      var item := items[i];
      var words := Keywords(item.title, cut);
      if item.itemId != "" && words != [] {
        var e := Entry(item.itemId, item, words);
        UpsertStep(items, cut, i, data, src);
        src := UpsertSrc(data, src, e, i);
        data := Upsert(data, e);
      } else {
        SkipStep(items, cut, i, data, src);
      }
    }
    CollectedAll(items, cut, data, src);
  }

  lemma CollectedAll(items: seq<HotItem>, cut: string -> seq<string>, data: seq<Entry>, src: seq<nat>)
    requires Collected(items, cut, |items|, data, src)
    ensures forall k :: 0 <= k < |data| ==> data[k].item in items
    ensures forall k, j :: 0 <= k < |data| && 0 <= j < |items| && Qualifies(items[j], cut) && items[j].itemId == data[k].id ==>
      data[k].item in items[j..]
  {
    forall k, j | 0 <= k < |data| && 0 <= j < |items| && Qualifies(items[j], cut) && items[j].itemId == data[k].id
      ensures data[k].item in items[j..]
    {
      assert items[j..][src[k] - j] == items[src[k]];
    }
  }

  /** How many entries carry keyword w (the length of its `kw_index` list). */
  function DocFreq(data: seq<Entry>, w: string): nat {
    if data == [] then 0
    else DocFreq(data[..|data| - 1], w) + (if w in data[|data| - 1].keywords then 1 else 0)
  }

  lemma {:induction false} DocFreqBound(data: seq<Entry>, w: string)
    ensures DocFreq(data, w) <= |data|
  {
    if data != [] {
      DocFreqBound(data[..|data| - 1], w);
    }
  }

  /** The keywords entries i and j share that are rare enough to count. */
  function Shared(data: seq<Entry>, i: nat, j: nat): set<string>
    requires i < |data| && j < |data|
  {
    set w | w in data[i].keywords && w in data[j].keywords && DocFreq(data, w) <= MaxKeywordFrequency
  }

  /** Two entries are linked when they share at least one and at least
      minKw counted keywords (a pair sharing none never enters `pair_count`). */
  predicate Linked(data: seq<Entry>, i: nat, j: nat, minKw: nat)
    requires i < |data| && j < |data|
  {
    |Shared(data, i, j)| >= 1 && |Shared(data, i, j)| >= minKw
  }

  /** Steps 2-3: every linked pair (i < j), and nothing else. */
  method LinkedPairs(data: seq<Entry>, minKw: nat) returns (pairs: seq<(nat, nat)>)
    ensures forall q :: 0 <= q < |pairs| ==>
      pairs[q].0 < pairs[q].1 < |data| && Linked(data, pairs[q].0, pairs[q].1, minKw)
    ensures forall i, j :: 0 <= i < j < |data| && Linked(data, i, j, minKw) ==> (i, j) in pairs
  {
    pairs := [];
    var i := 0;
    while i < |data|
      invariant 0 <= i <= |data|
      invariant forall q :: 0 <= q < |pairs| ==>
        pairs[q].0 < pairs[q].1 < |data| && Linked(data, pairs[q].0, pairs[q].1, minKw)
      invariant forall a, b :: 0 <= a < i && a < b < |data| && Linked(data, a, b, minKw) ==> (a, b) in pairs
    {
      var j := i + 1;
      while j < |data|
        invariant i + 1 <= j <= |data|
        invariant forall q :: 0 <= q < |pairs| ==>
          pairs[q].0 < pairs[q].1 < |data| && Linked(data, pairs[q].0, pairs[q].1, minKw)
        invariant forall a, b :: 0 <= a < i && a < b < |data| && Linked(data, a, b, minKw) ==> (a, b) in pairs
        invariant forall b :: i < b < j && Linked(data, i, b, minKw) ==> (i, b) in pairs
      {
        var shared := set w | w in data[i].keywords && w in data[j].keywords && DocFreq(data, w) <= MaxKeywordFrequency;
        if |shared| >= 1 && |shared| >= minKw {
          pairs := pairs + [(i, j)];
        }
        j := j + 1;
      }
      i := i + 1;
    }
  }

  /** A cluster: its union-find root and its entries, in `item_data` order. */
  datatype Group = Group(root: string, members: seq<nat>)

  /** The position of the group with root r, or |groups| if there is none. */
  function GroupIndex(groups: seq<Group>, r: string): (g: nat)
    ensures g <= |groups|
    ensures g < |groups| ==> groups[g].root == r
    ensures g == |groups| ==> forall h :: 0 <= h < |groups| ==> groups[h].root != r
  {
    if groups == [] then 0
    else if groups[0].root == r then 0
    else 1 + GroupIndex(groups[1..], r)
  }

  predicate Increasing(s: seq<nat>) {
    forall a, b :: 0 <= a < b < |s| ==> s[a] < s[b]
  }

  /** Entry k is in group g. */
  predicate InGroup(groups: seq<Group>, g: int, k: nat) {
    0 <= g < |groups| && k in groups[g].members
  }

  /** Entry k is in some group. */
  ghost predicate Grouped(groups: seq<Group>, k: nat) {
    exists g :: InGroup(groups, g, k)
  }

  function Ids(data: seq<Entry>): (ids: seq<string>)
    ensures |ids| == |data| && forall k :: 0 <= k < |data| ==> ids[k] == data[k].id
  {
    if data == [] then [] else Ids(data[..|data| - 1]) + [data[|data| - 1].id]
  }

  // ---------------------------------------------------------------------------
  // Connectivity: which entries end in one group
  // ---------------------------------------------------------------------------

  /** Consecutive entries of p are joined by a pair of E, in either order. */
  ghost predicate Walk(E: set<(nat, nat)>, p: seq<nat>) {
    |p| >= 1 && forall t :: 0 <= t < |p| - 1 ==> (p[t], p[t + 1]) in E || (p[t + 1], p[t]) in E
  }

  /** b can be reached from a over the pairs of E. */
  ghost predicate Reach(E: set<(nat, nat)>, a: nat, b: nat) {
    exists p :: Walk(E, p) && p[0] == a && p[|p| - 1] == b
  }

  /** The linked pairs of the entries, smaller index first. */
  ghost function LinkSet(data: seq<Entry>, minKw: nat): set<(nat, nat)> {
    set i: nat, j: nat | i < j < |data| && Linked(data, i, j, minKw) :: (i, j)
  }

  /** Entries i and j are joined by a chain of linked entries: the groups
      the union-find forms are exactly these classes. */
  ghost predicate Connected(data: seq<Entry>, minKw: nat, i: nat, j: nat) {
    Reach(LinkSet(data, minKw), i, j)
  }

  /** The pairs of a list, as a set. */
  ghost function PairSet(pairs: seq<(nat, nat)>): set<(nat, nat)> {
    set q | 0 <= q < |pairs| :: pairs[q]
  }

  lemma ReachRefl(E: set<(nat, nat)>, a: nat)
    ensures Reach(E, a, a)
  {
    assert Walk(E, [a]);
  }

  lemma ReachEdge(E: set<(nat, nat)>, a: nat, b: nat)
    requires (a, b) in E
    ensures Reach(E, a, b) && Reach(E, b, a)
  {
    assert Walk(E, [a, b]);
    assert Walk(E, [b, a]);
  }

  lemma ReachSym(E: set<(nat, nat)>, a: nat, b: nat)
    requires Reach(E, a, b)
    ensures Reach(E, b, a)
  {
    var p :| Walk(E, p) && p[0] == a && p[|p| - 1] == b;
    var n := |p|;
    var r := seq(n, t requires 0 <= t < n => p[n - 1 - t]);
    forall t | 0 <= t < n - 1 ensures (r[t], r[t + 1]) in E || (r[t + 1], r[t]) in E {
      assert r[t] == p[n - 1 - t] && r[t + 1] == p[n - 2 - t];
      assert (p[n - 2 - t], p[n - 1 - t]) in E || (p[n - 1 - t], p[n - 2 - t]) in E;
    }
    assert Walk(E, r);
  }

  lemma ReachTrans(E: set<(nat, nat)>, a: nat, b: nat, c: nat)
    requires Reach(E, a, b) && Reach(E, b, c)
    ensures Reach(E, a, c)
  {
    var p1 :| Walk(E, p1) && p1[0] == a && p1[|p1| - 1] == b;
    var p2 :| Walk(E, p2) && p2[0] == b && p2[|p2| - 1] == c;
    var n := |p1|;
    var q := p1 + p2[1..];
    forall t | 0 <= t < |q| - 1 ensures (q[t], q[t + 1]) in E || (q[t + 1], q[t]) in E {
      if t < n - 1 {
        assert q[t] == p1[t] && q[t + 1] == p1[t + 1];
      } else {
        assert q[t] == p2[t - n + 1] && q[t + 1] == p2[t - n + 2];
      }
    }
    assert Walk(E, q);
    assert q[|q| - 1] == c;
  }

  lemma ReachMono(E1: set<(nat, nat)>, E2: set<(nat, nat)>, a: nat, b: nat)
    requires forall e :: e in E1 ==> e in E2
    requires Reach(E1, a, b)
    ensures Reach(E2, a, b)
  {
    var p :| Walk(E1, p) && p[0] == a && p[|p| - 1] == b;
    assert Walk(E2, p);
  }

  /** Along a walk whose pairs each share a root, every entry has the
      root of the first. */
  lemma {:induction false} WalkRoots(E: set<(nat, nat)>, roots: seq<string>, p: seq<nat>, t: nat)
    requires forall e :: e in E ==> e.0 < |roots| && e.1 < |roots| && roots[e.0] == roots[e.1]
    requires Walk(E, p) && p[0] < |roots| && t < |p|
    ensures p[t] < |roots| && roots[p[t]] == roots[p[0]]
  {
    if t > 0 {
      WalkRoots(E, roots, p, t - 1);
      assert (p[t - 1], p[t]) in E || (p[t], p[t - 1]) in E;
    }
  }

  lemma ReachRoots(E: set<(nat, nat)>, roots: seq<string>, a: nat, b: nat)
    requires forall e :: e in E ==> e.0 < |roots| && e.1 < |roots| && roots[e.0] == roots[e.1]
    requires a < |roots| && Reach(E, a, b)
    ensures b < |roots| && roots[a] == roots[b]
  {
    var p :| Walk(E, p) && p[0] == a && p[|p| - 1] == b;
    WalkRoots(E, roots, p, |p| - 1);
  }

  /** One `union(x, y)` step keeps "same root only when reachable": oa, ob,
      ou, ov are the roots of a, b, x = u and y = v before the union; after
      it whatever had x's root has y's. */
  lemma RelinkReach(E: set<(nat, nat)>, a: nat, b: nat, u: nat, v: nat, oa: string, ob: string, ou: string, ov: string)
    requires (u, v) in E
    requires oa == ou ==> Reach(E, a, u)
    requires ob == ou ==> Reach(E, b, u)
    requires oa == ov ==> Reach(E, a, v)
    requires ob == ov ==> Reach(E, b, v)
    requires oa == ob ==> Reach(E, a, b)
    requires (if oa == ou then ov else oa) == (if ob == ou then ov else ob)
    ensures Reach(E, a, b)
  {
    ReachEdge(E, u, v);
    if oa == ou && ob != ou {
      ReachSym(E, b, v);
      ReachTrans(E, a, u, v);
      ReachTrans(E, a, v, b);
    } else if oa != ou && ob == ou {
      ReachSym(E, b, u);
      ReachTrans(E, a, v, u);
      ReachTrans(E, a, u, b);
    }
  }

  /** Entries with the same root are reachable over E. */
  ghost predicate Joined(uf: UnionFind, ids: seq<string>, E: set<(nat, nat)>)
    reads uf
    requires uf.Valid()
  {
    forall a: nat, b: nat :: a < |ids| && b < |ids| && uf.Root(ids[a]) == uf.Root(ids[b]) ==> Reach(E, a, b)
  }

  /** `union(a, b)` for every pair: afterwards each pair shares a root, and
      entries share a root only when the pairs join them. */
  method UnionPairs(uf: UnionFind, ids: seq<string>, pairs: seq<(nat, nat)>)
    requires uf.Valid()
    requires forall q :: 0 <= q < |pairs| ==> pairs[q].0 < |ids| && pairs[q].1 < |ids|
    requires Joined(uf, ids, PairSet(pairs))
    modifies uf
    ensures uf.Valid()
    ensures forall q :: 0 <= q < |pairs| ==> uf.Root(ids[pairs[q].0]) == uf.Root(ids[pairs[q].1])
    ensures Joined(uf, ids, PairSet(pairs))
  {
    ghost var E := PairSet(pairs);
    for q := 0 to |pairs|
      invariant uf.Valid()
      invariant forall r :: 0 <= r < q ==> uf.Root(ids[pairs[r].0]) == uf.Root(ids[pairs[r].1])
      invariant Joined(uf, ids, E)
    {
      assert pairs[q] in E;
      JoinPair(uf, ids, E, pairs[q].0, pairs[q].1);
    }
  }

  /** `union(ids[u], ids[v])` for a pair (u, v) of E keeps Joined. */
  method JoinPair(uf: UnionFind, ids: seq<string>, ghost E: set<(nat, nat)>, u: nat, v: nat)
    requires uf.Valid() && u < |ids| && v < |ids| && (u, v) in E && Joined(uf, ids, E)
    modifies uf
    ensures uf.Valid() && Joined(uf, ids, E)
    ensures forall z :: uf.Root(z) == if old(uf.Root(z)) == old(uf.Root(ids[u])) then old(uf.Root(ids[v])) else old(uf.Root(z))
  {
    uf.Union(ids[u], ids[v]);
    forall a: nat, b: nat | a < |ids| && b < |ids| && uf.Root(ids[a]) == uf.Root(ids[b])
      ensures Reach(E, a, b)
    {
      RelinkReach(E, a, b, u, v, old(uf.Root(ids[a])), old(uf.Root(ids[b])),
        old(uf.Root(ids[u])), old(uf.Root(ids[v])));
    }
  }

  /** `find` for every id, in order; roots do not move. */
  method FindAll(uf: UnionFind, ids: seq<string>) returns (roots: seq<string>)
    requires uf.Valid()
    modifies uf
    ensures uf.Valid()
    ensures forall y :: uf.Root(y) == old(uf.Root(y))
    ensures |roots| == |ids| && forall k :: 0 <= k < |ids| ==> roots[k] == uf.Root(ids[k])
  {
    roots := [];
    for k := 0 to |ids|
      invariant uf.Valid()
      invariant forall y :: uf.Root(y) == old(uf.Root(y))
      invariant |roots| == k && forall k' :: 0 <= k' < k ==> roots[k'] == uf.Root(ids[k'])
    {
      var r := uf.Find(ids[k]);
      roots := roots + [r];
    }
  }

  /** Step 4: union every linked pair, then `find` every entry. Two entries
      (the keys of `item_data`, so distinct) end with the same root exactly
      when a chain of linked entries joins them. */
  method LinkedRoots(data: seq<Entry>, minKw: nat) returns (roots: seq<string>)
    requires DistinctIds(data)
    ensures |roots| == |data|
    ensures forall i, j :: 0 <= i < |data| && 0 <= j < |data| ==> (roots[i] == roots[j] <==> Connected(data, minKw, i, j))
  {
    var pairs := LinkedPairs(data, minKw);
    var ids := Ids(data);
    ghost var E := PairSet(pairs);
    var uf := new UnionFind();
    forall a: nat, b: nat | a < |ids| && b < |ids| && uf.Root(ids[a]) == uf.Root(ids[b]) ensures Reach(E, a, b) {
      assert a == b;
      ReachRefl(E, a);
    }
    UnionPairs(uf, ids, pairs);
    roots := FindAll(uf, ids);
    assert forall e :: e in E ==> e.0 < |roots| && e.1 < |roots| && roots[e.0] == roots[e.1];
    PairsAreLinks(data, minKw, pairs);
    forall i, j | 0 <= i < |data| && 0 <= j < |data| ensures roots[i] == roots[j] <==> Connected(data, minKw, i, j) {
      if roots[i] == roots[j] {
        ReachMono(E, LinkSet(data, minKw), i, j);
      }
      if Connected(data, minKw, i, j) {
        ReachMono(LinkSet(data, minKw), E, i, j);
        ReachRoots(E, roots, i, j);
      }
    }
  }

  /** The pairs LinkedPairs lists are the linked pairs. */
  lemma PairsAreLinks(data: seq<Entry>, minKw: nat, pairs: seq<(nat, nat)>)
    requires forall q :: 0 <= q < |pairs| ==>
      pairs[q].0 < pairs[q].1 < |data| && Linked(data, pairs[q].0, pairs[q].1, minKw)
    requires forall i, j :: 0 <= i < j < |data| && Linked(data, i, j, minKw) ==> (i, j) in pairs
    ensures forall e :: e in PairSet(pairs) ==> e in LinkSet(data, minKw)
    ensures forall e :: e in LinkSet(data, minKw) ==> e in PairSet(pairs)
  {
    forall e | e in LinkSet(data, minKw) ensures e in PairSet(pairs) {
      var q :| 0 <= q < |pairs| && pairs[q] == e;
    }
  }

  function GroupRoots(groups: seq<Group>): (r: seq<string>)
    ensures |r| == |groups| && forall g :: 0 <= g < |groups| ==> r[g] == groups[g].root
  {
    if groups == [] then [] else GroupRoots(groups[..|groups| - 1]) + [groups[|groups| - 1].root]
  }

  /** `groups[r].append(k)`: a new group goes at the end. */
  function AddMember(groups: seq<Group>, r: string, k: nat): seq<Group> {
    var g := GroupIndex(groups, r);
    if g < |groups| then groups[g := Group(r, groups[g].members + [k])] else groups + [Group(r, [k])]
  }

  /** Every group is a non-empty increasing list of entries before k. */
  ghost predicate Shaped(groups: seq<Group>, k: nat) {
    && (forall g :: 0 <= g < |groups| ==> groups[g].members != [] && Increasing(groups[g].members))
    && (forall g, t :: 0 <= g < |groups| && 0 <= t < |groups[g].members| ==> groups[g].members[t] < k)
  }

  /** Every entry before k has its root among the groups. */
  ghost predicate Covered(roots: seq<string>, k: nat, groups: seq<Group>) {
    forall k' :: 0 <= k' < k && k' < |roots| ==> roots[k'] in GroupRoots(groups)
  }

  /** A group holds exactly the entries before k with its root. */
  ghost predicate Exact(roots: seq<string>, k: nat, groups: seq<Group>) {
    forall g, k' :: 0 <= g < |groups| && 0 <= k' < |roots| ==>
      (k' in groups[g].members <==> k' < k && roots[k'] == groups[g].root)
  }

  /** What GroupByRoot keeps after the first k entries. */
  ghost predicate Grouping(roots: seq<string>, k: nat, groups: seq<Group>) {
    Shaped(groups, k) && Distinct(GroupRoots(groups)) && Covered(roots, k, groups) && Exact(roots, k, groups)
  }

  lemma NotMemberAbove(s: seq<nat>, k: nat)
    requires forall t :: 0 <= t < |s| ==> s[t] < k
    ensures k !in s
  {
  }

  /** Appending entry k keeps the groups shaped, now below k + 1. */
  lemma ShapeStep(groups: seq<Group>, r: string, k: nat)
    requires Shaped(groups, k)
    ensures Shaped(AddMember(groups, r, k), k + 1)
  {
    var gi := GroupIndex(groups, r);
    var gs := AddMember(groups, r, k);
    if gi < |groups| {
      var m := groups[gi].members;
      assert gs == groups[gi := Group(r, m + [k])];
      assert Increasing(m + [k]) by {
        forall a, b | 0 <= a < b < |m| + 1 ensures (m + [k])[a] < (m + [k])[b] {
          if b == |m| {
            assert m[a] < k;
          } else {
            assert (m + [k])[a] == m[a] && (m + [k])[b] == m[b];
          }
        }
      }
      forall g | 0 <= g < |gs| ensures gs[g].members != [] && Increasing(gs[g].members) {
        if g != gi {
          assert gs[g] == groups[g];
        }
      }
      forall g, t | 0 <= g < |gs| && 0 <= t < |gs[g].members| ensures gs[g].members[t] < k + 1 {
        if g != gi {
          assert gs[g] == groups[g];
        } else if t < |m| {
          assert gs[g].members[t] == m[t];
        }
      }
    } else {
      assert gs == groups + [Group(r, [k])];
      forall g | 0 <= g < |gs| ensures gs[g].members != [] && Increasing(gs[g].members) {
        if g < |groups| {
          assert gs[g] == groups[g];
        }
      }
      forall g, t | 0 <= g < |gs| && 0 <= t < |gs[g].members| ensures gs[g].members[t] < k + 1 {
        if g < |groups| {
          assert gs[g] == groups[g];
        }
      }
    }
  }

  /** Adding a member keeps the roots; a new group adds its root at the end. */
  lemma RootsStep(groups: seq<Group>, r: string, k: nat)
    ensures GroupRoots(AddMember(groups, r, k)) ==
      if GroupIndex(groups, r) < |groups| then GroupRoots(groups) else GroupRoots(groups) + [r]
  {
    var gs := AddMember(groups, r, k);
    if GroupIndex(groups, r) < |groups| {
      assert GroupRoots(gs) == GroupRoots(groups);
    } else {
      assert GroupRoots(gs) == GroupRoots(groups) + [r];
    }
  }

  /** Entry k joins the existing group of its root: one group and one
      entry at a time. */
  lemma ExactJoinAt(roots: seq<string>, k: nat, groups: seq<Group>, g: nat, k': nat)
    requires k < |roots| && GroupIndex(groups, roots[k]) < |groups|
    requires Shaped(groups, k) && Distinct(GroupRoots(groups)) && Exact(roots, k, groups)
    requires g < |groups| && k' < |roots|
    ensures var gs := AddMember(groups, roots[k], k);
      k' in gs[g].members <==> k' < k + 1 && roots[k'] == gs[g].root
  {
    var r := roots[k];
    var gi := GroupIndex(groups, r);
    var m := groups[gi].members;
    var gs := groups[gi := Group(r, m + [k])];
    assert AddMember(groups, r, k) == gs;
    if g != gi {
      assert gs[g] == groups[g];
      if k' == k {
        NotMemberAbove(groups[g].members, k);
        assert GroupRoots(groups)[g] != GroupRoots(groups)[gi];
      }
    } else {
      NotMemberAbove(m, k);
      assert (k' in m + [k]) <==> (k' in m || k' == k);
    }
  }

  /** Entry k joins the existing group of its root: the groups stay exact. */
  lemma ExactJoin(roots: seq<string>, k: nat, groups: seq<Group>)
    requires k < |roots| && GroupIndex(groups, roots[k]) < |groups|
    requires Shaped(groups, k) && Distinct(GroupRoots(groups)) && Exact(roots, k, groups)
    ensures Exact(roots, k + 1, AddMember(groups, roots[k], k))
  {
    var gs := AddMember(groups, roots[k], k);
    assert |gs| == |groups|;
    forall g, k' | 0 <= g < |gs| && 0 <= k' < |roots| ensures (k' in gs[g].members <==> k' < k + 1 && roots[k'] == gs[g].root) {
      ExactJoinAt(roots, k, groups, g, k');
    }
  }

  /** Entry k opens a new group for its root: one group and one entry at
      a time. */
  lemma ExactOpenAt(roots: seq<string>, k: nat, groups: seq<Group>, g: nat, k': nat)
    requires k < |roots| && GroupIndex(groups, roots[k]) == |groups|
    requires Shaped(groups, k) && Covered(roots, k, groups) && Exact(roots, k, groups)
    requires g <= |groups| && k' < |roots|
    ensures var gs := AddMember(groups, roots[k], k);
      k' in gs[g].members <==> k' < k + 1 && roots[k'] == gs[g].root
  {
    var r := roots[k];
    var gs := groups + [Group(r, [k])];
    assert AddMember(groups, r, k) == gs;
    if g < |groups| {
      assert gs[g] == groups[g];
      if k' == k {
        NotMemberAbove(groups[g].members, k);
      }
    } else {
      assert r !in GroupRoots(groups);
      if k' < k {
        assert roots[k'] in GroupRoots(groups);
      }
    }
  }

  /** Entry k opens a new group for its root: the groups stay exact. */
  lemma ExactOpen(roots: seq<string>, k: nat, groups: seq<Group>)
    requires k < |roots| && GroupIndex(groups, roots[k]) == |groups|
    requires Shaped(groups, k) && Covered(roots, k, groups) && Exact(roots, k, groups)
    ensures Exact(roots, k + 1, AddMember(groups, roots[k], k))
  {
    var gs := AddMember(groups, roots[k], k);
    assert |gs| == |groups| + 1;
    forall g, k' | 0 <= g < |gs| && 0 <= k' < |roots| ensures (k' in gs[g].members <==> k' < k + 1 && roots[k'] == gs[g].root) {
      ExactOpenAt(roots, k, groups, g, k');
    }
  }

  /** One step of GroupByRoot keeps what it promises, one entry further. */
  lemma GroupStep(roots: seq<string>, k: nat, groups: seq<Group>)
    requires Grouping(roots, k, groups) && k < |roots|
    ensures Grouping(roots, k + 1, AddMember(groups, roots[k], k))
  {
    var gs := AddMember(groups, roots[k], k);
    ShapeStep(groups, roots[k], k);
    RootsStep(groups, roots[k], k);
    if GroupIndex(groups, roots[k]) < |groups| {
      ExactJoin(roots, k, groups);
    } else {
      ExactOpen(roots, k, groups);
    }
    CoveredStep(roots, k, groups);
  }

  /** Entry k's root is among the groups once it is added, and so are the
      earlier entries' roots. */
  lemma CoveredStep(roots: seq<string>, k: nat, groups: seq<Group>)
    requires Covered(roots, k, groups) && k < |roots|
    ensures Covered(roots, k + 1, AddMember(groups, roots[k], k))
  {
    var gs := AddMember(groups, roots[k], k);
    RootsStep(groups, roots[k], k);
    assert roots[k] in GroupRoots(gs) by {
      var gi := GroupIndex(groups, roots[k]);
      if gi < |groups| {
        assert GroupRoots(groups)[gi] == roots[k];
      } else {
        assert GroupRoots(gs)[|groups|] == roots[k];
      }
    }
    forall k' | 0 <= k' < k + 1 && k' < |roots| ensures roots[k'] in GroupRoots(gs) {
      if k' < k {
        assert roots[k'] in GroupRoots(groups);
      }
    }
  }

  /** Step 5: the `groups` dict, keyed by root in order of first appearance.
      Entry k is a member of group g exactly when roots[k] is g's root. */
  method GroupByRoot(roots: seq<string>) returns (groups: seq<Group>)
    ensures forall g :: 0 <= g < |groups| ==> groups[g].members != [] && Increasing(groups[g].members)
    ensures forall g, t :: 0 <= g < |groups| && 0 <= t < |groups[g].members| ==> groups[g].members[t] < |roots|
    ensures Distinct(GroupRoots(groups))
    ensures forall k :: 0 <= k < |roots| ==> roots[k] in GroupRoots(groups)
    ensures forall g, k :: 0 <= g < |groups| && 0 <= k < |roots| ==> (k in groups[g].members <==> roots[k] == groups[g].root)
  {
    groups := [];
    for k := 0 to |roots|
      invariant Grouping(roots, k, groups)
    {
      GroupStep(roots, k, groups);
      groups := AddMember(groups, roots[k], k);
    }
  }

  /** Steps 4-5 together: the groups partition the entries, each in
      increasing order, and linked entries always share a group. */
  method Cluster(data: seq<Entry>, minKw: nat) returns (groups: seq<Group>)
    requires DistinctIds(data)
    ensures forall g :: 0 <= g < |groups| ==> groups[g].members != [] && Increasing(groups[g].members)
    ensures forall g, t :: 0 <= g < |groups| && 0 <= t < |groups[g].members| ==> groups[g].members[t] < |data|
    ensures forall k :: 0 <= k < |data| ==> Grouped(groups, k)
    ensures forall g1, g2, k :: InGroup(groups, g1, k) && InGroup(groups, g2, k) ==> g1 == g2
    ensures forall i, j, g :: 0 <= i < j < |data| && Linked(data, i, j, minKw) && InGroup(groups, g, i) ==> InGroup(groups, g, j)
    ensures forall i, j, g :: InGroup(groups, g, i) && 0 <= j < |data| ==> (InGroup(groups, g, j) <==> Connected(data, minKw, i, j))
  {
    var roots := LinkedRoots(data, minKw);
    groups := GroupByRoot(roots);
    GroupsCover(roots, groups);
    GroupsByConnection(data, minKw, roots, groups);
    forall i, j, g | 0 <= i < j < |data| && Linked(data, i, j, minKw) && InGroup(groups, g, i)
      ensures InGroup(groups, g, j)
    {
      assert (i, j) in LinkSet(data, minKw);
      ReachEdge(LinkSet(data, minKw), i, j);
    }
  }

  /** Groups keyed by root cover every entry, each exactly once. */
  lemma GroupsCover(roots: seq<string>, groups: seq<Group>)
    requires forall k :: 0 <= k < |roots| ==> roots[k] in GroupRoots(groups)
    requires forall g, k :: 0 <= g < |groups| && 0 <= k < |roots| ==> (k in groups[g].members <==> roots[k] == groups[g].root)
    requires Distinct(GroupRoots(groups))
    requires forall g, t :: 0 <= g < |groups| && 0 <= t < |groups[g].members| ==> groups[g].members[t] < |roots|
    ensures forall k :: 0 <= k < |roots| ==> Grouped(groups, k)
    ensures forall g1, g2, k :: InGroup(groups, g1, k) && InGroup(groups, g2, k) ==> g1 == g2
  {
    var gr := GroupRoots(groups);
    forall k | 0 <= k < |roots| ensures Grouped(groups, k) {
      var g :| 0 <= g < |gr| && gr[g] == roots[k];
      assert InGroup(groups, g, k);
    }
    forall g1, g2, k: nat | InGroup(groups, g1, k) && InGroup(groups, g2, k) ensures g1 == g2 {
      var t :| 0 <= t < |groups[g1].members| && groups[g1].members[t] == k;
      assert gr[g1] == roots[k] == gr[g2];
    }
  }

  /** With roots that agree exactly on connected entries, the group of an
      entry holds exactly the entries connected to it. */
  lemma GroupsByConnection(data: seq<Entry>, minKw: nat, roots: seq<string>, groups: seq<Group>)
    requires |roots| == |data|
    requires forall i, j :: 0 <= i < |data| && 0 <= j < |data| ==> (roots[i] == roots[j] <==> Connected(data, minKw, i, j))
    requires forall g, k :: 0 <= g < |groups| && 0 <= k < |roots| ==> (k in groups[g].members <==> roots[k] == groups[g].root)
    requires forall g, t :: 0 <= g < |groups| && 0 <= t < |groups[g].members| ==> groups[g].members[t] < |roots|
    ensures forall i, j, g :: InGroup(groups, g, i) && 0 <= j < |data| ==> (InGroup(groups, g, j) <==> Connected(data, minKw, i, j))
  {
    forall i: nat, j: nat, g | InGroup(groups, g, i) && j < |data|
      ensures InGroup(groups, g, j) <==> Connected(data, minKw, i, j)
    {
      var t :| 0 <= t < |groups[g].members| && groups[g].members[t] == i;
      assert i < |data| && roots[i] == groups[g].root;
    }
  }

  /** `item.get("platform", "unknown")`, normalised. */
  function PlatformOf(e: Entry): string {
    NormalizePlatform(if e.item.platform.Some? then e.item.platform.value else "unknown")
  }

  function InfoOf(e: Entry): PlatformItem {
    PlatformItem(e.item.title, e.item.hotValue, e.item.position, e.item.hotHistory, e.item.positionHistory)
  }

  predicate ValidMembers(data: seq<Entry>, members: seq<nat>) {
    forall t :: 0 <= t < |members| ==> members[t] < |data|
  }

  /** The normalised platform of each member, in member order. */
  function MemberPlatforms(data: seq<Entry>, members: seq<nat>): seq<string>
    requires ValidMembers(data, members)
  {
    if members == [] then []
    else MemberPlatforms(data, members[..|members| - 1]) + [PlatformOf(data[members[|members| - 1]])]
  }

  /** The info of the first member on platform p. */
  function FirstInfo(data: seq<Entry>, members: seq<nat>, p: string): Option<PlatformItem>
    requires ValidMembers(data, members)
  {
    if members == [] then None
    else
      var f := FirstInfo(data, members[..|members| - 1], p);
      if f.Some? then f
      else if PlatformOf(data[members[|members| - 1]]) == p then Some(InfoOf(data[members[|members| - 1]]))
      else None
  }

  lemma {:induction false} FirstInfoNone(data: seq<Entry>, members: seq<nat>, p: string)
    requires ValidMembers(data, members)
    requires forall u :: 0 <= u < |members| ==> PlatformOf(data[members[u]]) != p
    ensures FirstInfo(data, members, p).None?
  {
    if members != [] {
      FirstInfoNone(data, members[..|members| - 1], p);
    }
  }

  /** FirstInfo really picks the earliest member on the platform. */
  lemma {:induction false} FirstInfoIsFirst(data: seq<Entry>, members: seq<nat>, p: string, t: nat)
    requires ValidMembers(data, members) && t < |members|
    requires PlatformOf(data[members[t]]) == p
    requires forall u :: 0 <= u < t ==> PlatformOf(data[members[u]]) != p
    ensures FirstInfo(data, members, p) == Some(InfoOf(data[members[t]]))
  {
    var init := members[..|members| - 1];
    if t == |members| - 1 {
      FirstInfoNone(data, init, p);
    } else {
      FirstInfoIsFirst(data, init, p, t);
    }
  }

  function KeywordSet(e: Entry): set<string> {
    set w | w in e.keywords
  }

  /** The keywords every member shares. */
  function CommonKeywords(data: seq<Entry>, members: seq<nat>): (r: set<string>)
    requires ValidMembers(data, members)
    ensures forall w :: w in r <==> members != [] && forall t :: 0 <= t < |members| ==> w in data[members[t]].keywords
    decreases |members|
  {
    if members == [] then {}
    else if |members| == 1 then KeywordSet(data[members[0]])
    else
      var init := members[..|members| - 1];
      var prev := CommonKeywords(data, init);
      assert forall t :: 0 <= t < |init| ==> init[t] == members[t];
      prev * KeywordSet(data[members[|members| - 1]])
  }

  /** `common_keywords` as the loop computes it: the running intersection
      restarts from the next member's keywords whenever it becomes empty. */
  function CommonKeywordsAsWritten(data: seq<Entry>, members: seq<nat>): set<string>
    requires ValidMembers(data, members)
  {
    if members == [] then {}
    else
      var prev := CommonKeywordsAsWritten(data, members[..|members| - 1]);
      var mine := KeywordSet(data[members[|members| - 1]]);
      if prev == {} then mine else prev * mine
  }

  function E(id: string, platform: string, kws: seq<string>): Entry {
    Entry(id, HotItem(id, id, Some(platform), None, None, [], [], None, None), kws)
  }

  /** Four items on four platforms whose keywords form a chain, each link
      sharing two keywords (all ten keywords differ in length). */
  function Chain(): seq<Entry> {
    [E("1", "weibo", ["ai", "gpu", "chip", "model"]), E("2", "douyin", ["chip", "model", "robots", "battery"]),
     E("3", "zhihu", ["robots", "battery", "charging", "autopilot"]),
     E("4", "baidu", ["charging", "autopilot", "regulation", "legislation"])]
  }

  /** Two distinct keywords both entries carry, each rare enough, link them
      at threshold 2. */
  lemma LinkedByTwo(data: seq<Entry>, i: nat, j: nat, a: string, b: string)
    requires i < |data| && j < |data| && a != b
    requires a in data[i].keywords && a in data[j].keywords && DocFreq(data, a) <= MaxKeywordFrequency
    requires b in data[i].keywords && b in data[j].keywords && DocFreq(data, b) <= MaxKeywordFrequency
    ensures Linked(data, i, j, 2)
  {
    var sh := Shared(data, i, j);
    assert a in sh && b in sh;
    assert |{a, b}| == 2;
    assert {a, b} <= sh;
    SubsetCard({a, b}, sh);
  }

  lemma SubsetCard(x: set<string>, y: set<string>)
    requires x <= y
    ensures |x| <= |y|
  {
    assert y == x + (y - x);
  }

  /** The chain is one cluster: each consecutive pair is linked. */
  lemma ChainLinked()
    ensures Linked(Chain(), 0, 1, 2) && Linked(Chain(), 1, 2, 2) && Linked(Chain(), 2, 3, 2)
  {
    var data := Chain();
    forall w ensures DocFreq(data, w) <= MaxKeywordFrequency {
      DocFreqBound(data, w);
    }
    LinkedByTwo(data, 0, 1, "chip", "model");
    LinkedByTwo(data, 1, 2, "robots", "battery");
    LinkedByTwo(data, 2, 3, "charging", "autopilot");
  }

  lemma KeywordSetOfFour(e: Entry, a: string, b: string, c: string, d: string)
    requires e.keywords == [a, b, c, d]
    ensures KeywordSet(e) == {a, b, c, d}
  {
  }

  /** The keyword sets of the chain's items. */
  lemma ChainSets()
    ensures KeywordSet(Chain()[0]) == {"ai", "gpu", "chip", "model"}
    ensures KeywordSet(Chain()[1]) == {"chip", "model", "robots", "battery"}
    ensures KeywordSet(Chain()[2]) == {"robots", "battery", "charging", "autopilot"}
    ensures KeywordSet(Chain()[3]) == {"charging", "autopilot", "regulation", "legislation"}
  {
    var data := Chain();
    KeywordSetOfFour(data[0], "ai", "gpu", "chip", "model");
    KeywordSetOfFour(data[1], "chip", "model", "robots", "battery");
    KeywordSetOfFour(data[2], "robots", "battery", "charging", "autopilot");
    KeywordSetOfFour(data[3], "charging", "autopilot", "regulation", "legislation");
  }

  /** The loop as written on the chain: {chip, model} after two items,
      empty after three, then the fourth item's keywords. */
  lemma ChainAsWritten()
    ensures CommonKeywordsAsWritten(Chain(), [0, 1, 2, 3]) == {"charging", "autopilot", "regulation", "legislation"}
  {
    var data := Chain();
    ChainSets();
    var m := [0, 1, 2, 3];
    assert m[..3] == [0, 1, 2] && m[..3][..2] == [0, 1] && m[..3][..2][..1] == [0];
    assert CommonKeywordsAsWritten(data, [0]) == {"ai", "gpu", "chip", "model"};
    assert CommonKeywordsAsWritten(data, [0, 1]) == {"chip", "model"};
    assert CommonKeywordsAsWritten(data, [0, 1, 2]) == {};
  }

  /** The first and third items of the chain share no keyword, so the four
      have none in common. */
  lemma ChainNoneCommon()
    ensures CommonKeywords(Chain(), [0, 1, 2, 3]) == {}
  {
    var data := Chain();
    var m := [0, 1, 2, 3];
    forall w | w in data[0].keywords ensures w !in data[2].keywords {
      assert |w| <= 5;
    }
    forall w ensures w !in CommonKeywords(data, m) {
      assert m[0] == 0 && m[2] == 2;
    }
  }

  /** No keyword is common to all four, but the running intersection empties
      at the third item and restarts from the fourth item's keywords. */
  lemma CommonKeywordsRestart()
    ensures CommonKeywords(Chain(), [0, 1, 2, 3]) == {}
    ensures CommonKeywordsAsWritten(Chain(), [0, 1, 2, 3]) == {"charging", "autopilot", "regulation", "legislation"}
  {
    ChainNoneCommon();
    ChainAsWritten();
  }

  /** The `platforms` dict of one group: each normalised platform in order
      of first appearance, with the info of its first member. */
  method PlatformTable(data: seq<Entry>, members: seq<nat>) returns (keys: seq<string>, table: seq<(string, PlatformItem)>)
    requires ValidMembers(data, members)
    ensures keys == Dedup(MemberPlatforms(data, members))
    ensures |table| == |keys|
    ensures forall q :: 0 <= q < |keys| ==> table[q].0 == keys[q] && Some(table[q].1) == FirstInfo(data, members, keys[q])
  {
    keys := [];
    table := [];
    for t := 0 to |members|
      invariant keys == Dedup(MemberPlatforms(data, members[..t]))
      invariant |table| == |keys|
      invariant forall q :: 0 <= q < |keys| ==> table[q].0 == keys[q] && Some(table[q].1) == FirstInfo(data, members[..t], keys[q])
    {
      var e := data[members[t]];
      var plat := PlatformOf(e);
      assert members[..t + 1][..t] == members[..t];
      forall q | 0 <= q < |keys| ensures FirstInfo(data, members[..t + 1], keys[q]) == FirstInfo(data, members[..t], keys[q]) {
        FirstInfoSomeIffIn(data, members[..t], keys[q]);
      }
      if plat !in keys {
        FirstInfoSomeIffIn(data, members[..t], plat);
        keys := keys + [plat];
        table := table + [(plat, InfoOf(e))];
      }
    }
    assert members[..|members|] == members;
  }

  /** The part of `_detect_cross_platform` that looks at one group. */
  method SummarizeGroup(data: seq<Entry>, members: seq<nat>, minPlat: nat, hash: string -> string)
    returns (signal: Option<Signal>)
    requires ValidMembers(data, members) && members != []
    ensures var plats := Dedup(MemberPlatforms(data, members));
      signal.Some? <==> |plats| >= minPlat
    ensures signal.Some? ==> var s := signal.value; var plats := Dedup(MemberPlatforms(data, members));
      && s.signalType == CrossPlatform && s.layer == 2 && s.platform.None? && s.sourceCollection == "cross"
      && s.title == data[members[0]].item.title
      && SortedBy(s.platforms, Identity) && multiset(s.platforms) == multiset(plats)
      && s.details.CrossDetails? && s.details.platformCount == |plats|
      && |s.details.platformItems| == |plats|
      && (forall q :: 0 <= q < |plats| ==>
            s.details.platformItems[q].0 == plats[q]
            && Some(s.details.platformItems[q].1) == FirstInfo(data, members, plats[q]))
      && SortedBy(s.details.commonKeywords, Identity)
      && (forall w :: w in s.details.commonKeywords <==> w in CommonKeywords(data, members))
  {
    var keys, table := PlatformTable(data, members);
    if |keys| >= minPlat {
      FirstTableTitle(data, members, keys, table);
      var sortedKeys := SortStrings(keys);
      signal := Some(BuildSignal(CrossPlatform, None, "cross",
        CrossDetails(|table|, table, SortedCommon(data, members)), table[0].1.title, sortedKeys, hash));
    } else {
      signal := None;
    }
  }

  /** `sorted(common_keywords)`, with the corrected intersection. */
  function SortedCommon(data: seq<Entry>, members: seq<nat>): (r: seq<string>)
    requires ValidMembers(data, members) && members != []
    ensures SortedBy(r, Identity)
    ensures forall w :: w in r <==> w in CommonKeywords(data, members)
  {
    var common := CommonKeywords(data, members);
    var kws := data[members[0]].keywords;
    var shared := (w: string) => w in common;
    FilterMembers(kws, shared);
    var kept := Filter(kws, shared);
    var sorted := SortStrings(kept);
    assert forall w :: w in sorted <==> w in common by {
      forall w ensures w in sorted <==> w in common {
        assert w in sorted <==> w in multiset(sorted);
        assert w in kept <==> w in multiset(kept);
        assert w in kept <==> w in kws && shared(w);
        if w in common {
          assert w in data[members[0]].keywords;
        }
      }
    }
    sorted
  }

  /** The first row of the `platforms` table belongs to the first member. */
  lemma FirstTableTitle(data: seq<Entry>, members: seq<nat>, keys: seq<string>, table: seq<(string, PlatformItem)>)
    requires ValidMembers(data, members) && members != []
    requires keys == Dedup(MemberPlatforms(data, members))
    requires |table| == |keys|
    requires forall q :: 0 <= q < |keys| ==> table[q].0 == keys[q] && Some(table[q].1) == FirstInfo(data, members, keys[q])
    ensures |table| > 0 && table[0].1.title == data[members[0]].item.title
  {
    var first := data[members[0]];
    FirstInfoIsFirst(data, members, PlatformOf(first), 0);
    MemberPlatformsAt(data, members, 0);
    DedupFirst(MemberPlatforms(data, members));
  }

  lemma {:induction false} FirstInfoSomeIffIn(data: seq<Entry>, members: seq<nat>, p: string)
    requires ValidMembers(data, members)
    ensures FirstInfo(data, members, p).Some? <==> p in Dedup(MemberPlatforms(data, members))
  {
    DedupProps(MemberPlatforms(data, members));
    if members != [] {
      FirstInfoSomeIffIn(data, members[..|members| - 1], p);
      DedupProps(MemberPlatforms(data, members[..|members| - 1]));
    }
  }

  lemma {:induction false} MemberPlatformsAt(data: seq<Entry>, members: seq<nat>, t: nat)
    requires ValidMembers(data, members) && t < |members|
    ensures |MemberPlatforms(data, members)| == |members|
    ensures MemberPlatforms(data, members)[t] == PlatformOf(data[members[t]])
  {
    var init := members[..|members| - 1];
    if t < |init| {
      MemberPlatformsAt(data, init, t);
    } else if init != [] {
      MemberPlatformsAt(data, init, 0);
    }
  }

  lemma {:induction false} DedupFirst<T>(s: seq<T>)
    requires s != []
    ensures Dedup(s) != [] && Dedup(s)[0] == s[0]
  {
    if |s| > 1 {
      DedupFirst(s[..|s| - 1]);
    }
  }

  /** `_detect_cross_platform`: cluster the items with an id and keywords,
      then report every cluster spanning at least minPlat platforms. */
  method DetectCrossPlatform(items: seq<HotItem>, th: ValidThresholds, cut: string -> seq<string>, hash: string -> string)
    returns (signals: seq<Signal>)
    ensures items == [] ==> signals == []
    ensures forall s :: s in signals ==>
      && s.signalType == CrossPlatform && s.layer == 2 && s.platform.None? && s.sourceCollection == "cross"
      && |s.platforms| >= th.crossMinPlatforms && SortedBy(s.platforms, Identity) && Distinct(s.platforms)
      && s.details.CrossDetails? && s.details.platformCount == |s.platforms|
  {
    signals := [];
    if items == [] {
      return;
    }
    var data := CollectEntries(items, cut);
    if |data| < th.crossMinPlatforms {
      return;
    }
    var groups := Cluster(data, th.crossMinKeywords);
    for g := 0 to |groups|
      invariant forall s :: s in signals ==>
        && s.signalType == CrossPlatform && s.layer == 2 && s.platform.None? && s.sourceCollection == "cross"
        && |s.platforms| >= th.crossMinPlatforms && SortedBy(s.platforms, Identity) && Distinct(s.platforms)
        && s.details.CrossDetails? && s.details.platformCount == |s.platforms|
    {
      var s := SummarizeGroup(data, groups[g].members, th.crossMinPlatforms, hash);
      if s.Some? {
        var plats := Dedup(MemberPlatforms(data, groups[g].members));
        DedupProps(MemberPlatforms(data, groups[g].members));
        DistinctPerm(plats, s.value.platforms);
        assert |s.value.platforms| == |multiset(s.value.platforms)| == |multiset(plats)| == |plats|;
        signals := signals + [s.value];
      }
    }
  }
}
