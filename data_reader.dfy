/** The read side of signal detection: recent documents of the hot-list
    collections, and their merge into one list deduplicated by title with
    national lists taking priority over vertical ones and vertical over
    aggregators. The collections are parameters (their documents in the
    store's order). */
module DataReader {
  import opened Common
  import opened Json

  /** `DEFAULT_LOOKBACK`: one hour, in seconds. */
  const DefaultLookback: int := 3600

  /** `since_ts or _default_since()`: a missing or zero bound means one hour
      before now. */
  function EffectiveSince(since: Option<int>, now: int): (r: int)
    ensures since.Some? && since.value != 0 ==> r == since.value
    ensures since.None? || since.value == 0 ==> r == now - DefaultLookback
  {
    if since.Some? && since.value != 0 then since.value else now - DefaultLookback
  }

  /** `{"last_seen_at": {"$gte": since}}` on one document. */
  predicate SeenSince(d: Dict, since: int) {
    "last_seen_at" in d && d["last_seen_at"].JInt? && d["last_seen_at"].i >= since
  }

  /** A projection: only the listed fields of the document. */
  function Project(d: Dict, fields: set<string>): (r: Dict)
    ensures forall k :: k in r <==> k in d && k in fields
    ensures forall k :: k in r ==> r[k] == d[k]
  {
    map k | k in d && k in fields :: d[k]
  }

  /** `_HOT_PROJECTION` (without `_id`, which it excludes). */
  const HotFields: set<string> := {"item_id", "title", "platform", "source", "position", "hot_value",
    "hot_value_history", "position_history", "first_seen_at", "last_seen_at"}

  /** `_HOT_VERTICAL_PROJECTION`: the hot fields plus `vertical`. */
  const HotVerticalFields: set<string> := HotFields + {"vertical"}

  /** `_MEDIA_PROJECTION`. */
  const MediaFields: set<string> := {"item_id", "title", "platform", "source", "content", "publish_time",
    "first_seen_at", "last_seen_at"}

  /** `_query`: the documents seen since the bound, projected, in store order. */
  function Recent(coll: seq<Dict>, since: int, fields: set<string>): (r: seq<Dict>)
    ensures |r| <= |coll|
    ensures forall d :: d in r ==> exists i :: 0 <= i < |coll| && SeenSince(coll[i], since) && d == Project(coll[i], fields)
    ensures forall i :: 0 <= i < |coll| && SeenSince(coll[i], since) ==> Project(coll[i], fields) in r
  {
    if coll == [] then []
    else
      var d := coll[|coll| - 1];
      var init := Recent(coll[..|coll| - 1], since, fields);
      assert forall i :: 0 <= i < |coll| - 1 ==> coll[..|coll| - 1][i] == coll[i];
      if SeenSince(d, since) then init + [Project(d, fields)] else init
  }

  /** `{"source": source}` on one document. */
  predicate FromSource(d: Dict, source: string) {
    GetNull(d, "source") == JStr(source)
  }

  /** The documents of one source, in store order. */
  function OfSource(coll: seq<Dict>, source: string): seq<Dict> {
    Filter(coll, (d: Dict) => FromSource(d, source))
  }

  /** `get_items_by_source`: `_query` narrowed to one source, with the
      vertical projection for `hot_vertical` and the hot one otherwise. */
  function ItemsBySource(collection: string, coll: seq<Dict>, source: string, since: Option<int>, now: int): seq<Dict>
  {
    Recent(OfSource(coll, source), EffectiveSince(since, now),
           if collection == "hot_vertical" then HotVerticalFields else HotFields)
  }

  /** The documents of a source read are exactly the projections of that
      source's documents seen since the bound. */
  lemma ItemsBySourceProps(collection: string, coll: seq<Dict>, source: string, since: Option<int>, now: int)
    ensures var s := EffectiveSince(since, now);
      var fields := if collection == "hot_vertical" then HotVerticalFields else HotFields;
      var r := ItemsBySource(collection, coll, source, since, now);
      && (forall d :: d in r ==>
            exists i :: 0 <= i < |coll| && SeenSince(coll[i], s) && FromSource(coll[i], source) && d == Project(coll[i], fields))
      && (forall i :: 0 <= i < |coll| && SeenSince(coll[i], s) && FromSource(coll[i], source) ==> Project(coll[i], fields) in r)
  {
    var fields := if collection == "hot_vertical" then HotVerticalFields else HotFields;
    assert ItemsBySource(collection, coll, source, since, now) == Recent(OfSource(coll, source), EffectiveSince(since, now), fields);
    RecentOfSource(coll, source, EffectiveSince(since, now), fields);
  }

  lemma RecentOfSource(coll: seq<Dict>, source: string, s: int, fields: set<string>)
    ensures var r := Recent(OfSource(coll, source), s, fields);
      && (forall d :: d in r ==>
            exists i :: 0 <= i < |coll| && SeenSince(coll[i], s) && FromSource(coll[i], source) && d == Project(coll[i], fields))
      && (forall i :: 0 <= i < |coll| && SeenSince(coll[i], s) && FromSource(coll[i], source) ==> Project(coll[i], fields) in r)
  {
    var f := OfSource(coll, source);
    var r := Recent(f, s, fields);
    FilterMembers(coll, (d: Dict) => FromSource(d, source));
    forall d | d in r
      ensures exists i :: 0 <= i < |coll| && SeenSince(coll[i], s) && FromSource(coll[i], source) && d == Project(coll[i], fields)
    {
      var j :| 0 <= j < |f| && SeenSince(f[j], s) && d == Project(f[j], fields);
      assert f[j] in f;
      var i :| 0 <= i < |coll| && coll[i] == f[j];
    }
    forall i | 0 <= i < |coll| && SeenSince(coll[i], s) && FromSource(coll[i], source)
      ensures Project(coll[i], fields) in r
    {
      assert coll[i] in f;
      var j :| 0 <= j < |f| && f[j] == coll[i];
    }
  }

  /** `get_hot_local`: a reserved interface that always yields nothing. */
  function HotLocal(since: Option<int>): seq<Dict> { [] }

  /** `item.get("title", "")` */
  function TitleOf(d: Dict): Json { GetOr(d, "title", JStr("")) }

  function Titles(s: seq<Dict>): (r: seq<Json>)
    ensures |r| == |s|
    ensures forall k :: 0 <= k < |s| ==> r[k] == TitleOf(s[k])
  {
    if s == [] then [] else Titles(s[..|s| - 1]) + [TitleOf(s[|s| - 1])]
  }

  /** The merge as a value: walking the documents in order, keep one when its
      title is truthy and no kept document has that title yet. */
  function FirstByTitle(items: seq<Dict>): seq<Dict>
  {
    if items == [] then []
    else
      var r := FirstByTitle(items[..|items| - 1]);
      var d := items[|items| - 1];
      if Truthy(TitleOf(d)) && TitleOf(d) !in Titles(r) then r + [d] else r
  }

  /** The merged list has one document per truthy title, each taken from
      the input, and every truthy title of the input is represented. */
  lemma {:induction false} FirstByTitleProps(items: seq<Dict>)
    ensures var r := FirstByTitle(items);
      |r| <= |items| && Distinct(Titles(r)) &&
      (forall d :: d in r ==> d in items && Truthy(TitleOf(d))) &&
      (forall i :: 0 <= i < |items| && Truthy(TitleOf(items[i])) ==> TitleOf(items[i]) in Titles(r))
  {
    if items != [] {
      var init, d := items[..|items| - 1], items[|items| - 1];
      FirstByTitleProps(init);
      MergedSnoc(init, d);
      InitLast(items);
    }
  }

  /** The properties of the title merge, for one input and its result. */
  ghost predicate MergedFrom(items: seq<Dict>, r: seq<Dict>) {
    |r| <= |items| && Distinct(Titles(r)) &&
    (forall d :: d in r ==> d in items && Truthy(TitleOf(d))) &&
    (forall i :: 0 <= i < |items| && Truthy(TitleOf(items[i])) ==> TitleOf(items[i]) in Titles(r))
  }

  lemma MergedSnoc(init: seq<Dict>, d: Dict)
    requires MergedFrom(init, FirstByTitle(init))
    ensures MergedFrom(init + [d], FirstByTitle(init + [d]))
  {
    var r0 := FirstByTitle(init);
    FirstByTitleSnoc(init, d);
    if Truthy(TitleOf(d)) && TitleOf(d) !in Titles(r0) {
      MergedKeep(init, d, r0);
    } else {
      MergedDrop(init, d, r0);
    }
  }

  /** A document with a new truthy title is appended. */
  lemma MergedKeep(init: seq<Dict>, d: Dict, r0: seq<Dict>)
    requires MergedFrom(init, r0) && Truthy(TitleOf(d)) && TitleOf(d) !in Titles(r0)
    ensures MergedFrom(init + [d], r0 + [d])
  {
    var items, r := init + [d], r0 + [d];
    TitlesSnoc(r0, d);
    DistinctSnoc(Titles(r0), TitleOf(d));
    forall i | 0 <= i < |items| && Truthy(TitleOf(items[i])) ensures TitleOf(items[i]) in Titles(r) {
      if i < |init| {
        assert items[i] == init[i];
      }
    }
  }

  /** A document with a falsy or already-kept title is dropped. */
  lemma MergedDrop(init: seq<Dict>, d: Dict, r0: seq<Dict>)
    requires MergedFrom(init, r0) && !(Truthy(TitleOf(d)) && TitleOf(d) !in Titles(r0))
    ensures MergedFrom(init + [d], r0)
  {
    var items := init + [d];
    forall i | 0 <= i < |items| && Truthy(TitleOf(items[i])) ensures TitleOf(items[i]) in Titles(r0) {
      if i < |init| {
        assert items[i] == init[i];
      }
    }
  }

  /** No document before position i has the title of the one at i. */
  ghost predicate FirstWithTitle(items: seq<Dict>, i: nat)
    requires i < |items|
  {
    forall j :: 0 <= j < i ==> TitleOf(items[j]) != TitleOf(items[i])
  }

  /** Where each merged document comes from: its position in the input. */
  function Origins(items: seq<Dict>): (o: seq<nat>)
    ensures |o| == |FirstByTitle(items)|
  {
    if items == [] then []
    else
      var o := Origins(items[..|items| - 1]);
      var r := FirstByTitle(items[..|items| - 1]);
      var d := items[|items| - 1];
      if Truthy(TitleOf(d)) && TitleOf(d) !in Titles(r) then o + [|items| - 1] else o
  }

  /** The document kept for a title is its first occurrence in the input,
      and the merged list keeps the input order. */
  lemma {:induction false} OriginsProps(items: seq<Dict>)
    ensures forall k :: 0 <= k < |Origins(items)| ==>
      Origins(items)[k] < |items| && items[Origins(items)[k]] == FirstByTitle(items)[k] &&
      FirstWithTitle(items, Origins(items)[k])
    ensures forall k, l :: 0 <= k < l < |Origins(items)| ==> Origins(items)[k] < Origins(items)[l]
  {
    OriginsAll(items);
  }

  lemma {:induction false} OriginsAll(items: seq<Dict>)
    ensures OriginsFrom(items, Origins(items), FirstByTitle(items))
  {
    if items != [] {
      var init := items[..|items| - 1];
      var d := items[|items| - 1];
      var r0 := FirstByTitle(init);
      var o0 := Origins(init);
      OriginsAll(init);
      if Truthy(TitleOf(d)) && TitleOf(d) !in Titles(r0) {
        TitleFresh(items);
        OriginsAdd(items, o0, r0);
      } else {
        OriginsDrop(items, o0, r0);
      }
    }
  }

  /** `o` gives the input position of each document of `r`, a first
      occurrence of its title, in increasing order. */
  ghost predicate OriginsFrom(items: seq<Dict>, o: seq<nat>, r: seq<Dict>) {
    && |o| == |r|
    && (forall k :: 0 <= k < |o| ==> o[k] < |items| && items[o[k]] == r[k] && FirstWithTitle(items, o[k]))
    && (forall k, l :: 0 <= k < l < |o| ==> o[k] < o[l])
  }

  /** A dropped last document leaves the origins as they were. */
  lemma OriginsDrop(items: seq<Dict>, o0: seq<nat>, r0: seq<Dict>)
    requires items != [] && OriginsFrom(items[..|items| - 1], o0, r0)
    ensures OriginsFrom(items, o0, r0)
  {
    var init := items[..|items| - 1];
    forall k | 0 <= k < |o0| ensures items[o0[k]] == r0[k] && FirstWithTitle(items, o0[k]) {
      assert forall j :: 0 <= j <= o0[k] ==> items[j] == init[j];
    }
  }

  /** A last document kept by the merge has a title no earlier document
      has. */
  lemma TitleFresh(items: seq<Dict>)
    requires items != []
    requires var d := items[|items| - 1];
      Truthy(TitleOf(d)) && TitleOf(d) !in Titles(FirstByTitle(items[..|items| - 1]))
    ensures FirstWithTitle(items, |items| - 1)
  {
    var init := items[..|items| - 1];
    FirstByTitleProps(init);
    forall j | 0 <= j < |items| - 1 ensures TitleOf(items[j]) != TitleOf(items[|items| - 1]) {
      assert items[j] == init[j];
    }
  }

  /** A kept last document, whose title no earlier document has, is its own
      origin. */
  lemma OriginsAdd(items: seq<Dict>, o0: seq<nat>, r0: seq<Dict>)
    requires items != [] && OriginsFrom(items[..|items| - 1], o0, r0)
    requires FirstWithTitle(items, |items| - 1)
    ensures OriginsFrom(items, o0 + [|items| - 1], r0 + [items[|items| - 1]])
  {
    OriginsDrop(items, o0, r0);
  }

  /** The three lists in priority order, concatenated. */
  function Concat3(a: seq<Dict>, b: seq<Dict>, c: seq<Dict>): seq<Dict> { a + b + c }

  /** A title that occurs in a leading part of the input is kept from that
      part. */
  lemma PrefixWins(a: seq<Dict>, b: seq<Dict>, k: nat)
    requires k < |FirstByTitle(a + b)|
    requires TitleOf(FirstByTitle(a + b)[k]) in Titles(a)
    ensures FirstByTitle(a + b)[k] in a
  {
    var all := a + b;
    var r := FirstByTitle(all);
    OriginsProps(all);
    var i := Origins(all)[k];
    var j :| 0 <= j < |a| && Titles(a)[j] == TitleOf(r[k]);
    assert all[j] == a[j];
    assert i < |a|;
    assert a[i] == all[i];
  }

  /** The priority order: a title present in the national list is kept from
      the national list; one present in the vertical list and not the
      national list is kept from the vertical list. */
  lemma PriorityOrder(national: seq<Dict>, vertical: seq<Dict>, aggregator: seq<Dict>, k: nat)
    requires k < |FirstByTitle(Concat3(national, vertical, aggregator))|
    ensures var d := FirstByTitle(Concat3(national, vertical, aggregator))[k];
      (TitleOf(d) in Titles(national) ==> d in national) &&
      (TitleOf(d) !in Titles(national) && TitleOf(d) in Titles(vertical) ==> d in vertical)
  {
    var d := FirstByTitle(Concat3(national, vertical, aggregator))[k];
    assert Concat3(national, vertical, aggregator) == national + (vertical + aggregator);
    if TitleOf(d) in Titles(national) {
      PrefixWins(national, vertical + aggregator, k);
    } else if TitleOf(d) in Titles(vertical) {
      var m :| 0 <= m < |vertical| && Titles(vertical)[m] == TitleOf(d);
      assert (national + vertical)[|national| + m] == vertical[m];
      assert Titles(national + vertical)[|national| + m] == TitleOf(d);
      PrefixWins(national + vertical, aggregator, k);
    }
  }

  /** The double loop of `get_all_hot_items` over the already-read lists. */
  method MergeHot(lists: seq<seq<Dict>>) returns (merged: seq<Dict>)
    ensures merged == FirstByTitle(Flatten(lists))
  {
    var seen: set<Json> := {};
    merged := [];
    for n := 0 to |lists|
      invariant merged == FirstByTitle(Flatten(lists[..n]))
      invariant forall t :: t in seen <==> t in Titles(merged)
    {
      assert lists[..n + 1][..n] == lists[..n];
      merged, seen := MergeList(Flatten(lists[..n]), merged, seen, lists[n]);
    }
    assert lists[..|lists|] == lists;
  }

  /** The inner loop of `get_all_hot_items`: one source's list merged into
      what the earlier sources gave. */
  method MergeList(ghost before: seq<Dict>, merged0: seq<Dict>, seen0: set<Json>, items: seq<Dict>)
    returns (merged: seq<Dict>, seen: set<Json>)
    requires merged0 == FirstByTitle(before)
    requires forall t :: t in seen0 <==> t in Titles(merged0)
    ensures merged == FirstByTitle(before + items)
    ensures forall t :: t in seen <==> t in Titles(merged)
  {
    merged, seen := merged0, seen0;
    assert before + items[..0] == before;
    for m := 0 to |items|
      invariant merged == FirstByTitle(before + items[..m])
      invariant forall t :: t in seen <==> t in Titles(merged)
    {
      AppendSlice(before, items, m);
      FirstByTitleSnoc(before + items[..m], items[m]);
      var title := TitleOf(items[m]);
      if Truthy(title) && title !in seen {
        TitlesSnoc(merged, items[m]);
        seen := seen + {title};
        merged := merged + [items[m]];
      }
    }
    assert items[..|items|] == items;
  }

  lemma AppendSlice(a: seq<Dict>, b: seq<Dict>, m: nat)
    requires m < |b|
    ensures a + b[..m + 1] == (a + b[..m]) + [b[m]]
  {
    assert b[..m + 1] == b[..m] + [b[m]];
  }

  lemma FirstByTitleSnoc(xs: seq<Dict>, d: Dict)
    ensures FirstByTitle(xs + [d])
      == (var r := FirstByTitle(xs); if Truthy(TitleOf(d)) && TitleOf(d) !in Titles(r) then r + [d] else r)
  {
    assert (xs + [d])[..|xs|] == xs;
  }

  lemma TitlesSnoc(s: seq<Dict>, d: Dict)
    ensures Titles(s + [d]) == Titles(s) + [TitleOf(d)]
  {
    assert (s + [d])[..|s|] == s;
  }

  function Flatten(lists: seq<seq<Dict>>): seq<Dict>
  {
    if lists == [] then [] else Flatten(lists[..|lists| - 1]) + lists[|lists| - 1]
  }

  lemma FlattenThree(a: seq<Dict>, b: seq<Dict>, c: seq<Dict>)
    ensures Flatten([a, b, c]) == Concat3(a, b, c)
  {
    assert [a, b, c][..2] == [a, b];
    assert [a, b][..1] == [a];
    assert [a][..0] == [];
    assert Flatten([a]) == a;
    assert Flatten([a, b]) == a + b;
    assert Flatten([a, b, c]) == a + b + c;
  }

  /** `get_all_hot_items`: the recent national, vertical and aggregator
      documents, merged by title in that priority. */
  method AllHotItems(national: seq<Dict>, vertical: seq<Dict>, aggregator: seq<Dict>, since: Option<int>, now: int)
    returns (merged: seq<Dict>)
    ensures var s := EffectiveSince(since, now);
      merged == FirstByTitle(Concat3(Recent(national, s, HotFields), Recent(vertical, s, HotVerticalFields),
        Recent(aggregator, s, HotFields)))
  {
    var s := EffectiveSince(since, now);
    var a := Recent(national, s, HotFields);
    var b := Recent(vertical, s, HotVerticalFields);
    var c := Recent(aggregator, s, HotFields);
    merged := MergeHot([a, b, c]);
    FlattenThree(a, b, c);
  }
}
