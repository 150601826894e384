/** The ingestion processor: every collected item gets an id hashed from its
    source and dedup fields; a new id inserts a document with one-entry
    histories of its time-varying fields, a known id either is skipped (no
    time-varying fields) or gets a `$set` of the current values plus a
    `$push` onto each history. The MongoDB store is a map from collection to
    documents keyed by `item_id`; MD5 is a parameter. */
module Processor {
  import opened Common
  import opened Json
  import opened ConfigLoader

  // ---------------------------------------------------------------------------
  // Item ids
  // ---------------------------------------------------------------------------

  /** `str(item.get(field, ""))` for each dedup field, in order. */
  function FieldTexts(item: Dict, fields: seq<string>): (r: seq<string>)
    ensures |r| == |fields|
    ensures forall k :: 0 <= k < |fields| ==> r[k] == ToStr(GetOr(item, fields[k], JStr("")))
  {
    if fields == [] then []
    else FieldTexts(item, fields[..|fields| - 1]) + [ToStr(GetOr(item, fields[|fields| - 1], JStr("")))]
  }

  /** The hashed text: the source, then each dedup field's text, joined by "_". */
  function IdContent(item: Dict, source: string, fields: seq<string>): string
  {
    Join([source] + FieldTexts(item, fields), "_")
  }

  /** `_generate_item_id`: build the parts list, join, hash. */
  method GenerateItemId(item: Dict, source: string, fields: seq<string>, md5: string -> string) returns (id: string)
    ensures id == md5(IdContent(item, source, fields))
  {
    var parts := [source];
    for n := 0 to |fields|
      invariant parts == [source] + FieldTexts(item, fields[..n])
    {
      FieldTextsSnoc(item, fields, n);
      parts := parts + [ToStr(GetOr(item, fields[n], JStr("")))];
    }
    assert fields[..|fields|] == fields;
    id := md5(Join(parts, "_"));
  }

  lemma FieldTextsSnoc(item: Dict, fields: seq<string>, n: nat)
    requires n < |fields|
    ensures FieldTexts(item, fields[..n + 1]) == FieldTexts(item, fields[..n]) + [ToStr(GetOr(item, fields[n], JStr("")))]
  {
    assert fields[..n + 1][..n] == fields[..n];
  }

  /** The id reads only the source and the dedup fields: items that agree on
      them get the same id, whatever else they carry. */
  lemma IdOnlyDedupFields(a: Dict, b: Dict, source: string, fields: seq<string>)
    requires forall k :: 0 <= k < |fields| ==> GetOr(a, fields[k], JStr("")) == GetOr(b, fields[k], JStr(""))
    ensures IdContent(a, source, fields) == IdContent(b, source, fields)
  {
    assert FieldTexts(a, fields) == FieldTexts(b, fields);
  }

  /** When neither the source nor any field text contains "_", the hashed
      text determines the source and every field text: distinct items get
      distinct texts (so distinct ids unless MD5 collides). */
  lemma IdContentInjective(a: Dict, sa: string, b: Dict, sb: string, fields: seq<string>)
    requires '_' !in sa && '_' !in sb
    requires forall k :: 0 <= k < |fields| ==> '_' !in FieldTexts(a, fields)[k] && '_' !in FieldTexts(b, fields)[k]
    requires IdContent(a, sa, fields) == IdContent(b, sb, fields)
    ensures sa == sb && FieldTexts(a, fields) == FieldTexts(b, fields)
  {
    JoinHeadInjective(sa, FieldTexts(a, fields), sb, FieldTexts(b, fields), '_');
  }

  /** A join whose parts avoid the separator determines its parts. */
  lemma JoinHeadInjective(sa: string, ta: seq<string>, sb: string, tb: seq<string>, c: char)
    requires c !in sa && c !in sb
    requires forall k :: 0 <= k < |ta| ==> c !in ta[k]
    requires forall k :: 0 <= k < |tb| ==> c !in tb[k]
    requires Join([sa] + ta, [c]) == Join([sb] + tb, [c])
    ensures sa == sb && ta == tb
  {
    JoinSplit([sa] + ta, c);
    JoinSplit([sb] + tb, c);
    assert ta == ([sa] + ta)[1..] && tb == ([sb] + tb)[1..];
  }

  /** With "_" inside a value the join is ambiguous: two items whose two
      dedup fields differ get the same hashed text. */
  lemma IdContentCollision()
    ensures var a := map["x" := JStr("p_q"), "y" := JStr("r")];
      var b := map["x" := JStr("p"), "y" := JStr("q_r")];
      a != b && IdContent(a, "s", ["x", "y"]) == IdContent(b, "s", ["x", "y"])
  {
    var a := map["x" := JStr("p_q"), "y" := JStr("r")];
    var b := map["x" := JStr("p"), "y" := JStr("q_r")];
    assert a["x"] != b["x"];
    JoinedAs(a, "p_q", "r");
    JoinedAs(b, "p", "q_r");
    assert "s_" + "p_q" + "_" + "r" == "s_p_q_r" == "s_" + "p" + "_" + "q_r";
  }

  /** The hashed text of source "s" with the string values of fields x and
      y. */
  lemma JoinedAs(d: Dict, x: string, y: string)
    requires d == map["x" := JStr(x), "y" := JStr(y)]
    ensures IdContent(d, "s", ["x", "y"]) == "s_" + x + "_" + y
  {
    var t := FieldTexts(d, ["x", "y"]);
    assert t[0] == ToStr(GetOr(d, "x", JStr(""))) == x;
    assert t[1] == ToStr(GetOr(d, "y", JStr(""))) == y;
    var parts := ["s"] + t;
    assert parts == ["s", x, y];
    assert parts[..2] == ["s", x] && parts[..2][..1] == ["s"];
    assert Join(parts[..2], "_") == "s" + "_" + x;
    assert Join(parts, "_") == Join(parts[..2], "_") + "_" + y;
  }

  // ---------------------------------------------------------------------------
  // New documents
  // ---------------------------------------------------------------------------

  const HistorySuffix: string := "_history"

  /** `{"ts": now, "val": v}` */
  function HistoryEntry(now: int, v: Json): Json
  {
    JObj(map["ts" := JInt(now), "val" := v])
  }

  /** `dict(item)` with the id, the source and both timestamps set. */
  function BaseDoc(item: Dict, id: string, source: string, now: int): Dict
  {
    item["item_id" := JStr(id)]["source" := JStr(source)]["first_seen_at" := JInt(now)]["last_seen_at" := JInt(now)]
  }

  /** The history loop of `_build_new_doc`: a present, non-None field gets a
      one-entry history. */
  function AddHistories(doc: Dict, fields: seq<string>, now: int): Dict
  {
    if fields == [] then doc
    else
      var d := AddHistories(doc, fields[..|fields| - 1], now);
      var f := fields[|fields| - 1];
      if f in d && d[f] != JNull then d[f + HistorySuffix := JArr([HistoryEntry(now, d[f])])] else d
  }

  function NewDoc(item: Dict, id: string, source: string, fields: seq<string>, now: int): Dict
  {
    AddHistories(BaseDoc(item, id, source, now), fields, now)
  }

  /** `_build_new_doc`. */
  method BuildNewDoc(item: Dict, id: string, source: string, fields: seq<string>, now: int) returns (doc: Dict)
    ensures doc == NewDoc(item, id, source, fields, now)
  {
    doc := item;
    doc := doc["item_id" := JStr(id)];
    doc := doc["source" := JStr(source)];
    doc := doc["first_seen_at" := JInt(now)];
    doc := doc["last_seen_at" := JInt(now)];
    ghost var base := doc;
    for n := 0 to |fields|
      invariant doc == AddHistories(base, fields[..n], now)
    {
      assert fields[..n + 1][..n] == fields[..n];
      var f := fields[n];
      if f in doc && doc[f] != JNull {
        doc := doc[f + HistorySuffix := JArr([HistoryEntry(now, doc[f])])];
      }
    }
    assert fields[..|fields|] == fields;
  }

  /** A history key names its field. */
  lemma HistoryKey(f: string, g: string)
    ensures EndsWith(f + HistorySuffix, HistorySuffix)
    ensures f + HistorySuffix == g + HistorySuffix ==> f == g
  {
    if f + HistorySuffix == g + HistorySuffix {
      assert f == (f + HistorySuffix)[..|f|];
      assert g == (g + HistorySuffix)[..|g|];
    }
  }

  /** Field names are not themselves history keys (every configuration
      names plain fields). */
  predicate PlainFields(fields: seq<string>) {
    forall k :: 0 <= k < |fields| ==> !EndsWith(fields[k], HistorySuffix)
  }

  /** The history loop leaves every key that is not a history key as it
      was, gives each present non-None field its one-entry history, and adds
      no other key. */
  lemma {:induction false} AddHistoriesProps(doc: Dict, fields: seq<string>, now: int)
    requires PlainFields(fields)
    ensures var r := AddHistories(doc, fields, now);
      (forall k :: k in doc ==> k in r) &&
      (forall k :: !EndsWith(k, HistorySuffix) ==> (k in r <==> k in doc) && (k in r ==> r[k] == doc[k])) &&
      (forall f :: f in fields && f in doc && doc[f] != JNull ==>
        f + HistorySuffix in r && r[f + HistorySuffix] == JArr([HistoryEntry(now, doc[f])])) &&
      (forall k :: k in r && k !in doc ==> exists f :: f in fields && f in doc && doc[f] != JNull && k == f + HistorySuffix)
  {
    if fields != [] {
      var init := fields[..|fields| - 1];
      var f := fields[|fields| - 1];
      AddHistoriesProps(doc, init, now);
      var d := AddHistories(doc, init, now);
      HistoryKey(f, f);
      forall g | g in fields ensures g + HistorySuffix == f + HistorySuffix ==> g == f {
        HistoryKey(g, f);
      }
      assert !EndsWith(f, HistorySuffix);
      assert f in d <==> f in doc;
    }
  }

  /** The four stamped keys are not history keys. */
  lemma StampsPlain()
    ensures !EndsWith("item_id", HistorySuffix) && !EndsWith("source", HistorySuffix)
    ensures !EndsWith("first_seen_at", HistorySuffix) && !EndsWith("last_seen_at", HistorySuffix)
  {
    assert "first_seen_at"[5..] != HistorySuffix;
    assert "last_seen_at"[4..] != HistorySuffix;
  }

  predicate Stamp(k: string) { k == "item_id" || k == "source" || k == "first_seen_at" || k == "last_seen_at" }

  lemma BaseDocProps(item: Dict, id: string, source: string, now: int)
    ensures var b := BaseDoc(item, id, source, now);
      "item_id" in b && b["item_id"] == JStr(id) && "source" in b && b["source"] == JStr(source) &&
      "first_seen_at" in b && b["first_seen_at"] == JInt(now) && "last_seen_at" in b && b["last_seen_at"] == JInt(now) &&
      (forall k :: k in item && !Stamp(k) ==> k in b && b[k] == item[k])
  {
  }

  /** A new document carries the id, the source and both timestamps equal
      to now, and keeps the item's own plain fields. */
  lemma NewDocStamps(item: Dict, id: string, source: string, fields: seq<string>, now: int)
    requires PlainFields(fields)
    ensures var r := NewDoc(item, id, source, fields, now);
      "item_id" in r && r["item_id"] == JStr(id) && "source" in r && r["source"] == JStr(source) &&
      "first_seen_at" in r && r["first_seen_at"] == JInt(now) && "last_seen_at" in r && r["last_seen_at"] == JInt(now) &&
      (forall k :: k in item && !EndsWith(k, HistorySuffix) && !Stamp(k) ==> k in r && r[k] == item[k])
  {
    var b := BaseDoc(item, id, source, now);
    BaseDocProps(item, id, source, now);
    AddHistoriesProps(b, fields, now);
    StampsPlain();
  }

  /** A new document has a one-entry history exactly for the time-varying
      fields that are present and non-None, and no other added key. */
  lemma NewDocHistories(item: Dict, id: string, source: string, fields: seq<string>, now: int)
    requires PlainFields(fields)
    ensures var r := NewDoc(item, id, source, fields, now); var base := BaseDoc(item, id, source, now);
      (forall f :: f in fields && f in base && base[f] != JNull ==>
        f + HistorySuffix in r && r[f + HistorySuffix] == JArr([HistoryEntry(now, base[f])])) &&
      (forall k :: k in r && k !in base ==> exists f :: f in fields && f in base && base[f] != JNull && k == f + HistorySuffix)
  {
    AddHistoriesProps(BaseDoc(item, id, source, now), fields, now);
  }

  // ---------------------------------------------------------------------------
  // Updates
  // ---------------------------------------------------------------------------

  /** `{"$set": setFields}` plus `"$push": push` when there is something to push. */
  datatype UpdateOps = UpdateOps(setFields: Dict, push: Option<Dict>)

  /** The loop of `_build_update_ops` as a value: (`update_set`, `update_push`). */
  function SetPush(item: Dict, fields: seq<string>, now: int): (Dict, Dict)
  {
    if fields == [] then (map["last_seen_at" := JInt(now)], map[])
    else
      var (s, p) := SetPush(item, fields[..|fields| - 1], now);
      var f := fields[|fields| - 1];
      var v := GetNull(item, f);
      if v != JNull then (s[f := v], p[f + HistorySuffix := HistoryEntry(now, v)]) else (s, p)
  }

  function UpdateOpsOf(item: Dict, fields: seq<string>, now: int): UpdateOps
  {
    var (s, p) := SetPush(item, fields, now);
    UpdateOps(s, if p == map[] then None else Some(p))
  }

  /** `_build_update_ops`. */
  method BuildUpdateOps(item: Dict, fields: seq<string>, now: int) returns (ops: UpdateOps)
    ensures ops == UpdateOpsOf(item, fields, now)
  {
    var updateSet: Dict := map["last_seen_at" := JInt(now)];
    var updatePush: Dict := map[];
    for n := 0 to |fields|
      invariant (updateSet, updatePush) == SetPush(item, fields[..n], now)
    {
      assert fields[..n + 1][..n] == fields[..n];
      var v := GetNull(item, fields[n]);
      if v != JNull {
        updateSet := updateSet[fields[n] := v];
        updatePush := updatePush[fields[n] + HistorySuffix := HistoryEntry(now, v)];
      }
    }
    assert fields[..|fields| - 0] == fields;
    ops := UpdateOps(updateSet, if updatePush == map[] then None else Some(updatePush));
  }

  /** A field with a value to record: present and not None. */
  predicate Recorded(item: Dict, f: string) { GetNull(item, f) != JNull }

  /** `$set` always holds `last_seen_at` (now, unless a time-varying field of
      that name overrides it) and exactly the recorded fields with their new
      values; `$push` holds exactly one history entry per recorded field. */
  lemma {:induction false} SetPushProps(item: Dict, fields: seq<string>, now: int)
    ensures var (s, p) := SetPush(item, fields, now);
      (forall k :: k in s <==> k == "last_seen_at" || (k in fields && Recorded(item, k))) &&
      (!("last_seen_at" in fields && Recorded(item, "last_seen_at")) ==> s["last_seen_at"] == JInt(now)) &&
      (forall f :: f in fields && Recorded(item, f) ==> s[f] == item[f]) &&
      (forall f :: f in fields && Recorded(item, f) ==> f + HistorySuffix in p && p[f + HistorySuffix] == HistoryEntry(now, item[f])) &&
      (forall k :: k in p ==> exists f :: f in fields && Recorded(item, f) && k == f + HistorySuffix)
  {
    SetKeys(item, fields, now);
    SetValues(item, fields, now);
    PushEntries(item, fields, now);
    PushKeys(item, fields, now);
  }

  /** The `$set` keys, and `last_seen_at` when no field overrides it. */
  lemma {:induction false} SetKeys(item: Dict, fields: seq<string>, now: int)
    ensures forall k :: k in SetPush(item, fields, now).0 <==> k == "last_seen_at" || (k in fields && Recorded(item, k))
    ensures !("last_seen_at" in fields && Recorded(item, "last_seen_at")) ==> SetPush(item, fields, now).0["last_seen_at"] == JInt(now)
  {
    if fields != [] {
      SetKeys(item, fields[..|fields| - 1], now);
    }
  }

  /** Every recorded field is set to its value. */
  lemma {:induction false} SetValues(item: Dict, fields: seq<string>, now: int)
    ensures forall f :: f in fields && Recorded(item, f) ==> f in SetPush(item, fields, now).0 && SetPush(item, fields, now).0[f] == item[f]
  {
    if fields != [] {
      SetValues(item, fields[..|fields| - 1], now);
    }
  }

  /** Every recorded field has its history entry. */
  lemma {:induction false} PushEntries(item: Dict, fields: seq<string>, now: int)
    ensures forall f :: f in fields && Recorded(item, f) ==>
      f + HistorySuffix in SetPush(item, fields, now).1 && SetPush(item, fields, now).1[f + HistorySuffix] == HistoryEntry(now, item[f])
  {
    if fields != [] {
      var f := fields[|fields| - 1];
      PushEntries(item, fields[..|fields| - 1], now);
      forall g | g in fields ensures g + HistorySuffix == f + HistorySuffix ==> g == f {
        HistoryKey(g, f);
      }
    }
  }

  /** Every history key belongs to a recorded field. */
  lemma {:induction false} PushKeys(item: Dict, fields: seq<string>, now: int)
    ensures forall k :: k in SetPush(item, fields, now).1 ==> exists f :: f in fields && Recorded(item, f) && k == f + HistorySuffix
  {
    if fields != [] {
      PushKeys(item, fields[..|fields| - 1], now);
    }
  }

  /** The `$push` key is present exactly when some time-varying field has a
      value to record. */
  lemma PushPresent(item: Dict, fields: seq<string>, now: int)
    ensures UpdateOpsOf(item, fields, now).push.Some? <==> exists f :: f in fields && Recorded(item, f)
  {
    SetPushProps(item, fields, now);
    var p := SetPush(item, fields, now).1;
    if exists f :: f in fields && Recorded(item, f) {
      var f :| f in fields && Recorded(item, f);
      assert f + HistorySuffix in p;
    }
  }

  /** MongoDB applying `{"$set": s, "$push": p}` to one document: set the
      fields, then append each pushed entry to its array (a missing array
      starts empty). */
  function ApplyUpdate(doc: Dict, ops: UpdateOps): Dict
  {
    var d := doc + ops.setFields;
    match ops.push
    case None => d
    case Some(p) => map k | k in d.Keys + p.Keys :: if k in p then JArr(SubList(d, k) + [p[k]]) else d[k]
  }

  /** One key of an updated document. */
  lemma ApplyUpdateAt(doc: Dict, ops: UpdateOps, k: string)
    ensures var r := ApplyUpdate(doc, ops); var d := doc + ops.setFields;
      (k in r <==> k in d || (ops.push.Some? && k in ops.push.value)) &&
      (ops.push.Some? && k in ops.push.value ==> k in r && r[k] == JArr(SubList(d, k) + [ops.push.value[k]])) &&
      (!(ops.push.Some? && k in ops.push.value) && k in d ==> k in r && r[k] == d[k])
  {
  }

  /** With plain field names, `$push` touches only history keys and `$set`
      only plain ones. */
  lemma SetPushKeys(item: Dict, fields: seq<string>, now: int)
    requires PlainFields(fields)
    ensures var (s, p) := SetPush(item, fields, now);
      (forall k :: k in p ==> EndsWith(k, HistorySuffix)) && (forall k :: k in s ==> !EndsWith(k, HistorySuffix))
  {
    SetPushProps(item, fields, now);
    var (s, p) := SetPush(item, fields, now);
    forall k | k in p ensures EndsWith(k, HistorySuffix) {
      var f :| f in fields && Recorded(item, f) && k == f + HistorySuffix;
      HistoryKey(f, f);
    }
    forall k | k in s ensures !EndsWith(k, HistorySuffix) {
      if k != "last_seen_at" {
        var i :| 0 <= i < |fields| && fields[i] == k;
      }
    }
  }

  /** An update sets `last_seen_at` to now. */
  lemma UpdateLastSeen(doc: Dict, item: Dict, fields: seq<string>, now: int)
    requires PlainFields(fields) && "last_seen_at" !in fields
    ensures var r := ApplyUpdate(doc, UpdateOpsOf(item, fields, now));
      "last_seen_at" in r && r["last_seen_at"] == JInt(now)
  {
    SetPushProps(item, fields, now);
    SetPushKeys(item, fields, now);
    ApplyUpdateAt(doc, UpdateOpsOf(item, fields, now), "last_seen_at");
  }

  /** An update records a present time-varying field: its current value
      becomes the new one and its history grows by exactly one entry. */
  lemma UpdateRecordsField(doc: Dict, item: Dict, fields: seq<string>, now: int, f: string)
    requires PlainFields(fields) && f in fields && Recorded(item, f)
    ensures var r := ApplyUpdate(doc, UpdateOpsOf(item, fields, now));
      f in r && r[f] == item[f] && f + HistorySuffix in r &&
      r[f + HistorySuffix] == JArr(SubList(doc, f + HistorySuffix) + [HistoryEntry(now, item[f])])
  {
    SetPushProps(item, fields, now);
    SetPushKeys(item, fields, now);
    PushPresent(item, fields, now);
    var ops := UpdateOpsOf(item, fields, now);
    HistoryKey(f, f);
    var i :| 0 <= i < |fields| && fields[i] == f;
    ApplyUpdateAt(doc, ops, f);
    ApplyUpdateAt(doc, ops, f + HistorySuffix);
    assert f + HistorySuffix !in ops.setFields;
    SubListMerge(doc, ops.setFields, f + HistorySuffix);
  }

  /** Merging in fields other than `k` leaves the list under `k` alone. */
  lemma SubListMerge(doc: Dict, fields: Dict, k: string)
    requires k !in fields
    ensures SubList(doc + fields, k) == SubList(doc, k)
  {
    if k in doc {
      assert (doc + fields)[k] == doc[k];
    }
  }

  /** An update leaves alone every field that is not `last_seen_at`, not a
      time-varying field and not a history. */
  lemma UpdateKeepsOthers(doc: Dict, item: Dict, fields: seq<string>, now: int, k: string)
    requires PlainFields(fields)
    requires k in doc && k != "last_seen_at" && k !in fields && !EndsWith(k, HistorySuffix)
    ensures var r := ApplyUpdate(doc, UpdateOpsOf(item, fields, now)); k in r && r[k] == doc[k]
  {
    SetPushProps(item, fields, now);
    SetPushKeys(item, fields, now);
    ApplyUpdateAt(doc, UpdateOpsOf(item, fields, now), k);
  }

  /** The whole update: `last_seen_at` becomes now, each present
      time-varying field is recorded, every other field is untouched. */
  lemma UpdateRecords(doc: Dict, item: Dict, fields: seq<string>, now: int)
    requires PlainFields(fields) && "last_seen_at" !in fields
    ensures var r := ApplyUpdate(doc, UpdateOpsOf(item, fields, now));
      "last_seen_at" in r && r["last_seen_at"] == JInt(now) &&
      (forall f :: f in fields && Recorded(item, f) ==>
        f in r && r[f] == item[f] && f + HistorySuffix in r &&
        r[f + HistorySuffix] == JArr(SubList(doc, f + HistorySuffix) + [HistoryEntry(now, item[f])])) &&
      (forall k :: k in doc && k != "last_seen_at" && k !in fields && !EndsWith(k, HistorySuffix) ==> k in r && r[k] == doc[k])
  {
    UpdateLastSeen(doc, item, fields, now);
    forall f | f in fields && Recorded(item, f)
      ensures var r := ApplyUpdate(doc, UpdateOpsOf(item, fields, now));
        f in r && r[f] == item[f] && f + HistorySuffix in r &&
        r[f + HistorySuffix] == JArr(SubList(doc, f + HistorySuffix) + [HistoryEntry(now, item[f])])
    {
      UpdateRecordsField(doc, item, fields, now, f);
    }
    forall k | k in doc && k != "last_seen_at" && k !in fields && !EndsWith(k, HistorySuffix)
      ensures var r := ApplyUpdate(doc, UpdateOpsOf(item, fields, now)); k in r && r[k] == doc[k]
    {
      UpdateKeepsOthers(doc, item, fields, now, k);
    }
  }

  // ---------------------------------------------------------------------------
  // Source configuration
  // ---------------------------------------------------------------------------

  /** A JSON list of strings. */
  function StrList(j: Json): Option<seq<string>>
  {
    if j.JArr? && forall k :: 0 <= k < |j.elems| ==> j.elems[k].JStr? then
      Some(seq(|j.elems|, k requires 0 <= k < |j.elems| && j.elems[k].JStr? => j.elems[k].s))
    else None
  }

  /** What `process` reads from a source's configuration. */
  datatype SourceConfig = SourceConfig(collection: string, dedupFields: seq<string>, timeVarying: seq<string>)

  /** `config["mongo_collection"]`, `config["dedup_fields"]` and
      `config.get("time_varying_fields", [])`, or None when one of them is
      missing or of the wrong shape (the source then raises). */
  function ParseConfig(c: Dict): Option<SourceConfig>
  {
    if "mongo_collection" in c && c["mongo_collection"].JStr? && "dedup_fields" in c
      && StrList(c["dedup_fields"]).Some? && StrList(GetOr(c, "time_varying_fields", JArr([]))).Some?
    then Some(SourceConfig(c["mongo_collection"].s, StrList(c["dedup_fields"]).value,
      StrList(GetOr(c, "time_varying_fields", JArr([]))).value))
    else None
  }

  datatype Failure = UnknownSource(name: string) | MalformedConfig(name: string)

  /** The text of the exception a failure raises: the `ValueError` of an
      unknown source names it; a malformed configuration raises whatever
      reading it raises, whose text is a parameter. */
  function FailureText(f: Failure, malformedText: string): string {
    match f
    case UnknownSource(name) => "未知信源: " + name
    case MalformedConfig(_) => malformedText
  }

  /** The configuration lookup shared by `process` and
      `process_batch_optimized`: a missing or empty configuration raises
      `ValueError`. */
  function Resolve(sources: Sources, name: string): (r: Result<SourceConfig, Failure>)
    ensures Lookup(sources, name).None? ==> r == Err(UnknownSource(name))
    ensures r.Ok? ==> Lookup(sources, name).Some? && ParseConfig(Lookup(sources, name).value) == Some(r.value)
  {
    match Lookup(sources, name)
    case None => Err(UnknownSource(name))
    case Some(c) =>
      if c == map[] then Err(UnknownSource(name))
      else match ParseConfig(c)
        case None => Err(MalformedConfig(name))
        case Some(cfg) => Ok(cfg)
  }

  // ---------------------------------------------------------------------------
  // The store and one item
  // ---------------------------------------------------------------------------

  /** Collection name to documents keyed by `item_id`. */
  type Db = map<string, map<string, Dict>>

  /** A missing collection reads as empty. */
  function Coll(db: Db, c: string): map<string, Dict> { if c in db then db[c] else map[] }

  datatype Action = Inserted | Updated | Skipped

  datatype ProcessResult = ProcessResult(action: Action, itemId: string, source: string)

  datatype StepOut = StepOut(result: Result<ProcessResult, Failure>, db: Db)

  /** `process` on one item, against the store as it stands. */
  function Step(db: Db, sources: Sources, item: Dict, name: string, now: int, md5: string -> string): StepOut
  {
    match Resolve(sources, name)
    case Err(e) => StepOut(Err(e), db)
    case Ok(cfg) =>
      var id := md5(IdContent(item, name, cfg.dedupFields));
      var coll := Coll(db, cfg.collection);
      if id in coll then
        if cfg.timeVarying == [] then StepOut(Ok(ProcessResult(Skipped, id, name)), db)
        else StepOut(Ok(ProcessResult(Updated, id, name)),
          db[cfg.collection := coll[id := ApplyUpdate(coll[id], UpdateOpsOf(item, cfg.timeVarying, now))]])
      else StepOut(Ok(ProcessResult(Inserted, id, name)),
        db[cfg.collection := coll[id := NewDoc(item, id, name, cfg.timeVarying, now)]])
  }

  /** One item's outcome: an unknown source changes nothing; otherwise the
      item's id is in its collection afterwards, the action says whether it
      was there before, and no other document or collection changes. */
  lemma StepProps(db: Db, sources: Sources, item: Dict, name: string, now: int, md5: string -> string)
    ensures var out := Step(db, sources, item, name, now, md5);
      (out.result.Err? <==> Resolve(sources, name).Err?) &&
      (out.result.Err? ==> out.db == db) &&
      (out.result.Ok? ==>
        var cfg := Resolve(sources, name).value;
        var id := md5(IdContent(item, name, cfg.dedupFields));
        out.result.value.itemId == id &&
        id in Coll(out.db, cfg.collection) &&
        (out.result.value.action == Inserted <==> id !in Coll(db, cfg.collection)) &&
        (out.result.value.action == Skipped <==> id in Coll(db, cfg.collection) && cfg.timeVarying == []) &&
        (out.result.value.action == Skipped ==> out.db == db) &&
        (forall c :: c != cfg.collection ==> Coll(out.db, c) == Coll(db, c)) &&
        (forall k :: k != id ==> ((k in Coll(out.db, cfg.collection) <==> k in Coll(db, cfg.collection)) &&
          (k in Coll(db, cfg.collection) ==> Coll(out.db, cfg.collection)[k] == Coll(db, cfg.collection)[k]))))
  {
    if Resolve(sources, name).Ok? {
      var cfg := Resolve(sources, name).value;
      var id := md5(IdContent(item, name, cfg.dedupFields));
      StepAsOp(db, sources, item, name, now, md5, cfg, id, ActionFor(Coll(db, cfg.collection).Keys, id, cfg));
    }
  }

  // ---------------------------------------------------------------------------
  // Batches
  // ---------------------------------------------------------------------------

  datatype Groups = Groups(inserted: seq<ProcessResult>, updated: seq<ProcessResult>, skipped: seq<ProcessResult>)

  function AddResult(g: Groups, r: ProcessResult): Groups
  {
    match r.action
    case Inserted => g.(inserted := g.inserted + [r])
    case Updated => g.(updated := g.updated + [r])
    case Skipped => g.(skipped := g.skipped + [r])
  }

  datatype BatchOut = BatchOut(db: Db, groups: Groups)

  /** `process_batch` on one more item: a failing item is dropped. */
  function BatchStep(b: BatchOut, sources: Sources, item: Dict, name: string, now: int, md5: string -> string): BatchOut
  {
    var out := Step(b.db, sources, item, name, now, md5);
    if out.result.Ok? then BatchOut(out.db, AddResult(b.groups, out.result.value)) else b
  }

  /** `process_batch` as a value: each item in turn against the store the
      earlier items left. */
  function BatchRun(db: Db, sources: Sources, items: seq<Dict>, name: string, now: int, md5: string -> string): BatchOut
  {
    if items == [] then BatchOut(db, Groups([], [], []))
    else BatchStep(BatchRun(db, sources, items[..|items| - 1], name, now, md5), sources, items[|items| - 1], name, now, md5)
  }

  function GroupCount(g: Groups): nat { |g.inserted| + |g.updated| + |g.skipped| }

  predicate GroupedRight(g: Groups)
  {
    (forall r :: r in g.inserted ==> r.action == Inserted) &&
    (forall r :: r in g.updated ==> r.action == Updated) &&
    (forall r :: r in g.skipped ==> r.action == Skipped)
  }

  /** Every result is filed under its own action; with a usable
      configuration every item yields exactly one result, and with an
      unknown source none does and the store is untouched. */
  lemma {:induction false} BatchRunProps(db: Db, sources: Sources, items: seq<Dict>, name: string, now: int, md5: string -> string)
    ensures var b := BatchRun(db, sources, items, name, now, md5);
      GroupedRight(b.groups) &&
      (Resolve(sources, name).Ok? ==> GroupCount(b.groups) == |items|) &&
      (Resolve(sources, name).Err? ==> b.db == db && GroupCount(b.groups) == 0)
  {
    if items != [] {
      BatchRunProps(db, sources, items[..|items| - 1], name, now, md5);
      var b := BatchRun(db, sources, items[..|items| - 1], name, now, md5);
      BatchStepProps(b, sources, items[|items| - 1], name, now, md5);
    }
  }

  /** One more item files its result under its action and counts once, or
      leaves everything as it was when the source is unknown. */
  lemma BatchStepProps(b: BatchOut, sources: Sources, item: Dict, name: string, now: int, md5: string -> string)
    requires GroupedRight(b.groups)
    ensures var b1 := BatchStep(b, sources, item, name, now, md5);
      && GroupedRight(b1.groups)
      && (Resolve(sources, name).Ok? ==> GroupCount(b1.groups) == GroupCount(b.groups) + 1)
      && (Resolve(sources, name).Err? ==> b1 == b)
  {
    var out := Step(b.db, sources, item, name, now, md5);
    assert out.result.Err? <==> Resolve(sources, name).Err? by {
      StepProps(b.db, sources, item, name, now, md5);
    }
    if out.result.Ok? {
      AddResultProps(b.groups, out.result.value);
    }
  }

  lemma AddResultProps(g: Groups, r: ProcessResult)
    requires GroupedRight(g)
    ensures GroupedRight(AddResult(g, r)) && GroupCount(AddResult(g, r)) == GroupCount(g) + 1
  {
  }

  /** One bulk operation of `process_batch_optimized`. */
  datatype BulkOp =
    | UpsertNew(id: string, doc: Dict)        // `$setOnInsert` with upsert
    | UpdateKnown(id: string, ops: UpdateOps) // `$set`/`$push` by item_id

  function ApplyOp(coll: map<string, Dict>, op: BulkOp): map<string, Dict>
  {
    match op
    case UpsertNew(id, doc) => if id in coll then coll else coll[id := doc]
    case UpdateKnown(id, ops) => if id in coll then coll[id := ApplyUpdate(coll[id], ops)] else coll
  }

  /** `bulk_write`, in order. */
  function ApplyOps(coll: map<string, Dict>, ops: seq<BulkOp>): map<string, Dict>
  {
    if ops == [] then coll else ApplyOp(ApplyOps(coll, ops[..|ops| - 1]), ops[|ops| - 1])
  }

  datatype Stats = Stats(inserted: nat, updated: nat, skipped: nat)

  /** One more item counted under an action. */
  function Bump(s: Stats, a: Action): Stats
  {
    match a
    case Inserted => s.(inserted := s.inserted + 1)
    case Updated => s.(updated := s.updated + 1)
    case Skipped => s.(skipped := s.skipped + 1)
  }

  datatype Plan = Plan(ops: seq<BulkOp>, stats: Stats)

  /** How the classification loop judges an id against the ids stored
      before the batch. */
  function ActionFor(existing: set<string>, id: string, cfg: SourceConfig): Action
  {
    if id in existing then (if cfg.timeVarying == [] then Skipped else Updated) else Inserted
  }

  /** The bulk operation queued for an item, if any. */
  function OpsFor(a: Action, item: Dict, id: string, name: string, cfg: SourceConfig, now: int): seq<BulkOp>
  {
    match a
    case Inserted => [UpsertNew(id, NewDoc(item, id, name, cfg.timeVarying, now))]
    case Updated => [UpdateKnown(id, UpdateOpsOf(item, cfg.timeVarying, now))]
    case Skipped => []
  }

  /** The classification loop on one more item. */
  function PlanStep(p: Plan, existing: set<string>, item: Dict, id: string, name: string, cfg: SourceConfig, now: int): Plan
  {
    var a := ActionFor(existing, id, cfg);
    Plan(p.ops + OpsFor(a, item, id, name, cfg, now), Bump(p.stats, a))
  }

  /** The classification loop as a value. */
  function PlanOps(existing: set<string>, items: seq<Dict>, ids: seq<string>, name: string, cfg: SourceConfig, now: int): Plan
    requires |ids| == |items|
  {
    if items == [] then Plan([], Stats(0, 0, 0))
    else PlanStep(PlanOps(existing, items[..|items| - 1], ids[..|ids| - 1], name, cfg, now),
      existing, items[|items| - 1], ids[|ids| - 1], name, cfg, now)
  }

  function ItemIds(items: seq<Dict>, name: string, fields: seq<string>, md5: string -> string): (r: seq<string>)
    ensures |r| == |items|
    ensures forall k :: 0 <= k < |items| ==> r[k] == md5(IdContent(items[k], name, fields))
  {
    if items == [] then [] else ItemIds(items[..|items| - 1], name, fields, md5) + [md5(IdContent(items[|items| - 1], name, fields))]
  }

  lemma ItemIdsSnoc(items: seq<Dict>, n: nat, name: string, fields: seq<string>, md5: string -> string)
    requires n < |items|
    ensures ItemIds(items[..n + 1], name, fields, md5) == ItemIds(items[..n], name, fields, md5) + [md5(IdContent(items[n], name, fields))]
  {
    assert items[..n + 1][..n] == items[..n];
  }

  /** The ids of a batch that the store already holds. */
  function StoredIds(ids: seq<string>, coll: map<string, Dict>): set<string>
  {
    set k | 0 <= k < |ids| && ids[k] in coll :: ids[k]
  }

  datatype OptimizedOut = OptimizedOut(result: Result<Stats, Failure>, db: Db)

  /** `process_batch_optimized` as a value. */
  function Optimized(db: Db, sources: Sources, items: seq<Dict>, name: string, now: int, md5: string -> string): OptimizedOut
  {
    match Resolve(sources, name)
    case Err(e) => OptimizedOut(Err(e), db)
    case Ok(cfg) =>
      var ids := ItemIds(items, name, cfg.dedupFields, md5);
      var coll := Coll(db, cfg.collection);
      var p := PlanOps(StoredIds(ids, coll), items, ids, name, cfg, now);
      OptimizedOut(Ok(p.stats), if p.ops == [] then db else db[cfg.collection := ApplyOps(coll, p.ops)])
  }

  /** How many of the ids are in the set. */
  function CountIn(ids: seq<string>, existing: set<string>): (r: nat)
    ensures r <= |ids|
  {
    if ids == [] then 0 else CountIn(ids[..|ids| - 1], existing) + (if ids[|ids| - 1] in existing then 1 else 0)
  }

  /** The counts add up to the number of items: the ids not stored before
      are counted as inserted, and the stored ones as updated when
      time-varying fields are configured and as skipped otherwise. */
  lemma {:induction false} PlanCounts(existing: set<string>, items: seq<Dict>, ids: seq<string>, name: string, cfg: SourceConfig, now: int)
    requires |ids| == |items|
    ensures var s := PlanOps(existing, items, ids, name, cfg, now).stats;
      s.inserted + s.updated + s.skipped == |items| &&
      s.inserted == |ids| - CountIn(ids, existing) &&
      (cfg.timeVarying == [] ==> s.updated == 0 && s.skipped == CountIn(ids, existing)) &&
      (cfg.timeVarying != [] ==> s.skipped == 0 && s.updated == CountIn(ids, existing))
  {
    if items != [] {
      var n := |items| - 1;
      PlanCounts(existing, items[..n], ids[..n], name, cfg, now);
    }
  }

  /** With a usable configuration the optimized batch reports counts that
      add up to the batch; an unknown source reports the error and changes
      nothing. */
  lemma OptimizedProps(db: Db, sources: Sources, items: seq<Dict>, name: string, now: int, md5: string -> string)
    ensures var out := Optimized(db, sources, items, name, now, md5);
      (out.result.Err? <==> Resolve(sources, name).Err?) &&
      (out.result.Err? ==> out.db == db) &&
      (out.result.Ok? ==> out.result.value.inserted + out.result.value.updated + out.result.value.skipped == |items|)
  {
    match Resolve(sources, name)
    case Err(e) =>
    case Ok(cfg) =>
      var ids := ItemIds(items, name, cfg.dedupFields, md5);
      PlanCounts(StoredIds(ids, Coll(db, cfg.collection)), items, ids, name, cfg, now);
  }

  /** The same item twice in a batch whose id is new: the optimized path
      counts two insertions, though its second upsert finds the document the
      first one created and changes nothing. */
  lemma DuplicateCountedTwice(sources: Sources, item: Dict, name: string, now: int, md5: string -> string)
    requires Resolve(sources, name).Ok?
    ensures var cfg := Resolve(sources, name).value;
      var id := md5(IdContent(item, name, cfg.dedupFields));
      var opt := Optimized(map[], sources, [item, item], name, now, md5);
      opt.result == Ok(Stats(2, 0, 0)) &&
      Coll(opt.db, cfg.collection) == map[id := NewDoc(item, id, name, cfg.timeVarying, now)]
  {
    var cfg := Resolve(sources, name).value;
    var id := md5(IdContent(item, name, cfg.dedupFields));
    var ids := ItemIds([item, item], name, cfg.dedupFields, md5);
    assert ids == [id, id];
    assert StoredIds(ids, map[]) == {};
    var doc := NewDoc(item, id, name, cfg.timeVarying, now);
    PlanDuplicate(item, id, name, cfg, now);
    UpsertTwice(id, doc);
  }

  /** Classifying the same new item twice queues two insertions. */
  lemma PlanDuplicate(item: Dict, id: string, name: string, cfg: SourceConfig, now: int)
    ensures var op := UpsertNew(id, NewDoc(item, id, name, cfg.timeVarying, now));
      PlanOps({}, [item, item], [id, id], name, cfg, now) == Plan([op, op], Stats(2, 0, 0))
  {
    var op := UpsertNew(id, NewDoc(item, id, name, cfg.timeVarying, now));
    assert [item, item][..1] == [item] && [id, id][..1] == [id];
    assert [item][..0] == [] && [id][..0] == [];
    assert PlanOps({}, [item], [id], name, cfg, now) == Plan([op], Stats(1, 0, 0));
  }

  /** The second of two equal upserts finds the first one's document. */
  lemma UpsertTwice(id: string, doc: Dict)
    ensures ApplyOps(map[], [UpsertNew(id, doc), UpsertNew(id, doc)]) == map[id := doc]
  {
    var op := UpsertNew(id, doc);
    assert [op, op][..1] == [op];
    assert [op][..0] == [];
    assert ApplyOps(map[], [op]) == ApplyOp(map[], op) == map[id := doc];
  }

  /** The item-by-item path on the same batch counts one insertion. */
  lemma DuplicateCountedOnce(sources: Sources, item: Dict, name: string, now: int, md5: string -> string)
    requires Resolve(sources, name).Ok?
    ensures |BatchRun(map[], sources, [item, item], name, now, md5).groups.inserted| == 1
  {
    var cfg := Resolve(sources, name).value;
    var id := md5(IdContent(item, name, cfg.dedupFields));
    assert [item, item][..1] == [item];
    assert [item][..0] == [];
    var b1 := BatchRun(map[], sources, [item], name, now, md5);
    assert BatchRun(map[], sources, [], name, now, md5) == BatchOut(map[], Groups([], [], []));
    assert Step(map[], sources, item, name, now, md5).result == Ok(ProcessResult(Inserted, id, name));
    assert b1.groups == Groups([ProcessResult(Inserted, id, name)], [], []);
    assert id in Coll(b1.db, cfg.collection);
  }

  /** What the classification loop has reached after n items. */
  function OpsSoFar(existing: set<string>, items: seq<Dict>, ids: seq<string>, n: nat, name: string, cfg: SourceConfig, now: int): Plan
    requires |ids| == |items| && n <= |items|
  {
    PlanOps(existing, items[..n], ids[..n], name, cfg, now)
  }

  // ---------------------------------------------------------------------------
  // Agreement of the two batch paths
  // ---------------------------------------------------------------------------

  /** Every operation of a plan acts on one of the plan's ids. */
  lemma {:induction false} PlanIds(existing: set<string>, items: seq<Dict>, ids: seq<string>, name: string, cfg: SourceConfig, now: int)
    requires |ids| == |items|
    ensures forall op :: op in PlanOps(existing, items, ids, name, cfg, now).ops ==> op.id in ids
  {
    if items != [] {
      var n := |items| - 1;
      PlanIds(existing, items[..n], ids[..n], name, cfg, now);
      assert forall k :: 0 <= k < n ==> ids[..n][k] == ids[k];
    }
  }

  /** Operations on other ids leave a key's presence and document alone. */
  lemma {:induction false} ApplyOpsOther(coll: map<string, Dict>, ops: seq<BulkOp>, k: string)
    requires forall op :: op in ops ==> op.id != k
    ensures (k in ApplyOps(coll, ops) <==> k in coll) && (k in coll ==> ApplyOps(coll, ops)[k] == coll[k])
  {
    if ops != [] {
      ApplyOpsOther(coll, ops[..|ops| - 1], k);
      assert ops[|ops| - 1] in ops;
    }
  }

  lemma ApplyOpsSnoc(coll: map<string, Dict>, ops: seq<BulkOp>, more: seq<BulkOp>)
    requires |more| <= 1
    ensures ApplyOps(coll, ops + more) == if more == [] then ApplyOps(coll, ops) else ApplyOp(ApplyOps(coll, ops), more[0])
  {
    if more == [] {
      assert ops + more == ops;
    } else {
      assert (ops + more)[..|ops|] == ops;
    }
  }

  predicate Matches(g: Groups, s: Stats)
  {
    |g.inserted| == s.inserted && |g.updated| == s.updated && |g.skipped| == s.skipped
  }

  /** The invariant relating the two paths after some prefix of the batch:
      the collection is what the queued operations make of the original one,
      the other collections are untouched, and the counts agree. */
  ghost predicate Agree(b: BatchOut, p: Plan, db: Db, cfg: SourceConfig)
  {
    Coll(b.db, cfg.collection) == ApplyOps(Coll(db, cfg.collection), p.ops) &&
    (forall c :: c != cfg.collection ==> Coll(b.db, c) == Coll(db, c)) &&
    Matches(b.groups, p.stats)
  }

  /** Item by item: when the item's id is stored in the store it meets
      exactly when it was stored before the batch, processing the item and
      queueing its operation keep the two paths in agreement. */
  lemma AgreeStep(b: BatchOut, p: Plan, db: Db, sources: Sources, item: Dict, name: string, now: int, md5: string -> string,
                  cfg: SourceConfig, existing: set<string>)
    requires Resolve(sources, name) == Ok(cfg)
    requires Agree(b, p, db, cfg)
    requires md5(IdContent(item, name, cfg.dedupFields)) in Coll(b.db, cfg.collection) <==>
      md5(IdContent(item, name, cfg.dedupFields)) in existing
    ensures Agree(BatchStep(b, sources, item, name, now, md5),
      PlanStep(p, existing, item, md5(IdContent(item, name, cfg.dedupFields)), name, cfg, now), db, cfg)
  {
    var id := md5(IdContent(item, name, cfg.dedupFields));
    var a := ActionFor(existing, id, cfg);
    StepAsOp(b.db, sources, item, name, now, md5, cfg, id, a);
    AgreeAfter(b, p, db, cfg, ProcessResult(a, id, name), Step(b.db, sources, item, name, now, md5).db,
      OpsFor(a, item, id, name, cfg, now));
  }

  /** Processing an item acts on its collection as the one bulk operation
      the classification loop queues for it. */
  lemma StepAsOp(db: Db, sources: Sources, item: Dict, name: string, now: int, md5: string -> string,
                 cfg: SourceConfig, id: string, a: Action)
    requires Resolve(sources, name) == Ok(cfg)
    requires id == md5(IdContent(item, name, cfg.dedupFields))
    requires a == ActionFor(Coll(db, cfg.collection).Keys, id, cfg)
    ensures var out := Step(db, sources, item, name, now, md5);
      var more := OpsFor(a, item, id, name, cfg, now);
      out.result == Ok(ProcessResult(a, id, name)) &&
      Coll(out.db, cfg.collection) == (if more == [] then Coll(db, cfg.collection) else ApplyOp(Coll(db, cfg.collection), more[0])) &&
      forall c :: c != cfg.collection ==> Coll(out.db, c) == Coll(db, c)
  {
  }

  /** The two paths stay in agreement when the store and the queue take the
      same one operation (or none) and the item lands in the same group. */
  lemma AgreeAfter(b: BatchOut, p: Plan, db: Db, cfg: SourceConfig, r: ProcessResult, newDb: Db, more: seq<BulkOp>)
    requires Agree(b, p, db, cfg) && |more| <= 1
    requires Coll(newDb, cfg.collection) ==
      if more == [] then Coll(b.db, cfg.collection) else ApplyOp(Coll(b.db, cfg.collection), more[0])
    requires forall c :: c != cfg.collection ==> Coll(newDb, c) == Coll(b.db, c)
    ensures Agree(BatchOut(newDb, AddResult(b.groups, r)), Plan(p.ops + more, Bump(p.stats, r.action)), db, cfg)
  {
    ApplyOpsSnoc(Coll(db, cfg.collection), p.ops, more);
  }

  /** An id of a batch without repeats is not among the earlier ids. */
  lemma NotQueued(ids: seq<string>, m: nat, ops: seq<BulkOp>)
    requires Distinct(ids) && m < |ids|
    requires forall op :: op in ops ==> op.id in ids[..m]
    ensures forall op :: op in ops ==> op.id != ids[m]
  {
    forall op | op in ops ensures op.id != ids[m] {
      var k :| 0 <= k < m && ids[..m][k] == op.id;
      assert ids[k] == op.id;
    }
  }

  lemma StoredIdsMember(ids: seq<string>, coll: map<string, Dict>, m: nat)
    requires m < |ids|
    ensures ids[m] in StoredIds(ids, coll) <==> ids[m] in coll
  {
  }

  lemma BatchRunSnoc(db: Db, sources: Sources, items: seq<Dict>, name: string, now: int, md5: string -> string, m: nat)
    requires m < |items|
    ensures BatchRun(db, sources, items[..m + 1], name, now, md5) ==
      BatchStep(BatchRun(db, sources, items[..m], name, now, md5), sources, items[m], name, now, md5)
  {
    assert items[..m + 1][..m] == items[..m];
  }

  lemma PlanOpsSnoc(existing: set<string>, items: seq<Dict>, ids: seq<string>, name: string, cfg: SourceConfig, now: int, m: nat)
    requires |ids| == |items| && m < |items|
    ensures PlanOps(existing, items[..m + 1], ids[..m + 1], name, cfg, now) ==
      PlanStep(PlanOps(existing, items[..m], ids[..m], name, cfg, now), existing, items[m], ids[m], name, cfg, now)
  {
    assert items[..m + 1][..m] == items[..m] && ids[..m + 1][..m] == ids[..m];
  }

  /** The agreement, for every prefix of the batch. */
  lemma {:induction false} AgreePrefix(db: Db, sources: Sources, items: seq<Dict>, name: string, now: int, md5: string -> string,
                                       cfg: SourceConfig, ids: seq<string>, n: nat)
    requires Resolve(sources, name) == Ok(cfg)
    requires ids == ItemIds(items, name, cfg.dedupFields, md5) && Distinct(ids)
    requires n <= |items|
    ensures Agree(BatchRun(db, sources, items[..n], name, now, md5),
      PlanOps(StoredIds(ids, Coll(db, cfg.collection)), items[..n], ids[..n], name, cfg, now), db, cfg)
  {
    var coll := Coll(db, cfg.collection);
    var existing := StoredIds(ids, coll);
    if n > 0 {
      var m := n - 1;
      AgreePrefix(db, sources, items, name, now, md5, cfg, ids, m);
      var p0 := PlanOps(existing, items[..m], ids[..m], name, cfg, now);
      var b0 := BatchRun(db, sources, items[..m], name, now, md5);
      PlanIds(existing, items[..m], ids[..m], name, cfg, now);
      NotQueued(ids, m, p0.ops);
      ApplyOpsOther(coll, p0.ops, ids[m]);
      StoredIdsMember(ids, coll, m);
      AgreeStep(b0, p0, db, sources, items[m], name, now, md5, cfg, existing);
      BatchRunSnoc(db, sources, items, name, now, md5, m);
      PlanOpsSnoc(existing, items, ids, name, cfg, now, m);
    } else {
      assert items[..0] == [] && ids[..0] == [];
    }
  }

  /** A batch without repeated ids: `process_batch` and
      `process_batch_optimized` leave the same documents and count the same
      actions, since every id meets the store as it was before the batch. */
  lemma BatchPathsAgree(db: Db, sources: Sources, items: seq<Dict>, name: string, now: int, md5: string -> string)
    requires Resolve(sources, name).Ok?
    requires Distinct(ItemIds(items, name, Resolve(sources, name).value.dedupFields, md5))
    ensures var opt := Optimized(db, sources, items, name, now, md5);
      var b := BatchRun(db, sources, items, name, now, md5);
      opt.result.Ok? && (forall c :: Coll(b.db, c) == Coll(opt.db, c)) && Matches(b.groups, opt.result.value)
  {
    var cfg := Resolve(sources, name).value;
    var ids := ItemIds(items, name, cfg.dedupFields, md5);
    var coll := Coll(db, cfg.collection);
    var p := PlanOps(StoredIds(ids, coll), items, ids, name, cfg, now);
    var b := BatchRun(db, sources, items, name, now, md5);
    AgreePrefix(db, sources, items, name, now, md5, cfg, ids, |items|);
    assert items[..|items|] == items && ids[..|ids|] == ids;
    assert Agree(b, p, db, cfg);
    var opt := Optimized(db, sources, items, name, now, md5);
    var db' := if p.ops == [] then db else db[cfg.collection := ApplyOps(coll, p.ops)];
    assert opt == OptimizedOut(Ok(p.stats), db');
    AgreeFinal(b, p, db, cfg, db');
  }

  /** Agreement after the whole batch: the store of `process_batch` is the
      one the bulk write of the queued operations leaves. */
  lemma AgreeFinal(b: BatchOut, p: Plan, db: Db, cfg: SourceConfig, db': Db)
    requires Agree(b, p, db, cfg)
    requires db' == if p.ops == [] then db else db[cfg.collection := ApplyOps(Coll(db, cfg.collection), p.ops)]
    ensures forall c :: Coll(b.db, c) == Coll(db', c)
  {
  }

  // ---------------------------------------------------------------------------
  // The processor
  // ---------------------------------------------------------------------------

  class DataProcessor {
    const loader: Loader
    var db: Db
    var connected: bool

    /** `__init__`: a fresh configuration loader over the given files and a
        store that is not yet connected. */
    constructor(dirExists: bool, files: seq<YamlFile>, scheduleFile: ScheduleFile, store: Db)
      ensures fresh(loader) && loader.sources == Loaded([], dirExists, files)
      ensures db == store && !connected
    {
      loader := new Loader(dirExists, files, scheduleFile);
      db := store;
      connected := false;
    }

    /** `connect`: idempotent. */
    method Connect()
      modifies this
      ensures connected && db == old(db)
    {
      if !connected {
        connected := true;
      }
    }

    /** `close`. */
    method Close()
      modifies this
      ensures !connected && db == old(db)
    {
      if connected {
        connected := false;
      }
    }

    method ResolveSource(name: string) returns (r: Result<SourceConfig, Failure>)
      ensures r == Resolve(loader.sources, name)
    {
      var config := loader.GetSource(name);
      if config.None? || config.value == map[] {
        return Err(UnknownSource(name));
      }
      var cfg := ParseConfig(config.value);
      if cfg.None? {
        return Err(MalformedConfig(name));
      }
      return Ok(cfg.value);
    }

    /** `process`. */
    method Process(item: Dict, name: string, now: int, md5: string -> string) returns (r: Result<ProcessResult, Failure>)
      modifies this
      ensures StepOut(r, db) == Step(old(db), loader.sources, item, name, now, md5)
      ensures connected == (old(connected) || r.Ok?)
    {
      var cfg := ResolveSource(name);
      if cfg.Err? {
        return Err(cfg.error);
      }
      var c := cfg.value;
      Connect();
      var id := GenerateItemId(item, name, c.dedupFields, md5);
      var coll := Coll(db, c.collection);
      if id in coll {
        if c.timeVarying == [] {
          return Ok(ProcessResult(Skipped, id, name));
        }
        var ops := BuildUpdateOps(item, c.timeVarying, now);
        db := db[c.collection := coll[id := ApplyUpdate(coll[id], ops)]];
        return Ok(ProcessResult(Updated, id, name));
      }
      var doc := BuildNewDoc(item, id, name, c.timeVarying, now);
      db := db[c.collection := coll[id := doc]];
      return Ok(ProcessResult(Inserted, id, name));
    }

    /** `process_batch`: a failing item is logged and dropped. */
    method ProcessBatch(items: seq<Dict>, name: string, now: int, md5: string -> string) returns (groups: Groups)
      modifies this
      ensures BatchOut(db, groups) == BatchRun(old(db), loader.sources, items, name, now, md5)
      ensures connected == (old(connected) || (items != [] && Resolve(loader.sources, name).Ok?))
    {
      groups := Groups([], [], []);
      for n := 0 to |items|
        invariant BatchOut(db, groups) == BatchRun(old(db), loader.sources, items[..n], name, now, md5)
        invariant connected == (old(connected) || (n > 0 && Resolve(loader.sources, name).Ok?))
      {
        assert items[..n + 1][..n] == items[..n];
        var r := Process(items[n], name, now, md5);
        if r.Ok? {
          groups := AddResult(groups, r.value);
        }
      }
      assert items[..|items|] == items;
    }

    /** The id loop of `process_batch_optimized`. */
    method ComputeIds(items: seq<Dict>, name: string, fields: seq<string>, md5: string -> string) returns (ids: seq<string>)
      ensures ids == ItemIds(items, name, fields, md5)
    {
      ids := [];
      for n := 0 to |items|
        invariant ids == ItemIds(items[..n], name, fields, md5)
      {
        ItemIdsSnoc(items, n, name, fields, md5);
        var id := GenerateItemId(items[n], name, fields, md5);
        ids := ids + [id];
      }
      assert items[..|items|] == items;
    }

    /** The classification loop of `process_batch_optimized`. */
    method Classify(existing: set<string>, items: seq<Dict>, ids: seq<string>, name: string, c: SourceConfig, now: int)
      returns (ops: seq<BulkOp>, stats: Stats)
      requires |ids| == |items|
      ensures Plan(ops, stats) == PlanOps(existing, items, ids, name, c, now)
    {
      ops := [];
      stats := Stats(0, 0, 0);
      for n := 0 to |items|
        invariant Plan(ops, stats) == OpsSoFar(existing, items, ids, n, name, c, now)
      {
        assert items[..n + 1][..n] == items[..n] && ids[..n + 1][..n] == ids[..n];
        var id := ids[n];
        if id in existing {
          if c.timeVarying == [] {
            stats := stats.(skipped := stats.skipped + 1);
          } else {
            var u := BuildUpdateOps(items[n], c.timeVarying, now);
            ops := ops + [UpdateKnown(id, u)];
            stats := stats.(updated := stats.updated + 1);
          }
        } else {
          var doc := BuildNewDoc(items[n], id, name, c.timeVarying, now);
          ops := ops + [UpsertNew(id, doc)];
          stats := stats.(inserted := stats.inserted + 1);
        }
      }
      assert items[..|items|] == items && ids[..|ids|] == ids;
    }

    /** `process_batch_optimized`: ids first, one query for the stored ones,
        one classification pass, one bulk write. */
    method ProcessBatchOptimized(items: seq<Dict>, name: string, now: int, md5: string -> string) returns (r: Result<Stats, Failure>)
      modifies this
      ensures OptimizedOut(r, db) == Optimized(old(db), loader.sources, items, name, now, md5)
      ensures connected == (old(connected) || r.Ok?)
    {
      var cfg := ResolveSource(name);
      if cfg.Err? {
        return Err(cfg.error);
      }
      var c := cfg.value;
      Connect();
      var ids := ComputeIds(items, name, c.dedupFields, md5);
      var coll := Coll(db, c.collection);
      var existing := set k | 0 <= k < |ids| && ids[k] in coll :: ids[k];
      var ops, stats := Classify(existing, items, ids, name, c, now);
      if ops != [] {
        db := db[c.collection := ApplyOps(coll, ops)];
      }
      return Ok(stats);
    }
  }
}
