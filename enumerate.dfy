/** The loop every aggregator parser shares:
    `for rank, item in enumerate(raw_items, start=1)`, where each entry is
    skipped, turned into one normalised item, or raises and aborts the
    whole parse. */
module Enumerate {
  import opened Common
  import opened Json

  /** What one entry contributes. */
  datatype Step = Skip | Keep(item: Dict) | Raise

  /** The items the loop collects, or None when an entry raises. */
  function Enumerated(entries: seq<Json>, build: (Json, nat) -> Step): Option<seq<Dict>> {
    if entries == [] then Some([])
    else match Enumerated(entries[..|entries| - 1], build)
      case None => None
      case Some(items) =>
        match build(entries[|entries| - 1], |entries|)
        case Skip => Some(items)
        case Keep(d) => Some(items + [d])
        case Raise => None
  }

  /** The 1-based ranks of the entries that were kept. */
  function KeptRanks(entries: seq<Json>, build: (Json, nat) -> Step): seq<nat> {
    if entries == [] then []
    else KeptRanks(entries[..|entries| - 1], build) + (if build(entries[|entries| - 1], |entries|).Keep? then [|entries|] else [])
  }

  predicate RanksIncreasing(ranks: seq<nat>) {
    forall i, j :: 0 <= i < j < |ranks| ==> ranks[i] < ranks[j]
  }

  /** The parse fails exactly when some entry raises. */
  lemma {:induction false} EnumeratedFails(entries: seq<Json>, build: (Json, nat) -> Step)
    ensures Enumerated(entries, build).None? <==> exists i :: 0 <= i < |entries| && build(entries[i], i + 1).Raise?
  {
    if entries != [] {
      var n := |entries| - 1;
      var init := entries[..n];
      EnumeratedFails(init, build);
      if Enumerated(init, build).None? {
        var i :| 0 <= i < n && build(init[i], i + 1).Raise?;
        assert entries[i] == init[i];
      } else if !build(entries[n], n + 1).Raise? {
        forall i | 0 <= i < |entries| ensures !build(entries[i], i + 1).Raise? {
          if i < n { assert entries[i] == init[i]; }
        }
      }
    }
  }

  /** The kept ranks increase, lie within the entries, and are exactly the
      ranks of the entries that were kept; the gaps are the skipped ones. */
  lemma {:induction false} KeptRanksProps(entries: seq<Json>, build: (Json, nat) -> Step)
    ensures var ranks := KeptRanks(entries, build);
      RanksIncreasing(ranks) && (forall k :: 0 <= k < |ranks| ==> 1 <= ranks[k] <= |entries|)
      && (forall i :: 0 <= i < |entries| ==> (build(entries[i], i + 1).Keep? <==> i + 1 in ranks))
  {
    if entries != [] {
      var n := |entries| - 1;
      var init := entries[..n];
      KeptRanksProps(init, build);
      var r0 := KeptRanks(init, build);
      var ranks := KeptRanks(entries, build);
      assert ranks[..|r0|] == r0;
      forall i | 0 <= i < |entries| ensures build(entries[i], i + 1).Keep? <==> i + 1 in ranks {
        if i < n {
          assert entries[i] == init[i];
        } else {
          forall k | 0 <= k < |r0| ensures r0[k] != i + 1 { }
        }
      }
    }
  }

  /** Item k is the item built from the entry of the k-th kept rank. */
  lemma {:induction false} EnumeratedItems(entries: seq<Json>, build: (Json, nat) -> Step)
    requires Enumerated(entries, build).Some?
    ensures ItemsAt(entries, build, Enumerated(entries, build).value, KeptRanks(entries, build))
  {
    if entries != [] {
      var n := |entries|;
      var init := entries[..n - 1];
      var items0, ranks0 := Enumerated(init, build).value, KeptRanks(init, build);
      EnumeratedItems(init, build);
      ItemsAtLast(entries, build, items0, ranks0);
      var st := build(entries[n - 1], n);
      if st.Keep? {
        assert Enumerated(entries, build).value == items0 + [st.item];
        assert KeptRanks(entries, build) == ranks0 + [n];
      } else {
        assert Enumerated(entries, build).value == items0;
        assert KeptRanks(entries, build) == ranks0;
      }
    }
  }

  /** Each item is the one built from the entry at its rank. */
  predicate ItemsAt(entries: seq<Json>, build: (Json, nat) -> Step, items: seq<Dict>, ranks: seq<nat>) {
    |items| == |ranks| && forall k :: 0 <= k < |items| ==> 1 <= ranks[k] <= |entries| && build(entries[ranks[k] - 1], ranks[k]) == Keep(items[k])
  }

  lemma ItemsAtLast(entries: seq<Json>, build: (Json, nat) -> Step, items: seq<Dict>, ranks: seq<nat>)
    requires entries != [] && ItemsAt(entries[..|entries| - 1], build, items, ranks)
    ensures ItemsAt(entries, build, items, ranks)
    ensures var n := |entries|; build(entries[n - 1], n).Keep? ==>
      ItemsAt(entries, build, items + [build(entries[n - 1], n).item], ranks + [n])
  {
    var init := entries[..|entries| - 1];
    forall k | 0 <= k < |items| ensures entries[ranks[k] - 1] == init[ranks[k] - 1] { }
  }

  /** The loop itself, collecting into a list and giving up when an entry
      raises. */
  method ParseEntries(entries: seq<Json>, build: (Json, nat) -> Step) returns (items: Option<seq<Dict>>)
    ensures items == Enumerated(entries, build)
  {
    var collected: seq<Dict> := [];
    var i := 0;
    while i < |entries|
      invariant 0 <= i <= |entries|
      invariant Enumerated(entries[..i], build) == Some(collected)
    {
      EnumeratedSnoc(entries, i, build);
      var step := build(entries[i], i + 1);
      if step.Raise? {
        EnumeratedRaise(entries, build, i + 1);
        return None;
      }
      if step.Keep? {
        collected := collected + [step.item];
      }
      i := i + 1;
    }
    assert entries[..i] == entries;
    return Some(collected);
  }

  /** Once an entry raises, the whole parse fails. */
  lemma {:induction false} EnumeratedRaise(entries: seq<Json>, build: (Json, nat) -> Step, n: nat)
    requires 1 <= n <= |entries| && build(entries[n - 1], n).Raise?
    ensures Enumerated(entries, build).None?
    decreases |entries|
  {
    if n < |entries| {
      EnumeratedRaise(entries[..|entries| - 1], build, n);
    }
  }

  /** Every kept item carries its 1-based rank as `position`. */
  ghost predicate PositionsAreRanks(build: (Json, nat) -> Step) {
    forall e: Json, rank: nat :: build(e, rank).Keep? ==>
      "position" in build(e, rank).item && build(e, rank).item["position"] == JInt(rank)
  }

  /** When every kept item is stamped with its rank, the positions of the
      parsed items lie within the raw list and strictly increase. */
  lemma EnumeratedPositions(entries: seq<Json>, build: (Json, nat) -> Step)
    requires PositionsAreRanks(build) && Enumerated(entries, build).Some?
    ensures var items := Enumerated(entries, build).value;
      (forall k :: 0 <= k < |items| ==>
        "position" in items[k] && items[k]["position"].JInt? && 1 <= items[k]["position"].i <= |entries|)
      && forall i, j :: 0 <= i < j < |items| ==> items[i]["position"].i < items[j]["position"].i
  {
    EnumeratedItems(entries, build);
    KeptRanksProps(entries, build);
    var items := Enumerated(entries, build).value;
    var ranks := KeptRanks(entries, build);
    forall k | 0 <= k < |items| ensures "position" in items[k] && items[k]["position"] == JInt(ranks[k]) {
      assert build(entries[ranks[k] - 1], ranks[k]) == Keep(items[k]);
    }
  }

  /** Every item the builder keeps has property `P`. */
  ghost predicate KeepsOnly(build: (Json, nat) -> Step, P: Dict -> bool) {
    forall e: Json, rank: nat :: build(e, rank).Keep? ==> P(build(e, rank).item)
  }

  /** Then so does every parsed item. */
  lemma EnumeratedKeepsOnly(entries: seq<Json>, build: (Json, nat) -> Step, P: Dict -> bool)
    requires KeepsOnly(build, P) && Enumerated(entries, build).Some?
    ensures var items := Enumerated(entries, build).value;
      forall k :: 0 <= k < |items| ==> P(items[k])
  {
    EnumeratedItems(entries, build);
    var items := Enumerated(entries, build).value;
    var ranks := KeptRanks(entries, build);
    forall k | 0 <= k < |items| ensures P(items[k]) {
      assert build(entries[ranks[k] - 1], ranks[k]) == Keep(items[k]);
    }
  }

  /** One more entry: the parse so far, extended by that entry's step. */
  lemma EnumeratedSnoc(entries: seq<Json>, i: nat, build: (Json, nat) -> Step)
    requires i < |entries|
    ensures Enumerated(entries[..i + 1], build) ==
      match Enumerated(entries[..i], build)
      case None => None
      case Some(items) =>
        match build(entries[i], i + 1)
        case Skip => Some(items)
        case Keep(d) => Some(items + [d])
        case Raise => None
  {
    assert entries[..i + 1][..i] == entries[..i];
  }
}
