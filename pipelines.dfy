/** The Scrapy item pipelines: validation (a title is required and
    cleaned, the position made an integer), in-memory de-duplication by
    title, and the store, which hands each item to the data processor. */
module Pipelines {
  import opened Common
  import opened Json
  import opened ConfigLoader
  import opened Processor

  /** A scraped item; the pipelines edit its fields in place. */
  class ScrapyItem {
    var fields: Dict

    constructor(fields: Dict)
      ensures this.fields == fields
    {
      this.fields := fields;
    }
  }

  /** What a pipeline does with an item: pass it on, drop it with a
      reason (`DropItem`), or raise some other exception. */
  datatype Outcome = Pass | Drop(reason: string) | Fail

  // ---------------------------------------------------------------------------
  // ValidationPipeline
  // ---------------------------------------------------------------------------

  const RequiredFields: seq<string> := ["title"]

  /** The first required field the item lacks (or holds falsy). */
  function MissingField(f: Dict): (r: Option<string>)
    ensures r.Some? <==> !Truthy(GetNull(f, "title"))
    ensures r.Some? ==> r.value == "title"
  {
    if !Truthy(GetNull(f, "title")) then Some("title") else None
  }

  /** The position as `int()` reads it, 0 when it cannot. */
  function PositionValue(p: Json): int {
    var n := ToInt(p);
    if n.Some? then n.value else 0
  }

  /** The fields with the title replaced by the given text, and a
      position that is present and not None made an integer. */
  function Cleaned(f: Dict, title: string): Dict {
    var g := f["title" := JStr(title)];
    var p := GetNull(f, "position");
    if p.JNull? then g else g["position" := JInt(PositionValue(p))]
  }

  /** The title as validation writes it back: `str(title).strip()`. */
  function CleanTitle(f: Dict): string {
    Strip(ToStr(GetOr(f, "title", JStr(""))))
  }

  /** The fields after validation. */
  function Validated(f: Dict): Dict {
    Cleaned(f, CleanTitle(f))
  }

  /** What cleaning changes: the title becomes the text, the position an
      integer (0 for one `int()` rejects) when it is set, and nothing else
      moves. */
  lemma CleanedFields(f: Dict, title: string)
    ensures var g := Cleaned(f, title);
      && "title" in g && g["title"] == JStr(title)
      && ("position" in g <==> "position" in f)
      && ("position" in f && !f["position"].JNull? ==> g["position"].JInt?)
      && ("position" in f && f["position"].JInt? ==> g["position"] == f["position"])
      && g.Keys == f.Keys + {"title"}
      && forall k :: k in f && k != "title" && k != "position" ==> g[k] == f[k]
  {
  }

  /** Cleaning twice with the same text is cleaning once. */
  lemma CleanedTwice(f: Dict, title: string)
    ensures Cleaned(Cleaned(f, title), title) == Cleaned(f, title)
  {
    var g := Cleaned(f, title);
    var p := GetNull(g, "position");
    if !p.JNull? {
      assert p.JInt? && PositionValue(p) == p.i;
    }
  }

  /** What validation changes: the title becomes its stripped text, the
      position an integer when it is set, and nothing else moves. */
  lemma ValidatedFields(f: Dict)
    ensures var g := Validated(f);
      && "title" in g && g["title"] == JStr(CleanTitle(f))
      && ("position" in g <==> "position" in f)
      && ("position" in f && !f["position"].JNull? ==> g["position"].JInt?)
      && ("position" in f && f["position"].JInt? ==> g["position"] == f["position"])
      && g.Keys == f.Keys + {"title"}
      && forall k :: k in f && k != "title" && k != "position" ==> g[k] == f[k]
  {
    CleanedFields(f, CleanTitle(f));
  }

  /** Validating an item that validation kept a second time changes
      nothing, unless its title was only whitespace: then the second pass
      finds the title empty and drops it. */
  lemma ValidateTwice(f: Dict)
    requires MissingField(f).None?
    ensures var g := Validated(f);
      (MissingField(g).None? <==> CleanTitle(f) != [])
      && (MissingField(g).None? ==> Validated(g) == g)
  {
    var t := CleanTitle(f);
    var g := Validated(f);
    CleanedFields(f, t);
    assert GetNull(g, "title") == JStr(t);
    StripIdempotent(ToStr(f["title"]));
    assert CleanTitle(g) == t;
    CleanedTwice(f, t);
  }

  /** The loop over the required fields: the first one the item lacks. */
  method FirstMissing(f: Dict) returns (missing: Option<string>)
    ensures missing == MissingField(f)
  {
    var i := 0;
    while i < |RequiredFields|
      invariant 0 <= i <= |RequiredFields|
      invariant i > 0 ==> MissingField(f).None?
    {
      var field := RequiredFields[i];
      if !Truthy(GetNull(f, field)) {
        return Some(field);
      }
      i := i + 1;
    }
    return None;
  }

  /** The clean-up after the check: the title replaced by its stripped
      text, a set position made an integer. */
  method CleanFields(f: Dict, title: string) returns (g: Dict)
    ensures g == Cleaned(f, title)
  {
    var position := GetNull(f, "position");
    g := f["title" := JStr(title)];
    if !position.JNull? {
      g := g["position" := JInt(PositionValue(position))];
    }
  }

  class ValidationPipeline {
    constructor() { }

    /** `process_item`: drops an item without a truthy title, otherwise
        cleans its title and position in place. */
    method ProcessItem(item: ScrapyItem) returns (o: Outcome)
      modifies item
      ensures MissingField(old(item.fields)).Some? ==>
        o == Drop("缺少必填字段 " + MissingField(old(item.fields)).value) && item.fields == old(item.fields)
      ensures MissingField(old(item.fields)).None? ==> o == Pass && item.fields == Validated(old(item.fields))
    {
      var missing := FirstMissing(item.fields);
      if missing.Some? {
        return Drop("缺少必填字段 " + missing.value);
      }
      var title := CleanTitle(item.fields);
      var g := CleanFields(item.fields, title);
      item.fields := g;
      return Pass;
    }
  }

  // ---------------------------------------------------------------------------
  // DuplicateFilterPipeline
  // ---------------------------------------------------------------------------

  /** Python can put the value in a set. */
  predicate Hashable(t: Json) { !t.JArr? && !t.JObj? }

  /** One item against the titles seen so far: an unhashable title raises;
      a title seen before drops the item (and raises when it is not text,
      which cannot be sliced); a new title is remembered and passes. */
  function DedupStep(seen: set<Json>, title: Json): (Outcome, set<Json>) {
    if !Hashable(title) then (Fail, seen)
    else if title in seen then
      (if title.JStr? then Drop("重复项: " + Take(title.s, 30)) else Fail, seen)
    else (Pass, seen + {title})
  }

  /** The outcomes of a run over items with these titles. */
  function DedupRun(seen: set<Json>, titles: seq<Json>): seq<Outcome>
    decreases |titles|
  {
    if titles == [] then []
    else
      var (o, next) := DedupStep(seen, titles[0]);
      [o] + DedupRun(next, titles[1..])
  }

  /** In a run over text titles from a fresh filter, an item passes exactly
      when no earlier item had its title, and every other item is dropped
      as a duplicate. */
  lemma {:induction false} DedupRunPasses(seen: set<Json>, titles: seq<Json>)
    requires forall k :: 0 <= k < |titles| ==> titles[k].JStr?
    ensures |DedupRun(seen, titles)| == |titles|
    ensures forall k :: 0 <= k < |titles| ==>
      (DedupRun(seen, titles)[k] == Pass <==> titles[k] !in seen && titles[k] !in titles[..k])
    ensures forall k :: 0 <= k < |titles| ==> DedupRun(seen, titles)[k] != Fail
    decreases |titles|
  {
    if titles != [] {
      var next := DedupStep(seen, titles[0]).1;
      DedupRunPasses(next, titles[1..]);
      forall k | 1 <= k < |titles|
        ensures DedupRun(seen, titles)[k] == Pass <==> titles[k] !in seen && titles[k] !in titles[..k]
      {
        assert titles[1..][k - 1] == titles[k];
        assert titles[..k] == [titles[0]] + titles[1..][..k - 1];
      }
    }
  }

  class DuplicateFilterPipeline {
    var seenTitles: set<Json>

    constructor()
      ensures seenTitles == {}
    {
      seenTitles := {};
    }

    /** `process_item`, with the title read as `adapter.get("title", "")`. */
    method ProcessItem(item: ScrapyItem) returns (o: Outcome)
      modifies this
      ensures (o, seenTitles) == DedupStep(old(seenTitles), GetOr(item.fields, "title", JStr("")))
    {
      var title := GetOr(item.fields, "title", JStr(""));
      if !Hashable(title) {
        return Fail;
      }
      if title in seenTitles {
        if !title.JStr? {
          return Fail;
        }
        return Drop("重复项: " + Take(title.s, 30));
      }
      seenTitles := seenTitles + {title};
      return Pass;
    }
  }

  // ---------------------------------------------------------------------------
  // MongoPipeline
  // ---------------------------------------------------------------------------

  /** The text of the `AttributeError` raised when no processor was opened. */
  const NoProcessorText := "'NoneType' object has no attribute 'process'"

  class MongoPipeline {
    var processor: DataProcessor?

    constructor()
      ensures processor == null
    {
      processor := null;
    }

    /** `open_spider`: a new connected processor over the configuration
        and the database. */
    method OpenSpider(dirExists: bool, files: seq<YamlFile>, scheduleFile: ScheduleFile, store: Db)
      modifies this
      ensures processor != null && fresh(processor) && processor.connected
      ensures processor.db == store && processor.loader.sources == Loaded([], dirExists, files)
    {
      var p := new DataProcessor(dirExists, files, scheduleFile, store);
      p.Connect();
      processor := p;
    }

    /** `close_spider`. */
    method CloseSpider()
      modifies processor
      ensures processor != null ==> !processor.connected && processor.db == old(processor.db)
    {
      if processor != null {
        processor.Close();
      }
    }

    /** `process_item`: an item without a truthy title is dropped (the
        reason shows the item, rendered by `repr`); otherwise it goes
        through the processor under the spider's source name, and a
        failure there drops the item with the exception's text. After a
        success the title is sliced for the log line, which raises, and so
        drops the item, when the title is neither text nor a list; the
        text of that error is `sliceError`. */
    method ProcessItem(item: ScrapyItem, sourceName: string, now: int, md5: string -> string,
                       repr: Dict -> string, malformedText: string, sliceError: Json -> string)
      returns (o: Outcome)
      modifies processor
      ensures !Truthy(GetNull(item.fields, "title")) ==>
        o == Drop("缺少标题: " + repr(item.fields)) && (processor != null ==> processor.db == old(processor.db))
      ensures Truthy(GetNull(item.fields, "title")) && processor == null ==> o == Drop(NoProcessorText)
      ensures Truthy(GetNull(item.fields, "title")) && processor != null ==>
        var out := Step(old(processor.db), processor.loader.sources, item.fields, sourceName, now, md5);
        var title := item.fields["title"];
        && processor.db == out.db
        && o == match out.result
             case Ok(_) => if title.JStr? || title.JArr? then Pass else Drop(sliceError(title))
             case Err(f) => Drop(FailureText(f, malformedText))
    {
      var data := item.fields;
      if !Truthy(GetNull(data, "title")) {
        return Drop("缺少标题: " + repr(data));
      }
      if processor == null {
        return Drop(NoProcessorText);
      }
      var r := processor.Process(data, sourceName, now, md5);
      if r.Err? {
        return Drop(FailureText(r.error, malformedText));
      }
      var title := data["title"];
      if !title.JStr? && !title.JArr? {
        return Drop(sliceError(title));
      }
      return Pass;
    }
  }
}
