/** The task runner of the scheduler: runs one configured source, either
    through a hot-list aggregator whose items go to the data processor, or
    as a Scrapy crawl in a child process whose log reports the item count.
    The aggregator's network fetch, the child process and the clock are
    parameters. */
module Runner {
  import opened Common
  import opened Json
  import opened AggregatorBase
  import opened Registry
  import opened ConfigLoader
  import opened Processor

  /** The task's result dict on failure. */
  function Failed(error: Json): Dict {
    map["success" := JBool(false), "error" := error]
  }

  /** The result dict of an aggregator task that stored its items. */
  function AggregatorDone(fetched: nat, s: Stats): Dict {
    map["success" := JBool(true), "fetched" := JInt(fetched),
        "inserted" := JInt(s.inserted), "updated" := JInt(s.updated), "skipped" := JInt(s.skipped)]
  }

  /** How the child process ended: with an exit code and its standard
      error, by the five-minute timeout, or by an exception with this
      text. */
  datatype ScrapyRun = Exited(returncode: int, stderr: string) | TimedOut | Crashed(message: string)

  /** The command line of a crawl. */
  function ScrapyCommand(python: string, spider: Json, sourceName: string, region: Json): (cmd: seq<string>)
    ensures |cmd| == (if Truthy(region) then 9 else 7)
    ensures cmd[..4] == [python, "-m", "scrapy", "crawl"] && cmd[5..7] == ["-s", "SOURCE_NAME=" + sourceName]
    ensures Truthy(region) ==> cmd[7..] == ["-a", "region=" + ToStr(region)]
  {
    [python, "-m", "scrapy", "crawl", ToStr(spider), "-s", "SOURCE_NAME=" + sourceName]
    + (if Truthy(region) then ["-a", "region=" + ToStr(region)] else [])
  }

  // ---------------------------------------------------------------------------
  // The item count in Scrapy's log
  // ---------------------------------------------------------------------------

  const ItemCountKey := "'item_scraped_count':"
  const StatsBanner := "Dumping Scrapy stats"

  /** The end of the whitespace run starting at j. */
  function SkipSpaces(s: string, j: nat): (e: nat)
    requires j <= |s|
    ensures j <= e <= |s| && (e == |s| || !IsSpace(s[e]))
    ensures forall k :: j <= k < e ==> IsSpace(s[k])
    decreases |s| - j
  {
    if j < |s| && IsSpace(s[j]) then SkipSpaces(s, j + 1) else j
  }

  /** The end of the digit run starting at j. */
  function SkipDigits(s: string, j: nat): (e: nat)
    requires j <= |s|
    ensures j <= e <= |s| && (e == |s| || !IsDigit(s[e]))
    ensures forall k :: j <= k < e ==> IsDigit(s[k])
    decreases |s| - j
  {
    if j < |s| && IsDigit(s[j]) then SkipDigits(s, j + 1) else j
  }

  /** Where the digits of a match at i start: after the key and the
      whitespace that follows it. */
  function DigitsStart(s: string, i: nat): nat
    requires OccursAt(s, ItemCountKey, i)
  {
    SkipSpaces(s, i + |ItemCountKey|)
  }

  /** `'item_scraped_count':\s*(\d+)` matches at i. */
  predicate CountAt(s: string, i: nat) {
    OccursAt(s, ItemCountKey, i) && var j := DigitsStart(s, i); j < |s| && IsDigit(s[j])
  }

  /** The leftmost match at or after `from`. */
  function FirstCount(s: string, from: nat): (r: Option<nat>)
    ensures r.Some? ==> from <= r.value && CountAt(s, r.value)
    ensures r.Some? ==> forall k :: from <= k < r.value ==> !CountAt(s, k)
    ensures r.None? ==> forall k :: from <= k ==> !CountAt(s, k)
    decreases |s| - from
  {
    if from >= |s| then None
    else if CountAt(s, from) then Some(from)
    else FirstCount(s, from + 1)
  }

  /** `_parse_scrapy_item_count`: nothing for an empty log; the number
      after the first `'item_scraped_count':`; else 0 when the stats were
      dumped without it; else nothing. */
  function ScrapyItemCount(stderr: string): (r: Option<nat>)
    ensures stderr == [] ==> r.None?
    ensures FirstCount(stderr, 0).Some? ==>
      var j := DigitsStart(stderr, FirstCount(stderr, 0).value);
      r == Some(DigitsValue(stderr[j..SkipDigits(stderr, j)]))
    ensures stderr != [] && FirstCount(stderr, 0).None? ==> (r.Some? <==> Contains(stderr, StatsBanner))
    ensures r.Some? && FirstCount(stderr, 0).None? ==> r.value == 0
  {
    if stderr == [] then None
    else match FirstCount(stderr, 0)
      case Some(i) =>
        var j := DigitsStart(stderr, i);
        Some(DigitsValue(stderr[j..SkipDigits(stderr, j)]))
      case None =>
        if Contains(stderr, StatsBanner) then Some(0) else None
  }

  /** No match can start inside a text without quotes. */
  lemma NoCountBefore(s: string, before: string)
    requires before <= s && '\'' !in before
    ensures forall k :: 0 <= k < |before| ==> !CountAt(s, k)
  {
    forall k | 0 <= k < |before| ensures !CountAt(s, k) {
      assert before[k] == s[k];
    }
  }

  /** The first match is the one at i when none starts before it. */
  lemma FirstCountIs(s: string, i: nat)
    requires CountAt(s, i) && forall k :: 0 <= k < i ==> !CountAt(s, k)
    ensures FirstCount(s, 0) == Some(i)
  {
    var f := FirstCount(s, 0);
    assert f.Some?;
  }

  /** The stats line Scrapy prints, read back: a log whose text before the
      line has no quote and whose text after the number does not go on
      with a digit yields exactly the count printed. */
  lemma ItemCountRoundTrip(before: string, n: nat, after: string)
    requires '\'' !in before
    requires after == [] || !IsDigit(after[0])
    ensures ScrapyItemCount(before + ItemCountKey + " " + NatToString(n) + after) == Some(n)
  {
    var d := NatToString(n);
    var s := before + ItemCountKey + " " + d + after;
    var j := StatsLineShape(before, d, after);
    NoCountBefore(s, before);
    FirstCountIs(s, |before|);
    SkipDigitsOver(s, j, d, after);
    assert s[j..j + |d|] == d;
    NatToStringRoundTrip(n);
  }

  /** The stats line matches where it starts, and its digits start after
      the one space. */
  lemma StatsLineShape(before: string, d: string, after: string) returns (j: nat)
    requires d != [] && AllDigits(d)
    ensures var s := before + ItemCountKey + " " + d + after;
      && before <= s
      && CountAt(s, |before|) && DigitsStart(s, |before|) == j
      && j + |d| <= |s| && s[j..] == d + after
  {
    var s := before + ItemCountKey + " " + d + after;
    var i := |before|;
    j := i + |ItemCountKey| + 1;
    assert s == before + ItemCountKey + " " + (d + after);
    assert s[i..i + |ItemCountKey|] == ItemCountKey;
    assert s[j - 1] == ' ' && s[j..] == d + after;
    assert s[j] == d[0];
    assert s[..i] == before;
  }

  lemma {:induction false} SkipDigitsOver(s: string, j: nat, d: string, after: string)
    requires j + |d| <= |s| && s[j..] == d + after && AllDigits(d)
    requires after == [] || !IsDigit(after[0])
    ensures SkipDigits(s, j) == j + |d|
    decreases |d|
  {
    if d != [] {
      assert s[j] == d[0];
      assert s[j + 1..] == d[1..] + after;
      SkipDigitsOver(s, j + 1, d[1..], after);
    } else if after != [] {
      assert s[j] == after[0];
    }
  }

  /** A log that dumped its stats without an item count means no items. */
  lemma NoCountLine(stderr: string)
    requires Contains(stderr, StatsBanner) && '\'' !in stderr
    ensures ScrapyItemCount(stderr) == Some(0)
  {
    NoCountBefore(stderr, stderr);
  }

  // ---------------------------------------------------------------------------
  // The runner
  // ---------------------------------------------------------------------------

  class TaskRunner {
    /** The aggregator registry the runner looks names up in. */
    const registry: AggregatorRegistry
    /** What a new data processor is built from: the configuration
        directory and its files, and the database it connects to. */
    const dirExists: bool
    const files: seq<YamlFile>
    const scheduleFile: ScheduleFile
    const store: Db
    /** The interpreter that runs Scrapy. */
    const python: string
    /** The data processor, built on first use. */
    var processor: DataProcessor?

    constructor(registry: AggregatorRegistry, dirExists: bool, files: seq<YamlFile>, scheduleFile: ScheduleFile, store: Db, python: string)
      ensures this.registry == registry && this.dirExists == dirExists && this.files == files
      ensures this.scheduleFile == scheduleFile && this.store == store && this.python == python
      ensures processor == null
    {
      this.registry := registry;
      this.dirExists := dirExists;
      this.files := files;
      this.scheduleFile := scheduleFile;
      this.store := store;
      this.python := python;
      processor := null;
    }

    /** `_get_processor`: built and connected once, then reused. */
    method GetProcessor() returns (p: DataProcessor)
      modifies this, processor
      ensures processor == p && p.connected
      ensures old(processor) != null ==> p == old(processor) && p.db == old(p.db)
      ensures old(processor) == null ==>
        fresh(p) && fresh(p.loader) && p.db == store && p.loader.sources == Loaded([], dirExists, files)
    {
      if processor == null {
        processor := new DataProcessor(dirExists, files, scheduleFile, store);
      }
      p := processor;
      p.Connect();
    }

    /** `run_aggregator`. A missing name or source, or a name no class is
        registered under, fails before any fetch; the fetch runs on the
        registry's cached instance, which keeps the class it was built
        from; a failed fetch reports its error; otherwise the items are
        stored through the processor and the result counts what was
        fetched and what the store did. */
    method RunAggregator(sourceName: string, config: Dict, fetch: (AggregatorClass, Json) -> Result<AggregatorResult, string>,
                         now: int, md5: string -> string, malformedText: string) returns (r: Dict)
      requires registry.Valid()
      modifies this, registry, processor
      ensures registry.Valid() && registry.aggregators == old(registry.aggregators)
      ensures var name := GetNull(config, "aggregator_name");
        var src := GetNull(config, "aggregator_source");
        && (!Truthy(name) || !Truthy(src) ==> r == Failed(JStr("缺少聚合器配置")) && processor == old(processor))
        && (Truthy(name) && Truthy(src) && (!name.JStr? || name.s !in registry.aggregators) ==>
              r == Failed(JStr("未知聚合器: " + ToStr(name))) && processor == old(processor))
        && (Truthy(name) && Truthy(src) && name.JStr? && name.s in registry.aggregators ==>
              var kind := if name.s in old(registry.instances) then old(registry.instances)[name.s].kind
                else registry.aggregators[name.s];
              match fetch(kind, src)
              case Err(m) => r == Failed(JStr(m)) && processor == old(processor)
              case Ok(res) =>
                if !res.success then r == Failed(ErrorJson(res.error)) && processor == old(processor)
                else
                  && processor != null
                  && (old(processor) != null ==> processor == old(processor))
                  && var db0 := if old(processor) == null then store else old(processor.db);
                     var out := Optimized(db0, processor.loader.sources, res.items, sourceName, now, md5);
                     && processor.db == out.db
                     && r == match out.result
                          case Ok(stats) => AggregatorDone(Count(res), stats)
                          case Err(f) => Failed(JStr(FailureText(f, malformedText))))
    {
      var name := GetNull(config, "aggregator_name");
      var src := GetNull(config, "aggregator_source");
      if !Truthy(name) || !Truthy(src) {
        return Failed(JStr("缺少聚合器配置"));
      }
      if !name.JStr? {
        return Failed(JStr("未知聚合器: " + ToStr(name)));
      }
      var aggregator := registry.Get(name.s, map[]);
      if aggregator == null {
        return Failed(JStr("未知聚合器: " + ToStr(name)));
      }
      var fetched := fetch(aggregator.kind, src);
      if fetched.Err? {
        return Failed(JStr(fetched.error));
      }
      var res := fetched.value;
      if !res.success {
        return Failed(ErrorJson(res.error));
      }
      var p := GetProcessor();
      var stats := p.ProcessBatchOptimized(res.items, sourceName, now, md5);
      if stats.Err? {
        return Failed(JStr(FailureText(stats.error, malformedText)));
      }
      return AggregatorDone(Count(res), stats.value);
    }

    /** `run_scrapy`, given how the child process ended. The command is
        None when no spider is configured, and then nothing runs. */
    method RunScrapy(sourceName: string, config: Dict, run: ScrapyRun) returns (cmd: Option<seq<string>>, r: Dict)
      ensures var spider := GetNull(config, "spider_name");
        && (!Truthy(spider) ==> cmd.None? && r == Failed(JStr("缺少 spider_name 配置")))
        && (Truthy(spider) ==> cmd == Some(ScrapyCommand(python, spider, sourceName, GetNull(config, "region"))))
        && (Truthy(spider) ==>
              match run
              case Exited(code, err) =>
                if code == 0 then
                  r == map["success" := JBool(true),
                           "item_count" := match ScrapyItemCount(err) case Some(n) => JInt(n) case None => JNull]
                else r == Failed(JStr(err))
              case TimedOut => r == Failed(JStr("执行超时"))
              case Crashed(m) => r == Failed(JStr(m)))
    {
      var spider := GetNull(config, "spider_name");
      if !Truthy(spider) {
        return None, Failed(JStr("缺少 spider_name 配置"));
      }
      cmd := Some(ScrapyCommand(python, spider, sourceName, GetNull(config, "region")));
      match run
      case Exited(code, err) =>
        if code == 0 {
          var count := ScrapyItemCount(err);
          r := map["success" := JBool(true), "item_count" := if count.Some? then JInt(count.value) else JNull];
        } else {
          r := Failed(JStr(err));
        }
      case TimedOut =>
        r := Failed(JStr("执行超时"));
      case Crashed(m) =>
        r := Failed(JStr(m));
    }

    /** `run_task`: an `aggregator` source runs through its aggregator;
        every other type, the default `scrapy` included, runs as a crawl. */
    method RunTask(sourceName: string, config: Dict, fetch: (AggregatorClass, Json) -> Result<AggregatorResult, string>,
                   run: ScrapyRun, now: int, md5: string -> string, malformedText: string) returns (r: Dict)
      requires registry.Valid()
      modifies this, registry, processor
      ensures registry.Valid()
      ensures "success" in r
      ensures GetOr(config, "source_type", JStr("scrapy")) != JStr("aggregator") ==>
        processor == old(processor)
        && (r["success"] == JBool(true) <==> Truthy(GetNull(config, "spider_name")) && run.Exited? && run.returncode == 0)
      ensures GetOr(config, "source_type", JStr("scrapy")) == JStr("aggregator") ==>
        registry.aggregators == old(registry.aggregators)
        && var name := GetNull(config, "aggregator_name");
        var src := GetNull(config, "aggregator_source");
        && (!Truthy(name) || !Truthy(src) ==> r == Failed(JStr("缺少聚合器配置")) && processor == old(processor))
        && (Truthy(name) && Truthy(src) && (!name.JStr? || name.s !in registry.aggregators) ==>
              r == Failed(JStr("未知聚合器: " + ToStr(name))) && processor == old(processor))
        && (Truthy(name) && Truthy(src) && name.JStr? && name.s in registry.aggregators ==>
              var kind := if name.s in old(registry.instances) then old(registry.instances)[name.s].kind
                else registry.aggregators[name.s];
              match fetch(kind, src)
              case Err(m) => r == Failed(JStr(m)) && processor == old(processor)
              case Ok(res) =>
                if !res.success then r == Failed(ErrorJson(res.error)) && processor == old(processor)
                else
                  && processor != null
                  && (old(processor) != null ==> processor == old(processor))
                  && var db0 := if old(processor) == null then store else old(processor.db);
                     var out := Optimized(db0, processor.loader.sources, res.items, sourceName, now, md5);
                     && processor.db == out.db
                     && r == match out.result
                          case Ok(stats) => AggregatorDone(Count(res), stats)
                          case Err(f) => Failed(JStr(FailureText(f, malformedText))))
    {
      if GetOr(config, "source_type", JStr("scrapy")) == JStr("aggregator") {
        r := RunAggregator(sourceName, config, fetch, now, md5, malformedText);
      } else {
        var cmd;
        cmd, r := RunScrapy(sourceName, config, run);
      }
    }

    /** `close`: closes the processor if there is one and forgets it. */
    method Close()
      modifies this, processor
      ensures processor == null
      ensures old(processor) != null ==> !old(processor).connected && old(processor).db == old(processor.db)
    {
      if processor != null {
        processor.Close();
        processor := null;
      }
    }
  }
}
