# mind-spider, topic discovery and crawl-task bookkeeping in Dafny

mind-spider collects trending topics from Chinese platforms and turns the
topics that take off into deep crawl tasks. This project models the parts
of it that decide things: what is stored, what is signalled, which topics
become candidates, which tasks run and in what order.

Broad topic extraction (`BroadTopicExtraction/`):

- the aggregator result, the aggregator registry and the official and
  NewsNow JSON parsers (`AggregatorBase`, `Registry`, `Official`,
  `NewsNow`, with the shared `Enumerate` loop);
- the spider base classes and their item builders (`SpiderBase`);
- four newspaper spiders, with their shared date and title rules
  (`Newspaper`, `Mrdx`, `Gmrb`, `Jjrb`, `Xwzbj`);
- the Scrapy item pipelines (`Pipelines`);
- the source configuration loader (`ConfigLoader`);
- the ingestion processor, with item ids, new documents, update operations
  and batch accounting (`Processor`);
- the scheduler's task runner (`Runner`);
- the hot-list reader and its title-dedup merge (`DataReader`);
- the signal detector: velocity, new entry, position jump and
  cross-platform clustering over a union-find (`SignalDetector`,
  `UnionFind`);
- the candidate lifecycle manager (`CandidateManager`).

Deep sentiment crawling (`DeepSentimentCrawling/`):

- the two-tier Redis task queue (`TaskQueues`);
- the dispatcher's circuit breaker and retry rule (`Dispatcher`);
- the alert rate limiter (`Alert`);
- the cookie store (`CookieManager`);
- the topic matcher's post-processing (`TopicMatcher`);
- the browser extension's popup (`Popup`).

`Common` and `Json` hold shared helpers: `Option`, string operations
and filters, and a model of JSON values.

Objects whose fields the source updates in place are classes with
`modifies` clauses:

- the queue, the dispatcher, the alerter, the cookie store and the
  registry;
- the runner, the processor, the loader and the union-find;
- the pipelines and the popup page.

Redis, MongoDB and the browser's storage become maps and sequences held
in fields. Three things the source computes by calling out are parameters
of the model:

- the clock;
- md5;
- jieba tokenisation.

Python floats become exact reals; `int()` truncation is written out
where the source applies it. Reals are not rounded to doubles, so a
rounding at a tie that is only a tie in decimal (`round(0.615, 2)`,
which Python computes on the double just below 0.615 and gives 0.61)
comes out on the other side (0.62) in the model.

`str()` of a value is modelled for text, None, booleans and integers.
For a float, a list or a dictionary the model gives "", where Python
gives the value's own text (`"1.5"`, `"[1, 2]"`); every member below
that renders a field with `str()` inherits this, and the lines under
"Left out" that start with those members say so.

## Model

| member | source | states |
|---|---|---|
| AggregatorBase.ItemsJson | BroadTopicExtraction/aggregators/base.py:31-39 | the `items` entry of `to_dict` is a list with one object per item, in order |
| AggregatorBase.ToDict | BroadTopicExtraction/aggregators/base.py:31-39 | the dictionary has exactly the keys success, source, items, count, error and timestamp |
| AggregatorBase.ToDictRoundTrip | BroadTopicExtraction/aggregators/base.py:17-39 | `to_dict` loses nothing except the raw response: reading the dictionary back gives the same result |
| AggregatorBase.MakeErrorResult | BroadTopicExtraction/aggregators/base.py:154-160 | an error result is unsuccessful, for the given source, with no items and the given error |
| AggregatorBase.MakeSuccessResult | BroadTopicExtraction/aggregators/base.py:162-171 | a success result is successful, carries exactly the given items and has no error |
| AggregatorBase.ResultDicts | BroadTopicExtraction/aggregators/base.py:27-39 | the dictionary of an error result says failure, count 0 and the error; that of a success says the item count and a null error |
| AggregatorBase.FetchAll | BroadTopicExtraction/aggregators/base.py:120-152 | one result per source, in the given order, each the fetch of that source whether it failed or not; no list means every supported source |
| Alert.Gate | DeepSentimentCrawling/alert.py:26-33 | the platform is rate-limited iff less than 300 s have passed since its last recorded alert (0 when none); only a pass records the time |
| Alert.OncePerWindow | DeepSentimentCrawling/alert.py:26-33 | after an alert passes, every alert of that platform in the next 300 s is limited, and the first one at or after 300 s passes |
| Alert.PlatformsIndependent | DeepSentimentCrawling/alert.py:26-33 | gating one platform neither changes nor depends on another platform's entry |
| Alert.Alerter.ShouldRateLimit | DeepSentimentCrawling/alert.py:26-33 | the method returns the verdict of `Gate` and stores its new table |
| Alert.Alerter.SendAlert | DeepSentimentCrawling/alert.py:36-71 | without a key it returns false and leaves the limiter untouched; with a platform it passes the gate; it returns true iff there is a key, the gate lets the alert through and the reply has code 0 |
| Alert.Alerter.AlertCookieExpired | DeepSentimentCrawling/alert.py:74-89 | `send_alert` with the platform as rate-limit key: the limiter runs only with a key and a non-empty platform, and the alert is sent iff there is a key, the gate lets it through and the reply has code 0 |
| Alert.Alerter.AlertCircuitOpen | DeepSentimentCrawling/alert.py:92-103 | `send_alert` with the platform as rate-limit key: the limiter runs only with a key and a non-empty platform, and the alert is sent iff there is a key, the gate lets it through and the reply has code 0 |
| UnionFind.HalveKeepsRoot | BroadTopicExtraction/analyzer/signal_detector.py:324-328 | path halving (pointing x at its grandparent) keeps every element's root |
| UnionFind.LinkRoots | BroadTopicExtraction/analyzer/signal_detector.py:330-333 | pointing one root at another moves exactly the elements of the first tree to the second root |
| UnionFind.UnionFind.constructor | BroadTopicExtraction/analyzer/signal_detector.py:322 | an empty `parent` dict: every element is its own root |
| UnionFind.UnionFind.Find | BroadTopicExtraction/analyzer/signal_detector.py:324-328 | `find` returns x's root and no element changes root |
| UnionFind.UnionFind.Union | BroadTopicExtraction/analyzer/signal_detector.py:330-333 | after `union(x, y)` the elements that shared x's root have y's root, and every other element keeps its root |
| Registry.AggregatorRegistry.constructor | BroadTopicExtraction/aggregators/registry.py:14-19 | the registry starts with no classes and no cached instances |
| Registry.AggregatorRegistry.Register | BroadTopicExtraction/aggregators/registry.py:27-41 | the class is stored under its name, replacing any earlier class of that name; it is returned, and the cache is untouched |
| Registry.AggregatorRegistry.Get | BroadTopicExtraction/aggregators/registry.py:43-71 | an unknown name gives None; a call without kwargs returns the cached instance or caches a new one; a call with kwargs returns a new, uncached instance |
| Registry.AggregatorRegistry.RepeatGetSameInstance | BroadTopicExtraction/aggregators/registry.py:59-71 | two calls without kwargs for a registered name return the same object, which is the cached one |
| Registry.AggregatorRegistry.ListAggregators | BroadTopicExtraction/aggregators/registry.py:73-84 | one entry per registered name, mapped to its display name |
| Registry.AggregatorRegistry.ClearInstances | BroadTopicExtraction/aggregators/registry.py:86-89 | the cache is emptied and the registered classes are kept |
| Registry.AggregatorRegistry.RegisterBuiltins | BroadTopicExtraction/aggregators/registry.py:107-134 | the eight built-in classes are registered in the source's order |
| Registry.BuiltinNames | BroadTopicExtraction/aggregators/registry.py:107-134 | after the built-in registration every built-in name resolves to its own class |
| Enumerate.EnumeratedFails | BroadTopicExtraction/aggregators/official.py:138-151 | a parse loop fails iff some entry raises |
| Enumerate.KeptRanksProps | BroadTopicExtraction/aggregators/official.py:138-151 | the 1-based ranks of the kept entries increase, lie within the list, and are exactly the ranks of the entries that were kept, so skipped entries leave gaps |
| Enumerate.EnumeratedItems | BroadTopicExtraction/aggregators/official.py:138-151 | the k-th item is the item built from the entry at the k-th kept rank |
| Enumerate.ParseEntries | BroadTopicExtraction/aggregators/official.py:135-151 | the append loop collects exactly the items of the specification, or fails when an entry raises |
| Enumerate.EnumeratedRaise | BroadTopicExtraction/aggregators/official.py:138-151 | one raising entry makes the whole parse fail |
| Enumerate.EnumeratedPositions | BroadTopicExtraction/aggregators/official.py:117-129 | when items are stamped with their rank, every position lies within the raw list and positions strictly increase |
| Enumerate.EnumeratedSnoc | BroadTopicExtraction/aggregators/official.py:138-151 | one more entry extends the parse by that entry's step |
| Official.SupportedSources | BroadTopicExtraction/aggregators/official.py:54-56 | every configured source is listed, each exactly once, and nothing else |
| Official.SourceName | BroadTopicExtraction/aggregators/official.py:58-60 | a configured source's display name, or the source itself when it is not configured |
| Official.BaiduEntry | BroadTopicExtraction/aggregators/official.py:117-129 | an entry that is not an object raises; it is skipped iff neither `word` nor `query` is truthy; a kept item has the rank as position, the platform "baidu", the search URL as default and exactly the six keys of the source |
| Official.DouyinEntry | BroadTopicExtraction/aggregators/official.py:138-149 | an entry that is not an object raises; it is skipped iff `word` is falsy; a kept item has the rank, the platform "douyin", the search page of the word and exactly five keys |
| Official.TiebaEntry | BroadTopicExtraction/aggregators/official.py:158-169 | an entry that is not an object raises; it is skipped iff `topic_name` is falsy; a kept item has the rank, the platform "tieba", its own `topic_url` or "" and exactly five keys |
| Official.JuejinEntry | BroadTopicExtraction/aggregators/official.py:178-198 | it raises iff the entry or its article is not an object, or a titled entry's author is not; it is skipped iff the article title is falsy; a kept item has the post URL only when the article id is truthy, and exactly nine keys |
| Official.BilibiliEntry | BroadTopicExtraction/aggregators/official.py:207-218 | an entry that is not an object raises; it is skipped iff neither `keyword` nor `show_name` is truthy; a kept item is tagged "bilibili" |
| Official.ParseBySource | BroadTopicExtraction/aggregators/official.py:96-108 | the dispatch returns the items of the source's own parser, the empty list for an unknown source, and fails where that parser raises |
| Official.BuilderItems | BroadTopicExtraction/aggregators/official.py:117-218 | every kept entry of every parser has a truthy title, its rank as position and the source's platform tag |
| Official.ParsedItems | BroadTopicExtraction/aggregators/official.py:110-220 | every parsed item has a truthy title, the source's platform and a position of at least 1, and positions strictly increase along the list |
| Official.NonObjectResponse | BroadTopicExtraction/aggregators/official.py:110-220 | a response that is not a JSON object makes every parser raise |
| Official.EmptyResponse | BroadTopicExtraction/aggregators/official.py:110-220 | an empty response object is not an error: every parser returns no items |
| Official.Fetch | BroadTopicExtraction/aggregators/official.py:62-94 | an unknown source fails with "不支持的数据源: <source>" and sends nothing; otherwise the configured URL is requested, as a POST with the payload only for juejin; a failed request or a parse that raises gives an error result with the exception text, and a good parse gives a success result with the parsed items |
| NewsNow.SupportedSources | BroadTopicExtraction/aggregators/newsnow.py:45-47 | the 18 configured sources, each exactly once, and nothing else |
| NewsNow.SourceName | BroadTopicExtraction/aggregators/newsnow.py:49-51 | a configured source's display name, or the source itself |
| NewsNow.IdsAreKeys | BroadTopicExtraction/aggregators/newsnow.py:24-43 | every configured source is fetched under its own id |
| NewsNow.BaseItem | BroadTopicExtraction/aggregators/newsnow.py:157-169 | the normalised item has title, url, position and platform, and `hot_value` exactly when a heat was found |
| NewsNow.WithTruthyOther | BroadTopicExtraction/aggregators/newsnow.py:172-175 | copying the extra fields leaves every other key as it was |
| NewsNow.WithTruthyField | BroadTopicExtraction/aggregators/newsnow.py:172-175 | an extra field is copied exactly when the entry holds it truthy, with the entry's value |
| NewsNow.WithTruthyAbsent | BroadTopicExtraction/aggregators/newsnow.py:172-175 | an extra field the entry does not hold truthy stays absent |
| NewsNow.BaseHasNoExtras | BroadTopicExtraction/aggregators/newsnow.py:157-162 | the base item has none of the six extra fields |
| NewsNow.ItemOfNone | BroadTopicExtraction/aggregators/newsnow.py:126-137 | an entry gives no item exactly when it is not a dict or none of title, name, word, query is truthy |
| NewsNow.ExtrasKeepBase | BroadTopicExtraction/aggregators/newsnow.py:157-175 | the extra fields never overwrite title, url, position, platform or `hot_value` |
| NewsNow.ItemOfBase | BroadTopicExtraction/aggregators/newsnow.py:126-169 | a parsed entry's item has the title as stripped text, the first truthy link (or ""), the rank, the source as platform, and a `hot_value` exactly when the heat chain does not end in None, `int()` of it or 0 when that raises |
| NewsNow.ItemOfExtras | BroadTopicExtraction/aggregators/newsnow.py:171-175 | each extra field is in the item exactly when the entry holds it truthy, with the entry's value |
| NewsNow.CopyTruthy | BroadTopicExtraction/aggregators/newsnow.py:172-175 | the copy loop computes the specification of the copied fields |
| NewsNow.ParseSingleItem | BroadTopicExtraction/aggregators/newsnow.py:114-177 | `_parse_single_item` returns the specified item, or None |
| NewsNow.ParseItems | BroadTopicExtraction/aggregators/newsnow.py:85-112 | the loop collects the items of the parsed entries in order and fails only where iterating the list raises |
| NewsNow.ParseFailsOnlyOnBadList | BroadTopicExtraction/aggregators/newsnow.py:96-112 | parsing fails exactly when the response is a dict whose chosen list cannot be iterated; a list response, or one that is neither dict nor list, always parses |
| NewsNow.KeptIsNormal | BroadTopicExtraction/aggregators/newsnow.py:107-110 | every kept entry gives an item with a stripped text title, the source as platform and its rank as position |
| NewsNow.ParsedItems | BroadTopicExtraction/aggregators/newsnow.py:85-112 | every parsed item has a stripped text title, the source as platform, a position of at least 1, and positions strictly increase |
| NewsNow.Fetch | BroadTopicExtraction/aggregators/newsnow.py:53-83 | an unknown source fails with "不支持的数据源: <source>" without a request; otherwise `<base>/api/s?id=<source>` is requested; a failed request or parse gives an error result with the exception text, a good parse a success result with the parsed items |
| Runner.ScrapyCommand | BroadTopicExtraction/scheduler/runner.py:116-123 | the command is the interpreter, `-m scrapy crawl <spider>`, `-s SOURCE_NAME=<name>`, and `-a region=<region>` appended exactly when the region is truthy |
| Runner.FirstCount | BroadTopicExtraction/scheduler/runner.py:173 | the leftmost position at or after the start where `'item_scraped_count':\s*(\d+)` matches, and no match when there is none |
| Runner.ScrapyItemCount | BroadTopicExtraction/scheduler/runner.py:169-179 | an empty log gives None; a match gives the number after the first key; without a match the count is 0 iff the stats banner is in the log, and None otherwise |
| Runner.NoCountBefore | BroadTopicExtraction/scheduler/runner.py:173 | no match can start inside a text without quotes |
| Runner.FirstCountIs | BroadTopicExtraction/scheduler/runner.py:173 | the search finds the match at i when none starts before it |
| Runner.ItemCountRoundTrip | BroadTopicExtraction/scheduler/runner.py:169-175 | reading back Scrapy's stats line gives exactly the count it printed, when the text before it has no quote and the text after the number does not continue with a digit |
| Runner.NoCountLine | BroadTopicExtraction/scheduler/runner.py:176-178 | a log that dumped its stats without the count line reads as 0 items |
| Runner.TaskRunner.constructor | BroadTopicExtraction/scheduler/runner.py:25-34 | a new runner has no processor yet |
| Runner.TaskRunner.GetProcessor | BroadTopicExtraction/scheduler/runner.py:36-41 | the processor is built and connected on first use, and the same connected processor is returned afterwards |
| Runner.TaskRunner.RunAggregator | BroadTopicExtraction/scheduler/runner.py:43-96 | a missing name or source fails with "缺少聚合器配置" and an unregistered name with "未知聚合器: <name>", both before any fetch; the fetch runs on the cached instance; a failed fetch returns its error; a good fetch stores its items through the processor and returns success, the fetched count and the batch statistics |
| Runner.TaskRunner.RunScrapy | BroadTopicExtraction/scheduler/runner.py:98-167 | no spider fails with "缺少 spider_name 配置" and runs nothing; otherwise the crawl command runs; exit 0 gives success with the parsed item count (null when unknown), another exit code fails with the log, a timeout with "执行超时", a crash with its message |
| Runner.TaskRunner.RunTask | BroadTopicExtraction/scheduler/runner.py:181-201 | the `aggregator` type has exactly the outcome of `run_aggregator`: the missing-configuration and unknown-aggregator failures, the fetch error, and on success the stored items, the fetched count and the batch statistics; every other type, `scrapy` by default, runs as a crawl, leaves the processor alone and succeeds exactly when a spider is configured and the process exits with 0 |
| Runner.TaskRunner.Close | BroadTopicExtraction/scheduler/runner.py:203-207 | an open processor is closed, and the runner forgets it |
| Processor.FieldTexts | BroadTopicExtraction/pipeline/processor.py:254-256 | one text per dedup field, in order: `str` of the item's value, "" when it is missing |
| Processor.GenerateItemId | BroadTopicExtraction/pipeline/processor.py:239-258 | the id is the hash of the source and the dedup field texts joined by "_" |
| Processor.IdOnlyDedupFields | BroadTopicExtraction/pipeline/processor.py:253-258 | items that agree on the dedup fields get the same id whatever else they carry |
| Processor.IdContentInjective | BroadTopicExtraction/pipeline/processor.py:253-258 | when no part contains "_", the hashed text determines the source and every field text |
| Processor.IdContentCollision | BroadTopicExtraction/pipeline/processor.py:253-258 | with "_" inside a value two different items get the same hashed text |
| Processor.BuildNewDoc | BroadTopicExtraction/pipeline/processor.py:273-293 | the loop builds the specified new document |
| Processor.AddHistoriesProps | BroadTopicExtraction/pipeline/processor.py:288-291 | the history loop keeps every plain key, gives each present non-None time-varying field a one-entry history, and adds no other key |
| Processor.BaseDocProps | BroadTopicExtraction/pipeline/processor.py:282-286 | the copy carries the id, the source, both timestamps equal to now and every other field of the item |
| Processor.NewDocStamps | BroadTopicExtraction/pipeline/processor.py:273-293 | a new document has the id, the source, `first_seen_at` and `last_seen_at` equal to now, and the item's plain fields |
| Processor.NewDocHistories | BroadTopicExtraction/pipeline/processor.py:288-291 | a new document has a one-entry `<field>_history` exactly for the present non-None time-varying fields |
| Processor.BuildUpdateOps | BroadTopicExtraction/pipeline/processor.py:309-326 | the loop builds the specified `$set`/`$push` operations |
| Processor.SetPushProps | BroadTopicExtraction/pipeline/processor.py:313-320 | `$set` holds `last_seen_at` and exactly the recorded fields with their new values; `$push` holds exactly one history entry per recorded field |
| Processor.PushPresent | BroadTopicExtraction/pipeline/processor.py:322-324 | `$push` is sent exactly when some time-varying field has a non-None value |
| Processor.ApplyUpdateAt | BroadTopicExtraction/pipeline/processor.py:304-307 | the store's reading of an update: set fields are replaced, pushed entries appended to their arrays, other keys kept |
| Processor.SetPushKeys | BroadTopicExtraction/pipeline/processor.py:313-320 | `$push` touches only history keys and `$set` only plain ones |
| Processor.UpdateLastSeen | BroadTopicExtraction/pipeline/processor.py:313 | an update sets `last_seen_at` to now |
| Processor.UpdateRecordsField | BroadTopicExtraction/pipeline/processor.py:316-320 | an update makes a present time-varying field's new value current and grows its history by exactly one entry |
| Processor.UpdateKeepsOthers | BroadTopicExtraction/pipeline/processor.py:309-326 | an update leaves every other field alone |
| Processor.UpdateRecords | BroadTopicExtraction/pipeline/processor.py:295-326 | the whole update: `last_seen_at` is now, each present time-varying field is recorded, every other field untouched |
| Processor.Resolve | BroadTopicExtraction/pipeline/processor.py:91-97 | a missing or empty configuration fails with the unknown-source error; a usable one gives its collection, dedup fields and time-varying fields |
| Processor.StepProps | BroadTopicExtraction/pipeline/processor.py:80-124 | an unknown source changes nothing; otherwise the item's id is stored afterwards, the action is `inserted` iff it was new and `skipped` iff it was stored and no time-varying fields are configured, a skip changes nothing, and no other document or collection changes |
| Processor.BatchRunProps | BroadTopicExtraction/pipeline/processor.py:126-159 | every result is filed under its own action; with a usable configuration every item gives one result, and with an unknown source none does and the store is unchanged |
| Processor.ItemIds | BroadTopicExtraction/pipeline/processor.py:186-191 | one id per item, in order |
| Processor.PlanCounts | BroadTopicExtraction/pipeline/processor.py:202-224 | the counts add up to the batch: new ids are inserted, stored ones updated with time-varying fields and skipped without |
| Processor.OptimizedProps | BroadTopicExtraction/pipeline/processor.py:161-237 | an unknown source raises and changes nothing; otherwise the counts add up to the number of items |
| Processor.DuplicateCountedTwice | BroadTopicExtraction/pipeline/processor.py:199-224 | the same new item twice in one batch is counted as two insertions, while the store holds one document |
| Processor.DuplicateCountedOnce | BroadTopicExtraction/pipeline/processor.py:145-148 | the item-by-item path counts that batch as one insertion |
| Processor.PlanIds | BroadTopicExtraction/pipeline/processor.py:205-224 | every queued operation acts on one of the batch's ids |
| Processor.ApplyOpsOther | BroadTopicExtraction/pipeline/processor.py:227-228 | bulk operations on other ids leave a document alone |
| Processor.AgreeStep | BroadTopicExtraction/pipeline/processor.py:126-237 | one more item keeps the item-by-item and the bulk paths in agreement when the id is stored exactly when it was stored before the batch |
| Processor.AgreePrefix | BroadTopicExtraction/pipeline/processor.py:126-237 | the two paths agree on every prefix of a batch without repeated ids |
| Processor.BatchPathsAgree | BroadTopicExtraction/pipeline/processor.py:126-237 | for a batch without repeated ids, `process_batch` and `process_batch_optimized` leave the same documents and count the same actions |
| Processor.DataProcessor.constructor | BroadTopicExtraction/pipeline/processor.py:45-59 | a new processor has its configuration loader and store and is not connected |
| Processor.DataProcessor.Connect | BroadTopicExtraction/pipeline/processor.py:61-65 | connecting is idempotent and changes no data |
| Processor.DataProcessor.Close | BroadTopicExtraction/pipeline/processor.py:67-71 | closing disconnects and changes no data |
| Processor.DataProcessor.ResolveSource | BroadTopicExtraction/pipeline/processor.py:91-97 | the lookup through the loader gives the specified configuration or failure |
| Processor.DataProcessor.Process | BroadTopicExtraction/pipeline/processor.py:80-124 | `process` produces the specified result and store, and connects when the source is usable |
| Processor.DataProcessor.ProcessBatch | BroadTopicExtraction/pipeline/processor.py:126-159 | `process_batch` produces the specified groups and store |
| Processor.DataProcessor.ComputeIds | BroadTopicExtraction/pipeline/processor.py:186-191 | the id loop gives one id per item |
| Processor.DataProcessor.Classify | BroadTopicExtraction/pipeline/processor.py:202-224 | the classification loop queues the specified operations and counts |
| Processor.DataProcessor.ProcessBatchOptimized | BroadTopicExtraction/pipeline/processor.py:161-237 | `process_batch_optimized` produces the specified counts and store, and connects when the source is usable |
| ConfigLoader.ValueOf | BroadTopicExtraction/pipeline/config_loader.py:78-79 | a key reads as a value exactly when it is among the dict's keys |
| ConfigLoader.PutKeys | BroadTopicExtraction/pipeline/config_loader.py:43 | storing under a key keeps the old keys in order and appends the key only when it was absent |
| ConfigLoader.PutValues | BroadTopicExtraction/pipeline/config_loader.py:43 | after storing, the key reads as the new value and every other key as before |
| ConfigLoader.PutProps | BroadTopicExtraction/pipeline/config_loader.py:43 | storing keeps keys distinct, reads back the new value, leaves other keys alone and keeps insertion order |
| ConfigLoader.UpdateAllValue | BroadTopicExtraction/pipeline/config_loader.py:43 | after `update` a key reads as the last value the mapping gives it, or as before when the mapping does not mention it |
| ConfigLoader.LoadFilesValue | BroadTopicExtraction/pipeline/config_loader.py:38-46 | loading the files keeps keys distinct, and a key reads as the value of the last readable file that maps it, or its earlier value |
| ConfigLoader.FirstBySpiderProps | BroadTopicExtraction/pipeline/config_loader.py:81-84 | the fallback finds a configuration iff some source's `spider_name` is the name, and then the first such one in insertion order |
| ConfigLoader.LookupProps | BroadTopicExtraction/pipeline/config_loader.py:63-86 | `get_source` returns the configuration under the key when there is one, else the first whose `spider_name` matches, and None only when neither exists |
| ConfigLoader.FilterKeysDistinct | BroadTopicExtraction/pipeline/config_loader.py:102-130 | a filtered dict is a sub-dict: keys stay distinct and come from the original |
| ConfigLoader.FiltersProps | BroadTopicExtraction/pipeline/config_loader.py:92-130 | a source is listed under a category or type exactly when its field holds that text; it is enabled-listed exactly when `enabled` is missing or truthy |
| ConfigLoader.CategoriesProps | BroadTopicExtraction/pipeline/config_loader.py:136-142 | the category list is sorted, has no repeats and names exactly the categories some source declares |
| ConfigLoader.SourceNamesProps | BroadTopicExtraction/pipeline/config_loader.py:144-146 | the source list is sorted, has no repeats and names exactly the configured sources |
| ConfigLoader.Loader.constructor | BroadTopicExtraction/pipeline/config_loader.py:17-30 | a new loader holds exactly what loading the files into empty dicts gives |
| ConfigLoader.Loader.LoadAll | BroadTopicExtraction/pipeline/config_loader.py:32-55 | every non-empty readable file is merged in directory order; a missing directory changes nothing; the schedule file replaces the schedule when readable |
| ConfigLoader.Loader.MergeFile | BroadTopicExtraction/pipeline/config_loader.py:39-46 | one file: an unreadable or empty file changes nothing, a non-empty mapping is `dict.update`d into the sources key by key (an existing key keeps its place), keys stay distinct and the schedule is untouched |
| ConfigLoader.Loader.Reload | BroadTopicExtraction/pipeline/config_loader.py:57-61 | after `reload` the state is what a fresh load gives, whatever was loaded before |
| ConfigLoader.Loader.GetSource | BroadTopicExtraction/pipeline/config_loader.py:63-86 | the lookup loop returns the specified configuration |
| ConfigLoader.Loader.ListCategories | BroadTopicExtraction/pipeline/config_loader.py:136-142 | the collecting loop returns the sorted distinct categories |
| DataReader.EffectiveSince | BroadTopicExtraction/analyzer/data_reader.py:65-67 | a missing or zero bound means one hour before now; any other bound is kept (the default is `_default_since`) |
| DataReader.Project | BroadTopicExtraction/analyzer/data_reader.py:17-43 | a projection keeps exactly the listed fields that the document has, with their values |
| DataReader.Recent | BroadTopicExtraction/analyzer/data_reader.py:133-139 | a collection read returns exactly the projections of the documents whose `last_seen_at` is at least the bound, and no others (every per-collection reader calls this query) |
| DataReader.ItemsBySourceProps | BroadTopicExtraction/analyzer/data_reader.py:91-100 | a per-source read returns exactly the projections of that source's documents seen since the bound, with the vertical projection only for `hot_vertical` |
| DataReader.FirstByTitleProps | BroadTopicExtraction/analyzer/data_reader.py:115-123 | the merged list has one document per truthy title, each taken from the input, and every truthy input title is represented |
| DataReader.OriginsProps | BroadTopicExtraction/analyzer/data_reader.py:118-123 | the document kept for a title is its first occurrence, and the merge keeps the input order |
| DataReader.PrefixWins | BroadTopicExtraction/analyzer/data_reader.py:118-123 | a title that occurs in an earlier list is kept from that list |
| DataReader.PriorityOrder | BroadTopicExtraction/analyzer/data_reader.py:104-108 | a title in the national list is kept from it; one in the vertical list and not the national one is kept from the vertical list |
| DataReader.MergeHot | BroadTopicExtraction/analyzer/data_reader.py:115-123 | the double loop computes the title merge of the concatenated lists |
| DataReader.MergeList | BroadTopicExtraction/analyzer/data_reader.py:117-122 | one source's list folded into the merge so far yields the title merge of the extended concatenation |
| DataReader.AllHotItems | BroadTopicExtraction/analyzer/data_reader.py:104-129 | `get_all_hot_items` is the title merge of the recent national, vertical and aggregator documents, in that priority |
| CandidateManager.Trunc | BroadTopicExtraction/analyzer/candidate_manager.py:189-202 | Python's `int()` on a float truncates toward zero (the same conversion recurs in `_apply_transition`) |
| CandidateManager.DecliningDrops | BroadTopicExtraction/analyzer/candidate_manager.py:99-105 | in a declining run every earlier score of the last rounds+1 snapshots is above every later one |
| CandidateManager.DecliningFewerRounds | BroadTopicExtraction/analyzer/candidate_manager.py:99-105 | declining for rounds+1 rounds implies declining for rounds rounds |
| CandidateManager.Overlap | BroadTopicExtraction/analyzer/candidate_manager.py:145-150 | the overlap is 0 when either set is empty, otherwise \|A∩B\| / min(\|A\|, \|B\|); it lies in [0, 1] and is 1 when one set contains the other |
| CandidateManager.TitlesKeywordsMembers | BroadTopicExtraction/analyzer/candidate_manager.py:161-163 | a candidate's keywords are exactly the keywords of its source titles |
| CandidateManager.Admits | BroadTopicExtraction/analyzer/candidate_manager.py:171-179 | cross-platform, velocity and position-jump signals are admitted; a new entry iff its position (999 when missing) is within the threshold; every other type never |
| CandidateManager.NewEntryAdmission | BroadTopicExtraction/analyzer/candidate_manager.py:176-178 | a detected new entry is admitted exactly when its rank is within the threshold |
| CandidateManager.RankScoreMonotone | BroadTopicExtraction/analyzer/candidate_manager.py:189-202 | a better rank never scores less, and a non-negative weight never gives a negative score |
| CandidateManager.CrossScoreBounds | BroadTopicExtraction/analyzer/candidate_manager.py:183-190 | with non-negative weights a cross-platform score is at least each platform's own contribution, which is non-negative |
| CandidateManager.ItemScoreNonNegative | BroadTopicExtraction/analyzer/candidate_manager.py:186-189 | one platform's contribution is never negative under non-negative weights |
| CandidateManager.CrossScoreNonNegative | BroadTopicExtraction/analyzer/candidate_manager.py:183-190 | a cross-platform score is never negative under non-negative weights |
| CandidateManager.CalcScorePos | BroadTopicExtraction/analyzer/candidate_manager.py:181-203 | the loop computes the specified score: the weighted rank sum over the platforms of a cross-platform signal; otherwise the latest positive recorded position, else the position in the details, else 0; never negative under non-negative weights |
| CandidateManager.CalcSumHot | BroadTopicExtraction/analyzer/candidate_manager.py:205-216 | the loop computes the specified heat: the sum over platform items for a cross-platform signal, else the latest recorded value, else the details' value |
| CandidateManager.CrossHotSnoc | BroadTopicExtraction/analyzer/candidate_manager.py:207-212 | adding a platform item adds exactly its hot value (0 when falsy) |
| CandidateManager.FirstFiring | BroadTopicExtraction/analyzer/candidate_manager.py:332-343 | the first rule from the given position on that may fire for the candidate, and none only when no later rule fires |
| CandidateManager.FinalStatusesStay | BroadTopicExtraction/analyzer/candidate_manager.py:316-323 | closed and faded candidates never change |
| CandidateManager.TrackingNeverRises | BroadTopicExtraction/analyzer/candidate_manager.py:336-338 | a tracking candidate only moves to faded, closed or tracking |
| CandidateManager.LowScoreFades | BroadTopicExtraction/analyzer/candidate_manager.py:332-343 | a score below 100 fades any active candidate first |
| CandidateManager.LadderOneStep | BroadTopicExtraction/analyzer/candidate_manager.py:76-96 | an emerging, rising, confirmed or exploded candidate stays, fades, starts tracking, or climbs exactly one rung |
| CandidateManager.EmergingRises | BroadTopicExtraction/analyzer/candidate_manager.py:93-95 | an emerging candidate scoring at least 1500 and not declining rises |
| CandidateManager.FindRule | BroadTopicExtraction/analyzer/candidate_manager.py:332-345 | the rule loop stops at the first rule that fires |
| CandidateManager.FirstFiringFrom | BroadTopicExtraction/analyzer/candidate_manager.py:332-343 | when rule i fires and no earlier one does, rule i is the one applied |
| CandidateManager.DeepPlatformsProps | BroadTopicExtraction/analyzer/candidate_manager.py:373-381 | the deep platforms are mapped codes of the candidate's platforms, without repeats, at most the cap, and every mapped code is present unless the cap was reached |
| CandidateManager.DeepPlatforms | BroadTopicExtraction/analyzer/candidate_manager.py:373-381 | the loop computes the specified deep platforms |
| CandidateManager.SearchKeywordsProps | BroadTopicExtraction/analyzer/candidate_manager.py:385-391 | the keywords start with the canonical title, are distinct, number one to three, and the others are non-empty source titles |
| CandidateManager.SearchKeywords | BroadTopicExtraction/analyzer/candidate_manager.py:385-391 | the loop, with its `break` at three keywords, computes the specified keywords |
| CandidateManager.PlannedTasksProps | BroadTopicExtraction/analyzer/candidate_manager.py:396-428 | one pending task per deep platform without an active task, none for the others, platforms distinct, each task of this candidate |
| CandidateManager.BuildTasks | BroadTopicExtraction/analyzer/candidate_manager.py:396-428 | the task loop computes the specified tasks |
| CandidateManager.EmitCrawlTasks | BroadTopicExtraction/analyzer/candidate_manager.py:367-434 | only a status with a crawl scale emits tasks; at most seven, one per mapped platform without an active task, each with the keywords and the exploded scale (20 notes, priority 3) |
| CandidateManager.CreatedProps | BroadTopicExtraction/analyzer/candidate_manager.py:218-253 | a new candidate is emerging, seen first now, named `cand_<hash>`, with the signal's score as its only snapshot; its titles are the signal's title then the distinct item titles, and its platforms the signal's |
| CandidateManager.AddAbsentProps | BroadTopicExtraction/analyzer/candidate_manager.py:258-276 | merging keeps every element in place, adds exactly the missing ones, and keeps a list without repeats without repeats |
| CandidateManager.AddAbsentPresent | BroadTopicExtraction/analyzer/candidate_manager.py:258-276 | merging elements that are all present changes nothing |
| CandidateManager.AddAbsentIdempotent | BroadTopicExtraction/analyzer/candidate_manager.py:258-276 | merging the same list twice is merging it once |
| CandidateManager.AddScoreProps | BroadTopicExtraction/analyzer/candidate_manager.py:279-288 | a round's score goes into this round's snapshot or a new one, earlier rounds are untouched, and the totals grow by exactly the score and heat |
| CandidateManager.UpdatedShape | BroadTopicExtraction/analyzer/candidate_manager.py:255-292 | an update keeps identity, status, history and first-seen time, sets `updated_at` and marks the candidate as signalled |
| CandidateManager.UpdatedTitles | BroadTopicExtraction/analyzer/candidate_manager.py:257-266 | an update keeps every title in place and adds the signal's missing non-empty titles once each |
| CandidateManager.UpdatedPlatforms | BroadTopicExtraction/analyzer/candidate_manager.py:268-277 | an update keeps every platform in place and adds the signal's missing platforms once each; `platform_count` stays the list's length |
| CandidateManager.UpdatedScores | BroadTopicExtraction/analyzer/candidate_manager.py:279-288 | an update adds the signal's score and heat to the totals, and a second update in the same round adds no snapshot |
| CandidateManager.UpdateTwiceSameTitles | BroadTopicExtraction/analyzer/candidate_manager.py:255-292 | the same signal twice in one round adds its score twice but no title or platform the first update did not |
| CandidateManager.DecayedProps | BroadTopicExtraction/analyzer/candidate_manager.py:296-312 | decay touches only an active, unsignalled candidate, appending one snapshot at its last values scaled by the factor; with a factor in [0, 1) a positive score strictly falls and stays non-negative |
| CandidateManager.DecayThreeRounds | BroadTopicExtraction/analyzer/candidate_manager.py:296-312 | with factor 0.8 a score of 1000 decays to 800, 640 and 512 over three quiet rounds, which is declining for three rounds |
| CandidateManager.TransitionedProps | BroadTopicExtraction/analyzer/candidate_manager.py:349-365 | a transition changes only status, history and update time, appends one history entry, and only a move from confirmed to exploded emits tasks, at most seven |
| CandidateManager.Candidate.FromSignal | BroadTopicExtraction/analyzer/candidate_manager.py:218-253 | the candidate built from a signal is the specified new candidate |
| CandidateManager.SourceTitles | BroadTopicExtraction/analyzer/candidate_manager.py:226-231 | the collecting loop yields the signal's title followed by exactly its other non-empty titles that differ from it, in the platform order |
| CandidateManager.Candidate.Update | BroadTopicExtraction/analyzer/candidate_manager.py:255-292 | the candidate is updated in place as specified |
| CandidateManager.Candidate.Decay | BroadTopicExtraction/analyzer/candidate_manager.py:296-312 | the candidate decays in place as specified |
| CandidateManager.Candidate.Transition | BroadTopicExtraction/analyzer/candidate_manager.py:316-365 | the candidate takes the first firing rule, reports whether one fired and returns the tasks it emits |
| CandidateManager.MergeTitles | BroadTopicExtraction/analyzer/candidate_manager.py:257-266 | the title loop appends each missing non-empty title |
| CandidateManager.MergePlatforms | BroadTopicExtraction/analyzer/candidate_manager.py:274-276 | the platform loop appends each missing platform |
| CandidateManager.ApplyDecay | BroadTopicExtraction/analyzer/candidate_manager.py:296-312 | every candidate of the round decays in place as specified |
| CandidateManager.RoundTasksOrigin | BroadTopicExtraction/analyzer/candidate_manager.py:316-434 | every task of a round is a pending exploded-scale task of a round candidate that moved from confirmed to exploded |
| CandidateManager.EvaluateTransitions | BroadTopicExtraction/analyzer/candidate_manager.py:316-347 | each candidate moves at most once, the count is the number that moved, and the tasks are those the moves emit, in order |
| CandidateManager.CandidateKeywords | BroadTopicExtraction/analyzer/candidate_manager.py:161-163 | the loop computes the union of the title keywords |
| CandidateManager.BestMatchProps | BroadTopicExtraction/analyzer/candidate_manager.py:152-169 | the match is the first candidate with the highest overlap among those reaching the minimum with a positive overlap, and none exactly when no candidate qualifies |
| CandidateManager.MatchCandidate | BroadTopicExtraction/analyzer/candidate_manager.py:152-169 | the loop computes the specified match |
| CandidateManager.GatherStep | BroadTopicExtraction/analyzer/candidate_manager.py:546-551 | one step of the inner loop keeps the gathering invariant |
| CandidateManager.CloseCluster | BroadTopicExtraction/analyzer/candidate_manager.py:541-552 | a finished cluster extends the clusters of the first i signals to the first i+1 |
| CandidateManager.CloseUsed | BroadTopicExtraction/analyzer/candidate_manager.py:541-552 | after a cluster closes, the used set is exactly the clustered signals |
| CandidateManager.CloseUnique | BroadTopicExtraction/analyzer/candidate_manager.py:541-552 | no signal is in two clusters |
| CandidateManager.CloseMaximal | BroadTopicExtraction/analyzer/candidate_manager.py:541-552 | a signal in a later cluster, or still unplaced, does not overlap an earlier seed by the minimum |
| CandidateManager.ClusterUnmatched | BroadTopicExtraction/analyzer/candidate_manager.py:535-552 | the clusters partition the unmatched signals; each is led by its seed with later members overlapping the seed by the minimum; seeds increase; and a member of a later cluster never reaches the minimum against an earlier seed |
| CandidateManager.FoldShape | BroadTopicExtraction/analyzer/candidate_manager.py:554-564 | folding a cluster's updates keeps identity and status and marks the candidate as signalled |
| CandidateManager.FoldTitles | BroadTopicExtraction/analyzer/candidate_manager.py:554-564 | folding keeps every title and adds every signal's non-empty title |
| CandidateManager.FoldPlatforms | BroadTopicExtraction/analyzer/candidate_manager.py:554-564 | folding keeps every platform and adds every signal's platforms |
| CandidateManager.FoldScores | BroadTopicExtraction/analyzer/candidate_manager.py:554-564 | folding one round's updates adds up the signals' scores in one snapshot |
| CandidateManager.ClusterDocProps | BroadTopicExtraction/analyzer/candidate_manager.py:554-564 | a cluster's candidate is emerging, named after its first signal, has one snapshot holding the whole cluster's score, and carries every signal's titles and platforms |
| CandidateManager.CandidateForCluster | BroadTopicExtraction/analyzer/candidate_manager.py:554-572 | two or more signals found a candidate together; a lone signal does only when admitted, and otherwise no candidate is made |
| CandidateManager.FoundCandidate | BroadTopicExtraction/analyzer/candidate_manager.py:557-561 | the candidate is created from the first signal and updated with the others |
| SignalDetector.Keywords | BroadTopicExtraction/analyzer/signal_detector.py:473-478 | an empty title has no keywords |
| SignalDetector.KeywordsSpec | BroadTopicExtraction/analyzer/signal_detector.py:473-478 | the keywords are duplicate-free and are exactly the tokens of a non-empty title that are at least two characters long and not stopwords |
| SignalDetector.NormalizePlatform | BroadTopicExtraction/analyzer/signal_detector.py:481-483 | the four aggregator variants map to their platform, every other name is unchanged |
| SignalDetector.NormalizeIdempotent | BroadTopicExtraction/analyzer/signal_detector.py:42-49 | a normalised name is never an alias again, so normalising twice is normalising once |
| SignalDetector.BuildSignal | BroadTopicExtraction/analyzer/signal_detector.py:427-470 | layer 2 exactly for cross-platform signals; the title is the override, else the item's title; the platform is the item's only when there is an item and no platform list; the id is type, title hash and platform for layer 1 and type and title hash for layer 2; layer-1 signals with an item carry its histories and first/last-seen times |
| SignalDetector.SignalIdsSeparateTypes | BroadTopicExtraction/analyzer/signal_detector.py:438-450 | signals of different types never share an id |
| SignalDetector.VelocityRule | BroadTopicExtraction/analyzer/signal_detector.py:174-198 | an item fires exactly when it has two history points, the previous value is positive, the current one reaches the minimum and the growth reaches the rate; the signal records both values and the growth |
| SignalDetector.VelocityDefaults | BroadTopicExtraction/analyzer/signal_detector.py:51-53 | with the default thresholds an item fires exactly when its value is at least 10000 and at least 1.5 times the previous one |
| SignalDetector.NewEntryRule | BroadTopicExtraction/analyzer/signal_detector.py:213-233 | an item fires exactly when its first-seen time is non-zero and recent enough and its hot value or its position (999 when missing) passes the threshold; the signal records value, position and age |
| SignalDetector.NewEntryWithoutPosition | BroadTopicExtraction/analyzer/signal_detector.py:218-221 | an item without a position can only fire by its hot value |
| SignalDetector.PositionJumpRule | BroadTopicExtraction/analyzer/signal_detector.py:245-269 | an item fires exactly when both positions are positive and the rise reaches the minimum; the recorded jump is previous minus current position |
| SignalDetector.DetectVelocity | BroadTopicExtraction/analyzer/signal_detector.py:164-199 | the signals are those of the firing items, in item order, all layer-1 velocity signals of the collection |
| SignalDetector.DetectNewEntry | BroadTopicExtraction/analyzer/signal_detector.py:201-234 | the signals are those of the firing items, in item order, all layer-1 new-entry signals of the collection |
| SignalDetector.DetectPositionJump | BroadTopicExtraction/analyzer/signal_detector.py:236-270 | the signals are those of the firing items, in item order, all layer-1 position-jump signals of the collection |
| SignalDetector.LayerOneComplete | BroadTopicExtraction/analyzer/signal_detector.py:174-198 | every firing item's signal is reported and every reported signal comes from a firing item |
| SignalDetector.CollectEntries | BroadTopicExtraction/analyzer/signal_detector.py:290-298 | the entries have distinct ids, every item with an id and keywords has its id present, and each entry holds the last item with that id |
| SignalDetector.LinkedPairs | BroadTopicExtraction/analyzer/signal_detector.py:303-319 | the pairs are exactly the entry pairs sharing at least the minimum number of keywords that occur in at most 50 entries |
| SignalDetector.UnionPairs | BroadTopicExtraction/analyzer/signal_detector.py:335-337 | after the unions both ends of every pair have the same root, and two entries have the same root only when a chain of the pairs joins them |
| SignalDetector.JoinPair | BroadTopicExtraction/analyzer/signal_detector.py:330-333 | one `union` sends everything that had the first root to the second root and keeps "same root only when joined by pairs" |
| SignalDetector.RelinkReach | BroadTopicExtraction/analyzer/signal_detector.py:330-333 | after pointing one root at another, two entries that now share a root were already joined, or are joined through the new pair |
| SignalDetector.FindAll | BroadTopicExtraction/analyzer/signal_detector.py:341-342 | each entry's root is found and no root moves |
| SignalDetector.LinkedRoots | BroadTopicExtraction/analyzer/signal_detector.py:321-342 | two entries of `item_data` end with the same root exactly when a chain of linked entries joins them |
| SignalDetector.GroupByRoot | BroadTopicExtraction/analyzer/signal_detector.py:340-342 | groups have distinct roots, non-empty increasing members, and entry k is in a group exactly when its root is that group's root |
| SignalDetector.Cluster | BroadTopicExtraction/analyzer/signal_detector.py:321-342 | the groups partition the entries, linked entries share a group, and the group of an entry holds exactly the entries a chain of linked entries joins to it |
| SignalDetector.GroupsByConnection | BroadTopicExtraction/analyzer/signal_detector.py:339-342 | grouping by root puts together exactly the entries that are connected |
| SignalDetector.FirstInfoIsFirst | BroadTopicExtraction/analyzer/signal_detector.py:354-362 | the info kept for a platform is that of its earliest member in the group |
| SignalDetector.CommonKeywords | BroadTopicExtraction/analyzer/signal_detector.py:363-366 | a keyword is common exactly when every member of a non-empty group has it |
| SignalDetector.ChainLinked | BroadTopicExtraction/analyzer/signal_detector.py:309-337 | in the four-item chain each consecutive pair shares two keywords and so is unioned |
| SignalDetector.CommonKeywordsRestart | BroadTopicExtraction/analyzer/signal_detector.py:363-366 | on the chain no keyword is common to all members, yet the loop as written reports the last item's four keywords |
| SignalDetector.PlatformTable | BroadTopicExtraction/analyzer/signal_detector.py:347-362 | the table has each normalised platform once, in order of first appearance, with its first member's info |
| SignalDetector.SummarizeGroup | BroadTopicExtraction/analyzer/signal_detector.py:346-383 | a group yields a signal exactly when it covers at least the minimum number of platforms; that signal is layer 2, has no platform, the first member's title, the sorted platform list, the platform table and the sorted keywords common to every member |
| SignalDetector.SortedCommon | BroadTopicExtraction/analyzer/signal_detector.py:378 | the common keywords sorted, holding exactly the keywords all members share |
| SignalDetector.FirstTableTitle | BroadTopicExtraction/analyzer/signal_detector.py:369 | the representative title is the first member's title |
| SignalDetector.DetectCrossPlatform | BroadTopicExtraction/analyzer/signal_detector.py:274-385 | no items give no signals; every signal is a layer-2 cross signal without platform whose sorted, distinct platform list reaches the minimum and matches its platform count |
| Dispatcher.IntPart | DeepSentimentCrawling/dispatcher.py:284 | `int()` of a non-negative clock value is its whole part |
| Dispatcher.Check | DeepSentimentCrawling/dispatcher.py:102-112 | a circuit is open exactly while its deadline is set and not reached; a passed deadline clears the deadline and the failure count, otherwise nothing changes |
| Dispatcher.AfterFailure | DeepSentimentCrawling/dispatcher.py:271-298 | a failure adds one to the count and sets the deadline to now plus 1800 s once the count reaches 3 |
| Dispatcher.CheckIdempotent | DeepSentimentCrawling/dispatcher.py:102-112 | checking a circuit twice at the same moment is checking it once |
| Dispatcher.TripWindow | DeepSentimentCrawling/dispatcher.py:114-116 | a tripped circuit is open for exactly the reset period and is then closed with no failures |
| Dispatcher.ThreeFailuresTrip | DeepSentimentCrawling/dispatcher.py:42-43 | three failures in a row open a closed circuit; a success between them does not |
| Dispatcher.InsertTask | DeepSentimentCrawling/dispatcher.py:133 | inserting a task into the ordered list adds exactly that task |
| Dispatcher.FetchPendingProps | DeepSentimentCrawling/dispatcher.py:120-134 | the fetched tasks are exactly the pending documents with no or a due retry time, ordered by priority descending then creation time ascending |
| Dispatcher.Backoff | DeepSentimentCrawling/dispatcher.py:283 | from one attempt on the back-off is 120, 240, then 480 s for every later attempt; an index below -3 raises |
| Dispatcher.SetTask | DeepSentimentCrawling/dispatcher.py:136-139 | an update without upsert merges the fields into the task with that id and touches no other task |
| Dispatcher.NextAttempts | DeepSentimentCrawling/dispatcher.py:270-270 | `attempts + 1` succeeds exactly for an int, bool or float count and gives an int or a float; anything else raises TypeError |
| Dispatcher.FailureUpdate | DeepSentimentCrawling/dispatcher.py:273-290 | at three attempts the task is failed for good, from one to two it is pending again with the attempt's back-off added to now; a back-off index below -3 raises IndexError, and a float count below three raises TypeError as a list index |
| Dispatcher.RetrySchedule | DeepSentimentCrawling/dispatcher.py:44-45 | a fresh task is retried after 120 s, then after 240 s, and fails for good at the third failure |
| Dispatcher.ExecuteSuccessBlocked | DeepSentimentCrawling/dispatcher.py:245-256 | a success completes the task and clears its platform's count; a blocked task is pending again and the circuits are untouched |
| Dispatcher.ExecuteFailure | DeepSentimentCrawling/dispatcher.py:268-298 | with an integer count, any other status counts one failure and trips the platform's circuit at the threshold; below it the deadline is unchanged |
| Dispatcher.ExecuteBadAttempts | DeepSentimentCrawling/dispatcher.py:270-283 | a count that cannot be added to raises TypeError before the failure is counted; a float count below three is counted and then raises TypeError; the task stays running |
| Dispatcher.TrippedOpens | DeepSentimentCrawling/dispatcher.py:296-297 | the step opens exactly the tripped platform's circuit for the reset period, and without a trip no deadline changes |
| Dispatcher.ExecuteDryRun | DeepSentimentCrawling/dispatcher.py:225-227 | a dry run changes nothing |
| Dispatcher.RoundSkipsOpen | DeepSentimentCrawling/dispatcher.py:328-330 | a task of a platform tripped less than the reset period ago is not started |
| Dispatcher.VisitedSnoc | DeepSentimentCrawling/dispatcher.py:321-330 | one more task marks its platform as checked, if served, and no other |
| Dispatcher.TaskDispatcher.constructor | DeepSentimentCrawling/dispatcher.py:47-71 | the given platforms, or all seven when none are given, each with a closed circuit and no failures |
| Dispatcher.TaskDispatcher.IsCircuitOpen | DeepSentimentCrawling/dispatcher.py:102-112 | answers and updates the platform's entries as Check says, and changes nothing else |
| Dispatcher.TaskDispatcher.TripCircuit | DeepSentimentCrawling/dispatcher.py:114-118 | sets the platform's deadline to now plus the reset period, changes no other dispatcher state, and sends the circuit alert through the platform's rate limiter |
| Dispatcher.TaskDispatcher.ExecuteOne | DeepSentimentCrawling/dispatcher.py:220-298 | the counts, deadlines and tasks afterwards, and the exception if any, are those of Execute; the alerter's limiter changes only for the platform whose circuit trips |
| Dispatcher.TaskDispatcher.RecordFailure | DeepSentimentCrawling/dispatcher.py:268-298 | the failure branch: the attempts are counted (a TypeError when they are not a number), the platform's failure count grows by one, the task is failed or rescheduled as FailureUpdate says, and the circuit opens and alerts exactly when the grown count reaches the threshold |
| Dispatcher.TaskDispatcher.SelectRound | DeepSentimentCrawling/dispatcher.py:314-342 | the started tasks are the fetched ones of served platforms with a closed circuit, in order; each checked circuit is updated as Check says and no other |
| TaskQueues.BeforeTrans | DeepSentimentCrawling/task_queue.py:5-12 | the sorted-set order is transitive |
| TaskQueues.BeforeTotal | DeepSentimentCrawling/task_queue.py:5-12 | any two distinct members are ordered one way or the other |
| TaskQueues.Remove | DeepSentimentCrawling/task_queue.py:88-88 | ZREM keeps exactly the entries of other members (`remove_task` issues the same ZREM for each id pattern) |
| TaskQueues.RemoveProps | DeepSentimentCrawling/task_queue.py:88-88 | ZREM keeps the set well formed and shrinks it by one exactly when the member was present (`remove_task` issues the same ZREM for each id pattern) |
| TaskQueues.Insert | DeepSentimentCrawling/task_queue.py:90 | insertion adds exactly the new entry |
| TaskQueues.InsertValid | DeepSentimentCrawling/task_queue.py:90 | inserting a new member keeps the set strictly ordered |
| TaskQueues.ZAddProps | DeepSentimentCrawling/task_queue.py:88-90 | after ZADD the member is present once, at the new score, every other entry is kept and the size grows only for a new member |
| TaskQueues.ScoreOf | DeepSentimentCrawling/task_queue.py:5-6 | a member has a score exactly when it is in the set |
| TaskQueues.ScoreOfUnique | DeepSentimentCrawling/task_queue.py:5-6 | in a well-formed set each member has one score |
| TaskQueues.UserBeforeCandidate | DeepSentimentCrawling/task_queue.py:8-39 | with clock values below 1e10 every user task comes before every candidate task |
| TaskQueues.FifoWithinTier | DeepSentimentCrawling/task_queue.py:12 | within one tier an earlier push comes first |
| TaskQueues.SourceOfPushed | DeepSentimentCrawling/task_queue.py:84-84 | the source tag of a pushed task is "user" or "candidate" by its tier (the same tag is set on every push path) |
| TaskQueues.AnnotateProps | DeepSentimentCrawling/task_queue.py:152-165 | an annotated task keeps its own fields and carries id, score and source; dropping the "_" fields gives the task back |
| TaskQueues.TaskId | DeepSentimentCrawling/task_queue.py:80-82 | a task id is returned exactly when `task_id` is truthy |
| TaskQueues.RangeCount | DeepSentimentCrawling/task_queue.py:179 | a range never returns more entries than the set has |
| TaskQueues.Peeked | DeepSentimentCrawling/task_queue.py:181-190 | at most one task per entry read |
| TaskQueues.PeekZeroReturnsAll | DeepSentimentCrawling/task_queue.py:179 | as written, a limit of 0 peeks at the whole set |
| TaskQueues.PeekPositive | DeepSentimentCrawling/task_queue.py:179 | a positive limit returns at most that many entries |
| TaskQueues.PeekIntended | DeepSentimentCrawling/task_queue.py:176-179 | the corrected peek returns at most `limit` tasks and none for a limit below one |
| TaskQueues.PeekAgreesWhenPositive | DeepSentimentCrawling/task_queue.py:176-190 | the corrected peek and the code agree on every positive limit |
| TaskQueues.Patterns | DeepSentimentCrawling/task_queue.py:199-202 | one id for a user prefix; for the candidate prefix also the exploded, confirmed and rising ids |
| TaskQueues.RemoveEachProps | DeepSentimentCrawling/task_queue.py:205-209 | removing several members keeps the set well formed and keeps exactly the other entries |
| TaskQueues.RemoveEachMembers | DeepSentimentCrawling/task_queue.py:205-209 | the members left are exactly those not among the removed ids |
| TaskQueues.RemovedIdsProps | DeepSentimentCrawling/task_queue.py:205-208 | the ids deleted from the hash are exactly the patterns that were members |
| TaskQueues.RemovedStep | DeepSentimentCrawling/task_queue.py:205-208 | one more pattern deletes its hash entry exactly when it removed a member, and sets the flag then |
| TaskQueues.TaskQueue.constructor | DeepSentimentCrawling/task_queue.py:41-43 | a queue over the store's current set and hash |
| TaskQueues.TaskQueue.Store | DeepSentimentCrawling/task_queue.py:87-95 | the pipeline leaves the member at its new score and the hash entry set to the task |
| TaskQueues.TaskQueue.PushUserTask | DeepSentimentCrawling/task_queue.py:72-98 | no truthy `task_id`: an error and nothing changes; otherwise the task is stored as `user:<id>` at the user score and its id returned |
| TaskQueues.TaskQueue.PushCandidateTask | DeepSentimentCrawling/task_queue.py:100-126 | no truthy `task_id`: an error and nothing changes; otherwise stored as `candidate:<status>:<id>` at the candidate score and its id returned |
| TaskQueues.TaskQueue.PopTask | DeepSentimentCrawling/task_queue.py:130-156 | an empty queue gives nothing; otherwise the first entry leaves set and hash and its task, annotated, is returned when it had data |
| TaskQueues.TaskQueue.PushBack | DeepSentimentCrawling/task_queue.py:158-172 | without a truthy `_prefixed_id` nothing changes; otherwise the task without "_" fields is stored at the given score |
| TaskQueues.TaskQueue.PeekTasks | DeepSentimentCrawling/task_queue.py:176-190 | the annotated tasks of the first entries of the range that still have data, changing nothing |
| TaskQueues.TaskQueue.QueueSize | DeepSentimentCrawling/task_queue.py:192-194 | the number of entries in the set |
| TaskQueues.TaskQueue.RemoveTask | DeepSentimentCrawling/task_queue.py:196-210 | every pattern present leaves set and hash, and the result says whether any did |
| TaskQueues.TaskQueue.RemovePattern | DeepSentimentCrawling/task_queue.py:205-209 | one pattern of the loop extends the removal by that pattern |
| TaskQueues.TaskQueue.RemoveOne | DeepSentimentCrawling/task_queue.py:206-208 | ZREM reports whether the member was present, and the hash entry goes only then |
| TaskQueues.TaskQueue.ClearQueue | DeepSentimentCrawling/task_queue.py:212-220 | returns the prior size and empties the set; the hash goes only when the set was not empty |
| TaskQueues.ReinsertHead | DeepSentimentCrawling/task_queue.py:138-167 | putting the first entry back at its score restores the set |
| TaskQueues.PopPushBackRoundTrip | DeepSentimentCrawling/task_queue.py:130-172 | pushing a popped task back at its popped score restores set and hash |
| TaskQueues.RemoveSame | DeepSentimentCrawling/task_queue.py:206 | removing an absent member changes nothing |
| CookieManager.SessionCookieKey | DeepSentimentCrawling/cookie_manager.py:202-205 | a session cookie name is returned exactly for the seven known platforms, "" for any other |
| CookieManager.SessionCookieKeyTable | DeepSentimentCrawling/cookie_manager.py:38-46 | the lookup gives each platform of the table its own session cookie |
| CookieManager.PairTexts | DeepSentimentCrawling/cookie_manager.py:200 | one `name=value` text per cookie, in the jar's order |
| CookieManager.Spaced | DeepSentimentCrawling/cookie_manager.py:200 | each part after the first carries the space the separator leaves |
| CookieManager.JoinSpaced | DeepSentimentCrawling/cookie_manager.py:200 | joining with "; " is joining the spaced parts with ";" |
| CookieManager.CookieStringSplits | DeepSentimentCrawling/cookie_manager.py:197-200 | when no name or value contains ';' the cookie string splits back into its pairs: the format loses none |
| CookieManager.DistinctKeysPerm | DeepSentimentCrawling/cookie_manager.py:130 | sorting the status rows keeps their platforms distinct |
| CookieManager.Store.constructor | DeepSentimentCrawling/cookie_manager.py:52-55 | a store over the collection's current documents, keyed by platform |
| CookieManager.Store.SaveCookies | DeepSentimentCrawling/cookie_manager.py:67-83 | the platform's document, created if needed, gets the cookies, the save time, an expiry hint seven days later and status active, keeping its other fields |
| CookieManager.Store.LoadCookies | DeepSentimentCrawling/cookie_manager.py:86-95 | cookies come back exactly for a document whose status is active |
| CookieManager.Store.MarkExpired | DeepSentimentCrawling/cookie_manager.py:97-106 | an existing document becomes expired with the time; a missing one is not created; the cookie alert goes through the platform's rate limiter |
| CookieManager.Store.GetAllStatus | DeepSentimentCrawling/cookie_manager.py:108-130 | one row per stored or known platform, distinct and sorted by platform; stored platforms show their document, the others are missing |
| CookieManager.Store.StoredRows | DeepSentimentCrawling/cookie_manager.py:111-119 | one row per stored document, with its status and times |
| CookieManager.Store.AddMissing | DeepSentimentCrawling/cookie_manager.py:120-129 | a missing row for each known platform without a document, and no platform twice |
| TopicMatcher.SliceAvoids | DeepSentimentCrawling/topic_matcher.py:59 | a slice of a text free of the fence is free of it |
| TopicMatcher.AfterFence | DeepSentimentCrawling/topic_matcher.py:59 | the segment after the first fence is a slice of the text that holds no fence |
| TopicMatcher.FencedText | DeepSentimentCrawling/topic_matcher.py:58-62 | the fenced segment, without its "json" tag, is stripped and holds no fence |
| TopicMatcher.StripAvoids | DeepSentimentCrawling/topic_matcher.py:62 | stripping keeps a text free of the fence and is idempotent |
| TopicMatcher.LlmJsonText | DeepSentimentCrawling/topic_matcher.py:55-63 | a reply without a fence is parsed stripped; with one, the stripped first fenced segment, which holds no fence |
| Common.StripFixed | DeepSentimentCrawling/topic_matcher.py:57 | a text with no whitespace at either end is its own strip |
| TopicMatcher.ClosingFence | DeepSentimentCrawling/topic_matcher.py:59 | in a backtick-free segment followed by a fence, the first fence found is that closing one |
| TopicMatcher.FencedReply | DeepSentimentCrawling/topic_matcher.py:55-63 | a reply fenced as a json code block parses its stripped body |
| TopicMatcher.KeywordSetSpec | DeepSentimentCrawling/topic_matcher.py:47-52 | the keywords are exactly the tokens of a non-empty title at least two characters long and not stopwords |
| TopicMatcher.CandidateTitles | DeepSentimentCrawling/topic_matcher.py:221-222 | a candidate's titles are its canonical title followed by each of its source titles, in order |
| TopicMatcher.UnionKeywordsSpec | DeepSentimentCrawling/topic_matcher.py:223-225 | a candidate's keywords are exactly those of some of its titles |
| TopicMatcher.SubsetCard | DeepSentimentCrawling/topic_matcher.py:230 | the intersection is no larger than the union, and as large only when the sets are equal |
| TopicMatcher.JaccardBounds | DeepSentimentCrawling/topic_matcher.py:230 | the overlap lies in [0, 1] and is 1 exactly for equal sets |
| TopicMatcher.ScoredListMembers | DeepSentimentCrawling/topic_matcher.py:219-232 | the scored list holds exactly the entries of the candidates that have keywords and an overlap of at least 0.3 |
| TopicMatcher.InsertDescProps | DeepSentimentCrawling/topic_matcher.py:234 | inserting keeps the list descending and adds exactly the entry |
| TopicMatcher.SortDescProps | DeepSentimentCrawling/topic_matcher.py:234 | the sort is descending by overlap and a permutation |
| TopicMatcher.SortedEntries | DeepSentimentCrawling/topic_matcher.py:219-234 | every sorted entry is the entry of some candidate |
| TopicMatcher.PrefilteredProps | DeepSentimentCrawling/topic_matcher.py:211-235 | no keywords give an empty shortlist; otherwise at most ten entries, descending, each an input candidate with keywords and its true overlap of at least 0.3 |
| TopicMatcher.PrefilteredComplete | DeepSentimentCrawling/topic_matcher.py:227-235 | a candidate clearing 0.3 is on the shortlist unless ten entries at least as good fill it |
| TopicMatcher.RoundHalfEven | DeepSentimentCrawling/topic_matcher.py:332 | `round` lands within one half of the value |
| TopicMatcher.Round2 | DeepSentimentCrawling/topic_matcher.py:332 | rounding to two places moves the value by at most 0.005 |
| TopicMatcher.FirstStrong | DeepSentimentCrawling/topic_matcher.py:317-318 | the first entry with an overlap of at least 0.6, or none when every overlap is below |
| TopicMatcher.Fallback | DeepSentimentCrawling/topic_matcher.py:313-335 | no match exactly when every overlap is below 0.6; otherwise a duplicate by jieba for the first entry that reaches it |
| TopicMatcher.FindById | DeepSentimentCrawling/topic_matcher.py:284-288 | the first shortlist entry with the given id, or none when no entry has it |
| TopicMatcher.LlmMatch | DeepSentimentCrawling/topic_matcher.py:237-311 | a match exactly when the reply parses, its type is not different, its id is truthy and on the shortlist; the match carries that type and id and the entry's title |
| TopicMatcher.Latest | DeepSentimentCrawling/topic_matcher.py:127-134 | the newest user task with the title since the cutoff, or none when there is no such task |
| TopicMatcher.CheckRecent | DeepSentimentCrawling/topic_matcher.py:121-151 | a hit exactly when a user task with the title was created in the last 24 hours; the hit is an exact duplicate with confidence 1.0 |
| TopicMatcher.GroupEntries | DeepSentimentCrawling/topic_matcher.py:195-204 | each added candidate has a truthy title not seen before, and no two share a title |
| TopicMatcher.FetchCandidates | DeepSentimentCrawling/topic_matcher.py:153-209 | the candidate documents come first, then only user-task groups whose titles are new |
| TopicMatcher.ExtrasSnoc | DeepSentimentCrawling/topic_matcher.py:370-373 | one more entry adds its stripped text when it is non-empty and not the title |
| TopicMatcher.ExtrasProps | DeepSentimentCrawling/topic_matcher.py:370-373 | every kept extra is stripped, non-empty and not the title |
| TopicMatcher.ExtrasOfProps | DeepSentimentCrawling/topic_matcher.py:367-373 | at most two extras, each stripped, non-empty and not the title |
| TopicMatcher.ExpandedShape | DeepSentimentCrawling/topic_matcher.py:339-378 | the keywords are the title followed by the extras of a parsed reply, and the title alone otherwise |
| TopicMatcher.TitleThenExtras | DeepSentimentCrawling/topic_matcher.py:344-373 | the title followed by at most two good extras has one to three entries |
| TopicMatcher.ExpandedProps | DeepSentimentCrawling/topic_matcher.py:339-378 | the title comes first, at most two stripped, non-empty extras different from it follow, and without a model or reply it is the title alone |
| TopicMatcher.CollectKeywords | DeepSentimentCrawling/topic_matcher.py:223-225 | the loop collects the union of the titles' keywords |
| TopicMatcher.ScoredListSnoc | DeepSentimentCrawling/topic_matcher.py:220-232 | one more candidate adds its entry when it qualifies |
| TopicMatcher.ScoreAll | DeepSentimentCrawling/topic_matcher.py:219-232 | the loop builds the scored list |
| TopicMatcher.KeepExtras | DeepSentimentCrawling/topic_matcher.py:370-373 | the loop keeps exactly the good extras, in order |
| TopicMatcher.TopicMatcher.constructor | DeepSentimentCrawling/topic_matcher.py:69-83 | the model is available exactly when a key and a base URL are configured, the matcher's own or the main ones; the model name defaults to qwen-flash |
| TopicMatcher.TopicMatcher.Prefilter | DeepSentimentCrawling/topic_matcher.py:211-235 | the shortlist is the prefiltered list |
| TopicMatcher.TopicMatcher.Match | DeepSentimentCrawling/topic_matcher.py:87-119 | an exact recent hit wins; no candidates or no shortlist give no match; then the model's match when available and given, else the keyword fallback |
| TopicMatcher.TopicMatcher.ExpandKeywords | DeepSentimentCrawling/topic_matcher.py:339-378 | the expanded keywords |
| Popup.FirstDomain | DeepSentimentCrawling/chrome_extension/popup.js:154-156 | the first entry whose domain the host matches, or none when no entry matches |
| Popup.MatchPlatform | DeepSentimentCrawling/chrome_extension/popup.js:153-158 | null exactly when the host is no domain of the table nor under one; otherwise the platform of the first entry it matches |
| Popup.NotUnder | DeepSentimentCrawling/chrome_extension/popup.js:155 | a host without a dot where the domain's suffix would begin is not that domain |
| Popup.LookalikeRejected | DeepSentimentCrawling/chrome_extension/popup.js:155 | a host merely ending in a domain's letters is not matched |
| Popup.SubdomainAccepted | DeepSentimentCrawling/chrome_extension/popup.js:155 | a subdomain of a platform's domain is matched to that platform |
| Popup.FirstCode | DeepSentimentCrawling/chrome_extension/popup.js:167-169 | the first entry with the code, or none when no entry has it |
| Popup.PlatformNameByCode | DeepSentimentCrawling/chrome_extension/popup.js:166-171 | the name of the first platform with the code, else the code itself |
| Popup.JsTrimSlice | DeepSentimentCrawling/chrome_extension/popup.js:56-57 | JavaScript `trim()` returns a slice of the input with no JavaScript whitespace or line terminator at either end |
| Popup.JsTrimCut | DeepSentimentCrawling/chrome_extension/popup.js:56-57 | everything JavaScript `trim()` cut on either side is whitespace or a line terminator |
| Popup.JsTextExamples | DeepSentimentCrawling/chrome_extension/popup.js:114 | the count in the export message prints as JavaScript's `String()` would: `undefined` when missing, a whole float without its fraction, an array joined by commas with null as nothing, an object as `[object Object]` |
| Popup.NormalizeUrl | DeepSentimentCrawling/chrome_extension/popup.js:56 | the trimmed address with every trailing slash removed, and only those |
| Popup.Saved | DeepSentimentCrawling/chrome_extension/popup.js:55-65 | nothing is stored exactly when the address comes out empty; otherwise the address without a trailing slash and the trimmed token |
| Popup.NormalizeUrlEmpty | DeepSentimentCrawling/chrome_extension/popup.js:56-58 | an address is refused exactly when it is blank or only slashes |
| Popup.PopupCookieStringSpec | DeepSentimentCrawling/chrome_extension/popup.js:97 | the cookie string is the `name=value` texts joined by "; " |
| Popup.HexDigit | DeepSentimentCrawling/chrome_extension/popup.js:100 | an upper-case hexadecimal digit |
| Popup.Utf8 | DeepSentimentCrawling/chrome_extension/popup.js:100 | one to four bytes per character |
| Popup.Percent | DeepSentimentCrawling/chrome_extension/popup.js:100 | three characters per byte, all '%' or hexadecimal digits |
| Popup.EncodeUriComponent | DeepSentimentCrawling/chrome_extension/popup.js:100 | the encoding holds only unreserved characters, '%' and hexadecimal digits |
| Popup.EncodeUnreserved | DeepSentimentCrawling/chrome_extension/popup.js:100 | unreserved text passes through unchanged |
| Popup.EncodedTokenStaysInParameter | DeepSentimentCrawling/chrome_extension/popup.js:100 | an encoded token holds no '&', '#', '=' or space, so it cannot leave its query parameter |
| Popup.OutcomeSuccess | DeepSentimentCrawling/chrome_extension/popup.js:92-127 | the export succeeds exactly when there are cookies and the server answers with status success |
| Popup.CodesOfSnoc | DeepSentimentCrawling/chrome_extension/popup.js:139-141 | one more entry adds its code to the seen set |
| Popup.UniqueCodes | DeepSentimentCrawling/chrome_extension/popup.js:137-150 | the buttons cover every code of the table |
| Popup.UniqueDistinct | DeepSentimentCrawling/chrome_extension/popup.js:137-150 | no code gets two buttons |
| Popup.UniqueFirsts | DeepSentimentCrawling/chrome_extension/popup.js:137-150 | each button belongs to the first entry of the table with its code |
| Popup.UniqueFirstsStep | DeepSentimentCrawling/chrome_extension/popup.js:139-148 | each kept platform has a first entry with its code that it comes from |
| Popup.Fresh | DeepSentimentCrawling/chrome_extension/popup.js:143-144 | one new button per platform, labelled with its name |
| Popup.ButtonLabels | DeepSentimentCrawling/chrome_extension/popup.js:117-144 | each button's label is the name of its code, so relabelling after an export keeps it |
| Popup.PopupPage.constructor | DeepSentimentCrawling/chrome_extension/popup.js:24-29 | the page opens with the stored settings, no platform and no buttons |
| Popup.PopupPage.SaveSettings | DeepSentimentCrawling/chrome_extension/popup.js:55-65 | an empty address shows an error and writes nothing; otherwise the normalised address and trimmed token are stored and saved is shown |
| Popup.PopupPage.RenderPlatformButtons | DeepSentimentCrawling/chrome_extension/popup.js:137-150 | one button per distinct code is appended and nothing else changes |
| Popup.PopupPage.DetectPlatform | DeepSentimentCrawling/chrome_extension/popup.js:32-52 | no tab URL leaves the platform unknown; otherwise the host is matched and a recognised platform enables export; the buttons are rendered in every case |
| Popup.PopupPage.ExportCookies | DeepSentimentCrawling/chrome_extension/popup.js:73-134 | without an address only an error is shown; otherwise the cookies are sent to the export URL (no cookies is an error before any request), the outcome is shown and the main button is re-enabled |
| Popup.PopupPage.ClickExport | DeepSentimentCrawling/chrome_extension/popup.js:67-70 | nothing without a recognised platform; otherwise that platform's cookies are exported and the main button ends enabled |
| Popup.PopupPage.ClickShortcut | DeepSentimentCrawling/chrome_extension/popup.js:145-147 | exports the button's platform and leaves the button labelled with its name, marked done or fail |
| Pipelines.ScrapyItem.constructor | BroadTopicExtraction/crawlers/mindspider_crawlers/pipelines.py:56-57 | an item holding the given fields |
| Pipelines.MissingField | BroadTopicExtraction/crawlers/mindspider_crawlers/pipelines.py:103-110 | the title is reported missing exactly when it is absent or falsy |
| Pipelines.FirstMissing | BroadTopicExtraction/crawlers/mindspider_crawlers/pipelines.py:108-110 | the loop over the required fields reports the first one missing or falsy, as the missing-field function does |
| Pipelines.CleanFields | BroadTopicExtraction/crawlers/mindspider_crawlers/pipelines.py:112-122 | the fields after the in-place cleaning steps are the cleaned fields |
| Pipelines.CleanedFields | BroadTopicExtraction/crawlers/mindspider_crawlers/pipelines.py:112-122 | cleaning sets the title to the text, makes a set position an integer (an integer is kept, 0 when `int()` fails) and changes nothing else |
| Pipelines.CleanedTwice | BroadTopicExtraction/crawlers/mindspider_crawlers/pipelines.py:112-122 | cleaning twice with the same title is cleaning once |
| Pipelines.ValidatedFields | BroadTopicExtraction/crawlers/mindspider_crawlers/pipelines.py:112-122 | validation sets the title to its stripped text, makes a set position an integer and changes nothing else |
| Pipelines.ValidateTwice | BroadTopicExtraction/crawlers/mindspider_crawlers/pipelines.py:105-124 | a validated item passes again unchanged unless its title was only whitespace, which the second pass drops |
| Pipelines.ValidationPipeline.ProcessItem | BroadTopicExtraction/crawlers/mindspider_crawlers/pipelines.py:105-124 | an item without a truthy title is dropped unchanged; any other passes with its fields validated in place |
| Pipelines.DedupRunPasses | BroadTopicExtraction/crawlers/mindspider_crawlers/pipelines.py:83-97 | over text titles an item passes exactly when no earlier item and no remembered title had its title; the others are dropped, none raises |
| Pipelines.DuplicateFilterPipeline.constructor | BroadTopicExtraction/crawlers/mindspider_crawlers/pipelines.py:86-87 | the filter starts with no titles seen |
| Pipelines.DuplicateFilterPipeline.ProcessItem | BroadTopicExtraction/crawlers/mindspider_crawlers/pipelines.py:89-97 | the outcome and the titles seen afterwards are those of one dedup step on the item's title |
| Pipelines.MongoPipeline.constructor | BroadTopicExtraction/crawlers/mindspider_crawlers/pipelines.py:25-29 | the pipeline starts without a processor |
| Pipelines.MongoPipeline.OpenSpider | BroadTopicExtraction/crawlers/mindspider_crawlers/pipelines.py:38-46 | a new connected processor over the loaded configuration and the database |
| Pipelines.MongoPipeline.CloseSpider | BroadTopicExtraction/crawlers/mindspider_crawlers/pipelines.py:48-52 | an open processor is closed and its data kept |
| Pipelines.MongoPipeline.ProcessItem | BroadTopicExtraction/crawlers/mindspider_crawlers/pipelines.py:54-80 | an item without a truthy title is dropped and nothing is written; otherwise the processor's step under the source name decides, and any failure there drops the item with its message |
| SpiderBase.WithExtrasProps | BroadTopicExtraction/crawlers/mindspider_crawlers/spiders/base.py:100-102 | the extras loop keeps every declared, non-None keyword argument, leaves every other field as it was and adds nothing undeclared |
| SpiderBase.ExtrasKeep | BroadTopicExtraction/crawlers/mindspider_crawlers/spiders/base.py:100-102 | a field the keyword arguments do not carry keeps its value |
| SpiderBase.ExtrasSet | BroadTopicExtraction/crawlers/mindspider_crawlers/spiders/base.py:100-102 | a declared field takes the argument's value when it is not None and keeps its own otherwise |
| SpiderBase.ExtrasUndeclared | BroadTopicExtraction/crawlers/mindspider_crawlers/spiders/base.py:100-102 | an undeclared field never appears in the item |
| SpiderBase.WithExtrasDeclared | BroadTopicExtraction/crawlers/mindspider_crawlers/spiders/base.py:100-102 | an item of declared fields stays one after the extras |
| SpiderBase.CopyExtras | BroadTopicExtraction/crawlers/mindspider_crawlers/spiders/base.py:160-162 | the loop over the keyword arguments yields exactly the item the extras rule describes |
| SpiderBase.Pop | BroadTopicExtraction/crawlers/mindspider_crawlers/spiders/base.py:127 | `kwargs.pop(key, default)` returns the argument or the default and removes exactly that key |
| SpiderBase.Spider.constructor | BroadTopicExtraction/crawlers/mindspider_crawlers/spiders/base.py:29-33 | a spider with an empty source name reports under its own name, otherwise under the given one |
| SpiderBase.Spider.MakeItem | BroadTopicExtraction/crawlers/mindspider_crawlers/spiders/base.py:48-61 | the arguments come back unchanged, with the spider's platform added only when they carry none |
| SpiderBase.Spider.HotItemFields | BroadTopicExtraction/crawlers/mindspider_crawlers/spiders/base.py:69-104 | a hot item has the stripped title, the url and position as given, a hot value exactly when one is not None, the platform, the declared non-None extras and no undeclared field |
| SpiderBase.Spider.LocalItemFields | BroadTopicExtraction/crawlers/mindspider_crawlers/spiders/base.py:113-136 | a local item is a hot item whose region comes from the arguments (even None) or else from the spider |
| SpiderBase.Spider.VerticalItemFields | BroadTopicExtraction/crawlers/mindspider_crawlers/spiders/base.py:145-164 | a vertical item has the stripped title, url, position, the vertical from the arguments or the spider, and only declared fields |
| SpiderBase.Spider.MediaItemFields | BroadTopicExtraction/crawlers/mindspider_crawlers/spiders/base.py:173-209 | a media item has no position, a media type from the arguments or the spider, a publish date and content exactly when they are truthy, and only declared fields |
| SpiderBase.Spider.ArticleFields | BroadTopicExtraction/crawlers/mindspider_crawlers/spiders/base.py:194-209 | a newspaper article built with a date and an extra argument carries the stripped title, url, date, extra, platform and media type, and content exactly when it is truthy |
| SpiderBase.Spider.MakeHotItem | BroadTopicExtraction/crawlers/mindspider_crawlers/spiders/base.py:90-104 | the built item is the hot item HotItemFields describes |
| SpiderBase.Spider.MakeLocalItem | BroadTopicExtraction/crawlers/mindspider_crawlers/spiders/base.py:122-136 | the built item is the local item LocalItemFields describes |
| SpiderBase.Spider.MakeVerticalItem | BroadTopicExtraction/crawlers/mindspider_crawlers/spiders/base.py:153-164 | the built item is the vertical item VerticalItemFields describes |
| SpiderBase.Spider.MakeMediaItem | BroadTopicExtraction/crawlers/mindspider_crawlers/spiders/base.py:194-209 | the built item is the media item MediaItemFields describes |
| Newspaper.TargetDate | BroadTopicExtraction/crawlers/mindspider_crawlers/spiders/media/gmrb.py:31-37 | the issue date is today unless year, month and day are all truthy; then it is that date, and the spider fails exactly when `int()` rejects a part or the day does not exist |
| Newspaper.ZeroPadWidth | BroadTopicExtraction/crawlers/mindspider_crawlers/spiders/media/gmrb.py:39-41 | a zero-padded part of a number below 10^w is exactly w characters |
| Newspaper.DatePartWidths | BroadTopicExtraction/crawlers/mindspider_crawlers/spiders/media/gmrb.py:39-41 | year, month and day print as four, two and two characters |
| Newspaper.DateStrRoundTrip | BroadTopicExtraction/crawlers/mindspider_crawlers/spiders/media/gmrb.py:39-42 | the date string is eight digits from which the year, month and day read back |
| Newspaper.PublishDateParts | BroadTopicExtraction/crawlers/mindspider_crawlers/spiders/media/gmrb.py:136-137 | whatever the string, the publish date is its first eight characters with two dashes inserted |
| Newspaper.PublishDateOfDate | BroadTopicExtraction/crawlers/mindspider_crawlers/spiders/media/gmrb.py:136-137 | for the date string of a real date the publish date is `YYYY-MM-DD` |
| Newspaper.PageTitle | BroadTopicExtraction/crawlers/mindspider_crawlers/spiders/media/gmrb.py:94-103 | a list entry yields a title exactly when it holds a link whose stripped text names neither the page editor nor an advertisement |
| Newspaper.PageTitleChars | BroadTopicExtraction/crawlers/mindspider_crawlers/spiders/media/gmrb.py:98-103 | a kept title holds no space and only characters of the link's stripped text |
| Newspaper.ArticleItem | BroadTopicExtraction/crawlers/mindspider_crawlers/spiders/media/gmrb.py:139-147 | an article item carries the stripped title, URL, publish date, the content when not empty, the article id as extra data and the spider's platform |
| Mrdx.StartRequestDate | BroadTopicExtraction/crawlers/mindspider_crawlers/spiders/media/mrdx.py:45-54 | the front-page request is the issue's `Page01DK.htm`, its URL carries the eight-digit date from which year, month and day read back, and the base URL is the directory of that page |
| Mrdx.IndexFollowsDaoxiang | BroadTopicExtraction/crawlers/mindspider_crawlers/spiders/media/mrdx.py:65-81 | exactly the list entries whose link has a non-empty `daoxiang` attribute are followed, each at the base URL joined with it, keeping it as `ext_url` |
| Mrdx.DigitRun | BroadTopicExtraction/crawlers/mindspider_crawlers/spiders/media/mrdx.py:151-152 | the longest prefix of digits: all digits, followed by a non-digit or the end |
| Mrdx.FirstDigitRun | BroadTopicExtraction/crawlers/mindspider_crawlers/spiders/media/mrdx.py:151-153 | there is a first digit run exactly when the link holds a digit; it is a non-empty run of digits |
| Mrdx.FirstDigitRunOf | BroadTopicExtraction/crawlers/mindspider_crawlers/spiders/media/mrdx.py:151-152 | after digit-free text, a run of digits ended by a non-digit is the run found |
| Mrdx.ArticleNumber | BroadTopicExtraction/crawlers/mindspider_crawlers/spiders/media/mrdx.py:155-157 | the article number is the fourth and fifth digits less one, floored at zero, and zero for a run shorter than five; always below 100 |
| Mrdx.ArticleId | BroadTopicExtraction/crawlers/mindspider_crawlers/spiders/media/mrdx.py:147-161 | the id is empty exactly when the link holds no digit |
| Mrdx.ArticleIdShape | BroadTopicExtraction/crawlers/mindspider_crawlers/spiders/media/mrdx.py:153-158 | the id is the date, the run's first two digits and a two-digit article number, joined by dashes |
| Mrdx.ParseGuard | BroadTopicExtraction/crawlers/mindspider_crawlers/spiders/media/mrdx.py:127-128 | an article yields an item exactly when its content is not empty |
| Mrdx.ParseItem | BroadTopicExtraction/crawlers/mindspider_crawlers/spiders/media/mrdx.py:130-145 | the item has the stripped title, the page URL, the `YYYY-MM-DD` date, the content, the article id as extra data and the platform |
| Gmrb.StartRequestDate | BroadTopicExtraction/crawlers/mindspider_crawlers/spiders/media/gmrb.py:44-53 | the front-page URL holds the year, month and day at fixed places after the host and they read back as the issue's date; the request keeps the `YYYYMMDD` date and a base URL that prefixes its own URL |
| Gmrb.IndexFollowsIdLinks | BroadTopicExtraction/crawlers/mindspider_crawlers/spiders/media/gmrb.py:64-78 | exactly the links with an `id` and a non-empty `href` (after taking out `./`) are followed, at the base URL joined with that `href` and `?t=2`, passing the date and the base URL on |
| Gmrb.PageHrefPlain | BroadTopicExtraction/crawlers/mindspider_crawlers/spiders/media/gmrb.py:68 | an `href` without `./` is used unchanged |
| Gmrb.PageRequestsKept | BroadTopicExtraction/crawlers/mindspider_crawlers/spiders/media/gmrb.py:92-113 | every article request comes from a list entry whose link text is not editorial and carries that text without spaces; every such entry is requested |
| Gmrb.CleanTextChars | BroadTopicExtraction/crawlers/mindspider_crawlers/spiders/media/gmrb.py:124-130 | the cleaned text holds no em space and no no-break space, and adds no character other than a line break or a space |
| Gmrb.Pad2 | BroadTopicExtraction/crawlers/mindspider_crawlers/spiders/media/gmrb.py:158 | `f"{n:02d}"` is at least two digits reading back as n, with a minus sign for a negative n |
| Gmrb.ArticleId | BroadTopicExtraction/crawlers/mindspider_crawlers/spiders/media/gmrb.py:149-163 | the id is empty exactly when the last segment has fewer than three words or the third word's part before a dash is not an integer |
| Gmrb.ArticleIdOf | BroadTopicExtraction/crawlers/mindspider_crawlers/spiders/media/gmrb.py:152-160 | an article URL `.../<prefix>_<w1>_<n>-<w3>.<ext>` gives the id `<w1>-<n as two digits>-<w3>` |
| Gmrb.ArticleIdNoDash | BroadTopicExtraction/crawlers/mindspider_crawlers/spiders/media/gmrb.py:156-159 | a URL whose third word has no dash but an extension gives an empty id, since `int()` rejects the extension |
| Gmrb.ParseItem | BroadTopicExtraction/crawlers/mindspider_crawlers/spiders/media/gmrb.py:115-147 | an article yields an item exactly when it has a content block; the item has the stripped title, URL, `YYYY-MM-DD` date, the cleaned text when not empty, the id read from the URL and the platform |
| Jjrb.StartRequestDate | BroadTopicExtraction/crawlers/mindspider_crawlers/spiders/media/jjrb.py:45-54 | the layout URL holds the year and month, then the day, at fixed places after the host and they read back as the issue's date; the request keeps the `YYYYMMDD` date and a base URL that prefixes its own URL |
| Jjrb.IndexFollowsLinks | BroadTopicExtraction/crawlers/mindspider_crawlers/spiders/media/jjrb.py:65-78 | exactly the entries whose link has a non-empty `href` are followed, at the base URL joined with it and `?t=4`, passing the date and the base URL on |
| Jjrb.ArticleUrlRelative | BroadTopicExtraction/crawlers/mindspider_crawlers/spiders/media/jjrb.py:100-102 | a link three levels up, with no further such step, lands under the site root |
| Jjrb.PageRequestsKept | BroadTopicExtraction/crawlers/mindspider_crawlers/spiders/media/jjrb.py:88-111 | every article request comes from a list entry whose link text is not editorial, goes to the rewritten link and carries the text without spaces; every such entry is requested |
| Jjrb.CleanTextChars | BroadTopicExtraction/crawlers/mindspider_crawlers/spiders/media/jjrb.py:122-123 | the cleaned text holds no space and nothing that was not in the text |
| Jjrb.LazyEnd | BroadTopicExtraction/crawlers/mindspider_crawlers/spiders/media/jjrb.py:146 | the lazy group ends at the first `.html` reached without crossing a line break |
| Jjrb.ContentMatch | BroadTopicExtraction/crawlers/mindspider_crawlers/spiders/media/jjrb.py:146 | a match is the text between a `content_` and a following `.html`, and holds no line break |
| Jjrb.ArticleId | BroadTopicExtraction/crawlers/mindspider_crawlers/spiders/media/jjrb.py:142-151 | the id is empty exactly when the URL does not match |
| Jjrb.ArticleIdOf | BroadTopicExtraction/crawlers/mindspider_crawlers/spiders/media/jjrb.py:146-148 | a URL `<pre>content_<id>.html<post>` with no earlier `content_` and no line break or `.html` inside the id gives `<date>-<id>` |
| Jjrb.ParseItem | BroadTopicExtraction/crawlers/mindspider_crawlers/spiders/media/jjrb.py:113-140 | an article yields an item exactly when it has a content block; the item has the stripped title, URL, `YYYY-MM-DD` date, the cleaned text when not empty, the id found in the URL and the platform |
| Xwzbj.StartRequests | BroadTopicExtraction/crawlers/mindspider_crawlers/spiders/media/xwzbj.py:44-59 | one request per page, pages 1 to 19 in order, each for that page of the day's list |
| Xwzbj.PageUrlsDistinct | BroadTopicExtraction/crawlers/mindspider_crawlers/spiders/media/xwzbj.py:49-54 | different pages are requested at different URLs |
| Xwzbj.JsonText | BroadTopicExtraction/crawlers/mindspider_crawlers/spiders/media/xwzbj.py:64-66 | a body not wrapped in `cb(` is decoded whole |
| Xwzbj.JsonTextUnwraps | BroadTopicExtraction/crawlers/mindspider_crawlers/spiders/media/xwzbj.py:66 | unwrapping a `cb(...)` answer gives back exactly the JSON inside |
| Xwzbj.Parse | BroadTopicExtraction/crawlers/mindspider_crawlers/spiders/media/xwzbj.py:61-74 | an answer that cannot be decoded or read as JSON yields nothing |
| Xwzbj.NewsItems | BroadTopicExtraction/crawlers/mindspider_crawlers/spiders/media/xwzbj.py:80-101 | the loop yields at most one item per entry |
| Xwzbj.NewsItemsSound | BroadTopicExtraction/crawlers/mindspider_crawlers/spiders/media/xwzbj.py:80-101 | every item comes from an entry with a non-empty text title that does not mention the programme, and carries that title stripped, the entry's URL, the publish date and the entry's id, brief, image and length |
| Xwzbj.EntryItem | BroadTopicExtraction/crawlers/mindspider_crawlers/spiders/media/xwzbj.py:81-101 | an entry that is kept is wanted and its item holds what the entry gives |
| Xwzbj.NewsItemsComplete | BroadTopicExtraction/crawlers/mindspider_crawlers/spiders/media/xwzbj.py:80-101 | over well-formed entries the loop never raises and yields one item per wanted entry |
| Xwzbj.FilterWanted | BroadTopicExtraction/crawlers/mindspider_crawlers/spiders/media/xwzbj.py:81-87 | the wanted entries are entries of the list, each with a title that is kept |

## Left out

- HTML extraction with BeautifulSoup (the `find`/`find_all` calls of the spiders) is not modelled: the parsers take the elements found as sequences of anchors or text.
- `date.today()`, `time.time()` and `datetime.now()` are parameters; so are the decoded response body and the result of `json.loads`, given as an optional value.
- Logging, the Scrapy subprocess itself (the runner takes its exit code, stderr and timeout as values), the Redis and MongoDB connections, and asyncio locks and semaphores are not modelled.
- md5, jieba tokenisation and the LLM replies are parameters; the weights read from `platforms.yaml` are parameters as well.
- The pause `fetch_all` takes between sources is a sleep and is not modelled; each aggregator's own `fetch` is passed to AggregatorBase.FetchAll as a function, so the network reads themselves are not modelled either.
- Registry.AggregatorRegistry.Get: an instance is a record of its class and keyword arguments; what an aggregator's own constructor does with them is not modelled.
- SignalDetector.CollectEntries: states which items enter a group, not the order the source lists them in.
- SignalDetector.DetectCrossPlatform: states the shape of each signal; which groups yield a signal is stated per group by SummarizeGroup.
- UnionFind: groups are formed over index pairs rather than over the keyword pair counts in their dictionary order; the partition is the same, the order of the unions is not.
- The dispatcher's lines 253-312 repeat the failure branch with an `elif` after an `else`, which Python rejects; only the rule at lines 268-298 is modelled.
- The dispatcher's `run`, `stop`, `get_stats` and the MySQL status sync are I/O and are not modelled.
- Dispatcher.TaskDispatcher.SelectRound: requires every pending task to carry a `platform` key, where the source raises `KeyError`.
- Dispatcher.TaskDispatcher.ExecuteOne: a platform value that is not a string has no worker in the model; in the source an unhashable value raises.
- The processor's `get_stats` and the MongoDB aggregation behind the topic matcher's crawl statistics are not modelled; the statistics are a parameter.
- ConfigLoader: `get_all_sources` and `get_schedule_config` return copies of the loaded dictionaries and have no rule of their own; YAML parsing is a parameter (a file is given as its parsed document or as unreadable).
- ConfigLoader.Categories: lists only text categories; the source also collects a category of another type, and sorting then raises on mixed types.
- CandidateManager: `_save_candidates`, `ensure_indexes`, the Redis push of emitted tasks and the storage part of `run_cycle` are I/O and are not modelled.
- CookieManager: `check_health` and `inject_cookies` drive a browser over the network and are not modelled.
- Gmrb.ArticleId: the "01" default for a third word without a dash is modelled as written; ArticleIdNoDash shows that an article URL with an extension never reaches it.
- Mrdx, Gmrb and Jjrb treat `\d` as the ASCII digits; Python also matches other Unicode digits, and `int()` also accepts underscores between digits.
- `get_hot_local` (analyzer/data_reader.py) is a stub that returns an empty list; DataReader.HotLocal does the same and has nothing to prove.
- Popup: the DOM, `chrome.cookies` and `fetch` are not modelled; the page state is fields of `PopupPage`.
- Popup.JsTextExamples: a count that is a float with a fraction prints as "" in the model rather than as JavaScript's shortest decimal, and integers are printed exactly where JavaScript would round those beyond 2^53 or use an exponent from 10^21 on.
- Processor.FieldTexts: a float, list or dictionary field renders as "" rather than as Python's `str()`, so two items that differ only in such a field (hot values 1.5 and 2.5) get the same text.
- Processor.GenerateItemId: inherits the `str()` gap of FieldTexts; items that differ only in a float, list or dictionary dedup field hash the same text and get the same id, where the source's ids differ.
- Processor.IdContentInjective: holds for the model's rendering; it does not cover items whose dedup fields differ only in a float, list or dictionary value.
- CookieManager.PairTexts: a cookie value that is a float, list or dictionary renders as "" rather than as its `str()` text.
- TaskQueues.TaskId: a `task_id` that is a float, list or dictionary renders as "" rather than as its `str()` text.
- TaskQueues.TaskQueue.PushBack: a `_prefixed_id` that is a float, list or dictionary renders as "" rather than as its `str()` text.
- TopicMatcher.KeepExtras: an extra title that is a float, list or dictionary is compared as "" rather than as its `str()` text.
- TopicMatcher.ExtrasProps: states the rule with the same rendering as KeepExtras, so a float, list or dictionary extra counts as "".
- TopicMatcher.CandidateTitles: a title that is not text counts as "" and a `source_titles` value that is not a list as no titles; the source passes a non-text title to jieba, and `extend` on a non-list either raises or iterates it.
- Official.BaiduEntry: a float, list or dictionary title renders as "" in the default search URL rather than as its `str()` text.
- Official.DouyinEntry: a float, list or dictionary `word` renders as "" in the search URL rather than as its `str()` text.
- Official.JuejinEntry: a truthy float, list or dictionary id renders as "" in the post URL rather than as its `str()` text.
- Official.BilibiliEntry: a float, list or dictionary title renders as "" in the search URL rather than as its `str()` text.
- NewsNow.ParseSingleItem: a float, list or dictionary title renders as "" before stripping rather than as its `str()` text.
- NewsNow.BaseItem: inherits the title rendering of ParseSingleItem.
- Pipelines.CleanFields: a float, list or dictionary title renders as "" before stripping, rather than as its `str()` text.
- Runner.ScrapyCommand: a spider name or region that is a float, list or dictionary renders as "" rather than as its `str()` text.
- Runner.TaskRunner.RunAggregator: an aggregator name that is a float, list or dictionary appears as "" in the "未知聚合器" message rather than as its `str()` text.
- SignalDetector.DetectVelocity: takes hot items already read into typed records (text title, integer hot values and positions); the reading of a stored document into that record is not modelled, so a float or text hot value and a None inside a history are outside the model.
- SignalDetector.DetectNewEntry: takes typed hot items as DetectVelocity does; a float or text hot value is outside the model.
- SignalDetector.DetectPositionJump: takes typed hot items as DetectVelocity does; a float or text position is outside the model.
- SignalDetector.DetectCrossPlatform: takes typed hot items as DetectVelocity does; a title that is not text is outside the model.

## Findings

| source | as written | input that shows it | evidently intended | confidence | as-written member | corrected member |
|---|---|---|---|---|---|---|
| BroadTopicExtraction/analyzer/signal_detector.py:363-366 | an empty running intersection restarts from the next item's keywords | a chain of items 1-2, 2-3, 3-4 where no keyword is common to all members: the reported common keywords are the last item's | the keywords every member of the group has | medium, not executed | SignalDetector.CommonKeywordsRestart | SignalDetector.CommonKeywords |
| DeepSentimentCrawling/task_queue.py:179 | `zrange(key, 0, limit - 1)` with `limit = 0` asks for the range 0..-1, which Redis reads as the whole set | `peek_tasks(0)` on a non-empty queue returns every task | at most `limit` tasks, none for a limit below one | medium, not executed | TaskQueues.PeekZeroReturnsAll | TaskQueues.PeekIntended |
