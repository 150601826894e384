/** The source-configuration loader: every `*.yaml` file of the sources
    directory maps source names to their configuration dicts, merged into one
    insertion-ordered dict, plus the global schedule file; queries look a
    source up by key or by `spider_name` and filter by category, collection
    type or `enabled`. Files are parameters: what each one parses to. */
module ConfigLoader {
  import opened Common
  import opened Json

  /** A Python dict from source name to configuration, in insertion order. */
  type Sources = seq<(string, Dict)>

  /** What one sources file yields: a parse failure (logged and skipped), or
      the mapping it holds (an empty file reads as an empty mapping). */
  datatype YamlFile = Unreadable | Parsed(entries: seq<(string, Dict)>)

  /** The schedule file: absent, unreadable, or its parsed content (an empty
      document reads as `{}`). */
  datatype ScheduleFile = NoScheduleFile | BrokenScheduleFile | ScheduleDoc(doc: Dict)

  function Keys(s: Sources): (r: seq<string>)
    ensures |r| == |s|
    ensures forall i :: 0 <= i < |s| ==> r[i] == s[i].0
  {
    if s == [] then [] else [s[0].0] + Keys(s[1..])
  }

  predicate KeysDistinct(s: Sources) { Distinct(Keys(s)) }

  /** `d.get(k)` on the ordered dict. */
  function ValueOf(s: Sources, k: string): (r: Option<Dict>)
    ensures r.Some? <==> k in Keys(s)
  {
    if s == [] then None else if s[0].0 == k then Some(s[0].1) else ValueOf(s[1..], k)
  }

  /** `d[k] = v`: an existing key keeps its place, a new key goes last. */
  function Put(s: Sources, k: string, v: Dict): Sources
  {
    if s == [] then [(k, v)]
    else if s[0].0 == k then [(k, v)] + s[1..]
    else [s[0]] + Put(s[1..], k, v)
  }

  /** Storing under a key keeps the old keys in their order and appends the
      key only if it was absent. */
  lemma {:induction false} PutKeys(s: Sources, k: string, v: Dict)
    ensures Keys(Put(s, k, v)) == if k in Keys(s) then Keys(s) else Keys(s) + [k]
  {
    if s != [] {
      assert Keys(s) == [s[0].0] + Keys(s[1..]);
      if s[0].0 != k {
        PutKeys(s[1..], k, v);
        assert Keys(Put(s, k, v)) == [s[0].0] + Keys(Put(s[1..], k, v));
      } else {
        assert Keys(Put(s, k, v)) == [k] + Keys(s[1..]);
      }
    }
  }

  /** After storing, the key reads as the new value and every other key
      reads as before. */
  lemma {:induction false} PutValues(s: Sources, k: string, v: Dict)
    ensures ValueOf(Put(s, k, v), k) == Some(v)
    ensures forall k' :: k' != k ==> ValueOf(Put(s, k, v), k') == ValueOf(s, k')
  {
    if s != [] && s[0].0 != k {
      PutValues(s[1..], k, v);
      assert Put(s, k, v)[1..] == Put(s[1..], k, v);
    }
  }

  /** Storing under a key: distinct keys stay distinct, the key now reads as
      the new value, every other key reads as before, and the old keys keep
      their order, with the new key appended only if it was absent. */
  lemma PutProps(s: Sources, k: string, v: Dict)
    requires KeysDistinct(s)
    ensures KeysDistinct(Put(s, k, v))
    ensures ValueOf(Put(s, k, v), k) == Some(v)
    ensures forall k' :: k' != k ==> ValueOf(Put(s, k, v), k') == ValueOf(s, k')
    ensures Keys(Put(s, k, v)) == if k in Keys(s) then Keys(s) else Keys(s) + [k]
  {
    PutKeys(s, k, v);
    PutValues(s, k, v);
  }

  /** `d.update(entries)`, one pair after another. */
  function UpdateAll(s: Sources, entries: seq<(string, Dict)>): Sources
  {
    if entries == [] then s
    else Put(UpdateAll(s, entries[..|entries| - 1]), entries[|entries| - 1].0, entries[|entries| - 1].1)
  }

  /** The value a mapping gives a key: its last pair for that key. */
  function LastFor(entries: seq<(string, Dict)>, k: string): Option<Dict>
  {
    if entries == [] then None
    else if entries[|entries| - 1].0 == k then Some(entries[|entries| - 1].1)
    else LastFor(entries[..|entries| - 1], k)
  }

  /** After an update a key reads as the update's value for it, or as
      before when the update does not mention it; keys stay distinct. */
  lemma {:induction false} UpdateAllValue(s: Sources, entries: seq<(string, Dict)>, k: string)
    requires KeysDistinct(s)
    ensures KeysDistinct(UpdateAll(s, entries))
    ensures ValueOf(UpdateAll(s, entries), k) == if LastFor(entries, k).Some? then LastFor(entries, k) else ValueOf(s, k)
  {
    if entries != [] {
      var init := entries[..|entries| - 1];
      var e := entries[|entries| - 1];
      UpdateAllValue(s, init, k);
      PutProps(UpdateAll(s, init), e.0, e.1);
    }
  }

  /** One file of `_load_all`: a non-empty mapping is merged in; an
      unreadable or empty file changes nothing. */
  function LoadFile(s: Sources, f: YamlFile): Sources
  {
    match f
    case Unreadable => s
    case Parsed(entries) => if entries == [] then s else UpdateAll(s, entries)
  }

  function LoadFiles(s: Sources, files: seq<YamlFile>): Sources
  {
    if files == [] then s else LoadFile(LoadFiles(s, files[..|files| - 1]), files[|files| - 1])
  }

  /** `_load_all` on the sources: nothing when the directory is missing. */
  function Loaded(s: Sources, dirExists: bool, files: seq<YamlFile>): Sources
  {
    if dirExists then LoadFiles(s, files) else s
  }

  /** `_load_all` on the schedule configuration. */
  function LoadedSchedule(old_: Dict, dirExists: bool, f: ScheduleFile): Dict
  {
    if !dirExists then old_
    else match f
      case ScheduleDoc(d) => d
      case _ => old_
  }

  /** Loading keeps the keys distinct, and a key read after loading has the
      value of the last file that mentions it, or its earlier value. */
  lemma {:induction false} LoadFilesValue(s: Sources, files: seq<YamlFile>, k: string)
    requires KeysDistinct(s)
    ensures KeysDistinct(LoadFiles(s, files))
    ensures ValueOf(LoadFiles(s, files), k) == LastLoaded(s, files, k)
  {
    if files != [] {
      var init := files[..|files| - 1];
      LoadFilesValue(s, init, k);
      match files[|files| - 1]
      case Unreadable =>
      case Parsed(entries) =>
        if entries != [] {
          UpdateAllValue(LoadFiles(s, init), entries, k);
        }
    }
  }

  /** The value of a key after a sequence of files, read from the files
      themselves: the last readable file that maps the key decides. */
  function LastLoaded(s: Sources, files: seq<YamlFile>, k: string): Option<Dict>
  {
    if files == [] then ValueOf(s, k)
    else match files[|files| - 1]
      case Parsed(entries) =>
        if LastFor(entries, k).Some? then LastFor(entries, k)
        else LastLoaded(s, files[..|files| - 1], k)
      case Unreadable => LastLoaded(s, files[..|files| - 1], k)
  }

  /** `config.get("spider_name") == name` */
  predicate SpiderIs(config: Dict, name: string) { GetNull(config, "spider_name") == JStr(name) }

  /** The first configuration, in insertion order, whose `spider_name` is name. */
  function FirstBySpider(s: Sources, name: string): Option<Dict>
  {
    if s == [] then None
    else if SpiderIs(s[0].1, name) then Some(s[0].1)
    else FirstBySpider(s[1..], name)
  }

  /** `get_source`: by key first, else by `spider_name`. */
  function Lookup(s: Sources, name: string): Option<Dict>
  {
    if ValueOf(s, name).Some? then ValueOf(s, name) else FirstBySpider(s, name)
  }

  lemma {:induction false} FirstBySpiderProps(s: Sources, name: string)
    ensures FirstBySpider(s, name).Some? <==> exists i :: 0 <= i < |s| && SpiderIs(s[i].1, name)
    ensures FirstBySpider(s, name).Some? ==>
      exists i :: 0 <= i < |s| && s[i].1 == FirstBySpider(s, name).value && SpiderIs(s[i].1, name) &&
        forall j :: 0 <= j < i ==> !SpiderIs(s[j].1, name)
  {
    if s != [] {
      FirstBySpiderProps(s[1..], name);
      if !SpiderIs(s[0].1, name) {
        if exists i :: 0 <= i < |s| && SpiderIs(s[i].1, name) {
          var i :| 0 <= i < |s| && SpiderIs(s[i].1, name);
          assert s[1..][i - 1] == s[i];
        }
        if FirstBySpider(s, name).Some? {
          var i :| 0 <= i < |s[1..]| && s[1..][i].1 == FirstBySpider(s, name).value && SpiderIs(s[1..][i].1, name) &&
            forall j :: 0 <= j < i ==> !SpiderIs(s[1..][j].1, name);
          assert s[i + 1] == s[1..][i];
          forall j | 0 <= j < i + 1 ensures !SpiderIs(s[j].1, name) {
            if j > 0 {
              assert s[j] == s[1..][j - 1];
            }
          }
        }
      }
    }
  }

  lemma {:induction false} ValueOfAt(s: Sources, k: string)
    requires KeysDistinct(s)
    ensures ValueOf(s, k).Some? ==> exists i :: 0 <= i < |s| && s[i] == (k, ValueOf(s, k).value)
  {
    if s != [] && s[0].0 != k {
      assert Keys(s) == [s[0].0] + Keys(s[1..]);
      assert KeysDistinct(s[1..]);
      ValueOfAt(s[1..], k);
      if ValueOf(s, k).Some? {
        var i :| 0 <= i < |s[1..]| && s[1..][i] == (k, ValueOf(s, k).value);
        assert s[i + 1] == s[1..][i];
      }
    }
  }

  /** A lookup returns the configuration stored under the name when there is
      one; otherwise the first configuration whose `spider_name` is the
      name; and nothing only when neither exists. */
  lemma LookupProps(s: Sources, name: string)
    requires KeysDistinct(s)
    ensures name in Keys(s) ==> Lookup(s, name).Some? && (name, Lookup(s, name).value) in s
    ensures name !in Keys(s) ==> Lookup(s, name) == FirstBySpider(s, name)
    ensures Lookup(s, name).None? <==> name !in Keys(s) && forall i :: 0 <= i < |s| ==> !SpiderIs(s[i].1, name)
  {
    ValueOfAt(s, name);
    FirstBySpiderProps(s, name);
  }

  /** `get_sources_by_category` / `get_sources_by_type`: the sources whose
      field equals the given text, in insertion order. */
  function ByField(s: Sources, field: string, value: string): Sources
  {
    Filter(s, (e: (string, Dict)) => GetNull(e.1, field) == JStr(value))
  }

  /** `config.get("enabled", True)` read for truthiness. */
  predicate Enabled(config: Dict) { Truthy(GetOr(config, "enabled", JBool(true))) }

  /** `get_enabled_sources`. */
  function EnabledSources(s: Sources): Sources
  {
    Filter(s, (e: (string, Dict)) => Enabled(e.1))
  }

  /** A filtered ordered dict is a sub-dict: distinct keys stay distinct. */
  lemma {:induction false} FilterKeysDistinct(s: Sources, p: ((string, Dict)) -> bool)
    requires KeysDistinct(s)
    ensures KeysDistinct(Filter(s, p))
    ensures forall k :: k in Keys(Filter(s, p)) ==> k in Keys(s)
  {
    if s != [] {
      var init, e := s[..|s| - 1], s[|s| - 1];
      assert s == init + [e];
      KeysSnoc(init, e);
      DistinctSnoc(Keys(init), e.0);
      FilterKeysDistinct(init, p);
      FilterSnoc(init, e, p);
      if p(e) {
        KeysSnoc(Filter(init, p), e);
        DistinctSnoc(Keys(Filter(init, p)), e.0);
      }
    }
  }

  lemma KeysSnoc(s: Sources, e: (string, Dict))
    ensures Keys(s + [e]) == Keys(s) + [e.0]
  {
  }

  /** A source is listed under a field value exactly when its configuration
      holds that value, and an entry is enabled-listed exactly when its
      `enabled` is missing or truthy. */
  lemma FiltersProps(s: Sources, field: string, value: string)
    requires KeysDistinct(s)
    ensures KeysDistinct(ByField(s, field, value)) && KeysDistinct(EnabledSources(s))
    ensures forall e :: e in ByField(s, field, value) <==> e in s && GetNull(e.1, field) == JStr(value)
    ensures forall e :: e in EnabledSources(s) <==> e in s && (!("enabled" in e.1) || Truthy(e.1["enabled"]))
  {
    ByFieldProps(s, field, value);
    EnabledProps(s);
  }

  lemma ByFieldProps(s: Sources, field: string, value: string)
    requires KeysDistinct(s)
    ensures KeysDistinct(ByField(s, field, value))
    ensures forall e :: e in ByField(s, field, value) <==> e in s && GetNull(e.1, field) == JStr(value)
  {
    FilterMembers(s, (e: (string, Dict)) => GetNull(e.1, field) == JStr(value));
    FilterKeysDistinct(s, (e: (string, Dict)) => GetNull(e.1, field) == JStr(value));
  }

  lemma EnabledProps(s: Sources)
    requires KeysDistinct(s)
    ensures KeysDistinct(EnabledSources(s))
    ensures forall e :: e in EnabledSources(s) <==> e in s && (!("enabled" in e.1) || Truthy(e.1["enabled"]))
  {
    FilterMembers(s, (e: (string, Dict)) => Enabled(e.1));
    FilterKeysDistinct(s, (e: (string, Dict)) => Enabled(e.1));
    forall e: (string, Dict) ensures Enabled(e.1) <==> !("enabled" in e.1) || Truthy(e.1["enabled"]) {
      EnabledIff(e.1);
    }
  }

  lemma EnabledIff(config: Dict)
    ensures Enabled(config) <==> !("enabled" in config) || Truthy(config["enabled"])
  {
  }

  /** The category of a configuration, when it has a text one. */
  function CategoryOf(e: (string, Dict)): Option<string>
  {
    if "category" in e.1 && e.1["category"].JStr? then Some(e.1["category"].s) else None
  }

  /** `list_categories`: the distinct categories, sorted. */
  function Categories(s: Sources): seq<string>
  {
    SortStrings(Dedup(Select(s, CategoryOf)))
  }

  /** The category list is sorted, has no repeats, and names exactly the
      categories some source declares. */
  lemma CategoriesProps(s: Sources)
    ensures SortedBy(Categories(s), Identity) && Distinct(Categories(s))
    ensures forall c :: c in Categories(s) <==> exists i :: 0 <= i < |s| && CategoryOf(s[i]) == Some(c)
  {
    var d := Dedup(Select(s, CategoryOf));
    DedupProps(Select(s, CategoryOf));
    SelectMembers(s, CategoryOf);
    DistinctPerm(d, Categories(s));
    forall c ensures c in Categories(s) <==> c in d {
      assert c in Categories(s) <==> c in multiset(Categories(s));
    }
  }

  /** `list_sources`: every source name once, sorted. */
  lemma SourceNamesProps(s: Sources)
    requires KeysDistinct(s)
    ensures SortedBy(SortStrings(Keys(s)), Identity) && Distinct(SortStrings(Keys(s)))
    ensures forall k :: k in SortStrings(Keys(s)) <==> k in Keys(s)
  {
    DistinctPerm(Keys(s), SortStrings(Keys(s)));
    forall k ensures k in SortStrings(Keys(s)) <==> k in Keys(s) {
      assert k in SortStrings(Keys(s)) <==> k in multiset(SortStrings(Keys(s)));
    }
  }

  class Loader {
    var sources: Sources
    var schedule: Dict

    predicate Valid()
      reads this
    {
      KeysDistinct(sources)
    }

    /** `__init__`: start empty and load everything. */
    constructor(dirExists: bool, files: seq<YamlFile>, scheduleFile: ScheduleFile)
      ensures Valid()
      ensures sources == Loaded([], dirExists, files)
      ensures schedule == LoadedSchedule(map[], dirExists, scheduleFile)
    {
      sources := [];
      schedule := map[];
      new;
      LoadAll(dirExists, files, scheduleFile);
    }

    /** `_load_all`: merge every file in directory order, then read the
        schedule file. */
    method LoadAll(dirExists: bool, files: seq<YamlFile>, scheduleFile: ScheduleFile)
      requires Valid()
      modifies this
      ensures Valid()
      ensures sources == Loaded(old(sources), dirExists, files)
      ensures schedule == LoadedSchedule(old(schedule), dirExists, scheduleFile)
    {
      if !dirExists {
        return;
      }
      ghost var s0 := sources;
      for n := 0 to |files|
        invariant sources == LoadFiles(s0, files[..n])
        invariant schedule == old(schedule)
        invariant Valid()
      {
        assert files[..n + 1][..n] == files[..n];
        MergeFile(files[n]);
      }
      assert files[..|files|] == files;
      match scheduleFile
      case ScheduleDoc(d) => schedule := d;
      case _ =>
    }

    /** One file of `_load_all`: the pairs of a non-empty mapping are put
        into the sources in file order. */
    method MergeFile(f: YamlFile)
      requires Valid()
      modifies this
      ensures Valid()
      ensures sources == LoadFile(old(sources), f)
      ensures schedule == old(schedule)
    {
      match f
      case Unreadable =>
      case Parsed(entries) =>
        if entries != [] {
          ghost var before := sources;
          for m := 0 to |entries|
            invariant sources == UpdateAll(before, entries[..m])
            invariant schedule == old(schedule)
            invariant Valid()
          {
            assert entries[..m + 1][..m] == entries[..m];
            PutProps(sources, entries[m].0, entries[m].1);
            sources := Put(sources, entries[m].0, entries[m].1);
          }
          assert entries[..|entries|] == entries;
        }
    }

    /** `reload`: clear both dicts, then load again; the result does not
        depend on what was loaded before. */
    method Reload(dirExists: bool, files: seq<YamlFile>, scheduleFile: ScheduleFile)
      modifies this
      ensures Valid()
      ensures sources == Loaded([], dirExists, files)
      ensures schedule == LoadedSchedule(map[], dirExists, scheduleFile)
    {
      sources := [];
      schedule := map[];
      LoadAll(dirExists, files, scheduleFile);
    }

    /** `get_source`: the configuration under the key, else the first one
        whose `spider_name` matches, else None. */
    method GetSource(name: string) returns (r: Option<Dict>)
      ensures r == Lookup(sources, name)
    {
      var direct := ValueOf(sources, name);
      if direct.Some? {
        return direct;
      }
      var i := 0;
      while i < |sources|
        invariant 0 <= i <= |sources|
        invariant FirstBySpider(sources, name) == FirstBySpider(sources[i..], name)
      {
        assert sources[i..][1..] == sources[i + 1..];
        if SpiderIs(sources[i].1, name) {
          return Some(sources[i].1);
        }
        i := i + 1;
      }
      return None;
    }

    /** `list_categories`: collect the categories into a set, then sort. */
    method ListCategories() returns (r: seq<string>)
      ensures r == Categories(sources)
    {
      var seen: seq<string> := [];
      for i := 0 to |sources|
        invariant seen == Dedup(Select(sources[..i], CategoryOf))
      {
        assert sources[..i + 1] == sources[..i] + [sources[i]];
        SelectSnoc(sources[..i], sources[i], CategoryOf);
        var c := CategoryOf(sources[i]);
        if c.Some? {
          assert Select(sources[..i + 1], CategoryOf) == Select(sources[..i], CategoryOf) + [c.value];
          DedupSnoc(Select(sources[..i], CategoryOf), c.value);
          if c.value !in seen {
            seen := seen + [c.value];
          }
        } else {
          assert Select(sources[..i + 1], CategoryOf) == Select(sources[..i], CategoryOf);
        }
      }
      assert sources[..|sources|] == sources;
      r := SortStrings(seen);
    }
  }
}
