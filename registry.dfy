/** The aggregator registry: classes registered by name and the instances
    built without constructor arguments, cached per name. The registry is
    process-wide state, a single object here. */
module Registry {
  import opened Json

  /** An aggregator class: its class name, registry `name` and
      `display_name`. */
  datatype AggregatorClass = AggregatorClass(className: string, name: string, displayName: string)

  /** An aggregator object, built from a class with keyword arguments. */
  class Aggregator {
    const kind: AggregatorClass
    const kwargs: Dict

    constructor(kind: AggregatorClass, kwargs: Dict)
      ensures this.kind == kind && this.kwargs == kwargs
    {
      this.kind := kind;
      this.kwargs := kwargs;
    }
  }

  const TopHub := AggregatorClass("TopHubAggregator", "tophub", "今日热榜")
  const Official := AggregatorClass("OfficialAPIAggregator", "official", "官方API")
  const NewsNow := AggregatorClass("NewsNowAggregator", "newsnow", "NewsNow 热搜聚合")
  const RssHub := AggregatorClass("RSSHubAggregator", "rsshub", "RSSHub")
  const Rebang := AggregatorClass("RebangAggregator", "rebang", "Rebang热榜")
  const AnyKnew := AggregatorClass("AnyKnewAggregator", "anyknew", "AnyKnew")
  const JiuCai := AggregatorClass("JiuCaiAggregator", "jiucai", "韭菜公社")
  const MoFish := AggregatorClass("MoFishAggregator", "mofish", "鱼塘热榜(已废弃)")

  class AggregatorRegistry {
    /** `_aggregators`: name to class. */
    var aggregators: map<string, AggregatorClass>
    /** `_instances`: name to the cached argument-free instance. */
    var instances: map<string, Aggregator>

    /** Cached instances were built without arguments. */
    ghost predicate Valid()
      reads this, instances.Values
    {
      forall n :: n in instances ==> instances[n].kwargs == map[]
    }

    /** The registry before any registration. */
    constructor()
      ensures aggregators == map[] && instances == map[] && Valid()
    {
      aggregators := map[];
      instances := map[];
    }

    /** `register`: stores the class under its name, replacing any earlier
        class of that name, and hands the class back. */
    method Register(c: AggregatorClass) returns (r: AggregatorClass)
      modifies this
      ensures r == c
      ensures aggregators == old(aggregators)[c.name := c]
      ensures instances == old(instances)
    {
      aggregators := aggregators[c.name := c];
      return c;
    }

    /** `get`: None for an unknown name; without arguments the cached
        instance when there is one, else a new one that is cached; with
        arguments always a new instance that is not cached. */
    method Get(name: string, kwargs: Dict) returns (r: Aggregator?)
      requires Valid()
      modifies this
      ensures Valid()
      ensures aggregators == old(aggregators)
      ensures name !in aggregators ==> r == null && instances == old(instances)
      ensures name in aggregators && kwargs == map[] && name in old(instances) ==>
        r == old(instances)[name] && instances == old(instances)
      ensures name in aggregators && (kwargs != map[] || name !in old(instances)) ==>
        r != null && fresh(r) && r.kind == aggregators[name] && r.kwargs == kwargs
      ensures name in aggregators && kwargs == map[] && name !in old(instances) ==>
        instances == old(instances)[name := r]
      ensures name in aggregators && kwargs != map[] ==> instances == old(instances)
    {
      if name !in aggregators {
        return null;
      }
      if kwargs == map[] && name in instances {
        return instances[name];
      }
      var instance := new Aggregator(aggregators[name], kwargs);
      if kwargs == map[] {
        instances := instances[name := instance];
      }
      return instance;
    }

    /** Two argument-free lookups of a registered name give the same object. */
    method RepeatGetSameInstance(name: string) returns (a: Aggregator?, b: Aggregator?)
      requires Valid() && name in aggregators
      modifies this
      ensures a != null && a == b && name in instances && instances[name] == a
    {
      a := Get(name, map[]);
      b := Get(name, map[]);
    }

    /** `list_aggregators`: name to display name for every registered class. */
    function ListAggregators(): (m: map<string, string>)
      reads this
      ensures m.Keys == aggregators.Keys
      ensures forall n :: n in m ==> m[n] == aggregators[n].displayName
    {
      map n | n in aggregators :: aggregators[n].displayName
    }

    /** `clear_instances`: forgets the cached instances, keeps the classes. */
    method ClearInstances()
      modifies this
      ensures instances == map[] && aggregators == old(aggregators) && Valid()
    {
      instances := map[];
    }

    /** `_register_builtin_aggregators`, run when the package is imported. */
    method RegisterBuiltins()
      modifies this
      ensures aggregators == old(aggregators)[TopHub.name := TopHub][Official.name := Official]
        [NewsNow.name := NewsNow][RssHub.name := RssHub][Rebang.name := Rebang]
        [AnyKnew.name := AnyKnew][JiuCai.name := JiuCai][MoFish.name := MoFish]
      ensures instances == old(instances)
    {
      var registered := Register(TopHub);
      registered := Register(Official);
      registered := Register(NewsNow);
      registered := Register(RssHub);
      registered := Register(Rebang);
      registered := Register(AnyKnew);
      registered := Register(JiuCai);
      registered := Register(MoFish);
    }
  }

  /** After the import-time registration every built-in name resolves to
      its own class. */
  lemma BuiltinNames(before: map<string, AggregatorClass>)
    ensures var m := before[TopHub.name := TopHub][Official.name := Official]
        [NewsNow.name := NewsNow][RssHub.name := RssHub][Rebang.name := Rebang]
        [AnyKnew.name := AnyKnew][JiuCai.name := JiuCai][MoFish.name := MoFish];
      forall c :: c in [TopHub, Official, NewsNow, RssHub, Rebang, AnyKnew, JiuCai, MoFish] ==>
        c.name in m && m[c.name] == c
  {
  }
}
