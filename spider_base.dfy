/** The spider base classes: the source name a spider reports under, and
    the builders that turn scraped values into the four kinds of item
    (national hot search, local hot search, vertical ranking, media
    article). Keyword arguments are a dict; a builder keeps those whose
    key is a declared field of its item and whose value is not None. */
module SpiderBase {
  import opened Common
  import opened Json

  /** A request a spider yields: its URL and the metadata handed to the
      callback. */
  datatype Request = Request(url: string, meta: Dict)

  /** An `<a>` element as the parsers see it: its text and attributes. */
  datatype Anchor = Anchor(text: string, attrs: map<string, string>)

  /** `a.get(name, default)` on an element. */
  function AttrOr(a: Anchor, name: string, default: string): string {
    if name in a.attrs then a.attrs[name] else default
  }

  /** The declared fields of each item kind. */
  const HotSearchFields: set<string> :=
    {"title", "url", "position", "platform", "hot_value", "category", "description", "image", "extra"}
  const LocalHotFields: set<string> :=
    {"title", "url", "position", "platform", "region", "hot_value", "category", "description", "extra"}
  const VerticalHotFields: set<string> :=
    {"title", "url", "position", "platform", "vertical", "hot_value", "stars", "replies", "likes",
     "rating", "category", "description", "author", "extra"}
  const MediaFields: set<string> :=
    {"title", "url", "platform", "media_type", "content", "summary", "publish_date", "publish_time",
     "author", "category", "tags", "image", "extra"}

  /** "hot_value" differs from every base key by its first letter. */
  lemma HotValueKey()
    ensures "hot_value" != "title" && "hot_value" != "url" && "hot_value" != "position"
    ensures "hot_value" != "platform" && "hot_value" != "region"
  {
    assert "hot_value"[0] == 'h' && "title"[0] == 't' && "url"[0] == 'u';
    assert "position"[0] == 'p' && "platform"[0] == 'p' && "region"[0] == 'r';
  }

  lemma EightLetterKeys()
    ensures "position" != "platform" && "position" != "vertical" && "platform" != "vertical"
  {
    assert "position"[1] == 'o' && "platform"[1] == 'l' && "vertical"[1] == 'e';
  }

  /** The keyword arguments the extras loop copies. */
  function ExtraKeys(kwargs: Dict, fields: set<string>): set<string> {
    set k | k in kwargs && k in fields && !kwargs[k].JNull?
  }

  /** The item after the extras loop has run over `kwargs`. */
  function WithExtras(item: Dict, kwargs: Dict, fields: set<string>): Dict {
    map k | k in item.Keys + ExtraKeys(kwargs, fields) ::
      if k in ExtraKeys(kwargs, fields) then kwargs[k] else item[k]
  }

  /** The extras loop keeps every declared, non-None keyword argument and
      nothing else; the fields it does not touch keep their values. */
  lemma WithExtrasProps(item: Dict, kwargs: Dict, fields: set<string>)
    ensures var r := WithExtras(item, kwargs, fields);
      && (forall k :: k in kwargs && k in fields && !kwargs[k].JNull? ==> k in r && r[k] == kwargs[k])
      && (forall k :: k in item && (k !in kwargs || k !in fields || kwargs[k].JNull?) ==> k in r && r[k] == item[k])
      && (forall k :: k in r ==> k in item || (k in kwargs && k in fields))
  {
  }

  /** A field the arguments do not carry keeps its value. */
  lemma ExtrasKeep(item: Dict, kwargs: Dict, fields: set<string>, k: string)
    requires k in item && k !in kwargs
    ensures k in WithExtras(item, kwargs, fields) && WithExtras(item, kwargs, fields)[k] == item[k]
  {
  }

  /** A field the arguments may set: their value when declared and not
      None, the item's otherwise. */
  lemma ExtrasSet(item: Dict, kwargs: Dict, fields: set<string>, k: string)
    requires k in item && k in fields
    ensures k in WithExtras(item, kwargs, fields)
    ensures WithExtras(item, kwargs, fields)[k] == if k in kwargs && !kwargs[k].JNull? then kwargs[k] else item[k]
  {
  }

  /** A field the item lacks and its kind does not declare stays absent. */
  lemma ExtrasUndeclared(item: Dict, kwargs: Dict, fields: set<string>, k: string)
    requires k !in item && k !in fields
    ensures k !in WithExtras(item, kwargs, fields)
  {
  }

  /** A field neither the item nor the arguments carry stays absent. */
  lemma ExtrasAbsent(item: Dict, kwargs: Dict, fields: set<string>, k: string)
    requires k !in item && k !in kwargs
    ensures k !in WithExtras(item, kwargs, fields)
  {
  }

  /** What the extras loop leaves of an item built from `base` when the
      arguments are `kwargs` without `popped`. */
  lemma OverBase(base: Dict, rest: Dict, kwargs: Dict, popped: string, fields: set<string>)
    requires rest == kwargs - {popped}
    ensures var r := WithExtras(base, rest, fields);
      && (forall k :: k in base && (k !in kwargs || k == popped) ==> k in r && r[k] == base[k])
      && (forall k :: k in base && k in fields && k != popped ==>
            k in r && r[k] == (if k in kwargs && !kwargs[k].JNull? then kwargs[k] else base[k]))
      && (forall k :: k !in base && (k !in kwargs || k == popped) ==> k !in r)
      && (base.Keys <= fields ==> r.Keys <= fields)
      && (forall k :: k in kwargs && k != popped ==> (k in r && r[k] == kwargs[k] <== k in fields && !kwargs[k].JNull?))
  {
  }

  /** An item that starts with declared fields only ends with declared
      fields only. */
  lemma WithExtrasDeclared(item: Dict, kwargs: Dict, fields: set<string>)
    requires item.Keys <= fields
    ensures WithExtras(item, kwargs, fields).Keys <= fields
  {
  }

  /** `for key, value in kwargs.items(): if key in fields and value is not
      None: item[key] = value`. */
  method CopyExtras(item: Dict, kwargs: Dict, fields: set<string>) returns (r: Dict)
    ensures r == WithExtras(item, kwargs, fields)
  {
    r := item;
    var todo := kwargs.Keys;
    ghost var done: set<string> := {};
    while todo != {}
      invariant done == kwargs.Keys - todo && todo <= kwargs.Keys
      invariant r.Keys == item.Keys + ExtraKeys(kwargs, fields) * done
      invariant forall k :: k in r ==> r[k] == if k in ExtraKeys(kwargs, fields) * done then kwargs[k] else item[k]
      decreases todo
    {
      var key :| key in todo;
      if key in fields && !kwargs[key].JNull? {
        r := r[key := kwargs[key]];
      }
      todo := todo - {key};
      done := done + {key};
    }
    assert done == kwargs.Keys;
  }

  /** `kwargs.pop(key, default)`: the value and the arguments without it. */
  function Pop(kwargs: Dict, key: string, default: Json): (r: (Json, Dict))
    ensures r.0 == GetOr(kwargs, key, default)
    ensures key !in r.1 && forall k :: k in kwargs && k != key ==> k in r.1 && r.1[k] == kwargs[k]
    ensures r.1.Keys == kwargs.Keys - {key}
  {
    (GetOr(kwargs, key, default), kwargs - {key})
  }

  /** A spider with the class attributes the builders read. */
  class Spider {
    const name: string
    const platform: string
    const region: string
    const vertical: string
    const mediaType: string
    var sourceName: string

    /** `__init__`: a spider without a source name reports under its
        own name. */
    constructor(name: string, sourceName: string, platform: string, region: string, vertical: string,
                mediaType: string)
      ensures this.name == name && this.platform == platform && this.region == region
      ensures this.vertical == vertical && this.mediaType == mediaType
      ensures this.sourceName == if sourceName == "" then name else sourceName
    {
      this.name := name;
      this.platform := platform;
      this.region := region;
      this.vertical := vertical;
      this.mediaType := mediaType;
      this.sourceName := sourceName;
      new;
      if this.sourceName == "" {
        this.sourceName := name;
      }
    }

    /** `make_item`: the arguments, with the spider's platform added when
        they carry none. */
    function MakeItem(kwargs: Dict): (r: Dict)
      ensures r.Keys == kwargs.Keys + {"platform"}
      ensures "platform" in kwargs ==> r == kwargs
      ensures "platform" !in kwargs ==> r["platform"] == JStr(platform)
      ensures forall k :: k in kwargs ==> r[k] == kwargs[k]
    {
      if "platform" in kwargs then kwargs else kwargs["platform" := JStr(platform)]
    }

    /** The fields every hot item starts with, for a title already
        stripped to `text`. */
    function HotBase(text: string, url: Json, position: Json): Dict {
      map["title" := JStr(text), "url" := url, "position" := position, "platform" := JStr(platform)]
    }

    /** Sets `key` when the value is not None. */
    static function SetIfNotNull(item: Dict, key: string, value: Json): Dict {
      if value.JNull? then item else item[key := value]
    }

    /** Sets `key` when the value is truthy. */
    static function SetIfTruthy(item: Dict, key: string, value: Json): (r: Dict)
      ensures r.Keys == if Truthy(value) then item.Keys + {key} else item.Keys
      ensures forall k :: k in r ==> r[k] == if k == key && Truthy(value) then value else item[k]
    {
      if Truthy(value) then item[key := value] else item
    }

    /** `make_hot_item` as a value. */
    function HotItem(title: string, url: Json, position: Json, hotValue: Json, kwargs: Dict): Dict {
      WithExtras(SetIfNotNull(HotBase(Strip(title), url, position), "hot_value", hotValue), kwargs, HotSearchFields)
    }

    /** `make_local_item` as a value. */
    function LocalItem(title: string, url: Json, position: Json, hotValue: Json, kwargs: Dict): Dict {
      var (r, rest) := Pop(kwargs, "region", JStr(region));
      WithExtras(SetIfNotNull(HotBase(Strip(title), url, position)["region" := r], "hot_value", hotValue), rest, LocalHotFields)
    }

    /** `make_vertical_item` as a value. */
    function VerticalItem(title: string, url: Json, position: Json, kwargs: Dict): Dict {
      var (v, rest) := Pop(kwargs, "vertical", JStr(vertical));
      WithExtras(HotBase(Strip(title), url, position)["vertical" := v], rest, VerticalHotFields)
    }

    /** `make_media_item` as a value. */
    function MediaItem(title: string, url: Json, publishDate: Json, content: Json, kwargs: Dict): Dict {
      MediaOf(Strip(title), url, publishDate, content, kwargs)
    }

    /** The media item for a title already stripped to `text`. */
    function MediaOf(text: string, url: Json, publishDate: Json, content: Json, kwargs: Dict): Dict {
      var (m, rest) := Pop(kwargs, "media_type", JStr(mediaType));
      var base := map["title" := JStr(text), "url" := url, "platform" := JStr(platform), "media_type" := m];
      WithExtras(SetIfTruthy(SetIfTruthy(base, "publish_date", publishDate), "content", content), rest, MediaFields)
    }

    /** A national hot item: the title stripped, url and position as
        given, the hot value only when it is not None, the platform from
        the arguments when they set one and the spider's otherwise, the
        declared non-None extras, and no undeclared field. */
    lemma HotItemFields(title: string, url: Json, position: Json, hotValue: Json, kwargs: Dict)
      requires "title" !in kwargs && "url" !in kwargs && "position" !in kwargs && "hot_value" !in kwargs
      ensures var r := HotItem(title, url, position, hotValue, kwargs);
        && "title" in r && "url" in r && "position" in r && "platform" in r
        && r["title"] == JStr(Strip(title)) && r["url"] == url && r["position"] == position
        && r["platform"] == (if "platform" in kwargs && !kwargs["platform"].JNull? then kwargs["platform"] else JStr(platform))
        && ("hot_value" in r <==> !hotValue.JNull?)
        && ("hot_value" in r ==> r["hot_value"] == hotValue)
        && r.Keys <= HotSearchFields
        && (forall k :: k in kwargs ==> (k in r && r[k] == kwargs[k] <== k in HotSearchFields && !kwargs[k].JNull?))
    {
      var base := SetIfNotNull(HotBase(Strip(title), url, position), "hot_value", hotValue);
      HotBaseFacts(Strip(title), url, position, hotValue);
      assert kwargs - {"hot_value"} == kwargs;
      OverBase(base, kwargs, kwargs, "hot_value", HotSearchFields);
    }

    /** A local hot item: as a national one, with the region taken from
        the arguments (even a None there) or else the spider's, and never
        overwritten by the extras. */
    lemma LocalItemFields(title: string, url: Json, position: Json, hotValue: Json, kwargs: Dict)
      requires "title" !in kwargs && "url" !in kwargs && "position" !in kwargs && "hot_value" !in kwargs
      ensures var r := LocalItem(title, url, position, hotValue, kwargs);
        && "title" in r && "url" in r && "position" in r && "platform" in r
        && r["title"] == JStr(Strip(title)) && r["url"] == url && r["position"] == position
        && r["region"] == GetOr(kwargs, "region", JStr(region))
        && r["platform"] == (if "platform" in kwargs && !kwargs["platform"].JNull? then kwargs["platform"] else JStr(platform))
        && ("hot_value" in r <==> !hotValue.JNull?)
        && r.Keys <= LocalHotFields
        && (forall k :: k in kwargs && k != "region" ==> (k in r && r[k] == kwargs[k] <== k in LocalHotFields && !kwargs[k].JNull?))
    {
      var (v, rest) := Pop(kwargs, "region", JStr(region));
      var base := SetIfNotNull(HotBase(Strip(title), url, position)["region" := v], "hot_value", hotValue);
      LocalBase(Strip(title), url, position, hotValue, v);
      var r := LocalItem(title, url, position, hotValue, kwargs);
      assert r == WithExtras(base, rest, LocalHotFields);
      OverBase(base, rest, kwargs, "region", LocalHotFields);
    }

    /** The keys and values of the base every hot item starts with. */
    lemma HotBaseKeys(text: string, url: Json, position: Json)
      ensures var b := HotBase(text, url, position);
        && "title" in b && "url" in b && "position" in b && "platform" in b
        && b["title"] == JStr(text) && b["url"] == url && b["position"] == position
        && b["platform"] == JStr(platform)
        && b.Keys == {"title", "url", "position", "platform"}
    {
      EightLetterKeys();
    }

    lemma HotBaseFacts(text: string, url: Json, position: Json, hotValue: Json)
      ensures var b := SetIfNotNull(HotBase(text, url, position), "hot_value", hotValue);
        && "title" in b && "url" in b && "position" in b && "platform" in b
        && b["title"] == JStr(text) && b["url"] == url && b["position"] == position
        && b["platform"] == JStr(platform)
        && ("hot_value" in b <==> !hotValue.JNull?)
        && ("hot_value" in b ==> b["hot_value"] == hotValue)
        && b.Keys <= {"title", "url", "position", "platform", "hot_value"}
    {
      HotBaseKeys(text, url, position);
      HotValueKey();
      var h := HotBase(text, url, position);
      if !hotValue.JNull? {
        var b := h["hot_value" := hotValue];
        assert b["title"] == h["title"] && b["url"] == h["url"];
        assert b["position"] == h["position"] && b["platform"] == h["platform"];
        assert b.Keys == h.Keys + {"hot_value"};
      }
    }

    lemma VerticalBase(text: string, url: Json, position: Json, v: Json)
      ensures var b := HotBase(text, url, position)["vertical" := v];
        && "title" in b && "url" in b && "position" in b && "platform" in b && "vertical" in b
        && b["title"] == JStr(text) && b["url"] == url && b["position"] == position
        && b["platform"] == JStr(platform) && b["vertical"] == v
        && b.Keys <= {"title", "url", "position", "platform", "vertical"}
    {
      EightLetterKeys();
    }

    lemma MediaBase(text: string, url: Json, m: Json, publishDate: Json, content: Json)
      ensures var b := SetIfTruthy(SetIfTruthy(map["title" := JStr(text), "url" := url, "platform" := JStr(platform), "media_type" := m], "publish_date", publishDate), "content", content);
        && "title" in b && "url" in b && "platform" in b && "media_type" in b && "position" !in b
        && b["title"] == JStr(text) && b["url"] == url
        && b["platform"] == JStr(platform) && b["media_type"] == m
        && ("publish_date" in b <==> Truthy(publishDate))
        && ("publish_date" in b ==> b["publish_date"] == publishDate)
        && ("content" in b <==> Truthy(content))
        && ("content" in b ==> b["content"] == content)
        && b.Keys <= {"title", "url", "platform", "media_type", "publish_date", "content"}
    {
    }

    lemma LocalBase(text: string, url: Json, position: Json, hotValue: Json, v: Json)
      ensures var b := SetIfNotNull(HotBase(text, url, position)["region" := v], "hot_value", hotValue);
        && "title" in b && "url" in b && "position" in b && "platform" in b && "region" in b
        && b["title"] == JStr(text) && b["url"] == url && b["position"] == position
        && b["platform"] == JStr(platform) && b["region"] == v
        && ("hot_value" in b <==> !hotValue.JNull?)
        && ("hot_value" in b ==> b["hot_value"] == hotValue)
        && b.Keys <= {"title", "url", "position", "platform", "region", "hot_value"}
    {
      HotBaseKeys(text, url, position);
      HotValueKey();
      var h := HotBase(text, url, position);
      assert "region"[0] == 'r';
      var g := h["region" := v];
      assert g["title"] == h["title"] && g["url"] == h["url"];
      assert g["position"] == h["position"] && g["platform"] == h["platform"];
      assert g.Keys == h.Keys + {"region"};
      if !hotValue.JNull? {
        var b := g["hot_value" := hotValue];
        assert b["title"] == g["title"] && b["url"] == g["url"] && b["region"] == v;
        assert b["position"] == g["position"] && b["platform"] == g["platform"];
        assert b.Keys == g.Keys + {"hot_value"};
      }
    }

    /** A vertical ranking item: the vertical from the arguments or else
        the spider's; stars, replies, likes and the rest only as extras. */
    lemma VerticalItemFields(title: string, url: Json, position: Json, kwargs: Dict)
      requires "title" !in kwargs && "url" !in kwargs && "position" !in kwargs
      ensures var r := VerticalItem(title, url, position, kwargs);
        && "title" in r && "url" in r && "position" in r && "platform" in r
        && r["title"] == JStr(Strip(title)) && r["url"] == url && r["position"] == position
        && r["vertical"] == GetOr(kwargs, "vertical", JStr(vertical))
        && r["platform"] == (if "platform" in kwargs && !kwargs["platform"].JNull? then kwargs["platform"] else JStr(platform))
        && r.Keys <= VerticalHotFields
        && (forall k :: k in kwargs && k != "vertical" ==> (k in r && r[k] == kwargs[k] <== k in VerticalHotFields && !kwargs[k].JNull?))
    {
      var (v, rest) := Pop(kwargs, "vertical", JStr(vertical));
      var base := HotBase(Strip(title), url, position)["vertical" := v];
      VerticalBase(Strip(title), url, position, v);
      OverBase(base, rest, kwargs, "vertical", VerticalHotFields);
    }

    /** A media item: no position; the media type from the arguments or
        else the spider's; the publish date and the content only when
        they are truthy. */
    lemma MediaItemFields(title: string, url: Json, publishDate: Json, content: Json, kwargs: Dict)
      requires "title" !in kwargs && "url" !in kwargs && "publish_date" !in kwargs && "content" !in kwargs
      ensures var r := MediaItem(title, url, publishDate, content, kwargs);
        && "title" in r && "url" in r && "media_type" in r && "platform" in r
        && r["title"] == JStr(Strip(title)) && r["url"] == url && "position" !in r
        && r["media_type"] == GetOr(kwargs, "media_type", JStr(mediaType))
        && r["platform"] == (if "platform" in kwargs && !kwargs["platform"].JNull? then kwargs["platform"] else JStr(platform))
        && ("publish_date" in r <==> Truthy(publishDate))
        && ("publish_date" in r ==> r["publish_date"] == publishDate)
        && ("content" in r <==> Truthy(content))
        && ("content" in r ==> r["content"] == content)
        && r.Keys <= MediaFields
        && (forall k :: k in kwargs && k != "media_type" ==> (k in r && r[k] == kwargs[k] <== k in MediaFields && !kwargs[k].JNull?))
    {
      MediaOfFields(Strip(title), url, publishDate, content, kwargs);
      MediaOfExtras(Strip(title), url, publishDate, content, kwargs);
    }

    /** A newspaper article (`make_media_item` with a publish date and
        one `extra` argument): the stripped title, the URL, the date, the
        content when it is truthy, the extra data, the spider's platform
        and media type. */
    lemma ArticleFields(title: string, url: Json, publishDate: string, content: Json, extra: Json)
      requires publishDate != [] && !extra.JNull?
      ensures var r := MediaItem(title, url, JStr(publishDate), content, map["extra" := extra]);
        && "title" in r && r["title"] == JStr(Strip(title))
        && "url" in r && r["url"] == url
        && "publish_date" in r && r["publish_date"] == JStr(publishDate)
        && ("content" in r <==> Truthy(content)) && ("content" in r ==> r["content"] == content)
        && "extra" in r && r["extra"] == extra
        && "platform" in r && r["platform"] == JStr(platform)
        && "media_type" in r && r["media_type"] == JStr(mediaType)
    {
      var kwargs := map["extra" := extra];
      MediaItemFields(title, url, JStr(publishDate), content, kwargs);
      assert "extra" in MediaFields;
    }

    /** The declared, non-None keyword arguments other than the media type
        end up in the media item. */
    lemma MediaOfExtras(text: string, url: Json, publishDate: Json, content: Json, kwargs: Dict)
      ensures var r := MediaOf(text, url, publishDate, content, kwargs);
        forall k :: k in kwargs && k != "media_type" ==> (k in r && r[k] == kwargs[k] <== k in MediaFields && !kwargs[k].JNull?)
    {
      var (m, rest) := Pop(kwargs, "media_type", JStr(mediaType));
      var base := map["title" := JStr(text), "url" := url, "platform" := JStr(platform), "media_type" := m];
      WithExtrasProps(SetIfTruthy(SetIfTruthy(base, "publish_date", publishDate), "content", content), rest, MediaFields);
    }

    lemma MediaOfFields(text: string, url: Json, publishDate: Json, content: Json, kwargs: Dict)
      requires "title" !in kwargs && "url" !in kwargs && "publish_date" !in kwargs && "content" !in kwargs
      ensures var r := MediaOf(text, url, publishDate, content, kwargs);
        && "title" in r && "url" in r && "media_type" in r && "platform" in r
        && r["title"] == JStr(text) && r["url"] == url && "position" !in r
        && r["media_type"] == GetOr(kwargs, "media_type", JStr(mediaType))
        && r["platform"] == (if "platform" in kwargs && !kwargs["platform"].JNull? then kwargs["platform"] else JStr(platform))
        && ("publish_date" in r <==> Truthy(publishDate))
        && ("publish_date" in r ==> r["publish_date"] == publishDate)
        && ("content" in r <==> Truthy(content))
        && ("content" in r ==> r["content"] == content)
        && r.Keys <= MediaFields
    {
      var (m, rest) := Pop(kwargs, "media_type", JStr(mediaType));
      var base := map["title" := JStr(text), "url" := url, "platform" := JStr(platform), "media_type" := m];
      var full := SetIfTruthy(SetIfTruthy(base, "publish_date", publishDate), "content", content);
      MediaBase(text, url, m, publishDate, content);
      assert "position" !in MediaFields;
      OverBase(full, rest, kwargs, "media_type", MediaFields);
    }

    /** `if value is not None: item[key] = value`. */
    static method PutIfNotNull(item: Dict, key: string, value: Json) returns (r: Dict)
      ensures r == SetIfNotNull(item, key, value)
    {
      r := item;
      if !value.JNull? {
        r := r[key := value];
      }
    }

    /** `if value: item[key] = value`. */
    static method PutIfTruthy(item: Dict, key: string, value: Json) returns (r: Dict)
      ensures r == SetIfTruthy(item, key, value)
    {
      r := item;
      if Truthy(value) {
        r := r[key := value];
      }
    }

    method MakeHotItem(title: string, url: Json, position: Json, hotValue: Json, kwargs: Dict) returns (item: Dict)
      ensures item == HotItem(title, url, position, hotValue, kwargs)
    {
      item := map["title" := JStr(Strip(title))];
      item := item["url" := url];
      item := item["position" := position];
      item := item["platform" := JStr(platform)];
      item := PutIfNotNull(item, "hot_value", hotValue);
      item := CopyExtras(item, kwargs, HotSearchFields);
    }

    method MakeLocalItem(title: string, url: Json, position: Json, hotValue: Json, kwargs: Dict) returns (item: Dict)
      ensures item == LocalItem(title, url, position, hotValue, kwargs)
    {
      item := map["title" := JStr(Strip(title))];
      item := item["url" := url];
      item := item["position" := position];
      item := item["platform" := JStr(platform)];
      var rest := kwargs;
      var r := GetOr(rest, "region", JStr(region));
      rest := rest - {"region"};
      item := item["region" := r];
      item := PutIfNotNull(item, "hot_value", hotValue);
      item := CopyExtras(item, rest, LocalHotFields);
    }

    method MakeVerticalItem(title: string, url: Json, position: Json, kwargs: Dict) returns (item: Dict)
      ensures item == VerticalItem(title, url, position, kwargs)
    {
      item := map["title" := JStr(Strip(title))];
      item := item["url" := url];
      item := item["position" := position];
      item := item["platform" := JStr(platform)];
      var rest := kwargs;
      var v := GetOr(rest, "vertical", JStr(vertical));
      rest := rest - {"vertical"};
      item := item["vertical" := v];
      item := CopyExtras(item, rest, VerticalHotFields);
    }

    method MakeMediaItem(title: string, url: Json, publishDate: Json, content: Json, kwargs: Dict)
      returns (item: Dict)
      ensures item == MediaItem(title, url, publishDate, content, kwargs)
    {
      item := map["title" := JStr(Strip(title))];
      item := item["url" := url];
      item := item["platform" := JStr(platform)];
      var rest := kwargs;
      var m := GetOr(rest, "media_type", JStr(mediaType));
      rest := rest - {"media_type"};
      item := item["media_type" := m];
      item := PutIfTruthy(item, "publish_date", publishDate);
      item := PutIfTruthy(item, "content", content);
      item := CopyExtras(item, rest, MediaFields);
    }
  }
}
