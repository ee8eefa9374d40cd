/**
 * The class `DpSportschau`: the cached download `_loadUrl`, the loops of
 * `_extractVideo` and `_processItemsTeasers`, and the three page operations
 * `getRoot`, `getSub` and `getPage`. Each method is proved to agree with a
 * function of the cache files before the call; the properties are lemmas
 * about those functions here and in the modules they build on.
 */
module Sportschau {
  import opened Wrappers
  import opened JsonTree
  import opened PyInt
  import opened Services
  import opened ResponseCache
  import opened StreamSelector
  import opened Records
  import opened Teasers

  /** The root menu endpoint. */
  const MenuUrl: string := "https://exporte.wdr.de/SportschauNextServer/menu"

  /** Where `getPage` finds the link to a page's news menu. */
  const NewsPath: seq<Segment> := [Key("content"), Key("item"), Index(0), Key("_links"), Key("news"), Key("href")]

  /** `json.loads(self._loadUrl(url))`. */
  function LoadJson(files: map<string, CacheFile>, url: string, now: int, p: Platform): Cached<Json> {
    var l := Load(files, url, DefaultMaxAge, now, p);
    Cached(match l.value case Err(e) => Err(e) case Ok(text) => LoadsJson(JStr(text), p.loads), l.files)
  }

  /** `getRoot()`: one category per item of the second root group. */
  function RootSpec(files: map<string, CacheFile>, now: int, p: Platform): Cached<seq<MenuNode>> {
    var l := LoadJson(files, MenuUrl, now, p);
    match l.value
    case Err(e) => Cached(Err(e), l.files)
    case Ok(data) =>
      var rootItems := Value(data, [Key("items")]);
      if !Truthy(rootItems) then Cached(Ok([]), l.files)
      else match Elements(Value(rootItems, [Index(1), Key("items")]))
        case None => Cached(Err(TypeError), l.files)
        case Some(items) => Cached(Ok(seq(|items|, i requires 0 <= i < |items| => ProcessItem(items[i]))), l.files)
  }

  /** The sub-category records of `getSub`: one per `subCategories` entry, read from its `_links.target`. */
  function SubcategoryEntries(subs: Json): Result<seq<Entry>> {
    if !Truthy(subs) then Ok([])
    else match Elements(subs)
      case None => Err(TypeError)
      case Some(xs) => Ok(seq(|xs|, i requires 0 <= i < |xs| => ProcessSubcategory(Value(xs[i], TargetPath))))
  }

  /** `getSub(url)`: the sub-categories, then the teaser records of the page's `items`. */
  function SubSpec(files: map<string, CacheFile>, url: string, now: int, p: Platform): Cached<seq<Entry>> {
    var l := LoadJson(files, url, now, p);
    match l.value
    case Err(e) => Cached(Err(e), l.files)
    case Ok(data) =>
      match SubcategoryEntries(Value(data, [Key("subCategories")]))
      case Err(e) => Cached(Err(e), l.files)
      case Ok(cats) =>
        var t := ItemsTeasers(Value(data, [Key("items")]), l.files, now, p);
        Cached(match t.value case Err(e) => Err(e) case Ok(rs) => Ok(cats + rs), t.files)
  }

  /** `getPage(url)`: the teaser records of the page, or of its news menu when the page links one. */
  function PageSpec(files: map<string, CacheFile>, url: string, now: int, p: Platform): Cached<seq<Entry>> {
    var l := LoadJson(files, url, now, p);
    match l.value
    case Err(e) => Cached(Err(e), l.files)
    case Ok(data) =>
      var simpleMenu := Value(data, NewsPath);
      if !Truthy(simpleMenu) then ItemsTeasers(Value(data, [Key("items")]), l.files, now, p)
      else if !simpleMenu.JStr? then Cached(Err(AttributeError), l.files)
      else
        var l2 := LoadJson(l.files, simpleMenu.s, now, p);
        match l2.value
        case Err(e) => Cached(Err(e), l2.files)
        case Ok(news) => ItemsTeasers(Value(news, [Key("items")]), l2.files, now, p)
  }

  /** The add-on's data directory: the cache files by path. */
  class DataDirectory {
    var files: map<string, CacheFile>

    constructor (files: map<string, CacheFile>)
      ensures this.files == files
    {
      this.files := files;
    }
  }

  class DpSportschau {
    const dir: DataDirectory
    const platform: Platform
    const apiUrlMenu: string := MenuUrl

    constructor (dir: DataDirectory, platform: Platform)
      ensures this.dir == dir && this.platform == platform
    {
      this.dir := dir;
      this.platform := platform;
    }

    /** `_loadUrl(url, age)` at time `now`. */
    method LoadUrl(url: string, age: int, now: int) returns (r: Result<string>)
      modifies dir
      ensures Cached(r, dir.files) == Load(old(dir.files), url, age, now, platform)
    {
      var key := CacheKey(platform, url);
      if key in dir.files {
        var cached := ReadCached(dir.files[key], age, now, platform.decode);
        if cached.Some? {
          return Ok(cached.value);
        }
      }
      var fetched := platform.fetch(url);
      if fetched.None? {
        return Err(FetchError);
      }
      var cData := CacheDocument(now, url, platform.encode(fetched.value));
      dir.files := dir.files[key := Document(cData)];
      var decoded := platform.decode(cData.fields["data"].s);
      if decoded.None? {
        return Err(Base64Error);
      }
      return Ok(decoded.value);
    }

    /** `_extractVideo`: the URL of the first variant after the sort by key names, which is the first media entry's. */
    method ExtractVideo(collection: Json) returns (r: Result<Json>)
      ensures r == PickStream(collection)
      ensures match Elements(MediaList(collection))
        case None => r == Err(TypeError)
        case Some(ms) => r == if ms == [] then Err(IndexError) else Ok(Value(ms[0], [Key("url")]))
    {
      PickStreamIsFirstMedia(collection);
      var urls: seq<Json>;
      match Elements(MediaList(collection)) {
        case None => return Err(TypeError);
        case Some(ms) => urls := ms;
      }
      var byResolution: seq<Variant> := [];
      for i := 0 to |urls|
        invariant byResolution == Variants(urls[..i])
      {
        assert urls[..i + 1] == urls[..i] + [urls[i]];
        byResolution := byResolution + [ToVariant(urls[i])];
      }
      assert urls[..|urls|] == urls;
      var sortedUrls := SortBy(byResolution, KeyTuple);
      if sortedUrls == [] {
        return Err(IndexError);
      }
      r := Ok(sortedUrls[0].url);
    }

    /** `_processTeaser`. */
    method ProcessTeaser(teaser: Json) returns (r: Result<MediaRecord>)
      ensures r == InlineMedia(teaser, platform)
    {
      var collection :- LoadsJson(Value(teaser, [Key("app"), Key("playerMediaCollection")]), platform.loads);
      var pubDate: int;
      match AsNumber(Value(teaser, [Key("pubDate")])) {
        case None => return Err(TypeError);
        case Some(n) => pubDate := n;
      }
      var duration :- ToInt(Value(teaser, [Key("app"), Key("duration")]));
      var found := ExtractVideo(collection);
      if found.Err? {
        return Err(found.error);
      }
      r := Ok(TeaserRecord(teaser, pubDate, duration, found.value));
    }

    /** `_processTopMediaType`: the item feed is downloaded through the cache. */
    method ProcessTopMediaType(teaser: Json, now: int) returns (r: Result<MediaRecord>)
      modifies dir
      ensures Cached(r, dir.files) == DeferredMedia(old(dir.files), teaser, now, platform)
    {
      var avLink := Value(teaser, [Key("app"), Key("avlink")]);
      if !avLink.JStr? {
        return Err(AttributeError);
      }
      var text :- LoadUrl(avLink.s, DefaultMaxAge, now);
      var feed: FeedItem;
      match platform.readFeedItem(text) {
        case None => return Err(XmlError);
        case Some(f) => feed := f;
      }
      var collection :- LoadsJson(feed.mediaCollection, platform.loads);
      var epoch: int;
      if !feed.stand.JStr? {
        return Err(TypeError);
      }
      match platform.epochOf(feed.stand.s) {
        case None => return Err(ValueError);
        case Some(t) => epoch := t;
      }
      var duration :- ToInt(feed.duration);
      var href :- ExtractVideo(collection);
      r := Ok(MediaRecord(feed.title, epoch as real, duration, JInt(epoch), feed.description, feed.image, href));
    }

    /** The body of the inner `try` of `_processItemsTeasers`: classify one teaser and append its record, if any. */
    method ProcessSlot(rs: seq<Entry>, slot: Slot, now: int) returns (rs': seq<Entry>)
      modifies dir
      ensures Walk(rs', dir.files) == TeaserStep(Walk(rs, old(dir.files)), slot, now, platform)
    {
      var teaser := slot.teaser;
      rs' := rs;
      var dokumenttyp := Value(teaser, [Key("dokumenttyp")]);
      var topMediaType := Value(teaser, [Key("topMediaType")]);
      var mediaType := Value(teaser, [Key("mediaCategory")]);
      if IsVideo(dokumenttyp) || IsVideo(mediaType) {
        var tData := ProcessTeaser(teaser);
        if tData.Ok? {
          rs' := rs + [Playable(tData.value, slot.topTitle)];
        }
      } else if IsVideo(topMediaType) {
        var tData := ProcessTopMediaType(teaser, now);
        if tData.Ok? {
          rs' := rs + [Playable(tData.value, slot.topTitle)];
        }
      }
    }

    /** The inner loop of `_processItemsTeasers`: the teasers of group `k`, continuing the walk over `done`. */
    method ProcessGroup(rs: seq<Entry>, k: nat, teasers: seq<Json>, topTitle: Json, now: int,
                        ghost files0: map<string, CacheFile>, ghost done: seq<Slot>)
      returns (rs': seq<Entry>)
      requires WalkSlots(files0, done, now, platform) == Walk(rs, dir.files)
      modifies dir
      ensures WalkSlots(files0, done + GroupSlots(k, teasers, topTitle), now, platform) == Walk(rs', dir.files)
    {
      rs' := rs;
      var j := 0;
      assert done + GroupSlots(k, teasers[..0], topTitle) == done;
      while j < |teasers|
        invariant 0 <= j <= |teasers|
        invariant WalkSlots(files0, done + GroupSlots(k, teasers[..j], topTitle), now, platform) == Walk(rs', dir.files)
      {
        WalkGroupStep(files0, done, k, teasers, j, topTitle, now, platform);
        rs' := ProcessSlot(rs', Slot(k, teasers[j], topTitle), now);
        j := j + 1;
      }
      assert teasers[..|teasers|] == teasers;
    }

    /** `_processItemsTeasers(items)`. */
    method ProcessItemsTeasers(items: Json, now: int) returns (r: Result<seq<Entry>>)
      modifies dir
      ensures Cached(r, dir.files) == ItemsTeasers(items, old(dir.files), now, platform)
    {
      ghost var files0 := dir.files;
      var rs: seq<Entry> := [];
      var topTitle := JNull;
      if !Truthy(items) {
        return Ok(rs);
      }
      var groups: seq<Json>;
      match Elements(items) {
        case None => return Err(TypeError);
        case Some(gs) => groups := gs;
      }
      ghost var slots: seq<Slot> := [];
      var i := 0;
      while i < |groups|
        invariant 0 <= i <= |groups|
        invariant ScheduleGroups(groups[..i]) == Schedule(slots, topTitle, false)
        invariant WalkSlots(files0, slots, now, platform) == Walk(rs, dir.files)
      {
        var item := groups[i];
        assert groups[..i + 1][..i] == groups[..i];
        topTitle := Carry(Value(item, [Key("title")]), topTitle);
        var teasersValue := Value(item, [Key("teasers")]);
        if Truthy(teasersValue) {
          var teasers: seq<Json>;
          match Elements(teasersValue) {
            case None =>
              ScheduleFailureSticks(groups, i + 1);
              return Err(TypeError);
            case Some(ts) => teasers := ts;
          }
          rs := ProcessGroup(rs, i, teasers, topTitle, now, files0, slots);
          slots := slots + GroupSlots(i, teasers, topTitle);
        }
        i := i + 1;
      }
      assert groups[..|groups|] == groups;
      return Ok(rs);
    }

    /** `getRoot()`. */
    method GetRoot(now: int) returns (r: Result<seq<MenuNode>>)
      modifies dir
      ensures Cached(r, dir.files) == RootSpec(old(dir.files), now, platform)
    {
      var rs: seq<MenuNode> := [];
      var text :- LoadUrl(apiUrlMenu, DefaultMaxAge, now);
      var data :- LoadsJson(JStr(text), platform.loads);
      var rootItems := Value(data, [Key("items")]);
      if Truthy(rootItems) {
        var categoryItems: seq<Json>;
        match Elements(Value(rootItems, [Index(1), Key("items")])) {
          case None => return Err(TypeError);
          case Some(xs) => categoryItems := xs;
        }
        for k := 0 to |categoryItems|
          invariant rs == seq(k, i requires 0 <= i < k => ProcessItem(categoryItems[i]))
        {
          rs := rs + [ProcessItem(categoryItems[k])];
        }
      }
      return Ok(rs);
    }

    /** `getSub(url)`. */
    method GetSub(url: string, now: int) returns (r: Result<seq<Entry>>)
      modifies dir
      ensures Cached(r, dir.files) == SubSpec(old(dir.files), url, now, platform)
    {
      var rs: seq<Entry> := [];
      var text :- LoadUrl(url, DefaultMaxAge, now);
      var data :- LoadsJson(JStr(text), platform.loads);
      var subCategories := Value(data, [Key("subCategories")]);
      if Truthy(subCategories) {
        var subs: seq<Json>;
        match Elements(subCategories) {
          case None => return Err(TypeError);
          case Some(xs) => subs := xs;
        }
        for k := 0 to |subs|
          invariant rs == seq(k, i requires 0 <= i < k => ProcessSubcategory(Value(subs[i], TargetPath)))
        {
          rs := rs + [ProcessSubcategory(Value(subs[k], [Key("_links"), Key("target")]))];
        }
      }
      var teasers :- ProcessItemsTeasers(Value(data, [Key("items")]), now);
      return Ok(rs + teasers);
    }

    /** `getPage(url)`. */
    method GetPage(url: string, now: int) returns (r: Result<seq<Entry>>)
      modifies dir
      ensures Cached(r, dir.files) == PageSpec(old(dir.files), url, now, platform)
    {
      var text :- LoadUrl(url, DefaultMaxAge, now);
      var data :- LoadsJson(JStr(text), platform.loads);
      var simpleMenu := Value(data, NewsPath);
      if Truthy(simpleMenu) {
        if !simpleMenu.JStr? {
          return Err(AttributeError);
        }
        var newsText :- LoadUrl(simpleMenu.s, DefaultMaxAge, now);
        data :- LoadsJson(JStr(newsText), platform.loads);
      }
      r := ProcessItemsTeasers(Value(data, [Key("items")]), now);
    }
  }

  /** The walk over a group's first `j + 1` teasers is one step after the walk over its first `j`. */
  lemma WalkGroupStep(files: map<string, CacheFile>, done: seq<Slot>, k: nat, teasers: seq<Json>, j: nat, title: Json, now: int, p: Platform)
    requires j < |teasers|
    ensures WalkSlots(files, done + GroupSlots(k, teasers[..j + 1], title), now, p)
         == TeaserStep(WalkSlots(files, done + GroupSlots(k, teasers[..j], title), now, p), Slot(k, teasers[j], title), now, p)
  {
    var walked := done + GroupSlots(k, teasers[..j], title);
    var slot := Slot(k, teasers[j], title);
    assert GroupSlots(k, teasers[..j + 1], title) == GroupSlots(k, teasers[..j], title) + [slot];
    assert done + GroupSlots(k, teasers[..j + 1], title) == walked + [slot];
    assert (walked + [slot])[..|walked|] == walked;
  }

  /**
   * `getRoot` returns one category per item of `items[1].items` of the menu,
   * in order, each with 'type' and 'href' taken from the item's
   * `_links.target`.
   */
  lemma RootOnePerCategoryItem(files: map<string, CacheFile>, now: int, p: Platform, data: Json, items: seq<Json>)
    requires LoadJson(files, MenuUrl, now, p).value == Ok(data)
    requires Truthy(Value(data, [Key("items")]))
    requires Elements(Value(data, [Key("items"), Index(1), Key("items")])) == Some(items)
    ensures RootSpec(files, now, p).value.Ok?
    ensures var rs := RootSpec(files, now, p).value.value;
      && |rs| == |items|
      && forall i :: 0 <= i < |rs| ==>
           && rs[i].name == Value(items[i], [Key("name")])
           && rs[i].kind == Value(Value(items[i], TargetPath), [Key("type")])
           && rs[i].href == Value(Value(items[i], TargetPath), [Key("href")])
  {
    ValueAppend(data, [Key("items")], [Index(1), Key("items")]);
    forall i | 0 <= i < |items| {
      ProcessItemReadsTarget(items[i]);
    }
  }

  /**
   * A falsy root `items` gives no categories; a root whose `items[1].items`
   * cannot be iterated raises TypeError. Either way only the menu load
   * changed the cache.
   */
  lemma RootWithoutCategories(files: map<string, CacheFile>, now: int, p: Platform, data: Json)
    requires LoadJson(files, MenuUrl, now, p).value == Ok(data)
    ensures !Truthy(Value(data, [Key("items")])) ==>
      RootSpec(files, now, p) == Cached(Ok([]), LoadJson(files, MenuUrl, now, p).files)
    ensures Truthy(Value(data, [Key("items")])) && Elements(Value(data, [Key("items"), Index(1), Key("items")])) == None ==>
      RootSpec(files, now, p) == Cached(Err(TypeError), LoadJson(files, MenuUrl, now, p).files)
  {
    ValueAppend(data, [Key("items")], [Index(1), Key("items")]);
  }

  /**
   * `getSub` returns first one 'C' record per `subCategories` entry, in
   * order, with name and href read from the entry's `_links.target`, and then
   * the teaser records of the page; it fails exactly when the teaser walk does.
   */
  lemma SubCategoriesThenTeasers(files: map<string, CacheFile>, url: string, now: int, p: Platform, data: Json, xs: seq<Json>)
    requires LoadJson(files, url, now, p).value == Ok(data)
    requires Value(data, [Key("subCategories")]) == JArr(xs) || (!Truthy(Value(data, [Key("subCategories")])) && xs == [])
    ensures var t := ItemsTeasers(Value(data, [Key("items")]), LoadJson(files, url, now, p).files, now, p);
      var s := SubSpec(files, url, now, p);
      && s.files == t.files
      && (s.value.Ok? <==> t.value.Ok?)
      && (s.value.Ok? ==>
            && |s.value.value| == |xs| + |t.value.value|
            && s.value.value[|xs|..] == t.value.value
            && forall i :: 0 <= i < |xs| ==>
                 && TypeCode(s.value.value[i]) == "C"
                 && s.value.value[i] == Category(Value(xs[i], TargetPath + [Key("title")]), Value(xs[i], TargetPath + [Key("href")])))
  {
    forall i | 0 <= i < |xs|
      ensures Value(Value(xs[i], TargetPath), [Key("title")]) == Value(xs[i], TargetPath + [Key("title")])
      ensures Value(Value(xs[i], TargetPath), [Key("href")]) == Value(xs[i], TargetPath + [Key("href")])
    {
      ValueAppend(xs[i], TargetPath, [Key("title")]);
      ValueAppend(xs[i], TargetPath, [Key("href")]);
    }
  }

  /** A truthy `subCategories` that cannot be iterated makes `getSub` raise TypeError before the teaser walk. */
  lemma SubCategoriesNotIterable(files: map<string, CacheFile>, url: string, now: int, p: Platform, data: Json)
    requires LoadJson(files, url, now, p).value == Ok(data)
    requires Truthy(Value(data, [Key("subCategories")])) && Elements(Value(data, [Key("subCategories")])) == None
    ensures SubSpec(files, url, now, p) == Cached(Err(TypeError), LoadJson(files, url, now, p).files)
  {
  }

  /** When a page links a news menu, `getPage` returns the teasers of that menu, read after the page itself. */
  lemma PageFollowsNewsLink(files: map<string, CacheFile>, url: string, now: int, p: Platform, data: Json, link: string)
    requires LoadJson(files, url, now, p).value == Ok(data)
    requires Value(data, NewsPath) == JStr(link) && link != []
    ensures var l := LoadJson(files, url, now, p);
      var l2 := LoadJson(l.files, link, now, p);
      PageSpec(files, url, now, p) ==
        if l2.value.Ok? then ItemsTeasers(Value(l2.value.value, [Key("items")]), l2.files, now, p)
        else Cached(Err(l2.value.error), l2.files)
  {
  }

  /**
   * Without a news link `getPage` walks the page's own `items` on the files
   * after the page load; a truthy link that is not a string raises
   * AttributeError at `pUrl.encode()` before any second download.
   */
  lemma PageWithoutNewsLink(files: map<string, CacheFile>, url: string, now: int, p: Platform, data: Json)
    requires LoadJson(files, url, now, p).value == Ok(data)
    ensures var l := LoadJson(files, url, now, p);
      !Truthy(Value(data, NewsPath)) ==>
        PageSpec(files, url, now, p) == ItemsTeasers(Value(data, [Key("items")]), l.files, now, p)
    ensures var l := LoadJson(files, url, now, p);
      Truthy(Value(data, NewsPath)) && !Value(data, NewsPath).JStr? ==>
        PageSpec(files, url, now, p) == Cached(Err(AttributeError), l.files)
  {
  }
}
