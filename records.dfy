/**
 * The normalised records of `dpSportschau.py` and the pure mappings that
 * build them from decoded JSON and from an item feed.
 */
module Records {
  import opened Wrappers
  import opened JsonTree
  import opened PyInt
  import opened Services
  import opened StreamSelector

  /** A root-menu category, as `_processItem` builds it; `kind` is the dict's 'type'. */
  datatype MenuNode = MenuNode(url: Json, name: Json, path: Json, pos: Json, kind: Json, href: Json)

  /** A playable item as `_processTeaser` and `_processTopMediaType` build it (type 'P'). */
  datatype MediaRecord = MediaRecord(
    name: Json,
    pubDate: real,
    duration: int,
    date: Json,
    description: Json,
    image: Json,
    href: Json)

  /**
   * An element of what `getSub` and `getPage` return: a sub-category (type
   * 'C', no 'topTitle' key) or a playable item with the group title that
   * `_processItemsTeasers` attaches.
   */
  datatype Entry =
    | Category(name: Json, href: Json)
    | Playable(media: MediaRecord, topTitle: Json)

  /** The dict's 'name'. */
  function NameOf(e: Entry): Json {
    match e
    case Category(name, _) => name
    case Playable(m, _) => m.name
  }

  /** The dict's 'type'. */
  function TypeCode(e: Entry): string {
    if e.Category? then "C" else "P"
  }

  const TargetPath: seq<Segment> := [Key("_links"), Key("target")]

  /** `_processItem`. */
  function ProcessItem(item: Json): MenuNode {
    MenuNode(
      Value(item, [Key("url")]),
      Value(item, [Key("name")]),
      Value(item, [Key("path")]),
      Value(item, [Key("position")]),
      Value(item, TargetPath + [Key("type")]),
      Value(item, TargetPath + [Key("href")]))
  }

  /** `_processSubcategory`, given the `_links.target` of a sub-category entry. */
  function ProcessSubcategory(target: Json): Entry {
    Category(Value(target, [Key("title")]), Value(target, [Key("href")]))
  }

  /** `json.loads(v)`: TypeError unless `v` is a string, JSONDecodeError when it does not parse. */
  function LoadsJson(v: Json, loads: string -> Option<Json>): Result<Json> {
    if !v.JStr? then Err(TypeError)
    else match loads(v.s)
      case None => Err(JsonDecodeError)
      case Some(d) => Ok(d)
  }

  /** `_processTeaser`: a teaser that carries its media collection inline. */
  function InlineMedia(teaser: Json, p: Platform): Result<MediaRecord> {
    var collection :- LoadsJson(Value(teaser, [Key("app"), Key("playerMediaCollection")]), p.loads);
    var pubDate :- match AsNumber(Value(teaser, [Key("pubDate")]))
                   case None => Err(TypeError)
                   case Some(n) => Ok(n);
    var duration :- ToInt(Value(teaser, [Key("app"), Key("duration")]));
    var href :- PickStream(collection);
    Ok(TeaserRecord(teaser, pubDate, duration, href))
  }

  /** The dict `_processTeaser` builds once the converted values are known. */
  function TeaserRecord(teaser: Json, pubDate: int, duration: int, href: Json): MediaRecord {
    MediaRecord(
      Value(teaser, [Key("title")]),
      pubDate as real / 1000.0,
      duration,
      Value(teaser, [Key("app"), Key("beitragszeit")]),
      Value(teaser, [Key("description")]),
      Value(teaser, [Key("image"), Key("images"), Index(0), Key("imageUrl")]),
      href)
  }

  /** The part of `_processTopMediaType` after the feed has been read: the same fields, from the feed's texts. */
  function FeedMedia(feed: FeedItem, p: Platform): Result<MediaRecord> {
    var collection :- LoadsJson(feed.mediaCollection, p.loads);
    var epoch :- if !feed.stand.JStr? then Err(TypeError)
                 else match p.epochOf(feed.stand.s)
                   case None => Err(ValueError)
                   case Some(t) => Ok(t);
    var duration :- ToInt(feed.duration);
    var href :- PickStream(collection);
    Ok(MediaRecord(feed.title, epoch as real, duration, JInt(epoch), feed.description, feed.image, href))
  }

  /** Every category of the root menu takes its 'type' and 'href' from the item's `_links.target`. */
  lemma ProcessItemReadsTarget(item: Json)
    ensures ProcessItem(item).kind == Value(Value(item, TargetPath), [Key("type")])
    ensures ProcessItem(item).href == Value(Value(item, TargetPath), [Key("href")])
  {
    ExtractAppend(item, TargetPath, [Key("type")]);
    ExtractAppend(item, TargetPath, [Key("href")]);
  }

  /**
   * An inline teaser yields a record exactly when its media collection
   * parses, `pubDate` is a number, `int()` accepts the duration and a stream
   * is found; the record's URL is then the first media entry's URL and its
   * time is `pubDate` in seconds.
   */
  lemma InlineMediaFields(teaser: Json, p: Platform)
    ensures var c := LoadsJson(Value(teaser, [Key("app"), Key("playerMediaCollection")]), p.loads);
      var n := AsNumber(Value(teaser, [Key("pubDate")]));
      var d := ToInt(Value(teaser, [Key("app"), Key("duration")]));
      InlineMedia(teaser, p).Ok? <==> c.Ok? && n.Some? && d.Ok? && PickStream(c.value).Ok?
    ensures InlineMedia(teaser, p).Ok? ==>
      var r := InlineMedia(teaser, p).value;
      var ms := Elements(MediaList(LoadsJson(Value(teaser, [Key("app"), Key("playerMediaCollection")]), p.loads).value)).value;
      && ms != []
      && r.href == Value(ms[0], [Key("url")])
      && r.pubDate * 1000.0 == AsNumber(Value(teaser, [Key("pubDate")])).value as real
      && r.name == Value(teaser, [Key("title")])
  {
    var c := LoadsJson(Value(teaser, [Key("app"), Key("playerMediaCollection")]), p.loads);
    if c.Ok? {
      PickStreamIsFirstMedia(c.value);
    }
  }

  /** A feed item yields a record exactly when its collection parses, `app:stand` parses and the duration converts and a stream is found. */
  lemma FeedMediaFields(feed: FeedItem, p: Platform)
    ensures FeedMedia(feed, p).Ok? <==>
      && LoadsJson(feed.mediaCollection, p.loads).Ok?
      && feed.stand.JStr? && p.epochOf(feed.stand.s).Some?
      && ToInt(feed.duration).Ok?
      && PickStream(LoadsJson(feed.mediaCollection, p.loads).value).Ok?
    ensures FeedMedia(feed, p).Ok? ==>
      var r := FeedMedia(feed, p).value;
      var ms := Elements(MediaList(LoadsJson(feed.mediaCollection, p.loads).value)).value;
      && ms != []
      && r.href == Value(ms[0], [Key("url")])
      && r.pubDate == p.epochOf(feed.stand.s).value as real
      && r.date == JInt(p.epochOf(feed.stand.s).value)
  {
    var c := LoadsJson(feed.mediaCollection, p.loads);
    if c.Ok? {
      PickStreamIsFirstMedia(c.value);
    }
  }
}
