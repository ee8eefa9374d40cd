/**
 * The on-disk response cache of `_loadUrl`: one file per requested URL,
 * named by the URL's digest, holding `cTime`, `url` and the Base64-encoded
 * response text. This module gives its behaviour as a function of the files
 * before the call; `Sportschau.DpSportschau.LoadUrl` is proved to follow it.
 */
module ResponseCache {
  import opened Wrappers
  import opened JsonTree
  import opened PyInt
  import opened Services

  /** The default `pAge` of `_loadUrl`, in seconds. */
  const DefaultMaxAge: int := 3600

  /** What `loadJson` makes of one cache file: a document, or an exception for a file it cannot read. */
  datatype CacheFile = Unreadable | Document(doc: Json)

  /** A result, together with the cache files as the call left them. */
  datatype Cached<+T> = Cached(value: Result<T>, files: map<string, CacheFile>)

  /** The file name of a URL's entry: the data directory, the digest of the URL, ".cache". */
  function CacheKey(p: Platform, url: string): string {
    p.dataPath + p.digest(url) + ".cache"
  }

  /** The document `_loadUrl` saves after a download. */
  function CacheDocument(now: int, url: string, data: string): Json {
    JObj(map["cTime" := JInt(now), "url" := JStr(url), "data" := JStr(data)])
  }

  /**
   * The `try` block of `_loadUrl` for an existing file: the stored text when
   * `cTime + age > now`; None when the entry is stale and also when any step
   * raises (unreadable file, a document that is not an object, `cTime`
   * missing or not a number, `data` missing or not valid Base64).
   */
  function ReadCached(file: CacheFile, age: int, now: int, decode: string -> Option<string>): Option<string> {
    match file
    case Unreadable => None
    case Document(doc) =>
      if !doc.JObj? then None
      else
        match AsNumber(Value(doc, [Key("cTime")]))
        case None => None
        case Some(cTime) =>
          if cTime + age > now then
            var data := Value(doc, [Key("data")]);
            if data.JStr? then decode(data.s) else None
          else None
  }

  /** The cache hit, if any, for `key`: `file_exists` and then the `try` block. */
  function Lookup(files: map<string, CacheFile>, key: string, age: int, now: int, decode: string -> Option<string>): Option<string> {
    if key in files then ReadCached(files[key], age, now, decode) else None
  }

  /**
   * `_loadUrl(url, age)` at time `now`: on a hit, the stored text and no
   * change; on a miss, download, overwrite the entry, and return the decoded
   * stored data. A failed download writes nothing.
   */
  function Load(files: map<string, CacheFile>, url: string, age: int, now: int, p: Platform): (c: Cached<string>)
    ensures forall k :: k != CacheKey(p, url) ==> (k in c.files <==> k in files)
    ensures forall k :: k != CacheKey(p, url) && k in files ==> c.files[k] == files[k]
  {
    var key := CacheKey(p, url);
    match Lookup(files, key, age, now, p.decode)
    case Some(text) => Cached(Ok(text), files)
    case None =>
      match p.fetch(url)
      case None => Cached(Err(FetchError), files)
      case Some(text) =>
        var stored := p.encode(text);
        var files' := files[key := Document(CacheDocument(now, url, stored))];
        match p.decode(stored)
        case None => Cached(Err(Base64Error), files')
        case Some(t) => Cached(Ok(t), files')
  }

  /** A well-formed entry is fresh exactly while `cTime + age > now`: at `now == cTime + age` it is already stale. */
  lemma FreshnessIsStrict(cTime: int, url: string, data: string, text: string, age: int, now: int, decode: string -> Option<string>)
    requires decode(data) == Some(text)
    ensures ReadCached(Document(CacheDocument(cTime, url, data)), age, now, decode) == (if cTime + age > now then Some(text) else None)
    ensures ReadCached(Document(CacheDocument(cTime, url, data)), age, cTime + age, decode) == None
  {
  }

  /** On a hit the stored text is returned, the files stay as they were, and the downloader is not consulted. */
  lemma HitNeedsNoDownload(files: map<string, CacheFile>, url: string, age: int, now: int, p: Platform, other: string -> Option<string>)
    requires Lookup(files, CacheKey(p, url), age, now, p.decode).Some?
    ensures Load(files, url, age, now, p) == Cached(Ok(Lookup(files, CacheKey(p, url), age, now, p.decode).value), files)
    ensures Load(files, url, age, now, p.(fetch := other)) == Load(files, url, age, now, p)
  {
  }

  /** An entry that cannot be read, or is stale, behaves exactly like a missing entry. */
  lemma UnusableEntryIsMiss(files: map<string, CacheFile>, url: string, age: int, now: int, p: Platform)
    requires CacheKey(p, url) in files
    requires ReadCached(files[CacheKey(p, url)], age, now, p.decode) == None
    ensures Load(files, url, age, now, p).value == Load(files - {CacheKey(p, url)}, url, age, now, p).value
    ensures p.fetch(url).Some? ==> Load(files, url, age, now, p).files == Load(files - {CacheKey(p, url)}, url, age, now, p).files
  {
    var key := CacheKey(p, url);
    assert Lookup(files - {key}, key, age, now, p.decode) == None;
    if p.fetch(url).Some? {
      var doc := Document(CacheDocument(now, url, p.encode(p.fetch(url).value)));
      assert files[key := doc] == (files - {key})[key := doc];
    }
  }

  /** On a miss with a successful download the entry is (over)written with `now`, the URL and the encoded text, and the text comes back. */
  lemma MissStoresDownload(files: map<string, CacheFile>, url: string, age: int, now: int, p: Platform)
    requires Lookup(files, CacheKey(p, url), age, now, p.decode).None?
    requires p.fetch(url).Some?
    ensures Load(files, url, age, now, p).files == files[CacheKey(p, url) := Document(CacheDocument(now, url, p.encode(p.fetch(url).value)))]
    ensures Base64RoundTrips(p) ==> Load(files, url, age, now, p).value == Ok(p.fetch(url).value)
  {
  }

  /** On a miss a failed download is reported and leaves every file as it was. */
  lemma FailedDownloadWritesNothing(files: map<string, CacheFile>, url: string, age: int, now: int, p: Platform)
    requires Lookup(files, CacheKey(p, url), age, now, p.decode).None?
    requires p.fetch(url).None?
    ensures Load(files, url, age, now, p) == Cached(Err(FetchError), files)
  {
  }

  /** Two URLs with different digests have different cache files, so loading one never touches the other's entry. */
  lemma DistinctDigestsDistinctFiles(files: map<string, CacheFile>, p: Platform, u1: string, u2: string, age: int, now: int)
    requires p.digest(u1) != p.digest(u2)
    ensures CacheKey(p, u1) != CacheKey(p, u2)
    ensures CacheKey(p, u2) in files ==>
      CacheKey(p, u2) in Load(files, u1, age, now, p).files &&
      Load(files, u1, age, now, p).files[CacheKey(p, u2)] == files[CacheKey(p, u2)]
  {
    DifferentMiddles(p.dataPath, p.digest(u1), p.digest(u2), ".cache");
  }

  /** Two strings with a common prefix and suffix differ when their middles do. */
  lemma DifferentMiddles(x: string, a: string, b: string, y: string)
    requires a != b
    ensures x + a + y != x + b + y
  {
    if |a| == |b| {
      var i :| 0 <= i < |a| && a[i] != b[i];
      assert (x + a + y)[|x| + i] == a[i];
      assert (x + b + y)[|x| + i] == b[i];
    } else {
      assert |x + a + y| != |x + b + y|;
    }
  }

  /**
   * A download followed by a second load within `age` seconds is a hit on
   * what was stored; once `age` seconds have passed the URL is downloaded
   * again.
   */
  lemma ReloadWithinMaxAge(files: map<string, CacheFile>, url: string, age: int, t1: int, t2: int, p: Platform)
    requires Base64RoundTrips(p)
    requires Lookup(files, CacheKey(p, url), age, t1, p.decode).None?
    requires p.fetch(url).Some?
    ensures var after := Load(files, url, age, t1, p).files;
      Load(after, url, age, t2, p) ==
        if t1 + age > t2 then Cached(Ok(p.fetch(url).value), after)
        else Load(after - {CacheKey(p, url)}, url, age, t2, p)
  {
    var key := CacheKey(p, url);
    var text := p.fetch(url).value;
    var after := Load(files, url, age, t1, p).files;
    assert after[key] == Document(CacheDocument(t1, url, p.encode(text)));
    assert p.decode(p.encode(text)) == Some(text);
    assert Value(CacheDocument(t1, url, p.encode(text)), [Key("cTime")]) == JInt(t1);
    assert Value(CacheDocument(t1, url, p.encode(text)), [Key("data")]) == JStr(p.encode(text));
    if t1 + age <= t2 {
      UnusableEntryIsMiss(after, url, age, t2, p);
      var doc := Document(CacheDocument(t2, url, p.encode(text)));
      assert after[key := doc] == (after - {key})[key := doc];
    }
  }
}
