/**
 * The stream choice of `_extractVideo`: the media variants of the first
 * stream are sorted by the tuple of their own key names and the URL of the
 * first one is taken. Every variant has the same keys, so the stable sort
 * keeps the list as it is and the first variant wins.
 */
module StreamSelector {
  import opened Wrappers
  import opened JsonTree

  /** One entry of `byResolution`: the dict with keys 'px' and 'url'. */
  datatype Variant = Variant(px: Json, url: Json)

  /** The sort key, `tuple(sorted(v.keys()))`: the same two names for every variant. */
  function KeyTuple(v: Variant): seq<string> {
    ["px", "url"]
  }

  /** Python's `<` on strings: lexicographic by code point, a proper prefix first. */
  predicate StrLess(a: string, b: string)
    decreases |a|
  {
    if a == [] then b != []
    else if b == [] then false
    else if a[0] != b[0] then a[0] < b[0]
    else StrLess(a[1..], b[1..])
  }

  /** Python's `<` on tuples of strings. */
  predicate TupleLess(a: seq<string>, b: seq<string>)
    decreases |a|
  {
    if a == [] then b != []
    else if b == [] then false
    else if a[0] != b[0] then StrLess(a[0], b[0])
    else TupleLess(a[1..], b[1..])
  }

  /** Inserts `x` into a sorted list behind every element whose key is not greater than its own. */
  function Insert<T>(sorted: seq<T>, x: T, key: T -> seq<string>): seq<T>
    decreases |sorted|
  {
    if sorted == [] || !TupleLess(key(x), key(sorted[|sorted| - 1])) then sorted + [x]
    else Insert(sorted[..|sorted| - 1], x, key) + [sorted[|sorted| - 1]]
  }

  /** `sorted(s, key=key)`, as a stable insertion sort. */
  function SortBy<T>(s: seq<T>, key: T -> seq<string>): seq<T>
    decreases |s|
  {
    if s == [] then [] else Insert(SortBy(s[..|s| - 1], key), s[|s| - 1], key)
  }

  /** The media list of the first stream: `streams[0].media`. */
  function MediaList(collection: Json): Json {
    Value(collection, [Key("streams"), Index(0), Key("media")])
  }

  /** One loop step of `_extractVideo`: the resolution and the URL of a media entry. */
  function ToVariant(m: Json): Variant {
    Variant(Value(m, [Key("maxHResolutionPx")]), Value(m, [Key("url")]))
  }

  function Variants(ms: seq<Json>): seq<Variant> {
    seq(|ms|, i requires 0 <= i < |ms| => ToVariant(ms[i]))
  }

  /**
   * What `_extractVideo` returns for a decoded player media collection:
   * TypeError when the media list cannot be iterated, IndexError when it is
   * empty, else the URL of the first variant after sorting.
   */
  function PickStream(collection: Json): Result<Json> {
    match Elements(MediaList(collection))
    case None => Err(TypeError)
    case Some(ms) =>
      var sortedUrls := SortBy(Variants(ms), KeyTuple);
      if sortedUrls == [] then Err(IndexError) else Ok(sortedUrls[0].url)
  }

  lemma {:induction false} StrLessIrreflexive(a: string)
    ensures !StrLess(a, a)
    decreases |a|
  {
    if a != [] {
      StrLessIrreflexive(a[1..]);
    }
  }

  /** No key tuple is less than itself, so equal keys never reorder. */
  lemma {:induction false} TupleLessIrreflexive(a: seq<string>)
    ensures !TupleLess(a, a)
    decreases |a|
  {
    if a != [] {
      TupleLessIrreflexive(a[1..]);
    }
  }

  /** Sorting is a permutation: it keeps every element as often as it occurs. */
  lemma {:induction false} InsertIsPermutation<T>(sorted: seq<T>, x: T, key: T -> seq<string>)
    ensures multiset(Insert(sorted, x, key)) == multiset(sorted) + multiset{x}
    decreases |sorted|
  {
    if sorted != [] && TupleLess(key(x), key(sorted[|sorted| - 1])) {
      var init, last := sorted[..|sorted| - 1], sorted[|sorted| - 1];
      InsertIsPermutation(init, x, key);
      assert sorted == init + [last];
    }
  }

  lemma {:induction false} SortByIsPermutation<T>(s: seq<T>, key: T -> seq<string>)
    ensures multiset(SortBy(s, key)) == multiset(s)
    decreases |s|
  {
    if s != [] {
      SortByIsPermutation(s[..|s| - 1], key);
      InsertIsPermutation(SortBy(s[..|s| - 1], key), s[|s| - 1], key);
      assert s == s[..|s| - 1] + [s[|s| - 1]];
    }
  }

  lemma {:induction false} SortByKeepsLength<T>(s: seq<T>, key: T -> seq<string>)
    ensures |SortBy(s, key)| == |s|
  {
    SortByIsPermutation(s, key);
    assert |multiset(SortBy(s, key))| == |multiset(s)|;
  }

  /** A stable sort of elements that all have the same key returns them in their original order. */
  lemma {:induction false} SortByEqualKeysIsIdentity<T>(s: seq<T>, key: T -> seq<string>, k: seq<string>)
    requires forall i :: 0 <= i < |s| ==> key(s[i]) == k
    ensures SortBy(s, key) == s
    decreases |s|
  {
    if s != [] {
      var init := s[..|s| - 1];
      SortByEqualKeysIsIdentity(init, key, k);
      TupleLessIrreflexive(k);
      if init != [] {
        assert key(init[|init| - 1]) == k;
      }
      assert s == init + [s[|s| - 1]];
    }
  }

  /**
   * `_extractVideo` returns the URL of element 0 of `streams[0].media`: the
   * sort by key names never reorders. It raises IndexError for an empty media
   * list and TypeError when there is no list to iterate.
   */
  lemma PickStreamIsFirstMedia(collection: Json)
    ensures var e := Elements(MediaList(collection));
      PickStream(collection) ==
        if e.None? then Err(TypeError)
        else if e.value == [] then Err(IndexError)
        else Ok(Value(e.value[0], [Key("url")]))
  {
    match Elements(MediaList(collection))
    case None =>
    case Some(ms) =>
      SortByEqualKeysIsIdentity(Variants(ms), KeyTuple, ["px", "url"]);
  }

  /** The resolution plays no part: of a 480 and a 720 variant, listed in that order, the 480 one is chosen. */
  lemma ResolutionIsIgnored()
    ensures var low := JObj(map["maxHResolutionPx" := JInt(480), "url" := JStr("b")]);
      var high := JObj(map["maxHResolutionPx" := JInt(720), "url" := JStr("a")]);
      var media := JObj(map["media" := JArr([low, high])]);
      PickStream(JObj(map["streams" := JArr([media])])) == Ok(JStr("b"))
  {
    var low := JObj(map["maxHResolutionPx" := JInt(480), "url" := JStr("b")]);
    var high := JObj(map["maxHResolutionPx" := JInt(720), "url" := JStr("a")]);
    var media := JObj(map["media" := JArr([low, high])]);
    var c := JObj(map["streams" := JArr([media])]);
    assert Extract(c, [Key("streams"), Index(0), Key("media")]) == Some(JArr([low, high]));
    PickStreamIsFirstMedia(c);
  }
}
