# Sportschau add-on: verified model of the data layer and the listing logic

This project models the core of the Kodi add-on `plugin.video.sportschauApp` in Dafny:

- **The data provider `DpSportschau`** (`resources/lib/dpSportschau.py`):
  - the on-disk response cache `_loadUrl`;
  - the stream choice `_extractVideo`;
  - the record builders `_processItem`, `_processSubcategory`, `_processTeaser` and `_processTopMediaType`;
  - the teaser walk `_processItemsTeasters`, which carries group titles forward;
  - the page operations `getRoot`, `getSub` and `getPage`.
- **The entry point `Main`** (`resources/lib/main.py`):
  - the de-duplication `_uniqueEntries`;
  - the listing loops `genMenu` and `genSub`;
  - the mode dispatch in `run`.

The JSON documents the add-on reads are a `Json` datatype. The path lookup the code uses everywhere is a soft lookup, `JsonTree.Value`: a missing or mismatched step reads as `None`. The add-on's collaborators are function-valued fields of `Services.Platform`:
- MD5 digest, Base64 encode and decode, `json.loads`;
- the HTTP download;
- the XML reading of an item feed;
- the timestamp parser.

The Base64 round trip is the predicate `Services.Base64RoundTrips`. Lemmas take it as a hypothesis where they need it.

The state is modelled as classes, the way the code changes it:
- `Sportschau.DataDirectory` holds the cache files as a map from path to file.
- `Sportschau.DpSportschau` holds the directory and the platform. Its methods follow the source loop by loop and update the directory in place.
- `Addon.KodiUi` records the calls made on the Kodi list.
- `Addon.Main` holds the list, the provider and the plugin parameters.

Each method is proved equal to a function of the state before the call:
- `ResponseCache.Load`
- `StreamSelector.PickStream`
- `Records.InlineMedia`
- `Teasers.DeferredMedia`
- `Teasers.ItemsTeasers`
- `Sportschau.RootSpec`, `SubSpec` and `PageSpec`
- `Addon.UniqueByName`, `MenuListing`, `SubListing` and `RunOutcome`

What the source promises is proved about those functions as lemmas. A Python exception is an `Err` value. Whatever the code did before raising (a cache file written, list entries added) stays in the state.

Two behaviours of the code are worth stating on their own:
- **Cache freshness.** A cache entry is used only while `cTime + age > now`, strictly. An entry is already stale at `now == cTime + age`, and the URL is downloaded again (`dpSportschau.py:40`).
- **Teaser exceptions.** The per-teaser `except Exception` in `_processItemsTeasters` catches every failure of one teaser (`dpSportschau.py:205-215`). That includes a failed download in the deferred branch: such a teaser is dropped with the others that fail, and the walk goes on. Aborts are not modelled (see below).

## Model

| member | source | states |
|---|---|---|
| ResponseCache.Load | resources/lib/dpSportschau.py:33-51 | `_loadUrl` changes at most the entry of the requested URL; every other cache file is kept as it was |
| Sportschau.DpSportschau.LoadUrl | resources/lib/dpSportschau.py:33-51 | the method returns the text and leaves the cache files exactly as `Load` of the old files gives them |
| ResponseCache.FreshnessIsStrict | resources/lib/dpSportschau.py:40-42 | a well-formed entry is returned exactly while `cTime + age > now`; at `now == cTime + age` it is stale |
| ResponseCache.HitNeedsNoDownload | resources/lib/dpSportschau.py:36-42 | on a hit the stored text is returned, no file changes, and the result does not depend on the downloader |
| ResponseCache.UnusableEntryIsMiss | resources/lib/dpSportschau.py:36-45 | an unreadable, malformed or stale entry (no object, no numeric `cTime`, bad `data`) behaves exactly like no entry |
| ResponseCache.MissStoresDownload | resources/lib/dpSportschau.py:46-51 | on a miss the entry is overwritten with `cTime = now`, the URL and the encoded text, and with a Base64 round trip the downloaded text is returned |
| ResponseCache.FailedDownloadWritesNothing | resources/lib/dpSportschau.py:46-48 | a failed download on a miss raises and writes no file |
| ResponseCache.DistinctDigestsDistinctFiles | resources/lib/dpSportschau.py:35 | URLs with different digests have different cache files, so loading one never touches the other's entry |
| ResponseCache.ReloadWithinMaxAge | resources/lib/dpSportschau.py:33-51 | after a download at t1, a load at t2 is a hit on the stored text if `t1 + age > t2`, and otherwise a fresh download |
| Sportschau.DpSportschau.ExtractVideo | resources/lib/dpSportschau.py:218-229 | the loop over `streams[0].media` and the sort give the URL of the first media entry; IndexError on an empty list, TypeError when there is no list |
| StreamSelector.PickStreamIsFirstMedia | resources/lib/dpSportschau.py:219-227 | `_extractVideo` returns `url` of element 0 of `streams[0].media`, because all sort keys are equal and the sort is stable |
| StreamSelector.ResolutionIsIgnored | resources/lib/dpSportschau.py:220-227 | of a 480 px and a 720 px variant listed in that order, the 480 px one is chosen: the resolution plays no part |
| StreamSelector.SortByIsPermutation | resources/lib/dpSportschau.py:226 | `sorted` returns a permutation of its input |
| StreamSelector.InsertIsPermutation | resources/lib/dpSportschau.py:226 | one insertion step of the sort adds exactly the inserted element |
| StreamSelector.SortByKeepsLength | resources/lib/dpSportschau.py:226 | `sorted` keeps the number of variants |
| StreamSelector.SortByEqualKeysIsIdentity | resources/lib/dpSportschau.py:226 | a stable sort of elements with equal keys returns them in their original order |
| StreamSelector.TupleLessIrreflexive | resources/lib/dpSportschau.py:226 | Python tuple `<` on the key tuples is irreflexive, so equal keys never reorder |
| Records.ProcessItemReadsTarget | resources/lib/dpSportschau.py:74-84 | a root-menu record takes its 'type' and 'href' from the item's `_links.target` |
| Sportschau.DpSportschau.ProcessTeaser | resources/lib/dpSportschau.py:117-132 | the method builds the same record, or raises the same exception, as `InlineMedia` |
| Records.InlineMediaFields | resources/lib/dpSportschau.py:117-132 | an inline teaser gives a record exactly when its media collection parses, `pubDate` is a number, `int()` takes the duration and a stream exists; then href is the first media URL, pubDate is `pubDate/1000`, name is the title |
| Sportschau.DpSportschau.ProcessTopMediaType | resources/lib/dpSportschau.py:134-163 | the deferred branch downloads `app.avlink` through the cache and gives the record and the cache files that `DeferredMedia` gives; a link that is not a string raises AttributeError and touches no file |
| Records.FeedMediaFields | resources/lib/dpSportschau.py:148-161 | a feed item gives a record exactly when its collection parses, `app:stand` parses, the duration converts and a stream exists; pubDate and date are the epoch |
| PyInt.ParseDecimalRoundTrip | resources/lib/dpSportschau.py:123 | `int()` of the decimal rendering of any integer gives that integer back |
| PyInt.ToIntOfDecimal | resources/lib/dpSportschau.py:154 | `int()` accepts every integer-valued JSON value and the decimal rendering of every integer |
| PyInt.ToIntOfDigits | resources/lib/dpSportschau.py:154 | `int()` accepts every string made of an optional sign and a non-empty run of ASCII digits, leading zeros included, and gives the digits' value, negated after '-' |
| PyInt.LeadingZeros | resources/lib/dpSportschau.py:154 | `int("07") == 7` and `int("-007") == -7` |
| PyInt.ParseDecimalRejectsEmpty | resources/lib/dpSportschau.py:123 | `int()` rejects the empty string, "-" and "+" |
| PyInt.ParseDecimalRejects | resources/lib/dpSportschau.py:123 | `int()` rejects a string with a non-digit after the optional sign |
| JsonTree.ExtractAppend | resources/lib/dpSportschau.py:97 | a lookup along a joined path is a lookup along the first part and then the second; absence on the first part is absence |
| JsonTree.ValueAppend | resources/lib/dpSportschau.py:108-112 | reading a field of `_links.target` is reading the joined path, for present and absent targets alike |
| JsonTree.TruthyValueIsPresent | resources/lib/dpSportschau.py:63 | a truthy lookup result was present in the document |
| JsonTree.ShapeMismatchIsAbsent | resources/lib/dpSportschau.py:64 | indexing into a value that is not a list reads as absent, not as an error |
| Sportschau.DpSportschau.ProcessItemsTeasers | resources/lib/dpSportschau.py:189-216 | the nested loops give the records and cache files of `ItemsTeasers`, or the TypeError of a group whose teasers cannot be iterated |
| Sportschau.DpSportschau.ProcessGroup | resources/lib/dpSportschau.py:198-215 | the inner loop continues the walk over the group's teasers, in order, each with the group's topTitle |
| Sportschau.DpSportschau.ProcessSlot | resources/lib/dpSportschau.py:201-215 | one pass of the inner loop appends what `TeaserStep` appends and leaves the cache files as it leaves them |
| Teasers.ScheduleCarriesLastTitle | resources/lib/dpSportschau.py:191-198 | every teaser carries the title of the last group so far with a truthy title (None before any), and teasers come group by group in order |
| Teasers.ScheduleEndsWithLastTitle | resources/lib/dpSportschau.py:191-196 | after the groups, topTitle is the title of the last group with a truthy title, or None |
| Teasers.ScheduleSlotTitles | resources/lib/dpSportschau.py:196-208 | each teaser of group g is processed with the last truthy title of the groups up to g |
| Teasers.ScheduleGroupOrder | resources/lib/dpSportschau.py:194-200 | the teasers are processed group by group, in the order of the groups |
| Teasers.ScheduleStep | resources/lib/dpSportschau.py:194-200 | one group keeps the teasers before it and gives its own teasers its number and the carried title; after a failure nothing changes |
| Teasers.CarryExtendsLastTitle | resources/lib/dpSportschau.py:196 | `title or topTitle` keeps "last truthy title so far" true after one more group |
| Teasers.ClassificationPriority | resources/lib/dpSportschau.py:201-213 | `dokumenttyp` or `mediaCategory` 'video' takes the inline branch even when `topMediaType` is 'video'; otherwise `topMediaType` 'video' takes the deferred branch; otherwise nothing; a failing branch adds no record |
| Teasers.WalkSlotsAppends | resources/lib/dpSportschau.py:200-215 | the walk only appends: at most one record per teaser, each a playable record carrying the topTitle of a teaser it reached |
| Teasers.WalkSlotsOwnTitles | resources/lib/dpSportschau.py:200-215 | over the whole walk, the records come from distinct teasers in teaser order (a strictly increasing map into the teasers), and each is a playable record with its own teaser's topTitle |
| Teasers.WalkSlotsExtends | resources/lib/dpSportschau.py:200-215 | processing more teasers extends, never rewrites, the records of every earlier point of the walk |
| Teasers.TeaserStepAppends | resources/lib/dpSportschau.py:205-215 | one teaser adds no record or exactly one playable record with the current topTitle |
| Teasers.ScheduleFailureSticks | resources/lib/dpSportschau.py:194-200 | once a group's teasers cannot be iterated, later groups are not looked at |
| Teasers.NoItemsNoRecords | resources/lib/dpSportschau.py:190-192 | absent, None or empty `items` give no records and touch no cache file |
| Sportschau.DpSportschau.GetRoot | resources/lib/dpSportschau.py:53-71 | `getRoot` returns the records and leaves the cache files that `RootSpec` gives |
| Sportschau.RootOnePerCategoryItem | resources/lib/dpSportschau.py:61-66 | `getRoot` returns one record per item of `items[1].items`, in order, with name, type and href from the item and its `_links.target` |
| Sportschau.RootWithoutCategories | resources/lib/dpSportschau.py:61-66 | a falsy root `items` gives no categories, and a non-iterable `items[1].items` raises TypeError; either way only the menu load changed the cache |
| Sportschau.DpSportschau.GetSub | resources/lib/dpSportschau.py:86-106 | `getSub` returns the records and leaves the cache files that `SubSpec` gives |
| Sportschau.SubCategoriesThenTeasers | resources/lib/dpSportschau.py:94-100 | `getSub` returns one 'C' record per `subCategories` entry, in order, with name and href from `_links.target`, followed by the teaser records, for a page whose `subCategories` is a list or is falsy (then only the teaser records); with the files of the teaser walk, and it fails exactly when the walk does |
| Sportschau.SubCategoriesNotIterable | resources/lib/dpSportschau.py:95-96 | a truthy `subCategories` that cannot be iterated makes `getSub` raise TypeError with only the page load's cache effects |
| Sportschau.DpSportschau.GetPage | resources/lib/dpSportschau.py:165-187 | `getPage` returns the records and leaves the cache files that `PageSpec` gives |
| Sportschau.PageFollowsNewsLink | resources/lib/dpSportschau.py:172-180 | when the page links a news menu, `getPage` returns the teasers of that menu, loaded after the page itself |
| Sportschau.PageWithoutNewsLink | resources/lib/dpSportschau.py:172-180 | without a news link `getPage` walks the page's own `items`; a truthy news link that is not a string raises AttributeError with only the page load's cache effects |
| Addon.Main.UniqueEntries | resources/lib/main.py:103-110 | the dictionary loop returns `UniqueByName` of its input: first occurrences per name, or TypeError on an unhashable name |
| Addon.UniqueByNameKeepsFirsts | resources/lib/main.py:103-110 | the result fails exactly on an unhashable name; otherwise it is the first occurrence of each name in input order, names are pairwise distinct, and every input name is kept |
| Dedup.UniqueKeysDistinct | resources/lib/main.py:105-109 | the kept items have pairwise distinct names |
| Dedup.UniqueIsFirstOccurrences | resources/lib/main.py:105-109 | the kept items are exactly the input items that are the first of their name, in input order (a subsequence) |
| Dedup.UniqueKeepsEveryKey | resources/lib/main.py:103-110 | every name of the input is kept, and only input items are kept |
| Dedup.UniqueOfDistinct | resources/lib/main.py:107-108 | input with distinct names passes through unchanged |
| Dedup.UniqueIdempotent | resources/lib/main.py:103-110 | de-duplicating twice is de-duplicating once |
| Dedup.UniqueExample | resources/lib/main.py:103-110 | names X, Y, X, Z are listed as X, Y, Z |
| Dedup.SeenIffNotFirst | resources/lib/main.py:107 | a name is already in the dictionary exactly when an earlier item had it |
| Addon.Main.GenMenu | resources/lib/main.py:47-61 | the calls made on the list and the exception raised are those of `MenuListing` |
| Addon.MenuListingShape | resources/lib/main.py:48-61 | `genMenu` succeeds exactly when every href is a string, and then adds one folder per element, in order, titled by name and linking to mode 'A' with the encoded href, then renders |
| Addon.EmitCalls | resources/lib/main.py:65-88 | a listing loop makes one call per element in order, or the calls of the elements before the first failing one and raises that one's exception |
| Addon.EmitStaysFailed | resources/lib/main.py:65-88 | after an exception no later element adds a call |
| Addon.DisplayNameRule | resources/lib/main.py:68-70 | the title is `"(" + topTitle + ") " + name` exactly for a record with a topTitle that is not None (TypeError unless both are strings), and the bare name otherwise |
| Addon.Main.GenSub | resources/lib/main.py:63-94 | the calls made on the list and the exception raised are those of `SubListing` |
| Addon.Main.ListEntries | resources/lib/main.py:65-94 | the loop over the de-duplicated records and `render` make the calls of `Emit` with `SubCall`, closed by render when no record raised |
| Addon.Main.AddEntry | resources/lib/main.py:66-88 | one loop pass adds exactly the call `SubCall` gives, or adds nothing and raises its exception |
| Addon.SubListingShape | resources/lib/main.py:63-94 | on success one entry per de-duplicated record, in order, then render; a playable item with href unchanged exactly for type 'P', and a mode 'B' folder with the encoded href otherwise; no two entries share a name |
| Addon.Main.Run | resources/lib/main.py:27-42 | the calls, the exception and the cache files after `run` are those of `RunOutcome` |
| Addon.RunDispatch | resources/lib/main.py:32-39 | mode 'A' shows `getSub` and mode 'B' shows `getPage` of the decoded `urlB64`; without a decodable `urlB64` nothing is loaded |
| Addon.OtherModesShowRoot | resources/lib/main.py:40-42 | any other or missing mode shows `getRoot` through `genMenu` |
| Addon.MenuFolderOpensSub | resources/lib/main.py:52-58 | opening a folder made by `genMenu` runs `getSub` on that element's href |
| Addon.CategoryFolderOpensPage | resources/lib/main.py:81-88 | opening a category folder made by `genSub` runs `getPage` on that record's href |

## Left out

- `resources/lib/utils.py` is not part of this model. Its functions are modelled as follows:
  - `extractJsonValue` is taken to be a soft path lookup (`JsonTree.Value`). This is an assumption, not a proven fact.
  - `b64encode` and `b64decode` are the platform's encode and decode.
  - `build_url` is the record `Addon.PluginUrl`.
  - `epoch_from_timestamp` is the platform's `epochOf`.
  - `file_exists`, `loadJson` and `saveJson` are the map of cache files.
  - `saveJson` is taken to succeed, and a saved document reads back unchanged.
  - `b64encode` and `b64decode` of a value that is not a string are taken to raise TypeError.
- Network, progress dialog, abort hook and logging are not modelled. The download is a function of the URL: a failed download, including a UTF-8 decoding error, is `FetchError`. The fields `kodiPG`, `abortHook`, `starttime`, `logger` and `settings` are left out.
- Time: each operation takes one `now`. The code reads the clock separately for the freshness test and for the stored `cTime`.
- Sportschau.DpSportschau.ProcessTopMediaType: the XML reading is the opaque `readFeedItem`. Any failure there is one `XmlError`. This covers:
  - a parse error;
  - a missing element whose `.text` is read, including the debug log lines;
  - the `description` fallback. That fallback tests Element truthiness, which depends on the number of children, not on presence. Which description is picked is not modelled.
- JSON numbers are integers only; floating-point values are not modelled. `pubDate / 1000` is a `real` with no rounding.
- JsonTree.Elements: iterating a JSON object is modelled as a TypeError. Python would iterate the object's keys, so for an object these loops raise where the code would walk the keys.
- PyInt.ToInt: Python's `int()` also accepts surrounding whitespace, digit-group underscores and the decimal digits of other scripts (Unicode category Nd). These are not modelled: digits are ASCII only, so such strings are rejected.
- Addon.UniqueByName: names are dictionary keys. Lists and objects raise TypeError, and True/False coincide with 1/0. Floats do not occur.
- StreamSelector.SortBy: Python's sort is modelled as a stable insertion sort under the same order. With the key tuples of `_extractVideo` all equal, it gives the same result.
- Addon.KodiUi: the Kodi list only records calls; no Kodi behaviour is modelled. `run` is given its parameters as a map of strings.
