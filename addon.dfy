/**
 * The add-on entry point `Main`: `run` picks the page by the `mode`
 * parameter, `genMenu` lists the root categories as folders and `genSub`
 * lists a page's records, without repeated names, as folders and playable
 * items. The Kodi list is a recorder of the calls made on it.
 */
module Addon {
  import opened Wrappers
  import opened JsonTree
  import opened Services
  import opened ResponseCache
  import opened Records
  import opened Sportschau
  import opened Dedup

  /** A plugin URL as `build_url({'mode': …, 'urlB64': …})` makes it. */
  datatype PluginUrl = PluginUrl(mode: string, urlB64: string)

  /** A call on the Kodi list. */
  datatype UiCall =
    | DirectoryItem(title: Json, url: PluginUrl)
    | ListItem(title: Json, href: Json, plot: Json, icon: Json, aired: real, duration: int)
    | Render

  /** The calls made on the list, and the exception that ended the listing, if one did. */
  datatype Listing = Listing(calls: seq<UiCall>, failure: Option<Error>)

  /** The listing and the cache files after a run. */
  datatype Outcome = Outcome(listing: Listing, files: map<string, CacheFile>)

  /** Which data operation `run` calls. */
  datatype Route = RootMenu | SubMenu | PageMenu

  // ---------------------------------------------------------------------
  // `_uniqueEntries`
  // ---------------------------------------------------------------------

  /** A dictionary key: lists and dicts are unhashable. */
  predicate Hashable(j: Json) {
    !j.JArr? && !j.JObj?
  }

  /** The dictionary's notion of the same key: True and 1, False and 0 coincide. */
  function DictKey(j: Json): Json {
    match j
    case JBool(b) => JInt(if b then 1 else 0)
    case _ => j
  }

  function NameKey(e: Entry): Json {
    DictKey(NameOf(e))
  }

  /** `_uniqueEntries(entries)` with the default attribute 'name'. */
  function UniqueByName(entries: seq<Entry>): Result<seq<Entry>> {
    if exists i :: 0 <= i < |entries| && !Hashable(NameOf(entries[i])) then Err(TypeError)
    else Ok(Unique(entries, NameKey))
  }

  /**
   * `_uniqueEntries` keeps, in input order, exactly the first entry of each
   * name; no two kept entries share a name and every name of the input is
   * kept. It fails only on a name that cannot be a dictionary key.
   */
  lemma UniqueByNameKeepsFirsts(entries: seq<Entry>)
    ensures UniqueByName(entries).Err? <==> exists i :: 0 <= i < |entries| && !Hashable(NameOf(entries[i]))
    ensures UniqueByName(entries).Ok? ==>
      var u := UniqueByName(entries).value;
      && u == FirstOccurrences(entries, NameKey, |entries|)
      && DistinctKeys(u, NameKey)
      && (forall e :: e in entries ==> NameKey(e) in KeysOf(u, NameKey))
  {
    if UniqueByName(entries).Ok? {
      assert entries[..|entries|] == entries;
      UniqueIsFirstOccurrences(entries, NameKey, |entries|);
      UniqueKeysDistinct(entries, NameKey);
      forall e | e in entries
        ensures NameKey(e) in KeysOf(Unique(entries, NameKey), NameKey)
      {
        var i :| 0 <= i < |entries| && entries[i] == e;
        assert KeysOf(entries, NameKey)[i] == NameKey(e);
        KeptKey(entries, NameKey, NameKey(e));
      }
    }
  }

  // ---------------------------------------------------------------------
  // The list calls of `genMenu` and `genSub`
  // ---------------------------------------------------------------------

  /** The loop body of `genMenu`: a folder that opens `getSub` on the node's href. */
  function MenuCall(node: MenuNode, p: Platform): Result<UiCall> {
    if !node.href.JStr? then Err(TypeError)
    else Ok(DirectoryItem(node.name, PluginUrl("A", p.encode(node.href.s))))
  }

  /** The title `genSub` shows: the topTitle in parentheses before the name, when the record has one. */
  function DisplayName(e: Entry): Result<Json> {
    match e
    case Category(name, _) => Ok(name)
    case Playable(m, topTitle) =>
      if topTitle == JNull then Ok(m.name)
      else if topTitle.JStr? && m.name.JStr? then Ok(JStr("(" + topTitle.s + ") " + m.name.s))
      else Err(TypeError)
  }

  /** The loop body of `genSub`: a playable item for type 'P', otherwise a folder that opens `getPage`. */
  function SubCall(e: Entry, p: Platform): Result<UiCall> {
    var name :- DisplayName(e);
    if TypeCode(e) == "P" then
      Ok(ListItem(name, e.media.href, e.media.description, e.media.image, e.media.pubDate, e.media.duration))
    else if !e.href.JStr? then Err(TypeError)
    else Ok(DirectoryItem(name, PluginUrl("B", p.encode(e.href.s))))
  }

  /** The calls of a loop over `xs`, which stops at the first element whose call raises. */
  function Emit<T>(xs: seq<T>, call: (T, Platform) -> Result<UiCall>, p: Platform): Listing
    decreases |xs|
  {
    if xs == [] then Listing([], None)
    else
      var prev := Emit(xs[..|xs| - 1], call, p);
      if prev.failure.Some? then prev
      else match call(xs[|xs| - 1], p)
        case Err(e) => Listing(prev.calls, Some(e))
        case Ok(c) => Listing(prev.calls + [c], None)
  }

  /** `pUI.render()` after a loop that finished. */
  function Rendered(l: Listing): Listing {
    if l.failure.None? then Listing(l.calls + [Render], None) else l
  }

  /** `genMenu(pUI, nodes)`. */
  function MenuListing(nodes: seq<MenuNode>, p: Platform): Listing {
    Rendered(Emit(nodes, MenuCall, p))
  }

  /** `genSub(pUI, entries)`. */
  function SubListing(entries: seq<Entry>, p: Platform): Listing {
    match UniqueByName(entries)
    case Err(e) => Listing([], Some(e))
    case Ok(u) => Rendered(Emit(u, SubCall, p))
  }

  /**
   * The loop makes one call per element, in order, when every element's
   * call succeeds; otherwise it makes the calls of the elements before the
   * first failing one and reports that element's exception.
   */
  lemma {:induction false} EmitCalls<T>(xs: seq<T>, call: (T, Platform) -> Result<UiCall>, p: Platform)
    ensures var l := Emit(xs, call, p);
      && (l.failure.None? <==> forall i :: 0 <= i < |xs| ==> call(xs[i], p).Ok?)
      && (l.failure.None? ==> |l.calls| == |xs| && forall i :: 0 <= i < |xs| ==> l.calls[i] == call(xs[i], p).value)
      && (l.failure.Some? ==>
            exists k :: 0 <= k < |xs| && call(xs[k], p) == Err(l.failure.value) && |l.calls| == k &&
              forall i :: 0 <= i < k ==> call(xs[i], p).Ok? && l.calls[i] == call(xs[i], p).value)
    decreases |xs|
  {
    if xs != [] {
      var n := |xs| - 1;
      var init := xs[..n];
      EmitCalls(init, call, p);
      var prev := Emit(init, call, p);
      if prev.failure.Some? {
        var k :| 0 <= k < |init| && call(init[k], p) == Err(prev.failure.value) && |prev.calls| == k &&
          forall i :: 0 <= i < k ==> call(init[i], p).Ok? && prev.calls[i] == call(init[i], p).value;
        assert call(xs[k], p) == Err(prev.failure.value);
        assert forall i :: 0 <= i < k ==> xs[i] == init[i];
      } else {
        assert forall i :: 0 <= i < n ==> xs[i] == init[i];
        if call(xs[n], p).Err? {
          assert call(xs[n], p) == Err(Emit(xs, call, p).failure.value);
        }
      }
    }
  }

  /**
   * `genMenu` succeeds exactly when every node's href is a string; it then
   * adds one folder per node, in order, titled with the node's name and
   * linking to mode 'A' with the href encoded, and renders the list.
   */
  lemma MenuListingShape(nodes: seq<MenuNode>, p: Platform)
    ensures MenuListing(nodes, p).failure.None? <==> forall i :: 0 <= i < |nodes| ==> nodes[i].href.JStr?
    ensures var l := MenuListing(nodes, p);
      l.failure.None? ==>
        && |l.calls| == |nodes| + 1
        && l.calls[|nodes|] == Render
        && forall i :: 0 <= i < |nodes| ==>
             l.calls[i] == DirectoryItem(nodes[i].name, PluginUrl("A", p.encode(nodes[i].href.s)))
  {
    EmitCalls(nodes, MenuCall, p);
  }

  /** The title rule of `genSub`, in both directions. */
  lemma DisplayNameRule(e: Entry)
    ensures e.Category? || e.topTitle == JNull ==> DisplayName(e) == Ok(NameOf(e))
    ensures e.Playable? && e.topTitle != JNull ==>
      (DisplayName(e).Ok? <==> e.topTitle.JStr? && e.media.name.JStr?)
    ensures e.Playable? && e.topTitle != JNull && DisplayName(e).Ok? ==>
      var t := DisplayName(e).value;
      && t.JStr?
      && |t.s| == |e.topTitle.s| + 3 + |e.media.name.s|
      && t.s[..|e.topTitle.s| + 1] == "(" + e.topTitle.s
      && t.s[|e.topTitle.s| + 1..|e.topTitle.s| + 3] == ") "
      && t.s[|e.topTitle.s| + 3..] == e.media.name.s
  {
    if e.Playable? && e.topTitle != JNull && DisplayName(e).Ok? {
      var s := "(" + e.topTitle.s + ") " + e.media.name.s;
      assert s[..|e.topTitle.s| + 1] == "(" + e.topTitle.s;
      assert s[|e.topTitle.s| + 1..|e.topTitle.s| + 3] == ") ";
      assert s[|e.topTitle.s| + 3..] == e.media.name.s;
    }
  }

  /**
   * When `genSub` succeeds it adds one list entry per record kept by
   * `_uniqueEntries`, in order, and renders: a playable item exactly for
   * the 'P' records, pointing at the record's stream, and a mode 'B'
   * folder for the others. No two entries come from records of the same name.
   */
  lemma SubListingShape(entries: seq<Entry>, p: Platform)
    ensures var l := SubListing(entries, p);
      l.failure.None? ==>
        var u := Unique(entries, NameKey);
        && UniqueByName(entries) == Ok(u)
        && DistinctKeys(u, NameKey)
        && |l.calls| == |u| + 1
        && l.calls[|u|] == Render
        && forall i :: 0 <= i < |u| ==>
             && DisplayName(u[i]).Ok?
             && (l.calls[i].ListItem? <==> TypeCode(u[i]) == "P")
             && (u[i].Playable? ==>
                   l.calls[i] == ListItem(DisplayName(u[i]).value, u[i].media.href, u[i].media.description,
                                          u[i].media.image, u[i].media.pubDate, u[i].media.duration))
             && (u[i].Category? ==>
                   u[i].href.JStr? && l.calls[i] == DirectoryItem(DisplayName(u[i]).value, PluginUrl("B", p.encode(u[i].href.s))))
  {
    if UniqueByName(entries).Ok? {
      var u := Unique(entries, NameKey);
      EmitCalls(u, SubCall, p);
      UniqueKeysDistinct(entries, NameKey);
    }
  }

  // ---------------------------------------------------------------------
  // `run`
  // ---------------------------------------------------------------------

  /** The `mode` parameter picks the data operation: 'A' a category, 'B' a page, anything else the root menu. */
  function RouteOf(mode: Option<string>): Route {
    if mode == Some("A") then SubMenu
    else if mode == Some("B") then PageMenu
    else RootMenu
  }

  function Parameter(params: map<string, string>, name: string): Option<string> {
    if name in params then Some(params[name]) else None
  }

  /** `b64decode(getParameters('urlB64'))`. */
  function TargetUrl(params: map<string, string>, p: Platform): Result<string> {
    match Parameter(params, "urlB64")
    case None => Err(TypeError)
    case Some(b) =>
      match p.decode(b)
      case None => Err(Base64Error)
      case Some(url) => Ok(url)
  }

  /** A data operation's result shown by `genSub`. */
  function ShowEntries(c: Cached<seq<Entry>>, p: Platform): Outcome {
    match c.value
    case Err(e) => Outcome(Listing([], Some(e)), c.files)
    case Ok(rs) => Outcome(SubListing(rs, p), c.files)
  }

  /** `run()`. */
  function RunOutcome(params: map<string, string>, files: map<string, CacheFile>, now: int, p: Platform): Outcome {
    var route := RouteOf(Parameter(params, "mode"));
    if route.RootMenu? then
      var c := RootSpec(files, now, p);
      match c.value
      case Err(e) => Outcome(Listing([], Some(e)), c.files)
      case Ok(nodes) => Outcome(MenuListing(nodes, p), c.files)
    else
      match TargetUrl(params, p)
      case Err(e) => Outcome(Listing([], Some(e)), files)
      case Ok(url) =>
        if route.SubMenu? then ShowEntries(SubSpec(files, url, now, p), p)
        else ShowEntries(PageSpec(files, url, now, p), p)
  }

  /** The parameters Kodi passes back when a folder with this URL is opened. */
  function ParametersOf(u: PluginUrl): map<string, string> {
    map["mode" := u.mode, "urlB64" := u.urlB64]
  }

  /** Opening a root-menu folder runs `getSub` on the node's href and shows its records. */
  lemma MenuFolderOpensSub(node: MenuNode, p: Platform, files: map<string, CacheFile>, now: int)
    requires Base64RoundTrips(p)
    requires MenuCall(node, p).Ok?
    ensures RunOutcome(ParametersOf(MenuCall(node, p).value.url), files, now, p)
         == ShowEntries(SubSpec(files, node.href.s, now, p), p)
  {
    assert p.decode(p.encode(node.href.s)) == Some(node.href.s);
  }

  /** Opening a category folder of a listing runs `getPage` on the record's href and shows its records. */
  lemma CategoryFolderOpensPage(e: Entry, p: Platform, files: map<string, CacheFile>, now: int)
    requires Base64RoundTrips(p)
    requires e.Category? && SubCall(e, p).Ok?
    ensures SubCall(e, p).value.DirectoryItem?
    ensures RunOutcome(ParametersOf(SubCall(e, p).value.url), files, now, p)
         == ShowEntries(PageSpec(files, e.href.s, now, p), p)
  {
    assert p.decode(p.encode(e.href.s)) == Some(e.href.s);
  }

  /** Mode 'A' shows `getSub` and mode 'B' shows `getPage` of the decoded `urlB64`; a missing or undecodable `urlB64` ends the run before any download. */
  lemma RunDispatch(params: map<string, string>, files: map<string, CacheFile>, now: int, p: Platform)
    requires Parameter(params, "mode") == Some("A") || Parameter(params, "mode") == Some("B")
    ensures TargetUrl(params, p).Err? ==>
      RunOutcome(params, files, now, p) == Outcome(Listing([], Some(TargetUrl(params, p).error)), files)
    ensures TargetUrl(params, p).Ok? && params["mode"] == "A" ==>
      RunOutcome(params, files, now, p) == ShowEntries(SubSpec(files, TargetUrl(params, p).value, now, p), p)
    ensures TargetUrl(params, p).Ok? && params["mode"] == "B" ==>
      RunOutcome(params, files, now, p) == ShowEntries(PageSpec(files, TargetUrl(params, p).value, now, p), p)
  {
  }

  /** Without mode 'A' or 'B' the run shows the root menu; no other parameter is read. */
  lemma OtherModesShowRoot(params: map<string, string>, files: map<string, CacheFile>, now: int, p: Platform)
    requires "mode" !in params || (params["mode"] != "A" && params["mode"] != "B")
    ensures var c := RootSpec(files, now, p);
      RunOutcome(params, files, now, p) ==
        if c.value.Ok? then Outcome(MenuListing(c.value.value, p), c.files)
        else Outcome(Listing([], Some(c.value.error)), c.files)
  {
  }

  // ---------------------------------------------------------------------
  // The classes
  // ---------------------------------------------------------------------

  /** The Kodi list of the current directory, recorded as the calls made on it. */
  class KodiUi {
    var calls: seq<UiCall>

    constructor ()
      ensures calls == []
    {
      calls := [];
    }

    method AddDirectoryItem(title: Json, url: PluginUrl)
      modifies this
      ensures calls == old(calls) + [DirectoryItem(title, url)]
    {
      calls := calls + [DirectoryItem(title, url)];
    }

    method AddListItem(title: Json, href: Json, plot: Json, icon: Json, aired: real, duration: int)
      modifies this
      ensures calls == old(calls) + [ListItem(title, href, plot, icon, aired, duration)]
    {
      calls := calls + [ListItem(title, href, plot, icon, aired, duration)];
    }

    method Render()
      modifies this
      ensures calls == old(calls) + [UiCall.Render]
    {
      calls := calls + [UiCall.Render];
    }
  }

  class Main {
    const ui: KodiUi
    const dps: DpSportschau
    const params: map<string, string>

    constructor (ui: KodiUi, dps: DpSportschau, params: map<string, string>)
      ensures this.ui == ui && this.dps == dps && this.params == params
    {
      this.ui := ui;
      this.dps := dps;
      this.params := params;
    }

    /** `_uniqueEntries(entries)`: a dictionary filled with first occurrences, read back in insertion order. */
    method UniqueEntries(entries: seq<Entry>) returns (r: Result<seq<Entry>>)
      ensures r == UniqueByName(entries)
    {
      var uniqueDict: map<Json, Entry> := map[];
      var order: seq<Json> := [];
      for i := 0 to |entries|
        invariant forall j :: 0 <= j < i ==> Hashable(NameOf(entries[j]))
        invariant order == KeysOf(Unique(entries[..i], NameKey), NameKey)
        invariant forall k :: k in uniqueDict <==> k in order
        invariant forall k :: 0 <= k < |order| ==> uniqueDict[order[k]] == Unique(entries[..i], NameKey)[k]
      {
        var item := entries[i];
        var name := NameOf(item);
        if !Hashable(name) {
          return Err(TypeError);
        }
        assert entries[..i + 1][..i] == entries[..i] && entries[..i + 1][i] == item;
        ghost var kept := Unique(entries[..i], NameKey);
        if DictKey(name) !in uniqueDict {
          KeysOfSnoc(kept, item, NameKey);
          uniqueDict := uniqueDict[DictKey(name) := item];
          order := order + [DictKey(name)];
        }
      }
      assert entries[..|entries|] == entries;
      var uniqueArray := seq(|order|, k requires 0 <= k < |order| => uniqueDict[order[k]]);
      assert uniqueArray == Unique(entries, NameKey);
      r := Ok(uniqueArray);
    }

    /** `genMenu(pUI, nodes)`; the exception that ends it, if any, is returned. */
    method GenMenu(nodes: seq<MenuNode>) returns (failure: Option<Error>)
      modifies ui
      ensures ui.calls == old(ui.calls) + MenuListing(nodes, dps.platform).calls
      ensures failure == MenuListing(nodes, dps.platform).failure
    {
      ghost var calls0 := ui.calls;
      for i := 0 to |nodes|
        invariant Emit(nodes[..i], MenuCall, dps.platform).failure == None
        invariant ui.calls == calls0 + Emit(nodes[..i], MenuCall, dps.platform).calls
      {
        assert nodes[..i + 1][..i] == nodes[..i];
        var element := nodes[i];
        if !element.href.JStr? {
          assert Emit(nodes[..i + 1], MenuCall, dps.platform).failure == Some(TypeError);
          EmitStaysFailed(nodes, MenuCall, dps.platform, i + 1);
          return Some(TypeError);
        }
        var targetUrl := PluginUrl("A", dps.platform.encode(element.href.s));
        ui.AddDirectoryItem(element.name, targetUrl);
      }
      assert nodes[..|nodes|] == nodes;
      ui.Render();
      failure := None;
    }

    /** `genSub(pUI, entries)`; the exception that ends it, if any, is returned. */
    method GenSub(entries: seq<Entry>) returns (failure: Option<Error>)
      modifies ui
      ensures ui.calls == old(ui.calls) + SubListing(entries, dps.platform).calls
      ensures failure == SubListing(entries, dps.platform).failure
    {
      var uData := UniqueEntries(entries);
      if uData.Err? {
        return Some(uData.error);
      }
      failure := ListEntries(uData.value);
    }

    /** The loop of `genSub` over the de-duplicated records, and `render`. */
    method ListEntries(u: seq<Entry>) returns (failure: Option<Error>)
      modifies ui
      ensures ui.calls == old(ui.calls) + Rendered(Emit(u, SubCall, dps.platform)).calls
      ensures failure == Rendered(Emit(u, SubCall, dps.platform)).failure
    {
      ghost var calls0 := ui.calls;
      for i := 0 to |u|
        invariant Emit(u[..i], SubCall, dps.platform).failure == None
        invariant ui.calls == calls0 + Emit(u[..i], SubCall, dps.platform).calls
      {
        assert u[..i + 1][..i] == u[..i];
        var err := AddEntry(u[i]);
        if err.Some? {
          EmitStaysFailed(u, SubCall, dps.platform, i + 1);
          return err;
        }
      }
      assert u[..|u|] == u;
      ui.Render();
      failure := None;
    }

    /** The loop body of `genSub`: the title, then a playable item or a folder. */
    method AddEntry(element: Entry) returns (failure: Option<Error>)
      modifies ui
      ensures SubCall(element, dps.platform).Err? ==>
        failure == Some(SubCall(element, dps.platform).error) && ui.calls == old(ui.calls)
      ensures SubCall(element, dps.platform).Ok? ==>
        failure == None && ui.calls == old(ui.calls) + [SubCall(element, dps.platform).value]
    {
      var name := NameOf(element);
      if element.Playable? && element.topTitle != JNull {
        if !(element.topTitle.JStr? && name.JStr?) {
          return Some(TypeError);
        }
        name := JStr("(" + element.topTitle.s + ") " + name.s);
      }
      if TypeCode(element) == "P" {
        ui.AddListItem(name, element.media.href, element.media.description, element.media.image,
                       element.media.pubDate, element.media.duration);
      } else {
        if !element.href.JStr? {
          return Some(TypeError);
        }
        var targetUrl := PluginUrl("B", dps.platform.encode(element.href.s));
        ui.AddDirectoryItem(name, targetUrl);
      }
      failure := None;
    }

    /** `run()` at time `now`. */
    method Run(now: int) returns (failure: Option<Error>)
      modifies ui, dps.dir
      ensures var o := RunOutcome(params, old(dps.dir.files), now, dps.platform);
        && ui.calls == old(ui.calls) + o.listing.calls
        && failure == o.listing.failure
        && dps.dir.files == o.files
    {
      var mode := Parameter(params, "mode");
      if mode == Some("A") || mode == Some("B") {
        var href := Parameter(params, "urlB64");
        if href.None? {
          return Some(TypeError);
        }
        var url := dps.platform.decode(href.value);
        if url.None? {
          return Some(Base64Error);
        }
        var data: Result<seq<Entry>>;
        if mode == Some("A") {
          data := dps.GetSub(url.value, now);
        } else {
          data := dps.GetPage(url.value, now);
        }
        if data.Err? {
          return Some(data.error);
        }
        failure := GenSub(data.value);
      } else {
        var data := dps.GetRoot(now);
        if data.Err? {
          return Some(data.error);
        }
        failure := GenMenu(data.value);
      }
    }
  }

  /** Once the loop has failed, later elements change nothing. */
  lemma {:induction false} EmitStaysFailed<T>(xs: seq<T>, call: (T, Platform) -> Result<UiCall>, p: Platform, n: nat)
    requires n <= |xs| && Emit(xs[..n], call, p).failure.Some?
    ensures Emit(xs, call, p) == Emit(xs[..n], call, p)
    decreases |xs| - n
  {
    if n < |xs| {
      assert xs[..n + 1][..n] == xs[..n];
      EmitStaysFailed(xs, call, p, n + 1);
    } else {
      assert xs[..n] == xs;
    }
  }
}
