/**
 * `_processItemsTeasers`: the walk over groups of teasers. It is given in
 * two parts. `ScheduleItems` is pure: it lists every teaser the loops reach,
 * with the group title in force at that point. `WalkSlots` then processes
 * those teasers in order, threading the cache files through the deferred
 * branch, which downloads an item feed.
 */
module Teasers {
  import opened Wrappers
  import opened JsonTree
  import opened Services
  import opened ResponseCache
  import opened Records

  /** A teaser reached by the loops: the number of its group, the teaser, and the current topTitle. */
  datatype Slot = Slot(group: nat, teaser: Json, topTitle: Json)

  /** The teasers reached so far, the current topTitle, and whether a group's teasers could not be iterated. */
  datatype Schedule = Schedule(slots: seq<Slot>, topTitle: Json, failed: bool)

  function GroupTitle(group: Json): Json {
    Value(group, [Key("title")])
  }

  /** `title or topTitle`. */
  function Carry(title: Json, previous: Json): Json {
    if Truthy(title) then title else previous
  }

  function GroupSlots(k: nat, teasers: seq<Json>, title: Json): seq<Slot> {
    seq(|teasers|, i requires 0 <= i < |teasers| => Slot(k, teasers[i], title))
  }

  /** One pass of the outer loop, over group number `k`. */
  function AddGroup(s: Schedule, k: nat, group: Json): Schedule {
    var title := Carry(GroupTitle(group), s.topTitle);
    var teasers := Value(group, [Key("teasers")]);
    if !Truthy(teasers) then Schedule(s.slots, title, false)
    else match Elements(teasers)
      case None => Schedule(s.slots, title, true)
      case Some(ts) => Schedule(s.slots + GroupSlots(k, ts, title), title, false)
  }

  /** The outer loop over `groups`, starting with topTitle None; it stops at the first failure. */
  function ScheduleGroups(groups: seq<Json>): Schedule
    decreases |groups|
  {
    if groups == [] then Schedule([], JNull, false)
    else
      var prev := ScheduleGroups(groups[..|groups| - 1]);
      if prev.failed then prev else AddGroup(prev, |groups| - 1, groups[|groups| - 1])
  }

  /** `if items:` and then the outer loop. */
  function ScheduleItems(items: Json): Schedule {
    if !Truthy(items) then Schedule([], JNull, false)
    else match Elements(items)
      case None => Schedule([], JNull, true)
      case Some(groups) => ScheduleGroups(groups)
  }

  /** `_processTopMediaType`: download the teaser's `app.avlink` feed through the cache and read the item from it. */
  function DeferredMedia(files: map<string, CacheFile>, teaser: Json, now: int, p: Platform): Cached<MediaRecord> {
    var avLink := Value(teaser, [Key("app"), Key("avlink")]);
    if !avLink.JStr? then Cached(Err(AttributeError), files)
    else
      var l := Load(files, avLink.s, DefaultMaxAge, now, p);
      match l.value
      case Err(e) => Cached(Err(e), l.files)
      case Ok(text) =>
        match p.readFeedItem(text)
        case None => Cached(Err(XmlError), l.files)
        case Some(feed) => Cached(FeedMedia(feed, p), l.files)
  }

  /** The records emitted so far and the cache files. */
  datatype Walk = Walk(records: seq<Entry>, files: map<string, CacheFile>)

  predicate IsVideo(v: Json) {
    v == JStr("video")
  }

  /** Whether the teaser takes the inline branch. */
  predicate InlineVideo(teaser: Json) {
    IsVideo(Value(teaser, [Key("dokumenttyp")])) || IsVideo(Value(teaser, [Key("mediaCategory")]))
  }

  /**
   * One pass of the inner loop: classify the teaser, build its record and
   * attach the topTitle. A branch that raises emits nothing; the cache
   * effects of a download made before the failure remain.
   */
  function TeaserStep(w: Walk, slot: Slot, now: int, p: Platform): Walk {
    var t := slot.teaser;
    if InlineVideo(t) then
      match InlineMedia(t, p)
      case Err(_) => w
      case Ok(m) => Walk(w.records + [Playable(m, slot.topTitle)], w.files)
    else if IsVideo(Value(t, [Key("topMediaType")])) then
      var d := DeferredMedia(w.files, t, now, p);
      match d.value
      case Err(_) => Walk(w.records, d.files)
      case Ok(m) => Walk(w.records + [Playable(m, slot.topTitle)], d.files)
    else w
  }

  /** The teasers processed in order, starting from the given files. */
  function WalkSlots(files: map<string, CacheFile>, slots: seq<Slot>, now: int, p: Platform): Walk
    decreases |slots|
  {
    if slots == [] then Walk([], files)
    else TeaserStep(WalkSlots(files, slots[..|slots| - 1], now, p), slots[|slots| - 1], now, p)
  }

  /** `_processItemsTeasers(items)`: the records, or the TypeError of a group whose teasers cannot be iterated. */
  function ItemsTeasers(items: Json, files: map<string, CacheFile>, now: int, p: Platform): Cached<seq<Entry>> {
    var s := ScheduleItems(items);
    var w := WalkSlots(files, s.slots, now, p);
    Cached(if s.failed then Err(TypeError) else Ok(w.records), w.files)
  }

  /**
   * `t` is the topTitle after the groups: the title of the last group whose
   * title is truthy, or None when there is none.
   */
  ghost predicate IsLastTitle(groups: seq<Json>, t: Json) {
    || (t == JNull && forall k :: 0 <= k < |groups| ==> !Truthy(GroupTitle(groups[k])))
    || (exists k :: 0 <= k < |groups| && Truthy(GroupTitle(groups[k])) && t == GroupTitle(groups[k]) &&
         forall j :: k < j < |groups| ==> !Truthy(GroupTitle(groups[j])))
  }

  lemma CarryExtendsLastTitle(groups: seq<Json>, t: Json)
    requires groups != []
    requires IsLastTitle(groups[..|groups| - 1], t)
    ensures IsLastTitle(groups, Carry(GroupTitle(groups[|groups| - 1]), t))
  {
    var n := |groups| - 1;
    var init := groups[..n];
    var c := Carry(GroupTitle(groups[n]), t);
    if Truthy(GroupTitle(groups[n])) {
      assert c == GroupTitle(groups[n]);
    } else if t == JNull && forall k :: 0 <= k < |init| ==> !Truthy(GroupTitle(init[k])) {
      forall k | 0 <= k < |groups|
        ensures !Truthy(GroupTitle(groups[k]))
      {
        if k < n {
          assert groups[k] == init[k];
        }
      }
    } else {
      var k :| 0 <= k < |init| && Truthy(GroupTitle(init[k])) && t == GroupTitle(init[k]) &&
               forall j :: k < j < |init| ==> !Truthy(GroupTitle(init[j]));
      assert groups[k] == init[k];
      forall j | k < j < |groups|
        ensures !Truthy(GroupTitle(groups[j]))
      {
        if j < n {
          assert groups[j] == init[j];
        }
      }
      assert c == GroupTitle(groups[k]);
    }
  }

  /** One pass of the outer loop keeps the earlier teasers and gives the new ones the group number and the carried title. */
  lemma ScheduleStep(groups: seq<Json>)
    requires groups != []
    ensures var n := |groups| - 1;
      var prev := ScheduleGroups(groups[..n]);
      var s := ScheduleGroups(groups);
      && (prev.failed ==> s == prev)
      && (!prev.failed ==> s.topTitle == Carry(GroupTitle(groups[n]), prev.topTitle))
      && |prev.slots| <= |s.slots|
      && s.slots[..|prev.slots|] == prev.slots
      && forall i :: |prev.slots| <= i < |s.slots| ==>
           s.slots[i].group == n && s.slots[i].topTitle == Carry(GroupTitle(groups[n]), prev.topTitle)
  {
    var n := |groups| - 1;
    var prev := ScheduleGroups(groups[..n]);
    if !prev.failed {
      assert ScheduleGroups(groups) == AddGroup(prev, n, groups[n]);
    }
  }

  /** After the outer loop, topTitle is the title of the last group with a truthy title, or None. */
  lemma {:induction false} ScheduleEndsWithLastTitle(groups: seq<Json>)
    ensures !ScheduleGroups(groups).failed ==> IsLastTitle(groups, ScheduleGroups(groups).topTitle)
    decreases |groups|
  {
    if groups != [] {
      var n := |groups| - 1;
      ScheduleEndsWithLastTitle(groups[..n]);
      ScheduleStep(groups);
      if !ScheduleGroups(groups[..n]).failed {
        CarryExtendsLastTitle(groups, ScheduleGroups(groups[..n]).topTitle);
      }
    }
  }

  /** Every teaser of group `g` carries the last truthy title of the groups up to `g`. */
  lemma {:induction false} ScheduleSlotTitles(groups: seq<Json>)
    ensures var s := ScheduleGroups(groups);
      forall i :: 0 <= i < |s.slots| ==>
        s.slots[i].group < |groups| && IsLastTitle(groups[..s.slots[i].group + 1], s.slots[i].topTitle)
    decreases |groups|
  {
    if groups != [] {
      var n := |groups| - 1;
      var init := groups[..n];
      ScheduleSlotTitles(init);
      ScheduleStep(groups);
      var prev := ScheduleGroups(init);
      var s := ScheduleGroups(groups);
      if !prev.failed {
        ScheduleEndsWithLastTitle(init);
        CarryExtendsLastTitle(groups, prev.topTitle);
      }
      assert groups[..n + 1] == groups;
      forall i | 0 <= i < |s.slots|
        ensures s.slots[i].group < |groups| && IsLastTitle(groups[..s.slots[i].group + 1], s.slots[i].topTitle)
      {
        if i < |prev.slots| {
          assert s.slots[i] == prev.slots[i];
          assert groups[..prev.slots[i].group + 1] == init[..prev.slots[i].group + 1];
        }
      }
    }
  }

  /** The teasers come group by group, in the order of the groups. */
  lemma {:induction false} ScheduleGroupOrder(groups: seq<Json>)
    ensures var s := ScheduleGroups(groups);
      forall i, j :: 0 <= i < j < |s.slots| ==> s.slots[i].group <= s.slots[j].group
    decreases |groups|
  {
    if groups != [] {
      var n := |groups| - 1;
      ScheduleGroupOrder(groups[..n]);
      ScheduleSlotTitles(groups[..n]);
      ScheduleStep(groups);
      var prev := ScheduleGroups(groups[..n]);
      var s := ScheduleGroups(groups);
      forall i, j | 0 <= i < j < |s.slots|
        ensures s.slots[i].group <= s.slots[j].group
      {
        if j < |prev.slots| {
          assert s.slots[i] == prev.slots[i] && s.slots[j] == prev.slots[j];
        } else if i < |prev.slots| {
          assert s.slots[i] == prev.slots[i];
        }
      }
    }
  }

  /**
   * The group titles are carried forward: every teaser reached in group `g`
   * carries the title of the last group up to `g` with a truthy title (None
   * before the first one), and the teasers come group by group in order.
   */
  lemma ScheduleCarriesLastTitle(groups: seq<Json>)
    ensures var s := ScheduleGroups(groups);
      && (!s.failed ==> IsLastTitle(groups, s.topTitle))
      && (forall i :: 0 <= i < |s.slots| ==>
            s.slots[i].group < |groups| && IsLastTitle(groups[..s.slots[i].group + 1], s.slots[i].topTitle))
      && (forall i, j :: 0 <= i < j < |s.slots| ==> s.slots[i].group <= s.slots[j].group)
  {
    ScheduleEndsWithLastTitle(groups);
    ScheduleSlotTitles(groups);
    ScheduleGroupOrder(groups);
  }

  /**
   * Teaser classification: `dokumenttyp` or `mediaCategory` 'video' takes the
   * inline branch whatever `topMediaType` says, and touches no cache file;
   * otherwise `topMediaType` 'video' takes the deferred branch; otherwise the
   * teaser is skipped. A branch that fails emits no record.
   */
  lemma ClassificationPriority(w: Walk, slot: Slot, now: int, p: Platform)
    ensures InlineVideo(slot.teaser) ==>
      TeaserStep(w, slot, now, p) ==
        if InlineMedia(slot.teaser, p).Ok?
        then Walk(w.records + [Playable(InlineMedia(slot.teaser, p).value, slot.topTitle)], w.files)
        else w
    ensures !InlineVideo(slot.teaser) && IsVideo(Value(slot.teaser, [Key("topMediaType")])) ==>
      var d := DeferredMedia(w.files, slot.teaser, now, p);
      TeaserStep(w, slot, now, p) ==
        if d.value.Ok? then Walk(w.records + [Playable(d.value.value, slot.topTitle)], d.files)
        else Walk(w.records, d.files)
    ensures !InlineVideo(slot.teaser) && !IsVideo(Value(slot.teaser, [Key("topMediaType")])) ==>
      TeaserStep(w, slot, now, p) == w
  {
  }

  /** One teaser adds at most one record, a playable one with the teaser's topTitle. */
  lemma TeaserStepAppends(w: Walk, slot: Slot, now: int, p: Platform)
    ensures var rs := TeaserStep(w, slot, now, p).records;
      || rs == w.records
      || (&& |rs| == |w.records| + 1 && rs[..|w.records|] == w.records
          && rs[|w.records|].Playable? && rs[|w.records|].topTitle == slot.topTitle)
  {
  }

  /**
   * The walk only appends: at most one record per teaser, each a playable
   * item carrying the topTitle of a teaser it reached.
   */
  lemma {:induction false} WalkSlotsAppends(files: map<string, CacheFile>, slots: seq<Slot>, now: int, p: Platform)
    ensures var rs := WalkSlots(files, slots, now, p).records;
      && |rs| <= |slots|
      && forall i :: 0 <= i < |rs| ==>
           rs[i].Playable? && exists j :: 0 <= j < |slots| && rs[i].topTitle == slots[j].topTitle
    decreases |slots|
  {
    if slots != [] {
      var m := |slots| - 1;
      var init := slots[..m];
      WalkSlotsAppends(files, init, now, p);
      var w := WalkSlots(files, init, now, p);
      TeaserStepAppends(w, slots[m], now, p);
      var rs := WalkSlots(files, slots, now, p).records;
      forall i | 0 <= i < |rs|
        ensures rs[i].Playable? && exists j :: 0 <= j < |slots| && rs[i].topTitle == slots[j].topTitle
      {
        if i < |w.records| {
          assert rs[i] == rs[..|w.records|][i] == w.records[i];
          var j :| 0 <= j < |init| && w.records[i].topTitle == init[j].topTitle;
          assert slots[j] == init[j];
        } else {
          assert i == |w.records| && rs[i].topTitle == slots[m].topTitle;
        }
      }
    }
  }

  /** The index of the slot each record of the walk was built from. */
  function RecordSlots(files: map<string, CacheFile>, slots: seq<Slot>, now: int, p: Platform): seq<nat>
    decreases |slots|
  {
    if slots == [] then []
    else
      var m := |slots| - 1;
      var w := WalkSlots(files, slots[..m], now, p);
      var before := RecordSlots(files, slots[..m], now, p);
      if |TeaserStep(w, slots[m], now, p).records| > |w.records| then before + [m] else before
  }

  /**
   * The records of the walk come from distinct slots in teaser order, and
   * each carries the topTitle of its own slot.
   */
  lemma {:induction false} WalkSlotsOwnTitles(files: map<string, CacheFile>, slots: seq<Slot>, now: int, p: Platform)
    ensures var rs := WalkSlots(files, slots, now, p).records;
      var o := RecordSlots(files, slots, now, p);
      && |o| == |rs|
      && (forall i :: 0 <= i < |o| ==> o[i] < |slots|)
      && (forall i, j :: 0 <= i < j < |o| ==> o[i] < o[j])
      && (forall i :: 0 <= i < |o| ==> rs[i].Playable? && rs[i].topTitle == slots[o[i]].topTitle)
    decreases |slots|
  {
    if slots != [] {
      var m := |slots| - 1;
      var init := slots[..m];
      WalkSlotsOwnTitles(files, init, now, p);
      var w := WalkSlots(files, init, now, p);
      TeaserStepAppends(w, slots[m], now, p);
      var rs := WalkSlots(files, slots, now, p).records;
      var before := RecordSlots(files, init, now, p);
      var o := RecordSlots(files, slots, now, p);
      forall i | 0 <= i < |before|
        ensures o[i] == before[i] && rs[i] == w.records[i] && slots[before[i]] == init[before[i]]
      {
        assert rs[i] == rs[..|w.records|][i];
      }
    }
  }

  /** Processing more teasers extends the records of every earlier point of the walk. */
  lemma {:induction false} WalkSlotsExtends(files: map<string, CacheFile>, slots: seq<Slot>, n: nat, now: int, p: Platform)
    requires n <= |slots|
    ensures WalkSlots(files, slots[..n], now, p).records <= WalkSlots(files, slots, now, p).records
    decreases |slots| - n
  {
    if n < |slots| {
      WalkSlotsExtends(files, slots, n + 1, now, p);
      var prefix := slots[..n + 1];
      assert prefix[..n] == slots[..n];
      TeaserStepAppends(WalkSlots(files, slots[..n], now, p), slots[n], now, p);
    } else {
      assert slots[..n] == slots;
    }
  }

  /** Once a group's teasers cannot be iterated, later groups are not looked at. */
  lemma {:induction false} ScheduleFailureSticks(groups: seq<Json>, n: nat)
    requires n <= |groups| && ScheduleGroups(groups[..n]).failed
    ensures ScheduleGroups(groups) == ScheduleGroups(groups[..n])
    decreases |groups| - n
  {
    if n < |groups| {
      assert groups[..n + 1][..n] == groups[..n];
      ScheduleFailureSticks(groups, n + 1);
    } else {
      assert groups[..n] == groups;
    }
  }

  /** Absent, None or empty `items` give no records and no cache access. */
  lemma NoItemsNoRecords(items: Json, files: map<string, CacheFile>, now: int, p: Platform)
    requires !Truthy(items)
    ensures ItemsTeasers(items, files, now, p) == Cached(Ok([]), files)
  {
  }
}
