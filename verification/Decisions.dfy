/** The record of an account's decisions, and its merge. */
module Decisions {
  // Two records merge by union: sets of keys, pins whose newest word wins, and
  // the newest searches. Each set and the list of searches is capped.

  import opened Prelude

  datatype DecisionSet = DismissedInsights | DismissedTrips | NoticesSeen | AssembledTrips | OwnedTrips | TripExclusions

  datatype Pin = Pin(on: bool, at: int)
  datatype Search = Search(q: string, at: int)

  datatype Decisions = Decisions(sets: map<DecisionSet, seq<string>>, searches: seq<Search>, pins: map<string, Pin>)

  const RECENT_SEARCH_LIMIT: nat := 6

  function SetLimit(name: DecisionSet): nat {
    match name
    case DismissedInsights => 1000
    case DismissedTrips => 1000
    case NoticesSeen => 500
    case AssembledTrips => 5000
    case OwnedTrips => 1000
    case TripExclusions => 5000
  }

  const SET_NAMES := [DismissedInsights, DismissedTrips, NoticesSeen, AssembledTrips, OwnedTrips, TripExclusions]

  const ALL_NAMES := {DismissedInsights, DismissedTrips, NoticesSeen, AssembledTrips, OwnedTrips, TripExclusions}

  lemma AllNames(name: DecisionSet)
    ensures name in SET_NAMES && name in ALL_NAMES
  {
    assert SET_NAMES[0] == DismissedInsights && SET_NAMES[1] == DismissedTrips && SET_NAMES[2] == NoticesSeen;
    assert SET_NAMES[3] == AssembledTrips && SET_NAMES[4] == OwnedTrips && SET_NAMES[5] == TripExclusions;
    match name
    case DismissedInsights =>
    case DismissedTrips =>
    case NoticesSeen =>
    case AssembledTrips =>
    case OwnedTrips =>
    case TripExclusions =>
  }

  function Keys(d: Decisions, name: DecisionSet): seq<string> {
    if name in d.sets then d.sets[name] else []
  }

  // ---- Sets ----

  /** First occurrences, in order. */
  function Unique(values: seq<string>): seq<string> {
    if values == [] then []
    else
      var before := Unique(values[..|values| - 1]);
      if values[|values| - 1] in before then before else before + [values[|values| - 1]]
  }

  /** The newest distinct values. */
  function Capped(values: seq<string>, limit: nat): seq<string> {
    var unique := Unique(values);
    unique[Max(0, |unique| - limit)..]
  }

  lemma {:induction false} UniqueFacts(values: seq<string>)
    ensures forall v :: v in Unique(values) <==> v in values
    ensures forall i, j :: 0 <= i < j < |Unique(values)| ==> Unique(values)[i] != Unique(values)[j]
  {
    if values != [] {
      UniqueFacts(values[..|values| - 1]);
      assert values == values[..|values| - 1] + [values[|values| - 1]];
    }
  }

  /** Capping loses nothing exactly when the distinct values are within the
   *  limit. */
  lemma CappedKeepsAllIff(values: seq<string>, limit: nat)
    ensures (forall v :: v in values ==> v in Capped(values, limit)) <==> |Unique(values)| <= limit
    ensures forall v :: v in Capped(values, limit) ==> v in values
  {
    UniqueFacts(values);
    var unique := Unique(values);
    if |unique| > limit {
      assert unique[0] in values && unique[0] !in Capped(values, limit);
    }
  }

  /** `u` occurs, and `v` has not by then. */
  ghost predicate Before(values: seq<string>, u: string, v: string) {
    exists i :: 0 <= i < |values| && values[i] == u && v !in values[..i + 1]
  }

  /** The values that first occur after `v` does. */
  ghost function NewerThan(values: seq<string>, v: string): set<string> {
    set u | u in values && u != v && !Before(values, u, v)
  }

  lemma IsInPrefix(values: seq<string>, i: int, n: int)
    ensures 0 <= i < n <= |values| ==> values[i] in values[..n]
  {
    if 0 <= i < n <= |values| {
      assert values[..n][i] == values[i];
    }
  }

  lemma BeforeIsOneWay(values: seq<string>, u: string, v: string)
    requires Before(values, u, v)
    ensures !Before(values, v, u)
  {
    var i :| 0 <= i < |values| && values[i] == u && v !in values[..i + 1];
    forall j | 0 <= j < |values| && values[j] == v ensures u in values[..j + 1] {
      IsInPrefix(values, j, i + 1);
      IsInPrefix(values, i, j + 1);
    }
  }

  lemma BeforeStays(values: seq<string>, more: string, u: string, v: string)
    requires Before(values, u, v)
    ensures Before(values + [more], u, v)
  {
    var i :| 0 <= i < |values| && values[i] == u && v !in values[..i + 1];
    assert (values + [more])[..i + 1] == values[..i + 1];
  }

  lemma LastIsAfter(values: seq<string>, u: string, v: string)
    requires u in values && v !in values
    ensures Before(values + [v], u, v)
  {
    var i :| 0 <= i < |values| && values[i] == u;
    assert (values + [v])[..i + 1] == values[..i + 1];
  }

  /** The list is in the order in which the values first occur. */
  ghost predicate ByFirst(values: seq<string>, list: seq<string>) {
    forall i, j :: 0 <= i < j < |list| ==> Before(values, list[i], list[j])
  }

  lemma {:induction false} UniqueInOrder(values: seq<string>)
    ensures ByFirst(values, Unique(values))
  {
    if values != [] {
      var n, unique := |values| - 1, Unique(values);
      var before := Unique(values[..n]);
      assert values == values[..n] + [values[n]];
      UniqueInOrder(values[..n]);
      assert ByFirst(values[..n], before);
      UniqueFacts(values[..n]);
      forall i, j | 0 <= i < j < |unique| ensures Before(values, unique[i], unique[j]) {
        assert unique[i] == before[i];
        if j < |before| {
          assert unique[j] == before[j];
          BeforeStays(values[..n], values[n], unique[i], unique[j]);
        } else {
          LastIsAfter(values[..n], unique[i], values[n]);
        }
      }
    }
  }

  lemma {:induction false} ManyDistinct(values: seq<string>)
    requires forall i, j :: 0 <= i < j < |values| ==> values[i] != values[j]
    ensures |set v | v in values| == |values|
  {
    if values != [] {
      var n := |values| - 1;
      ManyDistinct(values[..n]);
      assert (set v | v in values) == (set v | v in values[..n]) + {values[n]};
      assert values[n] !in values[..n];
    }
  }

  /** The values that fewer than `limit` others come after, in order. */
  ghost predicate KeepsNewest(values: seq<string>, limit: nat, kept: seq<string>) {
    && (forall v :: v in kept <==> v in values && |NewerThan(values, v)| < limit)
    && ByFirst(values, kept)
  }

  /** Capping keeps the values that fewer than `limit` others come after, and their
   *  order: past the limit it is the oldest that go. */
  lemma CappedKeepsNewest(values: seq<string>, limit: nat)
    ensures KeepsNewest(values, limit, Capped(values, limit))
  {
    var unique := Unique(values);
    UniqueFacts(values);
    UniqueInOrder(values);
    forall v ensures v in Capped(values, limit) <==> v in values && |NewerThan(values, v)| < limit {
      if v in values {
        assert v in unique;
        var i :| 0 <= i < |unique| && unique[i] == v;
        NewerIsTheRest(values, i);
        InTheTail(unique, i, Max(0, |unique| - limit));
      }
    }
  }

  lemma InTheTail(unique: seq<string>, i: nat, from: nat)
    requires i < |unique| && from <= |unique| && forall j, k :: 0 <= j < k < |unique| ==> unique[j] != unique[k]
    ensures unique[i] in unique[from..] <==> i >= from
  {
    if i >= from {
      assert unique[from..][i - from] == unique[i];
    }
  }

  lemma NewerIsTheRest(values: seq<string>, i: nat)
    requires i < |Unique(values)|
    ensures |NewerThan(values, Unique(values)[i])| == |Unique(values)| - i - 1
  {
    var unique := Unique(values);
    var rest := unique[i + 1..];
    UniqueFacts(values);
    UniqueInOrder(values);
    forall u ensures u in NewerThan(values, unique[i]) <==> u in rest {
      if u in values && u != unique[i] {
        var j :| 0 <= j < |unique| && unique[j] == u;
        if j > i {
          BeforeIsOneWay(values, unique[i], u);
          assert rest[j - i - 1] == u;
        } else {
          assert Before(values, u, unique[i]);
          assert u !in rest;
        }
      }
    }
    ManyDistinct(rest);
    assert NewerThan(values, unique[i]) == set v | v in rest;
  }

  /** Values that add nothing to a set leave it as it was. */
  lemma {:induction false} UniqueOfMore(values: seq<string>, more: seq<string>)
    requires forall v :: v in more ==> v in values
    ensures Unique(values + more) == Unique(values)
  {
    if more == [] {
      assert values + more == values;
    } else {
      var n := |more| - 1;
      UniqueOfMore(values, more[..n]);
      assert (values + more)[..|values + more| - 1] == values + more[..n];
      UniqueFacts(values);
    }
  }

  lemma {:induction false} UniqueIsIdempotent(values: seq<string>)
    requires forall i, j :: 0 <= i < j < |values| ==> values[i] != values[j]
    ensures Unique(values) == values
  {
    if values != [] {
      UniqueIsIdempotent(values[..|values| - 1]);
      assert values == values[..|values| - 1] + [values[|values| - 1]];
    }
  }

  // ---- Pins ----

  predicate PinIsNews(local: map<string, Pin>, remote: map<string, Pin>, tag: string) {
    tag in local && (tag !in remote || local[tag].at > remote[tag].at)
  }

  /** The newest word on each pin; the account's when both are as new. Only the
   *  local pins in `done` have been looked at. */
  ghost predicate PinsMerged(local: map<string, Pin>, remote: map<string, Pin>, done: set<string>, merged: map<string, Pin>) {
    && (forall tag :: tag in merged <==> tag in remote || (tag in local && tag in done))
    && (forall tag :: tag in merged ==>
          merged[tag] == if tag in done && PinIsNews(local, remote, tag) then local[tag]
                         else if tag in remote then remote[tag] else local[tag])
  }

  ghost predicate PinNews(local: map<string, Pin>, remote: map<string, Pin>, done: set<string>) {
    exists tag :: tag in done && PinIsNews(local, remote, tag)
  }

  lemma PinStep(local: map<string, Pin>, remote: map<string, Pin>, done: set<string>, merged: map<string, Pin>, tag: string)
    requires PinsMerged(local, remote, done, merged) && tag in local && tag !in done
    ensures PinIsNews(local, remote, tag) <==> tag !in merged || local[tag].at > merged[tag].at
    ensures PinIsNews(local, remote, tag) ==> PinsMerged(local, remote, done + {tag}, merged[tag := local[tag]])
    ensures !PinIsNews(local, remote, tag) ==> PinsMerged(local, remote, done + {tag}, merged)
  {
  }

  method MergePins(local: map<string, Pin>, remote: map<string, Pin>) returns (merged: map<string, Pin>, localKnewMore: bool)
    ensures PinsMerged(local, remote, local.Keys, merged) && localKnewMore == PinNews(local, remote, local.Keys)
  {
    merged, localKnewMore := remote, false;
    var tags := local.Keys;
    while tags != {}
      invariant tags <= local.Keys
      invariant PinsMerged(local, remote, local.Keys - tags, merged)
      invariant localKnewMore == PinNews(local, remote, local.Keys - tags)
      decreases |tags|
    {
      var tag :| tag in tags;
      OneLess(local.Keys, tags, tag);
      PinStep(local, remote, local.Keys - tags, merged, tag);
      tags := tags - {tag};
      if tag !in merged || local[tag].at > merged[tag].at {
        merged := merged[tag := local[tag]];
        localKnewMore := true;
      }
    }
    assert local.Keys - tags == local.Keys;
  }

  lemma OneLess(all: set<string>, tags: set<string>, tag: string)
    requires tags <= all && tag in tags
    ensures all - (tags - {tag}) == (all - tags) + {tag} && tag in all && tag !in all - tags
  {
  }

  // ---- Searches ----

  /** When a query was last searched, over several lists. */
  function NewestAt(searches: seq<Search>, q: string): Option<int> {
    if searches == [] then None
    else
      var before := NewestAt(searches[..|searches| - 1], q);
      var last := searches[|searches| - 1];
      if last.q == q && (before.None? || last.at > before.value) then Some(last.at) else before
  }

  lemma {:induction false} NewestFacts(searches: seq<Search>, q: string)
    ensures NewestAt(searches, q).Some? <==> exists i :: 0 <= i < |searches| && searches[i].q == q
    ensures NewestAt(searches, q).Some? ==> Search(q, NewestAt(searches, q).value) in searches
    ensures forall i :: 0 <= i < |searches| && searches[i].q == q ==> searches[i].at <= NewestAt(searches, q).value
  {
    if searches != [] {
      var n := |searches| - 1;
      NewestFacts(searches[..n], q);
      assert searches == searches[..n] + [searches[n]];
    }
  }

  ghost predicate OncePerQuery(searches: seq<Search>) {
    forall i, j :: 0 <= i < j < |searches| ==> searches[i].q != searches[j].q
  }

  ghost predicate NewestFirst(searches: seq<Search>) {
    forall i, j :: 0 <= i < j < |searches| ==> searches[i].at >= searches[j].at
  }

  /** The queries of a list in the order they first occur, each at its newest
   *  time. */
  function Newest(searches: seq<Search>): seq<Search> {
    if searches == [] then [] else Noted(Newest(searches[..|searches| - 1]), searches[|searches| - 1])
  }

  function Noted(entries: seq<Search>, e: Search): seq<Search> {
    if entries == [] then [e]
    else if entries[0].q == e.q then [if e.at > entries[0].at then e else entries[0]] + entries[1..]
    else [entries[0]] + Noted(entries[1..], e)
  }

  lemma {:induction false} NotedFacts(entries: seq<Search>, e: Search)
    requires OncePerQuery(entries)
    ensures OncePerQuery(Noted(entries, e))
    ensures forall x :: x in Noted(entries, e) <==>
      (x in entries && (x.q == e.q ==> e.at <= x.at)) || (x == e && forall y :: y in entries && y.q == e.q ==> e.at > y.at)
  {
    if entries != [] {
      var rest := entries[1..];
      assert entries == [entries[0]] + rest;
      NotedFacts(rest, e);
      if entries[0].q == e.q {
        assert forall y :: y in rest ==> y.q != e.q;
      } else {
        assert Noted(entries, e) == [entries[0]] + Noted(rest, e);
        assert forall x :: x in Noted(rest, e) ==> x.q != entries[0].q;
      }
    }
  }

  /** Each query once, at its newest time, and none missing. */
  lemma {:induction false} NewestCollapses(searches: seq<Search>)
    ensures OncePerQuery(Newest(searches))
    ensures forall q, t :: Search(q, t) in Newest(searches) <==> NewestAt(searches, q) == Some(t)
  {
    if searches != [] {
      var n := |searches| - 1;
      var before, last := Newest(searches[..n]), searches[n];
      NewestCollapses(searches[..n]);
      NotedFacts(before, last);
      forall q, t ensures Search(q, t) in Newest(searches) <==> NewestAt(searches, q) == Some(t) {
        var held := NewestAt(searches[..n], q);
        if q == last.q && held.Some? {
          assert Search(q, held.value) in before;
        }
      }
    }
  }

  function Place(e: Search, sorted: seq<Search>): seq<Search> {
    if sorted == [] || e.at > sorted[0].at then [e] + sorted else [sorted[0]] + Place(e, sorted[1..])
  }

  /** Newest first; among equals, in the order given. */
  function SortedNewest(entries: seq<Search>): seq<Search> {
    if entries == [] then [] else Place(entries[|entries| - 1], SortedNewest(entries[..|entries| - 1]))
  }

  lemma {:induction false} PlaceOrder(e: Search, sorted: seq<Search>)
    requires NewestFirst(sorted)
    ensures NewestFirst(Place(e, sorted)) && Place(e, sorted)[0].at == if sorted == [] then e.at else Max(e.at, sorted[0].at)
  {
    if sorted != [] && e.at <= sorted[0].at {
      PlaceOrder(e, sorted[1..]);
      assert |sorted| > 1 ==> sorted[0].at >= sorted[1..][0].at;
    }
  }

  lemma {:induction false} PlaceElements(e: Search, sorted: seq<Search>)
    ensures |Place(e, sorted)| == |sorted| + 1 && forall x :: x in Place(e, sorted) <==> x == e || x in sorted
  {
    if sorted != [] && e.at <= sorted[0].at {
      PlaceElements(e, sorted[1..]);
      assert sorted == [sorted[0]] + sorted[1..];
    }
  }

  lemma {:induction false} PlaceOnce(e: Search, sorted: seq<Search>)
    requires OncePerQuery(sorted) && forall x :: x in sorted ==> x.q != e.q
    ensures OncePerQuery(Place(e, sorted))
  {
    if sorted != [] && e.at <= sorted[0].at {
      PlaceOnce(e, sorted[1..]);
      PlaceElements(e, sorted[1..]);
      var rest := Place(e, sorted[1..]);
      forall i | 0 <= i < |rest| ensures rest[i].q != sorted[0].q {
        assert rest[i] in rest;
      }
    }
  }

  lemma {:induction false} SortedFacts(entries: seq<Search>)
    requires OncePerQuery(entries)
    ensures NewestFirst(SortedNewest(entries)) && OncePerQuery(SortedNewest(entries))
    ensures |SortedNewest(entries)| == |entries| && forall x :: x in SortedNewest(entries) <==> x in entries
  {
    if entries != [] {
      var n := |entries| - 1;
      SortedFacts(entries[..n]);
      PlaceOrder(entries[n], SortedNewest(entries[..n]));
      PlaceElements(entries[n], SortedNewest(entries[..n]));
      forall x | x in SortedNewest(entries[..n]) ensures x.q != entries[n].q {
        assert x in entries[..n];
      }
      PlaceOnce(entries[n], SortedNewest(entries[..n]));
      assert entries == entries[..n] + [entries[n]];
    }
  }

  function MergedSearches(a: seq<Search>, b: seq<Search>): seq<Search> {
    var sorted := SortedNewest(Newest(a + b));
    sorted[..Min(RECENT_SEARCH_LIMIT, |sorted|)]
  }

  /** The six newest queries of a list, each at its newest time, newest first;
   *  whatever is missing is no newer than all six. */
  ghost predicate AreNewest(all: seq<Search>, m: seq<Search>) {
    && OncePerQuery(m) && NewestFirst(m) && |m| <= 6
    && (forall e :: e in m ==> NewestAt(all, e.q) == Some(e.at))
    && (forall q, t :: NewestAt(all, q) == Some(t) && Search(q, t) !in m ==> |m| == 6 && forall e :: e in m ==> e.at >= t)
  }

  /** The merge of two lists is the newest of both. */
  lemma MergedSearchesAreNewest(a: seq<Search>, b: seq<Search>)
    ensures AreNewest(a + b, MergedSearches(a, b))
  {
    NewestCollapses(a + b);
    SortedFacts(Newest(a + b));
    forall e | e in MergedSearches(a, b) ensures NewestAt(a + b, e.q) == Some(e.at) {
      assert e in Newest(a + b) && Search(e.q, e.at) == e;
    }
    forall q, t | NewestAt(a + b, q) == Some(t) && Search(q, t) !in MergedSearches(a, b)
      ensures |MergedSearches(a, b)| == RECENT_SEARCH_LIMIT && forall e :: e in MergedSearches(a, b) ==> e.at >= t
    {
    }
  }

  method MergeSearches(a: seq<Search>, b: seq<Search>) returns (merged: seq<Search>)
    ensures merged == MergedSearches(a, b)
  {
    var all := a + b;
    var newest: seq<Search> := [];
    for i := 0 to |all|
      invariant newest == Newest(all[..i])
    {
      assert all[..i + 1][..i] == all[..i];
      newest := Noted(newest, all[i]);
    }
    assert all[..|all|] == all;
    var sorted: seq<Search> := [];
    for i := 0 to |newest|
      invariant sorted == SortedNewest(newest[..i])
    {
      assert newest[..i + 1][..i] == newest[..i];
      sorted := Place(newest[i], sorted);
    }
    assert newest[..|newest|] == newest;
    merged := sorted[..Min(RECENT_SEARCH_LIMIT, |sorted|)];
  }

  /** Something of the merged list is not in the account's, or is newer. */
  ghost predicate SearchNews(merged: seq<Search>, remote: seq<Search>) {
    exists e :: e in merged && (NewestAt(remote, e.q).None? || e.at > NewestAt(remote, e.q).value)
  }

  // ---- Records ----

  ghost predicate KeyNews(local: Decisions, remote: Decisions, name: DecisionSet) {
    exists key :: key in Keys(local, name) && key !in Keys(remote, name)
  }

  ghost predicate SetNews(local: Decisions, remote: Decisions, names: seq<DecisionSet>) {
    exists i :: 0 <= i < |names| && KeyNews(local, remote, names[i])
  }

  /** This side held something the account's record lacks. */
  ghost predicate KnewMore(local: Decisions, remote: Decisions) {
    || SetNews(local, remote, SET_NAMES)
    || SearchNews(MergedSearches(local.searches, remote.searches), remote.searches)
    || PinNews(local.pins, remote.pins, local.pins.Keys)
  }

  ghost predicate IsMerge(local: Decisions, remote: Decisions, merged: Decisions) {
    && (forall name :: Keys(merged, name) == Capped(Keys(remote, name) + Keys(local, name), SetLimit(name)))
    && merged.searches == MergedSearches(local.searches, remote.searches)
    && PinsMerged(local.pins, remote.pins, local.pins.Keys, merged.pins)
  }

  function MergedPins(local: map<string, Pin>, remote: map<string, Pin>): map<string, Pin> {
    map tag | tag in local.Keys + remote.Keys :: if PinIsNews(local, remote, tag) || tag !in remote then local[tag] else remote[tag]
  }

  function MergedSet(local: Decisions, remote: Decisions, name: DecisionSet): seq<string> {
    Capped(Keys(remote, name) + Keys(local, name), SetLimit(name))
  }

  function MergedSets(local: Decisions, remote: Decisions): map<DecisionSet, seq<string>> {
    map name | name in ALL_NAMES :: MergedSet(local, remote, name)
  }

  /** The merge as a function: every set has its entry, if an empty one. */
  function Merge(local: Decisions, remote: Decisions): Decisions {
    Decisions(MergedSets(local, remote), MergedSearches(local.searches, remote.searches), MergedPins(local.pins, remote.pins))
  }

  lemma MergeIsMerge(local: Decisions, remote: Decisions)
    ensures IsMerge(local, remote, Merge(local, remote))
  {
    forall name ensures Keys(Merge(local, remote), name) == Capped(Keys(remote, name) + Keys(local, name), SetLimit(name)) {
      AllNames(name);
    }
  }

  /** Past the limit, a merged set keeps the newest of the account's keys followed
   *  by the device's. */
  lemma MergedSetKeepsNewest(local: Decisions, remote: Decisions, name: DecisionSet)
    ensures KeepsNewest(Keys(remote, name) + Keys(local, name), SetLimit(name), Keys(Merge(local, remote), name))
  {
    AllNames(name);
    CappedKeepsNewest(Keys(remote, name) + Keys(local, name), SetLimit(name));
  }

  method HasNews(local: seq<string>, remote: seq<string>) returns (news: bool)
    ensures news <==> exists key :: key in local && key !in remote
  {
    for i := 0 to |local|
      invariant forall j :: 0 <= j < i ==> local[j] in remote
    {
      if local[i] !in remote {
        return true;
      }
    }
    news := false;
  }

  lemma AllSets(sets: map<DecisionSet, seq<string>>, others: map<DecisionSet, seq<string>>)
    requires forall name :: name in SET_NAMES ==> name in sets && name in others && sets[name] == others[name]
    ensures sets == others
  {
    forall name ensures name in sets && name in others && sets[name] == others[name] {
      AllNames(name);
    }
  }

  lemma MergedSetsAt(local: Decisions, remote: Decisions, name: DecisionSet)
    ensures name in MergedSets(local, remote) && MergedSets(local, remote)[name] == MergedSet(local, remote, name)
  {
    AllNames(name);
  }

  method MergeSets(local: Decisions, remote: Decisions) returns (sets: map<DecisionSet, seq<string>>, localKnewMore: bool)
    ensures sets == MergedSets(local, remote) && localKnewMore == SetNews(local, remote, SET_NAMES)
  {
    sets, localKnewMore := map[], false;
    for i := 0 to |SET_NAMES|
      invariant forall j :: 0 <= j < i ==>
        SET_NAMES[j] in sets && sets[SET_NAMES[j]] == MergedSet(local, remote, SET_NAMES[j])
      invariant localKnewMore == SetNews(local, remote, SET_NAMES[..i])
    {
      var name := SET_NAMES[i];
      var news := HasNews(Keys(local, name), Keys(remote, name));
      SetNewsSnoc(local, remote, i);
      assert SET_NAMES[..i + 1] == SET_NAMES[..i] + [name];
      localKnewMore := localKnewMore || news;
      sets := sets[name := Capped(Keys(remote, name) + Keys(local, name), SetLimit(name))];
    }
    assert SET_NAMES[..|SET_NAMES|] == SET_NAMES;
    forall name | name in SET_NAMES ensures name in sets && sets[name] == MergedSets(local, remote)[name] {
      MergedSetsAt(local, remote, name);
    }
    AllSets(sets, MergedSets(local, remote));
  }

  lemma MergedPinsAreMerged(local: map<string, Pin>, remote: map<string, Pin>, merged: map<string, Pin>)
    requires PinsMerged(local, remote, local.Keys, merged)
    ensures merged == MergedPins(local, remote)
  {
  }

  method MergeDecisions(local: Decisions, remote: Decisions) returns (merged: Decisions, localKnewMore: bool)
    ensures merged == Merge(local, remote) && IsMerge(local, remote, merged) && localKnewMore == KnewMore(local, remote)
  {
    var sets, setNews := MergeSets(local, remote);
    var searches := MergeSearches(local.searches, remote.searches);
    var searchNews := HasSearchNews(searches, remote.searches);
    var pins, pinNews := MergePins(local.pins, remote.pins);
    MergedPinsAreMerged(local.pins, remote.pins, pins);
    MergeIsMerge(local, remote);
    merged := Decisions(sets, searches, pins);
    localKnewMore := setNews || searchNews || pinNews;
  }

  lemma SetNewsSnoc(local: Decisions, remote: Decisions, i: nat)
    requires i < |SET_NAMES|
    ensures SetNews(local, remote, SET_NAMES[..i + 1]) <==>
      SetNews(local, remote, SET_NAMES[..i]) || KeyNews(local, remote, SET_NAMES[i])
  {
    var some, more := SET_NAMES[..i], SET_NAMES[..i + 1];
    if SetNews(local, remote, some) {
      var j :| 0 <= j < i && KeyNews(local, remote, some[j]);
      assert more[j] == some[j];
    }
    assert more[i] == SET_NAMES[i];
    if SetNews(local, remote, more) {
      var j :| 0 <= j < i + 1 && KeyNews(local, remote, more[j]);
      assert j < i ==> some[j] == more[j];
    }
  }

  method HasSearchNews(merged: seq<Search>, remote: seq<Search>) returns (news: bool)
    ensures news == SearchNews(merged, remote)
  {
    for i := 0 to |merged|
      invariant forall j :: 0 <= j < i ==>
        NewestAt(remote, merged[j].q).Some? && merged[j].at <= NewestAt(remote, merged[j].q).value
    {
      var held := NewestAt(remote, merged[i].q);
      if held.None? || merged[i].at > held.value {
        assert merged[i] in merged;
        return true;
      }
    }
    news := false;
  }

  lemma HoldsSearch(searches: seq<Search>, q: string, at: int)
    ensures (exists i :: 0 <= i < |searches| && searches[i].q == q && searches[i].at >= at) <==>
      (NewestAt(searches, q).Some? && NewestAt(searches, q).value >= at)
  {
    NewestFacts(searches, q);
    if NewestAt(searches, q).Some? && NewestAt(searches, q).value >= at {
      var i :| 0 <= i < |searches| && searches[i] == Search(q, NewestAt(searches, q).value);
      assert searches[i].q == q;
    }
  }

  lemma NewestOfBoth(a: seq<Search>, b: seq<Search>, q: string, at: int)
    ensures (NewestAt(a + b, q).Some? && NewestAt(a + b, q).value >= at) <==>
      (NewestAt(a, q).Some? && NewestAt(a, q).value >= at) || (NewestAt(b, q).Some? && NewestAt(b, q).value >= at)
  {
    HoldsSearch(a, q, at);
    HoldsSearch(b, q, at);
    HoldsSearch(a + b, q, at);
    if i :| 0 <= i < |a| && a[i].q == q && a[i].at >= at {
      assert (a + b)[i].q == q;
    }
    if i :| 0 <= i < |b| && b[i].q == q && b[i].at >= at {
      assert (a + b)[|a| + i].q == q;
    }
  }

  // ---- A merge that learns the account nothing ----

  /** A record as merges leave it. */
  ghost predicate Canonical(d: Decisions) {
    && (forall name :: |Keys(d, name)| <= SetLimit(name))
    && (forall name, i, j :: 0 <= i < j < |Keys(d, name)| ==> Keys(d, name)[i] != Keys(d, name)[j])
    && OncePerQuery(d.searches) && |d.searches| <= RECENT_SEARCH_LIMIT
  }

  lemma MergesAreCanonical(local: Decisions, remote: Decisions, merged: Decisions)
    requires IsMerge(local, remote, merged)
    ensures Canonical(merged)
  {
    MergedSearchesAreNewest(local.searches, remote.searches);
    forall name ensures |Keys(merged, name)| <= SetLimit(name)
      && forall i, j :: 0 <= i < j < |Keys(merged, name)| ==> Keys(merged, name)[i] != Keys(merged, name)[j]
    {
      UniqueFacts(Keys(remote, name) + Keys(local, name));
    }
  }

  /** When the local side knew nothing more, the mirror becomes the account's
   *  record, whatever the limits cut off. */
  lemma NothingNewMeansAgreed(local: Decisions, remote: Decisions, merged: Decisions)
    requires IsMerge(local, remote, merged) && !KnewMore(local, remote) && Canonical(remote)
    ensures forall name :: Keys(merged, name) == Keys(remote, name)
    ensures merged.pins == remote.pins
    ensures forall e :: e in merged.searches <==> e in remote.searches
  {
    forall name ensures Keys(merged, name) == Keys(remote, name) {
      AllNames(name);
      forall key | key in Keys(local, name) ensures key in Keys(remote, name) {
        var i :| 0 <= i < |SET_NAMES| && SET_NAMES[i] == name;
        assert !KeyNews(local, remote, SET_NAMES[i]);
      }
      UniqueOfMore(Keys(remote, name), Keys(local, name));
      UniqueIsIdempotent(Keys(remote, name));
    }
    forall tag | tag in local.pins ensures tag in remote.pins && local.pins[tag].at <= remote.pins[tag].at {
      assert !(tag in local.pins.Keys && PinIsNews(local.pins, remote.pins, tag));
    }
    assert merged.pins == remote.pins;
    SearchesAgree(local.searches, remote.searches);
  }

  ghost predicate NoSearchNews(local: seq<Search>, remote: seq<Search>) {
    OncePerQuery(remote) && |remote| <= RECENT_SEARCH_LIMIT && !SearchNews(MergedSearches(local, remote), remote)
  }

  lemma MergedIsRemote(local: seq<Search>, remote: seq<Search>, e: Search)
    requires NoSearchNews(local, remote) && e in MergedSearches(local, remote)
    ensures e in remote
  {
    MergedSearchesAreNewest(local, remote);
    assert NewestAt(remote, e.q).Some? && e.at <= NewestAt(remote, e.q).value;
    NewestOfBoth(local, remote, e.q, NewestAt(remote, e.q).value);
    NewestFacts(remote, e.q);
  }

  lemma RemoteIsMerged(local: seq<Search>, remote: seq<Search>, e: Search)
    requires NoSearchNews(local, remote) && e in remote
    ensures e in MergedSearches(local, remote)
  {
    var m := MergedSearches(local, remote);
    MergedSearchesAreNewest(local, remote);
    NewestFacts(remote, e.q);
    NewestOfBoth(local, remote, e.q, e.at);
    var t := NewestAt(local + remote, e.q).value;
    forall x | x in m ensures x in remote {
      MergedIsRemote(local, remote, x);
    }
    if Search(e.q, t) in m {
      assert Search(e.q, t) in remote;
    } else {
      FewerThan(m, remote, e);
    }
  }

  lemma SearchesAgree(local: seq<Search>, remote: seq<Search>)
    requires NoSearchNews(local, remote)
    ensures forall e :: e in MergedSearches(local, remote) <==> e in remote
  {
    forall e ensures e in MergedSearches(local, remote) <==> e in remote {
      if e in MergedSearches(local, remote) {
        MergedIsRemote(local, remote, e);
      }
      if e in remote {
        RemoteIsMerged(local, remote, e);
      }
    }
  }

  /** A list without repeats, all in another that has one more, is shorter. */
  lemma {:induction false} FewerThan(a: seq<Search>, b: seq<Search>, e: Search)
    requires OncePerQuery(a) && OncePerQuery(b) && (forall x :: x in a ==> x in b) && e in b
    ensures e !in a ==> |a| < |b|
    decreases |b|
  {
    if e !in a && a != [] {
      var n := |b| - 1;
      var x := b[n];
      assert b == b[..n] + [x];
      if x == e {
        AtMost(a, b[..n]);
      } else {
        var rest := Drop(a, x);
        DropFacts(a, x);
        FewerThan(rest, b[..n], e);
      }
    }
  }

  lemma {:induction false} AtMost(a: seq<Search>, b: seq<Search>)
    requires OncePerQuery(a) && OncePerQuery(b) && forall x :: x in a ==> x in b
    ensures |a| <= |b|
    decreases |b|
  {
    if a != [] {
      var n := |b| - 1;
      assert a[0] in b;
      assert b == b[..n] + [b[n]];
      DropFacts(a, b[n]);
      AtMost(Drop(a, b[n]), b[..n]);
    }
  }

  function Drop(a: seq<Search>, x: Search): seq<Search> {
    if a == [] then [] else if a[0] == x then a[1..] else [a[0]] + Drop(a[1..], x)
  }

  lemma {:induction false} DropFacts(a: seq<Search>, x: Search)
    requires OncePerQuery(a)
    ensures OncePerQuery(Drop(a, x)) && forall y :: y in Drop(a, x) <==> y in a && y != x
    ensures |Drop(a, x)| == if x in a then |a| - 1 else |a|
  {
    if a != [] {
      assert a == [a[0]] + a[1..];
      DropFacts(a[1..], x);
      assert forall y :: y in a[1..] ==> y.q != a[0].q;
    }
  }

  // ---- The device's mirror ----

  predicate HasNewKey(d: Decisions, name: DecisionSet, keys: seq<string>) {
    exists i :: 0 <= i < |keys| && keys[i] !in Keys(d, name)
  }

  /** Decisions are recorded; those that are there already stay where they are. */
  function WithKeys(d: Decisions, name: DecisionSet, keys: seq<string>): Decisions {
    if HasNewKey(d, name, keys) then d.(sets := d.sets[name := Capped(Keys(d, name) + keys, SetLimit(name))]) else d
  }

  predicate SaysAgain(d: Decisions, tag: string, on: bool) {
    tag in d.pins && d.pins[tag].on == on
  }

  /** The last word on a pin, whatever its time; saying the same again keeps the
   *  first time. */
  function WithPin(d: Decisions, tag: string, on: bool, at: int): Decisions {
    if SaysAgain(d, tag, on) then d else d.(pins := d.pins[tag := Pin(on, at)])
  }

  function WithSearch(d: Decisions, query: string, at: int): Decisions {
    if query == "" then d else d.(searches := MergedSearches(d.searches, [Search(query, at)]))
  }

  class DecisionMirror {
    var record: Decisions

    constructor ()
      ensures record == Decisions(map[], [], map[])
    {
      record := Decisions(map[], [], map[]);
    }

    /** Says whether anything was new, which is when a push falls due. */
    method Decide(name: DecisionSet, keys: seq<string>) returns (changed: bool)
      modifies this
      ensures changed == HasNewKey(old(record), name, keys) && record == WithKeys(old(record), name, keys)
      ensures changed <==> exists key :: key in keys && key !in Keys(old(record), name)
      ensures !changed ==> record == old(record)
      ensures changed ==> KeepsNewest(Keys(old(record), name) + keys, SetLimit(name), Keys(record, name))
      ensures |Unique(Keys(old(record), name) + keys)| <= SetLimit(name) ==>
        forall key :: key in Keys(record, name) <==> key in keys || key in Keys(old(record), name)
      ensures record.searches == old(record).searches && record.pins == old(record).pins
      ensures forall other :: other != name ==> Keys(record, other) == Keys(old(record), other)
    {
      CappedKeepsNewest(Keys(record, name) + keys, SetLimit(name));
      CappedKeepsAllIff(Keys(record, name) + keys, SetLimit(name));
      changed := HasNews(keys, Keys(record, name));
      if changed {
        record := record.(sets := record.sets[name := Capped(Keys(record, name) + keys, SetLimit(name))]);
      }
    }

    method SetPin(tag: string, on: bool, at: int) returns (changed: bool)
      modifies this
      ensures changed == !SaysAgain(old(record), tag, on) && record == WithPin(old(record), tag, on, at)
      ensures tag in record.pins && record.pins[tag].on == on
      ensures changed <==> tag !in old(record).pins || old(record).pins[tag].on != on
      ensures changed ==> record == old(record).(pins := old(record).pins[tag := Pin(on, at)])
      ensures !changed ==> record == old(record)
    {
      if tag in record.pins && record.pins[tag].on == on {
        return false;
      }
      record := record.(pins := record.pins[tag := Pin(on, at)]);
      changed := true;
    }

    method RememberSearch(query: string, at: int)
      modifies this
      ensures record == WithSearch(old(record), query, at)
      ensures query == "" ==> record == old(record)
      ensures query != "" ==> AreNewest(old(record).searches + [Search(query, at)], record.searches)
      ensures record.sets == old(record).sets && record.pins == old(record).pins
    {
      MergedSearchesAreNewest(record.searches, [Search(query, at)]);
      if query == "" {
        return;
      }
      var searches := MergeSearches(record.searches, [Search(query, at)]);
      record := record.(searches := searches);
    }

    /** Applies the account's record, or none from before there was one; says
     *  whether the union is to go back up. */
    method ApplyDecisions(remote: Option<Decisions>) returns (knewMore: bool)
      modifies this
      ensures remote.None? ==> record == old(record)
      ensures remote.Some? ==> record == Merge(old(record), remote.value) && knewMore == KnewMore(old(record), remote.value)
      ensures remote.None? ==> (knewMore <==> HasAny(old(record)))
    {
      if remote.None? {
        knewMore := HasAny(record);
        return;
      }
      var merged;
      merged, knewMore := MergeDecisions(record, remote.value);
      record := merged;
    }
  }

  predicate HasAny(d: Decisions) {
    || (exists i :: 0 <= i < |SET_NAMES| && |Keys(d, SET_NAMES[i])| > 0)
    || |d.searches| > 0 || |d.pins| > 0
  }
}
