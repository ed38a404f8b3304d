/** Decisions as facts, and what a capped record still answers for. */
module Facts {
  // A record holds facts. It answers for more than it holds: a newer word on a
  // pin answers for an older one, and a full list of newer searches answers for
  // a search it no longer has room for. A record represents a history of facts
  // when it holds some of them and answers for them all.

  import opened Decisions
  import opened Prelude

  datatype Fact =
    | Decided(name: DecisionSet, key: string)
    | Pinned(tag: string, at: int, on: bool)
    | SearchedAt(q: string, at: int)

  ghost predicate Holds(d: Decisions, fact: Fact) {
    match fact
    case Decided(name, key) => key in Keys(d, name)
    case Pinned(tag, at, on) => tag in d.pins && d.pins[tag] == Pin(on, at)
    case SearchedAt(q, at) => Search(q, at) in d.searches
  }

  ghost function FactsOf(d: Decisions): iset<Fact> {
    iset fact | Holds(d, fact)
  }

  /** Six other searches, all newer than `at`. */
  ghost predicate Crowded(s: iset<Fact>, at: int) {
    exists six: seq<Search> :: CrowdedBy(s, at, six)
  }

  ghost predicate CrowdedBy(s: iset<Fact>, at: int, six: seq<Search>) {
    |six| == RECENT_SEARCH_LIMIT && OncePerQuery(six) && forall e :: e in six ==> SearchedAt(e.q, e.at) in s && e.at > at
  }

  ghost predicate SearchedSince(s: iset<Fact>, q: string, at: int) {
    exists t: int :: t >= at && SearchedAt(q, t) in s
  }

  /** The facts answer for this one. */
  ghost predicate Absorbed(s: iset<Fact>, fact: Fact) {
    match fact
    case Decided(_, _) => fact in s
    case Pinned(tag, at, _) => fact in s || exists t, on :: t > at && Pinned(tag, t, on) in s
    case SearchedAt(q, at) => SearchedSince(s, q, at) || Crowded(s, at)
  }

  ghost predicate Covers(s: iset<Fact>, x: iset<Fact>) {
    forall fact :: fact in x ==> Absorbed(s, fact)
  }

  /** Two different words on a pin have different times, and so do searches for
   *  different queries. */
  ghost predicate OneWord(s: iset<Fact>) {
    && (forall tag, at :: !(Pinned(tag, at, true) in s && Pinned(tag, at, false) in s))
    && (forall q, p, at :: SearchedAt(q, at) in s && SearchedAt(p, at) in s ==> q == p)
  }

  // ---- Answering for is a closure ----

  lemma HeldIsAbsorbed(s: iset<Fact>, x: iset<Fact>)
    requires x <= s
    ensures Covers(s, x)
  {
    forall fact | fact in x ensures Absorbed(s, fact) {
      if fact.SearchedAt? {
        assert SearchedAt(fact.q, fact.at) in s;
      }
    }
  }

  /** The same queries at the times `s` has them. */
  lemma {:induction false} AtLeastAsNew(s: iset<Fact>, some: seq<Search>) returns (newer: seq<Search>)
    requires forall e :: e in some ==> SearchedSince(s, e.q, e.at)
    ensures |newer| == |some|
    ensures forall i :: 0 <= i < |some| ==>
      newer[i].q == some[i].q && newer[i].at >= some[i].at && SearchedAt(newer[i].q, newer[i].at) in s
  {
    newer := [];
    if some != [] {
      var n := |some| - 1;
      assert some[n] in some;
      newer := AtLeastAsNew(s, some[..n]);
      var t: int :| t >= some[n].at && SearchedAt(some[n].q, t) in s;
      newer := newer + [Search(some[n].q, t)];
    }
  }

  lemma CrowdedEarlier(s: iset<Fact>, at: int, later: int)
    requires Crowded(s, later) && at <= later
    ensures Crowded(s, at)
  {
    var six: seq<Search> :| CrowdedBy(s, later, six);
    assert CrowdedBy(s, at, six);
  }

  lemma CrowdedThrough(s: iset<Fact>, x: iset<Fact>, at: int)
    requires Covers(s, x) && Crowded(x, at)
    ensures Crowded(s, at)
  {
    var six: seq<Search> :| CrowdedBy(x, at, six);
    if e :| e in six && Crowded(s, e.at) {
      CrowdedEarlier(s, at, e.at);
    } else {
      forall e | e in six ensures SearchedSince(s, e.q, e.at) {
        assert Absorbed(s, SearchedAt(e.q, e.at));
      }
      var newer := AtLeastAsNew(s, six);
      forall e | e in newer ensures SearchedAt(e.q, e.at) in s && e.at > at {
        var i :| 0 <= i < |newer| && newer[i] == e;
        assert six[i] in six;
      }
      assert CrowdedBy(s, at, newer);
    }
  }

  lemma AbsorbedThrough(s: iset<Fact>, x: iset<Fact>, fact: Fact)
    requires Covers(s, x) && Absorbed(x, fact)
    ensures Absorbed(s, fact)
  {
    match fact
    case Decided(_, _) =>
    case Pinned(tag, at, _) =>
      if fact !in x {
        var t, on :| t > at && Pinned(tag, t, on) in x;
        assert Absorbed(s, Pinned(tag, t, on));
      }
    case SearchedAt(q, at) =>
      if SearchedSince(x, q, at) {
        var t: int :| t >= at && SearchedAt(q, t) in x;
        assert Absorbed(s, SearchedAt(q, t));
        if Crowded(s, t) {
          CrowdedEarlier(s, at, t);
        } else {
          var u: int :| u >= t && SearchedAt(q, u) in s;
        }
      } else {
        CrowdedThrough(s, x, at);
      }
  }

  lemma CoversThrough(s: iset<Fact>, x: iset<Fact>, y: iset<Fact>)
    requires Covers(s, x) && Covers(x, y)
    ensures Covers(s, y)
  {
    forall fact | fact in y ensures Absorbed(s, fact) {
      AbsorbedThrough(s, x, fact);
    }
  }

  lemma CoversBoth(s: iset<Fact>, x: iset<Fact>, y: iset<Fact>)
    ensures Covers(s, x + y) <==> Covers(s, x) && Covers(s, y)
  {
    forall fact ensures fact in x + y <==> fact in x || fact in y {
    }
  }

  // ---- Records that answer for each other are the same ----

  /** A search in a list of six is not crowded out by that list. */
  lemma NotCrowdedByOwn(d: Decisions, e: Search)
    requires OncePerQuery(d.searches) && |d.searches| <= RECENT_SEARCH_LIMIT && e in d.searches
    ensures !Crowded(FactsOf(d), e.at)
  {
    if six: seq<Search> :| CrowdedBy(FactsOf(d), e.at, six) {
      var seven := six + [e];
      forall x | x in seven ensures x in d.searches {
        if x in six {
          assert Holds(d, SearchedAt(x.q, x.at)) && Search(x.q, x.at) == x;
        }
      }
      forall i | 0 <= i < |six| ensures six[i].q != e.q {
        assert six[i] in six && six[i] in seven;
      }
      AtMost(seven, d.searches);
    }
  }

  lemma PinIsHeld(a: Decisions, b: Decisions, tag: string, at: int, on: bool)
    requires Covers(FactsOf(a), FactsOf(b)) && Covers(FactsOf(b), FactsOf(a)) && Holds(a, Pinned(tag, at, on))
    ensures Holds(b, Pinned(tag, at, on))
  {
    assert Pinned(tag, at, on) in FactsOf(a);
    assert Absorbed(FactsOf(b), Pinned(tag, at, on));
    assert forall t, on' :: t > at ==> !Absorbed(FactsOf(a), Pinned(tag, t, on'));
  }

  lemma SearchIsHeld(a: Decisions, b: Decisions, q: string, at: int)
    requires Covers(FactsOf(a), FactsOf(b)) && Covers(FactsOf(b), FactsOf(a)) && Holds(a, SearchedAt(q, at))
    requires OncePerQuery(a.searches) && |a.searches| <= RECENT_SEARCH_LIMIT
    ensures Holds(b, SearchedAt(q, at))
  {
    assert SearchedAt(q, at) in FactsOf(a);
    assert Absorbed(FactsOf(b), SearchedAt(q, at));
    NotCrowdedByOwn(a, Search(q, at));
    if Crowded(FactsOf(b), at) {
      CrowdedThrough(FactsOf(a), FactsOf(b), at);
    }
    forall t: int | t > at ensures !Absorbed(FactsOf(a), SearchedAt(q, t)) {
      if Crowded(FactsOf(a), t) {
        CrowdedEarlier(FactsOf(a), at, t);
      }
      assert forall u :: SearchedAt(q, u) in FactsOf(a) ==> Search(q, u) in a.searches && u == at;
    }
  }

  lemma CoveredIsHeld(a: Decisions, b: Decisions, fact: Fact)
    requires Covers(FactsOf(a), FactsOf(b)) && Covers(FactsOf(b), FactsOf(a)) && Canonical(a) && Canonical(b)
    requires Holds(a, fact)
    ensures Holds(b, fact)
  {
    assert fact in FactsOf(a);
    match fact
    case Decided(_, _) => assert Absorbed(FactsOf(b), fact);
    case Pinned(tag, at, on) => PinIsHeld(a, b, tag, at, on);
    case SearchedAt(q, at) => SearchIsHeld(a, b, q, at);
  }

  /** Records as merges leave them that answer for each other hold the same
   *  facts. */
  lemma SameFacts(a: Decisions, b: Decisions)
    requires Covers(FactsOf(a), FactsOf(b)) && Covers(FactsOf(b), FactsOf(a)) && Canonical(a) && Canonical(b)
    ensures FactsOf(a) == FactsOf(b)
  {
    forall fact ensures fact in FactsOf(a) <==> fact in FactsOf(b) {
      if fact in FactsOf(a) {
        CoveredIsHeld(a, b, fact);
      }
      if fact in FactsOf(b) {
        CoveredIsHeld(b, a, fact);
      }
    }
  }

  /** Records of the same facts have the same sets, the same pins with the same
   *  values and times, and the same searches. */
  ghost predicate SameRecord(a: Decisions, b: Decisions) {
    && (forall name, key :: key in Keys(a, name) <==> key in Keys(b, name))
    && a.pins == b.pins
    && (forall e :: e in a.searches <==> e in b.searches)
  }

  lemma SameFactsSameRecord(a: Decisions, b: Decisions)
    ensures FactsOf(a) == FactsOf(b) <==> SameRecord(a, b)
  {
    if FactsOf(a) == FactsOf(b) {
      forall name, key ensures key in Keys(a, name) <==> key in Keys(b, name) {
        assert Decided(name, key) in FactsOf(a) <==> Decided(name, key) in FactsOf(b);
      }
      forall tag ensures tag in a.pins <==> tag in b.pins
        ensures tag in a.pins ==> a.pins[tag] == b.pins[tag]
      {
        if tag in a.pins {
          assert Pinned(tag, a.pins[tag].at, a.pins[tag].on) in FactsOf(a);
        }
        if tag in b.pins {
          assert Pinned(tag, b.pins[tag].at, b.pins[tag].on) in FactsOf(b);
        }
      }
      forall e ensures e in a.searches <==> e in b.searches {
        assert SearchedAt(e.q, e.at) in FactsOf(a) <==> SearchedAt(e.q, e.at) in FactsOf(b);
        assert Search(e.q, e.at) == e;
      }
    } else {
      var fact :| (fact in FactsOf(a)) != (fact in FactsOf(b));
      assert Holds(a, fact) != Holds(b, fact);
    }
  }

  // ---- What a merge keeps ----

  /** Nobody sets a pin to two values at one time. */
  ghost predicate NoClash(local: Decisions, remote: Decisions) {
    forall tag :: tag in local.pins && tag in remote.pins && local.pins[tag].at == remote.pins[tag].at ==>
      local.pins[tag].on == remote.pins[tag].on
  }

  /** A set of the merged record is the union of the two exactly when the union
   *  is within that set's own limit. */
  lemma MergeJoinsSetIff(local: Decisions, remote: Decisions, merged: Decisions, name: DecisionSet)
    requires IsMerge(local, remote, merged)
    ensures (forall key :: key in Keys(merged, name) <==> key in Keys(local, name) || key in Keys(remote, name)) <==>
      |Unique(Keys(remote, name) + Keys(local, name))| <= SetLimit(name)
  {
    var both := Keys(remote, name) + Keys(local, name);
    CappedKeepsAllIff(both, SetLimit(name));
    assert forall key :: key in both <==> key in Keys(local, name) || key in Keys(remote, name);
  }

  lemma MergedPinStands(local: Decisions, remote: Decisions, merged: Decisions, tag: string, at: int, on: bool)
    requires IsMerge(local, remote, merged) && NoClash(local, remote)
    requires Holds(local, Pinned(tag, at, on)) || Holds(remote, Pinned(tag, at, on))
    ensures Absorbed(FactsOf(merged), Pinned(tag, at, on))
  {
    assert tag in merged.pins;
    assert Pinned(tag, merged.pins[tag].at, merged.pins[tag].on) in FactsOf(merged);
  }

  /** The merge answers for both sides' words on every pin exactly when no pin
   *  was set to two values at one time; where one was, the account's word stands
   *  and nobody is told. */
  lemma MergeKeepsWordsIff(local: Decisions, remote: Decisions, merged: Decisions)
    requires IsMerge(local, remote, merged)
    ensures NoClash(local, remote) <==>
      forall tag, at, on :: Holds(local, Pinned(tag, at, on)) || Holds(remote, Pinned(tag, at, on)) ==>
        Absorbed(FactsOf(merged), Pinned(tag, at, on))
  {
    if NoClash(local, remote) {
      forall tag, at, on | Holds(local, Pinned(tag, at, on)) || Holds(remote, Pinned(tag, at, on))
        ensures Absorbed(FactsOf(merged), Pinned(tag, at, on))
      {
        MergedPinStands(local, remote, merged, tag, at, on);
      }
    } else {
      var tag :| tag in local.pins && tag in remote.pins && local.pins[tag].at == remote.pins[tag].at
        && local.pins[tag].on != remote.pins[tag].on;
      ClashIsLost(local, remote, merged, tag);
    }
  }

  lemma ClashIsLost(local: Decisions, remote: Decisions, merged: Decisions, tag: string)
    requires IsMerge(local, remote, merged) && tag in local.pins && tag in remote.pins
    requires local.pins[tag].at == remote.pins[tag].at && local.pins[tag].on != remote.pins[tag].on
    ensures Holds(local, Pinned(tag, local.pins[tag].at, local.pins[tag].on))
    ensures !Absorbed(FactsOf(merged), Pinned(tag, local.pins[tag].at, local.pins[tag].on))
    ensures merged.pins[tag] == remote.pins[tag] && !PinIsNews(local.pins, remote.pins, tag)
  {
  }

  /** A search of either side is in the merged list, as it was or newer, or the
   *  list is full of newer ones. */
  lemma MergedSearchStands(local: Decisions, remote: Decisions, merged: Decisions, q: string, at: int)
    requires IsMerge(local, remote, merged) && OneWord(FactsOf(local) + FactsOf(remote))
    requires Holds(local, SearchedAt(q, at)) || Holds(remote, SearchedAt(q, at))
    ensures Absorbed(FactsOf(merged), SearchedAt(q, at))
  {
    var a, b, m := local.searches, remote.searches, merged.searches;
    MergedSearchesAreNewest(a, b);
    NewestFacts(a + b, q);
    assert Search(q, at) in a + b;
    var t := NewestAt(a + b, q).value;
    if Search(q, t) in m {
      assert SearchedAt(q, t) in FactsOf(merged);
    } else {
      forall e | e in m ensures SearchedAt(e.q, e.at) in FactsOf(merged) && e.at > at {
        MergedIsOfBoth(local, remote, merged, e);
        assert Search(e.q, e.at) == e;
        InBoth(local, remote, Search(q, t));
        InBoth(local, remote, e);
      }
      assert CrowdedBy(FactsOf(merged), at, m);
    }
  }

  lemma InBoth(local: Decisions, remote: Decisions, e: Search)
    requires e in local.searches + remote.searches
    ensures SearchedAt(e.q, e.at) in FactsOf(local) + FactsOf(remote)
  {
    assert Search(e.q, e.at) == e;
    assert Holds(local, SearchedAt(e.q, e.at)) || Holds(remote, SearchedAt(e.q, e.at));
  }

  lemma MergedIsOfBoth(local: Decisions, remote: Decisions, merged: Decisions, e: Search)
    requires IsMerge(local, remote, merged) && e in merged.searches
    ensures e in local.searches + remote.searches
  {
    MergedSearchesAreNewest(local.searches, remote.searches);
    NewestFacts(local.searches + remote.searches, e.q);
    assert Search(e.q, e.at) == e;
  }

  ghost predicate WithinLimits(local: Decisions, remote: Decisions) {
    forall name :: |Unique(Keys(remote, name) + Keys(local, name))| <= SetLimit(name)
  }

  /** A merge holds nothing new, and within the limits of the sets, with one word
   *  at a time, it answers for everything either side held. However many
   *  searches there are. */
  lemma MergeAnswersForBoth(local: Decisions, remote: Decisions, merged: Decisions)
    requires IsMerge(local, remote, merged)
    ensures FactsOf(merged) <= FactsOf(local) + FactsOf(remote)
    ensures WithinLimits(local, remote) && OneWord(FactsOf(local) + FactsOf(remote)) ==>
      Covers(FactsOf(merged), FactsOf(local) + FactsOf(remote))
  {
    forall fact | fact in FactsOf(merged) ensures fact in FactsOf(local) + FactsOf(remote) {
      MergeInventsNothing(local, remote, merged, fact);
    }
    if WithinLimits(local, remote) && OneWord(FactsOf(local) + FactsOf(remote)) {
      forall fact | fact in FactsOf(local) + FactsOf(remote) ensures Absorbed(FactsOf(merged), fact) {
        match fact
        case Decided(name, key) =>
          MergeJoinsSetIff(local, remote, merged, name);
        case Pinned(tag, at, on) =>
          OneWordNoClash(local, remote);
          MergedPinStands(local, remote, merged, tag, at, on);
        case SearchedAt(q, at) =>
          MergedSearchStands(local, remote, merged, q, at);
      }
    }
  }

  lemma OneWordNoClash(local: Decisions, remote: Decisions)
    requires OneWord(FactsOf(local) + FactsOf(remote))
    ensures NoClash(local, remote)
  {
    forall tag | tag in local.pins && tag in remote.pins && local.pins[tag].at == remote.pins[tag].at
      ensures local.pins[tag].on == remote.pins[tag].on
    {
      assert Pinned(tag, local.pins[tag].at, local.pins[tag].on) in FactsOf(local) + FactsOf(remote);
      assert Pinned(tag, remote.pins[tag].at, remote.pins[tag].on) in FactsOf(local) + FactsOf(remote);
    }
  }

  lemma MergeInventsNothing(local: Decisions, remote: Decisions, merged: Decisions, fact: Fact)
    requires IsMerge(local, remote, merged) && Holds(merged, fact)
    ensures Holds(local, fact) || Holds(remote, fact)
  {
    match fact
    case Decided(name, key) => CappedKeepsAllIff(Keys(remote, name) + Keys(local, name), SetLimit(name));
    case Pinned(_, _, _) =>
    case SearchedAt(q, at) => MergedIsOfBoth(local, remote, merged, Search(q, at));
  }

  // ---- When a device knew more ----

  lemma SetNewsIff(local: Decisions, remote: Decisions)
    ensures SetNews(local, remote, SET_NAMES) <==>
      exists name, key :: Holds(local, Decided(name, key)) && !Holds(remote, Decided(name, key))
  {
    if SetNews(local, remote, SET_NAMES) {
      var i :| 0 <= i < |SET_NAMES| && KeyNews(local, remote, SET_NAMES[i]);
      var key :| key in Keys(local, SET_NAMES[i]) && key !in Keys(remote, SET_NAMES[i]);
      assert Holds(local, Decided(SET_NAMES[i], key)) && !Holds(remote, Decided(SET_NAMES[i], key));
    }
    if name, key :| Holds(local, Decided(name, key)) && !Holds(remote, Decided(name, key)) {
      AllNames(name);
      var i :| 0 <= i < |SET_NAMES| && SET_NAMES[i] == name;
      assert KeyNews(local, remote, SET_NAMES[i]);
    }
  }

  /** The merged six are not the account's six. */
  lemma SearchNewsIff(local: seq<Search>, remote: seq<Search>)
    requires OncePerQuery(remote) && |remote| <= RECENT_SEARCH_LIMIT
    ensures SearchNews(MergedSearches(local, remote), remote) <==> exists e :: (e in MergedSearches(local, remote)) != (e in remote)
  {
    if !SearchNews(MergedSearches(local, remote), remote) {
      SearchesAgree(local, remote);
    } else {
      var e :| e in MergedSearches(local, remote) && (NewestAt(remote, e.q).None? || e.at > NewestAt(remote, e.q).value);
      NewestFacts(remote, e.q);
      assert e !in remote;
    }
  }

  /** A list as a record of its own. */
  ghost function ListOf(searches: seq<Search>): iset<Fact> {
    FactsOf(Decisions(map[], searches, map[]))
  }

  /** Only its searches decide whether a record answers for one. */
  lemma SearchesDecide(s: iset<Fact>, t: iset<Fact>, fact: Fact)
    requires forall q, at :: SearchedAt(q, at) in s ==> SearchedAt(q, at) in t
    requires fact.SearchedAt? && Absorbed(s, fact)
    ensures Absorbed(t, fact)
  {
    if Crowded(s, fact.at) {
      var six: seq<Search> :| CrowdedBy(s, fact.at, six);
      assert CrowdedBy(t, fact.at, six);
    }
  }

  /** Six newer searches of the account's would be in the merged list as well. */
  lemma SixStay(local: Decisions, remote: Decisions, e: Search, six: seq<Search>)
    requires e in MergedSearches(local.searches, remote.searches) && CrowdedBy(FactsOf(remote), e.at, six)
    ensures Crowded(ListOf(MergedSearches(local.searches, remote.searches)), e.at)
  {
    var a, b := local.searches, remote.searches;
    var m := MergedSearches(a, b);
    MergedSearchesAreNewest(a, b);
    forall x | x in six ensures SearchedSince(ListOf(m), x.q, x.at) {
      assert Holds(remote, SearchedAt(x.q, x.at));
      assert Search(x.q, x.at) in a + b;
      NewestFacts(a + b, x.q);
      var t := NewestAt(a + b, x.q).value;
      assert Search(x.q, t) in m;
      assert SearchedAt(x.q, t) in ListOf(m);
    }
    var newer := AtLeastAsNew(ListOf(m), six);
    forall x | x in newer ensures SearchedAt(x.q, x.at) in ListOf(m) && x.at > e.at {
      var i :| 0 <= i < |newer| && newer[i] == x;
      assert six[i] in six;
    }
    assert CrowdedBy(ListOf(m), e.at, newer);
  }

  /** News of a search is one the account's list does not answer for. */
  lemma NewsOfSearch(local: Decisions, remote: Decisions, e: Search)
    requires e in MergedSearches(local.searches, remote.searches)
    requires NewestAt(remote.searches, e.q).None? || e.at > NewestAt(remote.searches, e.q).value
    ensures SearchedAt(e.q, e.at) in FactsOf(local) && !Absorbed(FactsOf(remote), SearchedAt(e.q, e.at))
  {
    var a, b := local.searches, remote.searches;
    var m := MergedSearches(a, b);
    MergedSearchesAreNewest(a, b);
    NewestFacts(a + b, e.q);
    NewestFacts(b, e.q);
    assert Search(e.q, e.at) == e && e in a + b && e !in b;
    assert forall t :: t >= e.at ==> Search(e.q, t) !in b;
    NotCrowdedByOwn(Decisions(map[], m, map[]), e);
    if six: seq<Search> :| CrowdedBy(FactsOf(remote), e.at, six) {
      SixStay(local, remote, e, six);
    }
  }

  lemma NoNewsIsRemote(local: seq<Search>, remote: seq<Search>, e: Search)
    requires !SearchNews(MergedSearches(local, remote), remote) && e in MergedSearches(local, remote)
    ensures e in remote
  {
    NewestFacts(remote, e.q);
    MergedSearchesAreNewest(local, remote);
    NewestOfBoth(local, remote, e.q, NewestAt(remote, e.q).value);
    assert Search(e.q, e.at) == e;
  }

  /** A search the account's list does not answer for makes news. */
  lemma UnansweredIsNews(local: Decisions, remote: Decisions, q: string, at: int)
    requires OneWord(FactsOf(local) + FactsOf(remote)) && Holds(local, SearchedAt(q, at))
    ensures SearchNews(MergedSearches(local.searches, remote.searches), remote.searches) ||
      Absorbed(FactsOf(remote), SearchedAt(q, at))
  {
    var merged := Merge(local, remote);
    MergeIsMerge(local, remote);
    MergedSearchStands(local, remote, merged, q, at);
    if !SearchNews(merged.searches, remote.searches) {
      forall p, t | SearchedAt(p, t) in FactsOf(merged) ensures SearchedAt(p, t) in FactsOf(remote) {
        NoNewsIsRemote(local.searches, remote.searches, Search(p, t));
      }
      SearchesDecide(FactsOf(merged), FactsOf(remote), SearchedAt(q, at));
    }
  }

  lemma PinNewsIff(local: Decisions, remote: Decisions)
    requires NoClash(local, remote)
    ensures PinNews(local.pins, remote.pins, local.pins.Keys) <==>
      exists tag, at, on :: Holds(local, Pinned(tag, at, on)) && !Absorbed(FactsOf(remote), Pinned(tag, at, on))
  {
    if PinNews(local.pins, remote.pins, local.pins.Keys) {
      var tag :| tag in local.pins.Keys && PinIsNews(local.pins, remote.pins, tag);
      assert Holds(local, Pinned(tag, local.pins[tag].at, local.pins[tag].on));
      assert !Absorbed(FactsOf(remote), Pinned(tag, local.pins[tag].at, local.pins[tag].on));
    }
    if tag, at, on :| Holds(local, Pinned(tag, at, on)) && !Absorbed(FactsOf(remote), Pinned(tag, at, on)) {
      assert tag in local.pins.Keys;
      if tag in remote.pins {
        assert Pinned(tag, remote.pins[tag].at, remote.pins[tag].on) in FactsOf(remote);
      }
      assert PinIsNews(local.pins, remote.pins, tag);
    }
  }

  /** With one word at a time the device knew more exactly when it holds a fact
   *  the account's record does not answer for, whatever the limits. */
  lemma KnewMoreIff(local: Decisions, remote: Decisions)
    requires OneWord(FactsOf(local) + FactsOf(remote))
    ensures KnewMore(local, remote) <==> !Covers(FactsOf(remote), FactsOf(local))
  {
    SetNewsIff(local, remote);
    OneWordNoClash(local, remote);
    PinNewsIff(local, remote);
    if KnewMore(local, remote) {
      if SetNews(local, remote, SET_NAMES) {
        var name, key :| Holds(local, Decided(name, key)) && !Holds(remote, Decided(name, key));
        assert Decided(name, key) in FactsOf(local);
      } else if PinNews(local.pins, remote.pins, local.pins.Keys) {
        var tag, at, on :| Holds(local, Pinned(tag, at, on)) && !Absorbed(FactsOf(remote), Pinned(tag, at, on));
        assert Pinned(tag, at, on) in FactsOf(local);
      } else {
        var merged := MergedSearches(local.searches, remote.searches);
        var e :| e in merged && (NewestAt(remote.searches, e.q).None? || e.at > NewestAt(remote.searches, e.q).value);
        NewsOfSearch(local, remote, e);
      }
    }
    if fact :| fact in FactsOf(local) && !Absorbed(FactsOf(remote), fact) {
      assert Holds(local, fact);
      match fact
      case Decided(_, _) =>
      case Pinned(_, _, _) =>
      case SearchedAt(q, at) => UnansweredIsNews(local, remote, q, at);
    }
  }

  // ---- Histories ----

  /** The record holds some of the facts and answers for all. */
  ghost predicate Represents(d: Decisions, history: iset<Fact>) {
    FactsOf(d) <= history && Covers(FactsOf(d), history)
  }

  lemma MergeRepresents(local: Decisions, l: iset<Fact>, remote: Decisions, r: iset<Fact>, merged: Decisions)
    requires Represents(local, l) && Represents(remote, r) && IsMerge(local, remote, merged)
    requires WithinLimits(local, remote) && OneWord(l + r)
    ensures Represents(merged, l + r)
  {
    var both := FactsOf(local) + FactsOf(remote);
    assert OneWord(both);
    MergeAnswersForBoth(local, remote, merged);
    CoversBoth(FactsOf(merged), FactsOf(local), FactsOf(remote));
    CoversThrough(FactsOf(merged), FactsOf(local), l);
    CoversThrough(FactsOf(merged), FactsOf(remote), r);
    CoversBoth(FactsOf(merged), l, r);
  }

  lemma NewsOfHistories(local: Decisions, l: iset<Fact>, remote: Decisions, r: iset<Fact>)
    requires Represents(local, l) && Represents(remote, r) && OneWord(l + r)
    ensures KnewMore(local, remote) <==> !Covers(r, l)
  {
    assert OneWord(FactsOf(local) + FactsOf(remote));
    KnewMoreIff(local, remote);
    HeldIsAbsorbed(r, FactsOf(remote));
    HeldIsAbsorbed(l, FactsOf(local));
    if Covers(FactsOf(remote), FactsOf(local)) {
      CoversThrough(r, FactsOf(remote), FactsOf(local));
      CoversThrough(r, FactsOf(local), l);
    }
    if Covers(r, l) {
      CoversThrough(FactsOf(remote), r, l);
      forall fact | fact in FactsOf(local) ensures Absorbed(FactsOf(remote), fact) {
        assert fact in l;
      }
    }
  }

  /** Histories that answer for each other are represented by the same record. */
  lemma SameHistorySameRecord(a: Decisions, x: iset<Fact>, b: Decisions, y: iset<Fact>)
    requires Represents(a, x) && Represents(b, y) && Covers(x, y) && Covers(y, x) && Canonical(a) && Canonical(b)
    ensures SameRecord(a, b)
  {
    CoversThrough(FactsOf(a), x, y);
    CoversThrough(FactsOf(b), y, x);
    forall fact | fact in FactsOf(b) ensures Absorbed(FactsOf(a), fact) {
      assert fact in y;
    }
    forall fact | fact in FactsOf(a) ensures Absorbed(FactsOf(b), fact) {
      assert fact in x;
    }
    SameFacts(a, b);
    SameFactsSameRecord(a, b);
  }

  // ---- What recording does to a history ----

  ghost function KeyFacts(name: DecisionSet, keys: seq<string>): iset<Fact> {
    iset key | key in keys :: Decided(name, key)
  }

  lemma KeysRepresent(d: Decisions, history: iset<Fact>, name: DecisionSet, keys: seq<string>)
    requires Represents(d, history) && |Unique(Keys(d, name) + keys)| <= SetLimit(name)
    ensures Represents(WithKeys(d, name, keys), history + KeyFacts(name, keys))
  {
    var d' := WithKeys(d, name, keys);
    CappedKeepsAllIff(Keys(d, name) + keys, SetLimit(name));
    forall n, key ensures key in Keys(d', n) <==> key in Keys(d, n) || (n == name && key in keys) {
      if n == name && !HasNewKey(d, name, keys) && key in keys {
        var i :| 0 <= i < |keys| && keys[i] == key;
      }
    }
    forall fact ensures fact in FactsOf(d') <==> fact in FactsOf(d) || fact in KeyFacts(name, keys) {
      assert fact in FactsOf(d') <==> Holds(d', fact);
    }
    HeldIsAbsorbed(FactsOf(d'), FactsOf(d));
    HeldIsAbsorbed(FactsOf(d'), KeyFacts(name, keys));
    CoversThrough(FactsOf(d'), FactsOf(d), history);
    CoversBoth(FactsOf(d'), history, KeyFacts(name, keys));
  }

  /** A new word on a pin stands, and the record answers for all that was said,
   *  exactly when the clock has moved on since the word it replaces. */
  lemma PinRepresentsIff(d: Decisions, history: iset<Fact>, tag: string, on: bool, at: int)
    requires Represents(d, history) && !SaysAgain(d, tag, on)
    ensures Represents(WithPin(d, tag, on, at), history + iset{Pinned(tag, at, on)}) <==>
      tag !in d.pins || at > d.pins[tag].at
  {
    var d', fact := WithPin(d, tag, on, at), Pinned(tag, at, on);
    assert fact in FactsOf(d');
    if tag !in d.pins || at > d.pins[tag].at {
      forall f | f in FactsOf(d) ensures Absorbed(FactsOf(d'), f) {
        if f.Pinned? && f.tag == tag {
          assert fact in FactsOf(d');
        } else {
          assert f in FactsOf(d');
          HeldIsAbsorbed(FactsOf(d'), iset{f});
        }
      }
      CoversThrough(FactsOf(d'), FactsOf(d), history);
      HeldIsAbsorbed(FactsOf(d'), iset{fact});
      CoversBoth(FactsOf(d'), history, iset{fact});
      forall f | f in FactsOf(d') ensures f in history + iset{fact} {
        assert f == fact || f in FactsOf(d);
      }
    } else {
      var held := Pinned(tag, d.pins[tag].at, d.pins[tag].on);
      assert held in FactsOf(d) && held in history;
      assert !Absorbed(FactsOf(d'), held);
    }
  }

  /** A word with an older time than the account's is undone by the next merge:
   *  the record that took it does not answer for the newer word it replaced. */
  lemma OlderWordIsUndone(local: Decisions, remote: Decisions, merged: Decisions, tag: string, on: bool, at: int)
    requires tag in remote.pins && local.pins == remote.pins && !SaysAgain(local, tag, on) && at <= local.pins[tag].at
    requires IsMerge(WithPin(local, tag, on, at), remote, merged)
    ensures merged.pins == remote.pins && merged.pins[tag].on != on
  {
    assert merged.pins == remote.pins;
  }

  /** A record with one more search answers for its searches and that one. */
  lemma SearchJoins(d: Decisions, q: string, at: int, fact: Fact)
    requires q != "" && OneWord(FactsOf(d) + iset{SearchedAt(q, at)})
    ensures fact.SearchedAt? && (fact in FactsOf(d) || fact == SearchedAt(q, at)) ==> Absorbed(FactsOf(WithSearch(d, q, at)), fact)
    ensures fact in FactsOf(WithSearch(d, q, at)) ==> fact in FactsOf(d) || fact == SearchedAt(q, at)
    ensures !fact.SearchedAt? ==> (fact in FactsOf(WithSearch(d, q, at)) <==> fact in FactsOf(d))
  {
    var one := Decisions(map[], [Search(q, at)], map[]);
    var d', merged := WithSearch(d, q, at), Merge(d, one);
    MergeIsMerge(d, one);
    forall f ensures f in FactsOf(one) <==> f == SearchedAt(q, at) {
      assert f in FactsOf(one) <==> Holds(one, f);
    }
    assert OneWord(FactsOf(d) + FactsOf(one));
    if fact.SearchedAt? {
      if fact in FactsOf(d) || fact in FactsOf(one) {
        MergedSearchStands(d, one, merged, fact.q, fact.at);
        SearchesDecide(FactsOf(merged), FactsOf(d'), fact);
      }
      if fact in FactsOf(d') {
        MergeInventsNothing(d, one, merged, fact);
      }
    }
  }

  lemma SearchRepresents(d: Decisions, history: iset<Fact>, q: string, at: int)
    requires Represents(d, history) && q != "" && OneWord(history + iset{SearchedAt(q, at)})
    ensures Represents(WithSearch(d, q, at), history + iset{SearchedAt(q, at)})
  {
    var d', fact := WithSearch(d, q, at), SearchedAt(q, at);
    assert OneWord(FactsOf(d) + iset{fact});
    forall f | f in FactsOf(d) + iset{fact} ensures Absorbed(FactsOf(d'), f) {
      SearchJoins(d, q, at, f);
    }
    forall f | f in FactsOf(d') ensures f in history + iset{fact} {
      SearchJoins(d, q, at, f);
    }
    CoversBoth(FactsOf(d'), FactsOf(d), iset{fact});
    CoversThrough(FactsOf(d'), FactsOf(d), history);
    CoversBoth(FactsOf(d'), history, iset{fact});
  }

  // ---- Searches that share a time ----

  ghost predicate AllAt(searches: seq<Search>, at: int) {
    forall e :: e in searches ==> e.at == at
  }

  lemma {:induction false} NotedLater(entries: seq<Search>, e: Search, at: int)
    requires AllAt(entries, at) && e.at == at
    ensures Noted(entries, e) == if exists x :: x in entries && x.q == e.q then entries else entries + [e]
  {
    if entries != [] {
      assert entries == [entries[0]] + entries[1..];
      NotedLater(entries[1..], e, at);
    }
  }

  lemma AllButLast(a: seq<Search>, at: int)
    requires a != [] && AllAt(a, at)
    ensures AllAt(a[..|a| - 1], at) && a[|a| - 1].at == at
  {
    var n := |a| - 1;
    assert a[n] in a;
    forall e | e in a[..n] ensures e.at == at {
      var i :| 0 <= i < n && a[..n][i] == e;
      assert a[i] in a;
    }
  }

  /** Queries come in the order they first occur. */
  lemma {:induction false} NewestStarts(a: seq<Search>, b: seq<Search>, at: int)
    requires OncePerQuery(a) && AllAt(a + b, at)
    ensures a <= Newest(a + b) && AllAt(Newest(a + b), at)
    decreases |b|
  {
    if b != [] {
      var n := |b| - 1;
      AllButLast(a + b, at);
      assert (a + b)[..|a + b| - 1] == a + b[..n] && (a + b)[|a + b| - 1] == b[n];
      NewestStarts(a, b[..n], at);
      NotedLater(Newest(a + b[..n]), b[n], at);
    } else {
      assert a + b == a;
      NewestIsWhole(a, at);
    }
  }

  lemma {:induction false} NewestIsWhole(a: seq<Search>, at: int)
    requires OncePerQuery(a) && AllAt(a, at)
    ensures Newest(a) == a
  {
    if a != [] {
      var n := |a| - 1;
      AllButLast(a, at);
      NewestIsWhole(a[..n], at);
      NotedLater(a[..n], a[n], at);
      assert a == a[..n] + [a[n]];
    }
  }

  lemma {:induction false} PlacedLast(e: Search, sorted: seq<Search>, at: int)
    requires AllAt(sorted, at) && e.at == at
    ensures Place(e, sorted) == sorted + [e]
  {
    if sorted != [] {
      assert sorted[0] in sorted && forall x :: x in sorted[1..] ==> x in sorted;
      PlacedLast(e, sorted[1..], at);
    }
  }

  lemma {:induction false} SortIsStable(entries: seq<Search>, at: int)
    requires AllAt(entries, at)
    ensures SortedNewest(entries) == entries
  {
    if entries != [] {
      var n := |entries| - 1;
      assert entries[n] in entries && forall x :: x in entries[..n] ==> x in entries;
      SortIsStable(entries[..n], at);
      PlacedLast(entries[n], entries[..n], at);
    }
  }

  /** Two full lists of searches made at one time: a merge is the device's own
   *  list again, so each of two devices takes its own for news and pushes it,
   *  without end. */
  lemma TiedSearchesNeverAgree(mine: seq<Search>, theirs: seq<Search>, at: int, e: Search)
    requires OncePerQuery(mine) && AllAt(mine + theirs, at) && |mine| == RECENT_SEARCH_LIMIT && e in mine && e !in theirs
    ensures MergedSearches(mine, theirs) == mine && SearchNews(MergedSearches(mine, theirs), theirs)
  {
    NewestStarts(mine, theirs, at);
    SortIsStable(Newest(mine + theirs), at);
    NewestFacts(theirs, e.q);
    assert e in mine + theirs && forall x :: x in theirs ==> x in mine + theirs;
    assert forall t :: Search(e.q, t) in theirs ==> t == at && Search(e.q, t) == e;
  }
}
