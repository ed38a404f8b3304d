/** Pokes that tell an account's open streams to pull. */
module Pokes {
  // Streams of an account sit in a set that is an object of its own: a stream
  // keeps hold of the set it joined, which is not the account's current one once
  // everybody left it.

  datatype User = User(id: nat)
  datatype Sink = Sink(id: nat)
  datatype SetId = SetId(id: nat)

  /** What a stream needs to leave. */
  datatype Handle = Handle(user: User, set_: SetId, sink: Sink)

  /** `written` is history: the sequences each stream was poked with. */
  datatype Events = Events(
    sinks: map<User, SetId>, sets: map<SetId, seq<Sink>>, fresh_: nat,
    pending: map<User, nat>, flush: bool, written: map<Sink, seq<nat>>)

  const STREAMS_PER_USER: nat := 16

  const QUIET := Events(map[], map[], 0, map[], false, map[])

  function Note(e: Events, user: User, n: nat): Events {
    if user in e.pending && e.pending[user] >= n then e
    else e.(pending := e.pending[user := n], flush := true)
  }

  function Members(e: Events, set_: SetId): seq<Sink> {
    if set_ in e.sets then e.sets[set_] else []
  }

  /** The streams a poke of the account reaches. */
  function Reached(e: Events, user: User): seq<Sink> {
    if user in e.sinks then Members(e, e.sinks[user]) else []
  }

  /** The account's current set, a new one if it has none. */
  function Current(e: Events, user: User): Events {
    if user in e.sinks then e
    else e.(sinks := e.sinks[user := SetId(e.fresh_)], sets := e.sets[SetId(e.fresh_) := []], fresh_ := e.fresh_ + 1)
  }

  /** The newest members, so that one more fits. */
  function Trimmed(members: seq<Sink>, cap: nat): seq<Sink> {
    if |members| >= cap && members != [] then Trimmed(members[1..], cap) else members
  }

  function Subscribe(e: Events, user: User, sink: Sink, cap: nat): (Events, Handle) {
    var c := Current(e, user);
    var id := c.sinks[user];
    (c.(sets := c.sets[id := Trimmed(Members(c, id), cap) + [sink]]), Handle(user, id, sink))
  }

  function Remove(members: seq<Sink>, sink: Sink): seq<Sink> {
    if members == [] then []
    else if members[0] == sink then Remove(members[1..], sink)
    else [members[0]] + Remove(members[1..], sink)
  }

  function Unsubscribe(e: Events, handle: Handle): Events {
    var left := Remove(Members(e, handle.set_), handle.sink);
    var e' := e.(sets := e.sets[handle.set_ := left]);
    if left == [] then e'.(sinks := e'.sinks - {handle.user}) else e'
  }

  function Said(written: map<Sink, seq<nat>>, sink: Sink): seq<nat> {
    if sink in written then written[sink] else []
  }

  /** What a stream was told between two histories. */
  function News(before: map<Sink, seq<nat>>, after: map<Sink, seq<nat>>, sink: Sink): seq<nat> {
    if Said(before, sink) <= Said(after, sink) then Said(after, sink)[|Said(before, sink)|..] else []
  }

  /** Each of the streams is written to in turn. */
  function Poke(written: map<Sink, seq<nat>>, sinks: seq<Sink>, n: nat): map<Sink, seq<nat>>
    decreases |sinks|
  {
    if sinks == [] then written
    else Poke(written[sinks[0] := Said(written, sinks[0]) + [n]], sinks[1..], n)
  }

  /** Between two histories the stream was written exactly sequences of these
   *  accounts' pending ones, and all of those of accounts that reach it: once for
   *  a stream that is in one account's set once. */
  ghost predicate PokedFor(e: Events, users: set<User>, written: map<Sink, seq<nat>>, sink: Sink)
    requires users <= e.pending.Keys
  {
    && Said(e.written, sink) <= Said(written, sink)
    && var news := News(e.written, written, sink);
    && (forall user :: user in users && sink in Reached(e, user) ==> e.pending[user] in news)
    && (forall n :: n in news ==> exists user :: user in users && sink in Reached(e, user) && e.pending[user] == n)
    && (forall user :: user in users && OnlyReachedBy(e, users, user, sink) ==> |news| == multiset(Reached(e, user))[sink])
  }

  /** Of these accounts the stream is no other's. */
  ghost predicate OnlyReachedBy(e: Events, users: set<User>, user: User, sink: Sink) {
    forall other :: other in users && other != user ==> sink !in Reached(e, other)
  }

  ghost predicate AllPoked(e: Events, users: set<User>, written: map<Sink, seq<nat>>) {
    users <= e.pending.Keys && forall sink :: PokedFor(e, users, written, sink)
  }

  /** Every stream of every account with a pending sequence is poked with it,
   *  and nothing else is written. */
  ghost predicate Delivered(e: Events, e': Events) {
    && e' == e.(flush := false, pending := map[], written := e'.written)
    && AllPoked(e, e.pending.Keys, e'.written)
  }

  // ---- Sets that outlive their place ----

  /** A leaving stream takes the whole account off the list exactly when its own
   *  set is empty without it; that concerns others when theirs is another. */
  lemma OthersStayReachedIff(e: Events, handle: Handle, sink: Sink)
    requires sink in Reached(e, handle.user) && sink != handle.sink
    ensures sink in Reached(Unsubscribe(e, handle), handle.user) <==>
      e.sinks[handle.user] == handle.set_ || Remove(Members(e, handle.set_), handle.sink) != []
  {
    RemoveKeeps(Members(e, handle.set_), handle.sink);
    var e' := Unsubscribe(e, handle);
    if handle.user in e'.sinks && e.sinks[handle.user] != handle.set_ {
      assert Members(e', e.sinks[handle.user]) == Members(e, e.sinks[handle.user]);
    }
  }

  lemma {:induction false} RemoveKeeps(members: seq<Sink>, sink: Sink)
    ensures forall s :: s in Remove(members, sink) <==> s in members && s != sink
  {
    if members != [] {
      RemoveKeeps(members[1..], sink);
    }
  }

  function Range(lo: nat, hi: nat): seq<Sink>
    decreases hi - lo
  {
    if lo < hi then [Sink(lo)] + Range(lo + 1, hi) else []
  }

  lemma {:induction false} RangeFacts(lo: nat, hi: nat)
    requires lo <= hi
    ensures |Range(lo, hi)| == hi - lo && Range(lo, hi + 1) == Range(lo, hi) + [Sink(hi)]
    ensures forall s :: s in Range(lo, hi) ==> lo <= s.id < hi
    decreases hi - lo
  {
    if lo < hi {
      RangeFacts(lo + 1, hi);
    }
  }

  /** One account's streams `lo` up to, not including, `hi`, all in set 0. */
  ghost predicate Holding(e: Events, user: User, lo: nat, hi: nat) {
    lo <= hi && SetId(0) in e.sets && e.sets[SetId(0)] == Range(lo, hi) && e.fresh_ == 1
    && (lo < hi ==> user in e.sinks && e.sinks[user] == SetId(0))
    && (lo == hi ==> user !in e.sinks)
  }

  function Join(e: Events, user: User, lo: nat, hi: nat, cap: nat): Events
    decreases hi - lo
  {
    if lo < hi then Join(Subscribe(e, user, Sink(lo), cap).0, user, lo + 1, hi, cap) else e
  }

  function Leave(e: Events, user: User, lo: nat, hi: nat): Events
    decreases hi - lo
  {
    if lo < hi then Leave(Unsubscribe(e, Handle(user, SetId(0), Sink(lo))), user, lo + 1, hi) else e
  }

  lemma {:induction false} JoinFacts(e: Events, user: User, n: nat, hi: nat, cap: nat)
    requires n <= hi <= cap && (n == 0 ==> e == QUIET) && (n > 0 ==> Holding(e, user, 0, n))
    ensures hi > 0 ==> Holding(Join(e, user, n, hi, cap), user, 0, hi)
    decreases hi - n
  {
    if n < hi {
      RangeFacts(0, n);
      var e' := Subscribe(e, user, Sink(n), cap).0;
      assert Range(0, n + 1) == Range(0, n) + [Sink(n)];
      JoinFacts(e', user, n + 1, hi, cap);
    }
  }

  lemma {:induction false} LeaveFacts(e: Events, user: User, lo: nat, hi: nat)
    requires lo < hi && Holding(e, user, lo, hi)
    ensures Holding(Leave(e, user, lo, hi), user, hi, hi)
    decreases hi - lo
  {
    RangeFacts(lo + 1, hi);
    assert Range(lo, hi)[1..] == Range(lo + 1, hi);
    RemoveNothing(Range(lo + 1, hi), Sink(lo));
    if lo + 1 < hi {
      LeaveFacts(Unsubscribe(e, Handle(user, SetId(0), Sink(lo))), user, lo + 1, hi);
    }
  }

  lemma {:induction false} RemoveNothing(members: seq<Sink>, sink: Sink)
    requires sink !in members
    ensures Remove(members, sink) == members
  {
    if members != [] {
      RemoveNothing(members[1..], sink);
    }
  }

  /** For any cap: when the stream evicted by the cap is last to close, after
   *  the others left and a new one came, the new one is never reached again
   *  although it is still in its set. */
  lemma LateCloseCutsOffANewStream(user: User, cap: nat)
    requires cap > 0
    ensures var full := Join(QUIET, user, 0, cap, cap);
      var evicted := Subscribe(full, user, Sink(cap), cap).0;
      var empty := Leave(evicted, user, 1, cap + 1);
      var (joined, handle) := Subscribe(empty, user, Sink(cap + 1), cap);
      var cut := Unsubscribe(joined, Handle(user, SetId(0), Sink(0)));
      && Sink(cap + 1) in Reached(joined, user)
      && Reached(cut, user) == [] && Sink(cap + 1) in Members(cut, handle.set_)
  {
    JoinFacts(QUIET, user, 0, cap, cap);
    var full := Join(QUIET, user, 0, cap, cap);
    RangeFacts(0, cap);
    RangeFacts(1, cap);
    assert Range(0, cap)[1..] == Range(1, cap);
    assert Trimmed(Range(0, cap), cap) == Range(1, cap);
    var evicted := Subscribe(full, user, Sink(cap), cap).0;
    assert Holding(evicted, user, 1, cap + 1);
    LeaveFacts(evicted, user, 1, cap + 1);
    var empty := Leave(evicted, user, 1, cap + 1);
    var (joined, handle) := Subscribe(empty, user, Sink(cap + 1), cap);
    assert handle.set_ == SetId(1);
    assert Remove([], Sink(0)) == [];
  }

  // ---- The object ----

  /** `n`, so many times. */
  function Times(n: nat, count: nat): seq<nat> {
    seq(count, i requires 0 <= i < count => n)
  }

  /** A stream is told `n` once for each seat it has. */
  lemma {:induction false} PokeFacts(written: map<Sink, seq<nat>>, sinks: seq<Sink>, n: nat, sink: Sink)
    ensures Said(Poke(written, sinks, n), sink) == Said(written, sink) + Times(n, multiset(sinks)[sink])
    decreases |sinks|
  {
    if sinks != [] {
      var next := written[sinks[0] := Said(written, sinks[0]) + [n]];
      PokeFacts(next, sinks[1..], n, sink);
      assert sinks == [sinks[0]] + sinks[1..];
      assert multiset(sinks)[sink] == multiset(sinks[1..])[sink] + if sink == sinks[0] then 1 else 0;
    }
  }

  /** What the stream has been told when one more account is done. */
  lemma NewsGrows(e: Events, users: set<User>, written: map<Sink, seq<nat>>, user: User, sink: Sink)
    requires users <= e.pending.Keys && user in e.pending && PokedFor(e, users, written, sink)
    ensures var written' := Poke(written, Reached(e, user), e.pending[user]);
      && Said(e.written, sink) <= Said(written', sink)
      && News(e.written, written', sink) ==
           News(e.written, written, sink) + Times(e.pending[user], multiset(Reached(e, user))[sink])
  {
    PokeFacts(written, Reached(e, user), e.pending[user], sink);
  }

  lemma NobodysIsUntold(e: Events, users: set<User>, written: map<Sink, seq<nat>>, sink: Sink)
    requires users <= e.pending.Keys && PokedFor(e, users, written, sink)
    ensures (forall u :: u in users ==> sink !in Reached(e, u)) ==> News(e.written, written, sink) == []
  {
    var news := News(e.written, written, sink);
    assert news == [] || news[0] in news;
  }

  lemma OnceIsEnough(e: Events, users: set<User>, written: map<Sink, seq<nat>>, user: User, u: User, sink: Sink)
    requires users <= e.pending.Keys && user in e.pending && user !in users && PokedFor(e, users, written, sink)
    requires u in users + {user} && OnlyReachedBy(e, users + {user}, u, sink)
    ensures |News(e.written, written, sink)| + multiset(Reached(e, user))[sink] == multiset(Reached(e, u))[sink]
  {
    if u == user {
      NobodysIsUntold(e, users, written, sink);
    } else {
      assert OnlyReachedBy(e, users, u, sink) && sink !in Reached(e, user);
    }
  }

  lemma PokedOnes(e: Events, users: set<User>, written: map<Sink, seq<nat>>, user: User, sink: Sink)
    requires users <= e.pending.Keys && user in e.pending && PokedFor(e, users, written, sink)
    ensures var news := News(e.written, Poke(written, Reached(e, user), e.pending[user]), sink);
      && (forall u :: u in users + {user} && sink in Reached(e, u) ==> e.pending[u] in news)
      && (forall n :: n in news ==> exists u :: u in users + {user} && sink in Reached(e, u) && e.pending[u] == n)
  {
    NewsGrows(e, users, written, user, sink);
    var before, times := News(e.written, written, sink), Times(e.pending[user], multiset(Reached(e, user))[sink]);
    assert sink in Reached(e, user) ==> times[0] == e.pending[user];
    forall n | n in before + times ensures exists u :: u in users + {user} && sink in Reached(e, u) && e.pending[u] == n {
      if n in before {
        var u :| u in users && sink in Reached(e, u) && e.pending[u] == n;
        assert u in users + {user};
      } else {
        assert n in times && user in users + {user};
      }
    }
  }

  lemma PokeOne(e: Events, users: set<User>, written: map<Sink, seq<nat>>, user: User, sink: Sink)
    requires users <= e.pending.Keys && user in e.pending && user !in users && PokedFor(e, users, written, sink)
    ensures PokedFor(e, users + {user}, Poke(written, Reached(e, user), e.pending[user]), sink)
  {
    NewsGrows(e, users, written, user, sink);
    PokedOnes(e, users, written, user, sink);
    forall u | u in users + {user} && OnlyReachedBy(e, users + {user}, u, sink)
      ensures |News(e.written, written, sink)| + multiset(Reached(e, user))[sink] == multiset(Reached(e, u))[sink]
    {
      OnceIsEnough(e, users, written, user, u, sink);
    }
  }

  lemma PokeNext(e: Events, users: set<User>, rest: set<User>, written: map<Sink, seq<nat>>, user: User)
    requires AllPoked(e, users, written) && user in rest && users !! rest && users + rest == e.pending.Keys
    ensures user in e.pending && AllPoked(e, users + {user}, Poke(written, Reached(e, user), e.pending[user]))
  {
    forall sink ensures PokedFor(e, users + {user}, Poke(written, Reached(e, user), e.pending[user]), sink) {
      PokeOne(e, users, written, user, sink);
    }
  }

  class SeqEvents {
    var sinks: map<User, SetId>
    /** The set objects, by identity. */
    var sets: map<SetId, seq<Sink>>
    var fresh_: nat
    var pending: map<User, nat>
    var flush: bool
    ghost var written: map<Sink, seq<nat>>

    ghost function View(): Events
      reads this
    {
      Events(sinks, sets, fresh_, pending, flush, written)
    }

    constructor ()
      ensures View() == QUIET
    {
      sinks, sets, fresh_, pending, flush, written := map[], map[], 0, map[], false, map[];
    }

    method NoteSeq(user: User, n: nat)
      modifies this`pending, this`flush
      ensures View() == Note(old(View()), user, n)
    {
      if user in pending && pending[user] >= n {
        return;
      }
      pending := pending[user := n];
      flush := true;
    }

    /** Ends the oldest streams until one more fits. */
    static method EndOldest(members: seq<Sink>) returns (ended: seq<Sink>, left: seq<Sink>)
      ensures members == ended + left && left == Trimmed(members, STREAMS_PER_USER)
      ensures |left| == if |members| < STREAMS_PER_USER then |members| else STREAMS_PER_USER - 1
    {
      ended, left := [], members;
      while |left| >= STREAMS_PER_USER
        invariant members == ended + left && Trimmed(members, STREAMS_PER_USER) == Trimmed(left, STREAMS_PER_USER)
        invariant |left| >= STREAMS_PER_USER - 1 || ended == []
        decreases |left|
      {
        ended := ended + [left[0]];
        left := left[1..];
      }
    }

    method SubscribeTo(user: User, sink: Sink) returns (handle: Handle, ended: seq<Sink>)
      modifies this`sinks, this`sets, this`fresh_
      ensures (View(), handle) == Subscribe(old(View()), user, sink, STREAMS_PER_USER)
      ensures handle == Handle(user, handle.set_, sink) && View().sinks == old(View()).sinks[user := handle.set_]
      ensures Reached(old(View()), user) + [sink] == ended + Reached(View(), user)
      ensures |Reached(View(), user)| == if |Reached(old(View()), user)| < STREAMS_PER_USER then |Reached(old(View()), user)| + 1
        else STREAMS_PER_USER
      ensures forall id :: id != handle.set_ ==> Members(View(), id) == Members(old(View()), id)
    {
      if user !in sinks {
        sinks := sinks[user := SetId(fresh_)];
        sets := sets[SetId(fresh_) := []];
        fresh_ := fresh_ + 1;
      }
      var id := sinks[user];
      var left;
      ended, left := EndOldest(if id in sets then sets[id] else []);
      sets := sets[id := left + [sink]];
      handle := Handle(user, id, sink);
    }

    method UnsubscribeFrom(handle: Handle)
      modifies this`sinks, this`sets
      ensures View() == Unsubscribe(old(View()), handle)
      ensures forall s :: s in Members(View(), handle.set_) <==> s in Members(old(View()), handle.set_) && s != handle.sink
      ensures forall id :: id != handle.set_ ==> Members(View(), id) == Members(old(View()), id)
      ensures View().sinks == old(View()).sinks - if Members(View(), handle.set_) == [] then {handle.user} else {}
    {
      RemoveKeeps(if handle.set_ in sets then sets[handle.set_] else [], handle.sink);
      var left := Remove(if handle.set_ in sets then sets[handle.set_] else [], handle.sink);
      sets := sets[handle.set_ := left];
      if left == [] {
        sinks := sinks - {handle.user};
      }
    }

    /** Pokes the streams of each account of a batch. */
    method DeliverBatch(batch: map<User, nat>, ghost e: Events)
      requires sinks == e.sinks && sets == e.sets && batch == e.pending && written == e.written
      modifies this`written
      ensures AllPoked(e, e.pending.Keys, written)
    {
      var users := batch.Keys;
      ghost var done: set<User> := {};
      while users != {}
        invariant done + users == e.pending.Keys && done !! users
        invariant AllPoked(e, done, written)
        decreases |users|
      {
        var user :| user in users;
        PokeNext(e, done, users, written, user);
        written := Poke(written, Reached(e, user), batch[user]);
        done := done + {user};
        users := users - {user};
      }
      assert done == e.pending.Keys;
    }

    method Deliver()
      modifies this`flush, this`pending, this`written
      ensures Delivered(old(View()), View())
    {
      ghost var e := View();
      flush := false;
      var batch := pending;
      pending := map[];
      DeliverBatch(batch, e);
    }
  }
}
