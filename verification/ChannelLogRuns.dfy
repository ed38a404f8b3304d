/**
 * Runs of the channel log that leave its assumptions, and what they cost: a
 * socket at rest that never gets a committed row.
 */
module ChannelLogRuns {
  import opened Prelude
  import opened ChannelLog

  /** Two instances, 0 and 1. */
  function Pair(head: nat, rows: map<nat, ConnId>, posts: set<Post>, outbox: set<Envelope>, announced: set<nat>,
                a: Pod, b: Pod): World
  {
    World(head, rows, posts, outbox, announced, map[Instance(0) := a, Instance(1) := b])
  }

  const TWO_PODS := Pair(0, map[], {}, {}, {}, FRESH_POD, FRESH_POD)

  ghost predicate Reached(w: World) {
    exists steps :: Execute(TWO_PODS, steps) == w
  }

  lemma Then(w: World, step: Step, w': World)
    requires Reached(w) && Apply(w, step) == w'
    ensures Reached(w')
  {
    var steps :| Execute(TWO_PODS, steps) == w;
    ExecuteMore(TWO_PODS, steps, step);
    assert Execute(TWO_PODS, steps + [step]) == w';
  }

  /** At rest, listening, and a socket that said hello from 0 lacks a row. */
  ghost predicate Loses(w: World, p: PodId, c: ConnId, n: nat) {
    && p in w.pods && AtRest(w, w.pods[p]) && w.pods[p].up
    && c in w.pods[p].members && w.pods[p].members[c].since == Some(0)
    && n in w.rows && n > 0 && w.rows[n] != c && n !in w.pods[p].members[c].got
  }

  /** A world whose instance 0 is `a`, and whose instance 1, not listening, has
   *  members 20 and 21, can be reached. */
  ghost predicate Seen(head: nat, rows: map<nat, ConnId>, posts: set<Post>, outbox: set<Envelope>, announced: set<nat>, a: Pod) {
    exists b: Pod :: !b.up && {Conn(20), Conn(21)} <= b.members.Keys && Reached(Pair(head, rows, posts, outbox, announced, a, b))
  }

  lemma PairAt(head: nat, rows: map<nat, ConnId>, posts: set<Post>, outbox: set<Envelope>, announced: set<nat>,
               a: Pod, b: Pod, x: Pod)
    ensures At(Pair(head, rows, posts, outbox, announced, a, b), Instance(0), x) == Pair(head, rows, posts, outbox, announced, x, b)
    ensures At(Pair(head, rows, posts, outbox, announced, a, b), Instance(1), x) == Pair(head, rows, posts, outbox, announced, a, x)
  {
  }

  /** Instance 0 finishes an await. */
  lemma Resume(head: nat, rows: map<nat, ConnId>, posts: set<Post>, outbox: set<Envelope>, announced: set<nat>, a: Pod, task: Task, a': Pod)
    requires Seen(head, rows, posts, outbox, announced, a) && OnProceed(a, task, head, rows) == a'
    ensures Seen(head, rows, posts, outbox, announced, a')
  {
    var b: Pod :| !b.up && {Conn(20), Conn(21)} <= b.members.Keys && Reached(Pair(head, rows, posts, outbox, announced, a, b));
    PairAt(head, rows, posts, outbox, announced, a, b, a');
    Then(Pair(head, rows, posts, outbox, announced, a, b), Proceed(Instance(0), task), Pair(head, rows, posts, outbox, announced, a', b));
  }

  /** The member of instance 0 says hello from the start of the log. */
  lemma Greet(head: nat, rows: map<nat, ConnId>, posts: set<Post>, outbox: set<Envelope>, announced: set<nat>, a: Pod, a': Pod)
    requires Seen(head, rows, posts, outbox, announced, a) && OnHello(a, Conn(10), 0, head, rows) == a'
    ensures Seen(head, rows, posts, outbox, announced, a')
  {
    var b: Pod :| !b.up && {Conn(20), Conn(21)} <= b.members.Keys && Reached(Pair(head, rows, posts, outbox, announced, a, b));
    PairAt(head, rows, posts, outbox, announced, a, b, a');
    Then(Pair(head, rows, posts, outbox, announced, a, b), Hello(Instance(0), Conn(10), 0), Pair(head, rows, posts, outbox, announced, a', b));
  }

  lemma Take(head: nat, rows: map<nat, ConnId>, posts: set<Post>, outbox: set<Envelope>, announced: set<nat>, a: Pod, c: ConnId)
    requires Seen(head, rows, posts, outbox, announced, a) && c in {Conn(20), Conn(21)}
    ensures Seen(head + 1, rows, posts + {Allocated(Instance(1), c, head + 1)}, outbox, announced, a)
  {
    var b: Pod :| !b.up && {Conn(20), Conn(21)} <= b.members.Keys && Reached(Pair(head, rows, posts, outbox, announced, a, b));
    Then(Pair(head, rows, posts, outbox, announced, a, b), Allocate(Instance(1), c),
         Pair(head + 1, rows, posts + {Allocated(Instance(1), c, head + 1)}, outbox, announced, a, b));
  }

  lemma Land(head: nat, rows: map<nat, ConnId>, posts: set<Post>, outbox: set<Envelope>, announced: set<nat>, a: Pod, c: ConnId, n: nat)
    requires Seen(head, rows, posts, outbox, announced, a) && Allocated(Instance(1), c, n) in posts
    ensures Seen(head, rows[n := c], posts - {Allocated(Instance(1), c, n)} + {Inserted(Instance(1), c, n)}, outbox, announced, a)
  {
    var b: Pod :| !b.up && {Conn(20), Conn(21)} <= b.members.Keys && Reached(Pair(head, rows, posts, outbox, announced, a, b));
    Then(Pair(head, rows, posts, outbox, announced, a, b), Insert(Allocated(Instance(1), c, n)),
         Pair(head, rows[n := c], posts - {Allocated(Instance(1), c, n)} + {Inserted(Instance(1), c, n)}, outbox, announced, a, b));
  }

  lemma GiveNothing(a: Pod, c: ConnId)
    ensures Give(a, c, {}) == a
  {
    if c in a.members {
      assert a.members[c].got + {} == a.members[c].got;
      assert a.members[c := a.members[c]] == a.members;
    }
  }

  lemma PublishPair(head: nat, rows: map<nat, ConnId>, posts: set<Post>, announced: set<nat>, a: Pod, b: Pod, env: Envelope)
    ensures Apply(Pair(head, rows, posts, {env}, announced, a, b), Publish(env, {Instance(0)}))
         == Pair(head, rows, posts, {}, announced, OnPublish(a, Instance(0), env, {Instance(0)}),
                 OnPublish(b, Instance(1), env, {Instance(0)}))
  {
    var w := Pair(head, rows, posts, {env}, announced, a, b);
    var w' := Apply(w, Publish(env, {Instance(0)}));
    assert w.outbox - {env} == {};
    assert w'.pods.Keys == {Instance(0), Instance(1)};
    assert w'.pods == map[Instance(0) := w'.pods[Instance(0)], Instance(1) := w'.pods[Instance(1)]];
  }

  lemma Spread(head: nat, rows: map<nat, ConnId>, posts: set<Post>, announced: set<nat>, a: Pod, n: nat)
    requires Seen(head, rows, posts, {Envelope(n, Instance(1))}, announced, a) && a.up
    ensures Seen(head, rows, posts, {}, announced, a.(queue := a.queue + multiset{Notice(n, false)}))
  {
    var env := Envelope(n, Instance(1));
    var b: Pod :| !b.up && {Conn(20), Conn(21)} <= b.members.Keys && Reached(Pair(head, rows, posts, {env}, announced, a, b));
    var a', b' := OnPublish(a, Instance(0), env, {Instance(0)}), OnPublish(b, Instance(1), env, {Instance(0)});
    PublishPair(head, rows, posts, announced, a, b, env);
    Then(Pair(head, rows, posts, {env}, announced, a, b), Publish(env, {Instance(0)}),
         Pair(head, rows, posts, {}, announced, a', b'));
  }

  lemma Broadcast(head: nat, rows: map<nat, ConnId>, posts: set<Post>, announced: set<nat>, a: Pod, c: ConnId, n: nat)
    requires Seen(head, rows, posts, {}, announced, a) && Inserted(Instance(1), c, n) in posts
    ensures Seen(head, rows, posts - {Inserted(Instance(1), c, n)}, {Envelope(n, Instance(1))}, announced + {n}, a)
  {
    var b: Pod :| !b.up && {Conn(20), Conn(21)} <= b.members.Keys && Reached(Pair(head, rows, posts, {}, announced, a, b));
    var env := Envelope(n, Instance(1));
    var b' := OnAnnounce(b, rows, n);
    PairAt(head, rows, posts, {}, announced, a, b, b');
    assert {} + {env} == {env};
    Then(Pair(head, rows, posts, {}, announced, a, b), Announce(Inserted(Instance(1), c, n)),
         Pair(head, rows, posts - {Inserted(Instance(1), c, n)}, {env}, announced + {n}, a, b'));
  }

  /** Instance 1 broadcasts the row, its notice reaches instance 0, and is
   *  handled there. */
  lemma Tell(head: nat, rows: map<nat, ConnId>, posts: set<Post>, announced: set<nat>, a: Pod, c: ConnId, n: nat, a': Pod)
    requires Seen(head, rows, posts, {}, announced, a) && Inserted(Instance(1), c, n) in posts
    requires a.up && a.queue == multiset{} && OnHandle(a.(queue := multiset{Notice(n, false)}), Notice(n, false)) == a'
    ensures Seen(head, rows, posts - {Inserted(Instance(1), c, n)}, {}, announced + {n}, a')
  {
    var left := posts - {Inserted(Instance(1), c, n)};
    Broadcast(head, rows, posts, announced, a, c, n);
    Spread(head, rows, left, announced + {n}, a, n);
    var told := a.(queue := multiset{Notice(n, false)});
    assert a.(queue := a.queue + multiset{Notice(n, false)}) == told;
    var b: Pod :| !b.up && {Conn(20), Conn(21)} <= b.members.Keys && Reached(Pair(head, rows, left, {}, announced + {n}, told, b));
    PairAt(head, rows, left, {}, announced + {n}, told, b, a');
    Then(Pair(head, rows, left, {}, announced + {n}, told, b), Handle(Instance(0), Notice(n, false)),
         Pair(head, rows, left, {}, announced + {n}, a', b));
  }

  /** Instance 0 listens and has a member, 10. */
  const LISTENING := Pod(0, map[Conn(10) := Member(None, {}, {})], None, multiset{ReadBaseline}, multiset{}, true, 1, 0, 0)

  lemma TwoRooms()
    ensures Seen(0, map[], {}, {}, {}, LISTENING)
  {
    assert Execute(TWO_PODS, []) == TWO_PODS;
    var a1 := FRESH_POD.(up := true, connects := 1);
    PairAt(0, map[], {}, {}, {}, FRESH_POD, FRESH_POD, a1);
    Then(TWO_PODS, Reconnect(Instance(0)), Pair(0, map[], {}, {}, {}, a1, FRESH_POD));
    assert OnJoin(a1, Conn(10)) == LISTENING;
    PairAt(0, map[], {}, {}, {}, a1, FRESH_POD, LISTENING);
    Then(Pair(0, map[], {}, {}, {}, a1, FRESH_POD), Join(Instance(0), Conn(10)), Pair(0, map[], {}, {}, {}, LISTENING, FRESH_POD));
    var b1 := OnJoin(FRESH_POD, Conn(20));
    var b2 := OnJoin(b1, Conn(21));
    PairAt(0, map[], {}, {}, {}, LISTENING, FRESH_POD, b1);
    Then(Pair(0, map[], {}, {}, {}, LISTENING, FRESH_POD), Join(Instance(1), Conn(20)), Pair(0, map[], {}, {}, {}, LISTENING, b1));
    PairAt(0, map[], {}, {}, {}, LISTENING, b1, b2);
    Then(Pair(0, map[], {}, {}, {}, LISTENING, b1), Join(Instance(1), Conn(21)), Pair(0, map[], {}, {}, {}, LISTENING, b2));
  }

  // Positions 1 and 2, as taken and as landed, by the members of instance 1.
  const TAKEN_1 := Allocated(Instance(1), Conn(20), 1)
  const LANDED_1 := Inserted(Instance(1), Conn(20), 1)
  const TAKEN_2 := Allocated(Instance(1), Conn(21), 2)
  const LANDED_2 := Inserted(Instance(1), Conn(21), 2)
  const ROWS_2: map<nat, ConnId> := map[2 := Conn(21)]

  /** Member 10 has said hello to an empty log, with and without a baseline. */
  const GREETED := map[Conn(10) := Member(Some(0), {}, {})]
  const EARLY := LISTENING.(members := GREETED)
  const SETTLED := EARLY.(tasks := multiset{}, watermark := Some(0))

  lemma GreetEarly()
    ensures Seen(0, map[], {}, {}, {}, EARLY)
  {
    TwoRooms();
    assert RowsIn(map[], Span(0, 0)) == {};
    var a1 := EARLY.(tasks := multiset{ReadBaseline, HelloTail(Conn(10), {})});
    Greet(0, map[], {}, {}, {}, LISTENING, a1);
    GiveNothing(a1, Conn(10));
    Resume(0, map[], {}, {}, {}, a1, HelloTail(Conn(10), {}), EARLY);
  }

  lemma PostEarly()
    ensures Seen(1, map[1 := Conn(20)], {LANDED_1}, {}, {}, EARLY)
  {
    GreetEarly();
    Take(0, map[], {}, {}, {}, EARLY, Conn(20));
    assert {} + {TAKEN_1} == {TAKEN_1};
    Land(1, map[], {TAKEN_1}, {}, {}, EARLY, Conn(20), 1);
    assert {TAKEN_1} - {TAKEN_1} + {LANDED_1} == {LANDED_1};
    assert map[][1 := Conn(20)] == map[1 := Conn(20)];
  }

  /** A hello that runs before the baseline is read: the row posted in between
   *  is above what the hello saw and at the watermark the baseline sets. */
  lemma EarlyHelloLosesRow()
    ensures exists w :: Reached(w) && Loses(w, Instance(0), Conn(10), 1)
  {
    PostEarly();
    var rows: map<nat, ConnId> := map[1 := Conn(20)];
    var a3 := EARLY.(tasks := multiset{SetBaseline(1)});
    Resume(1, rows, {LANDED_1}, {}, {}, EARLY, ReadBaseline, a3);
    var a4 := EARLY.(watermark := Some(1), heard := 1, tasks := multiset{});
    Resume(1, rows, {LANDED_1}, {}, {}, a3, SetBaseline(1), a4);
    Tell(1, rows, {LANDED_1}, {}, a4, Conn(20), 1, a4);
    assert {LANDED_1} - {LANDED_1} == {};
    var b: Pod :| !b.up && Reached(Pair(1, rows, {}, {}, {} + {1}, a4, b));
    assert Loses(Pair(1, rows, {}, {}, {} + {1}, a4, b), Instance(0), Conn(10), 1);
  }

  const BASED := LISTENING.(tasks := multiset{}, watermark := Some(0))

  lemma Base()
    ensures Seen(0, map[], {}, {}, {}, BASED)
  {
    TwoRooms();
    var a1 := LISTENING.(tasks := multiset{SetBaseline(0)});
    Resume(0, map[], {}, {}, {}, LISTENING, ReadBaseline, a1);
    Resume(0, map[], {}, {}, {}, a1, SetBaseline(0), BASED);
  }

  lemma GreetSettled()
    ensures Seen(0, map[], {}, {}, {}, SETTLED)
  {
    Base();
    assert RowsIn(map[], Span(0, 0)) == {};
    var a3 := SETTLED.(tasks := multiset{HelloTail(Conn(10), {})});
    Greet(0, map[], {}, {}, {}, BASED, a3);
    GiveNothing(a3, Conn(10));
    Resume(0, map[], {}, {}, {}, a3, HelloTail(Conn(10), {}), SETTLED);
  }

  lemma LandOutOfOrder()
    ensures Seen(2, ROWS_2, {TAKEN_1, LANDED_2}, {}, {}, SETTLED)
  {
    GreetSettled();
    Take(0, map[], {}, {}, {}, SETTLED, Conn(20));
    assert {} + {TAKEN_1} == {TAKEN_1};
    Take(1, map[], {TAKEN_1}, {}, {}, SETTLED, Conn(21));
    assert {TAKEN_1} + {TAKEN_2} == {TAKEN_1, TAKEN_2};
    Land(2, map[], {TAKEN_1, TAKEN_2}, {}, {}, SETTLED, Conn(21), 2);
    assert {TAKEN_1, TAKEN_2} - {TAKEN_2} + {LANDED_2} == {TAKEN_1, LANDED_2};
    assert map[][2 := Conn(21)] == ROWS_2;
  }

  const PAST_2 := SETTLED.(members := map[Conn(10) := Member(Some(0), {}, {2})], watermark := Some(2), heard := 2)

  const READ_PAST := ReadRows(0, Span(0, 2), Some(2))
  const SEND_PAST := SendRows(0, {2}, Some(2))

  lemma HearOfTwo()
    ensures OnHandle(SETTLED.(queue := multiset{Notice(2, false)}), Notice(2, false))
         == SETTLED.(tasks := multiset{READ_PAST}, heard := 2)
  {
    assert multiset{Notice(2, false)} - multiset{Notice(2, false)} == multiset{};
    assert Conn(10) in SETTLED.members;
    assert multiset{} + multiset{READ_PAST} == multiset{READ_PAST};
  }

  lemma SendTwo(a: Pod)
    requires a.members == GREETED
    ensures SendTo(a, {2}, ROWS_2).members == PAST_2.members
  {
    var got := SendTo(a, {2}, ROWS_2).members[Conn(10)].got;
    assert 2 in got && got <= {2};
    var members := SendTo(a, {2}, ROWS_2).members;
    assert got == {2} && members.Keys == {Conn(10)};
    assert members[Conn(10)] == Member(Some(0), {}, {2});
  }

  const READING := SETTLED.(tasks := multiset{READ_PAST}, heard := 2)
  const SENDING := SETTLED.(tasks := multiset{SEND_PAST}, heard := 2)

  lemma ReadPastTheGap()
    ensures Seen(2, ROWS_2, {TAKEN_1}, {}, {2}, SENDING)
  {
    LandOutOfOrder();
    HearOfTwo();
    Tell(2, ROWS_2, {TAKEN_1, LANDED_2}, {}, SETTLED, Conn(21), 2, READING);
    assert {TAKEN_1, LANDED_2} - {LANDED_2} == {TAKEN_1} && {} + {2} == {2};
    assert RowsIn(ROWS_2, Span(0, 2)) == {2};
    Resume(2, ROWS_2, {TAKEN_1}, {}, {2}, READING, READ_PAST, SENDING);
  }

  lemma DeliverPastTheGap()
    ensures Seen(2, ROWS_2, {TAKEN_1}, {}, {2}, PAST_2)
  {
    ReadPastTheGap();
    var a7 := PAST_2.(tasks := multiset{SetMark(2)}, watermark := Some(0));
    SendTwo(SENDING);
    Resume(2, ROWS_2, {TAKEN_1}, {}, {2}, SENDING, SEND_PAST, a7);
    Resume(2, ROWS_2, {TAKEN_1}, {}, {2}, a7, SetMark(2), PAST_2);
  }

  lemma HearOfOneLate()
    ensures OnHandle(PAST_2.(queue := multiset{Notice(1, false)}), Notice(1, false)) == PAST_2
  {
    assert multiset{Notice(1, false)} - multiset{Notice(1, false)} == multiset{};
  }

  /** A post whose row lands after a later post's: the read that the later
   *  notice starts runs while position 1 is taken and empty, and the watermark
   *  moves past it for good. */
  lemma LateRowIsLost()
    ensures exists w :: Reached(w) && Loses(w, Instance(0), Conn(10), 1)
  {
    DeliverPastTheGap();
    Land(2, ROWS_2, {TAKEN_1}, {}, {2}, PAST_2, Conn(20), 1);
    var rows := ROWS_2[1 := Conn(20)];
    assert {TAKEN_1} - {TAKEN_1} + {LANDED_1} == {LANDED_1};
    HearOfOneLate();
    Tell(2, rows, {LANDED_1}, {2}, PAST_2, Conn(20), 1, PAST_2);
    assert {LANDED_1} - {LANDED_1} == {};
    var b: Pod :| !b.up && Reached(Pair(2, rows, {}, {}, {2} + {1}, PAST_2, b));
    assert Loses(Pair(2, rows, {}, {}, {2} + {1}, PAST_2, b), Instance(0), Conn(10), 1);
  }

  const AHEAD := LISTENING.(tasks := multiset{}, watermark := Some(1), heard := 1)
  const GREETED_AHEAD := AHEAD.(members := GREETED)

  lemma BaseAhead()
    ensures Seen(1, map[], {TAKEN_1}, {}, {}, AHEAD)
  {
    TwoRooms();
    Take(0, map[], {}, {}, {}, LISTENING, Conn(20));
    assert {} + {TAKEN_1} == {TAKEN_1};
    var a1 := LISTENING.(tasks := multiset{SetBaseline(1)});
    Resume(1, map[], {TAKEN_1}, {}, {}, LISTENING, ReadBaseline, a1);
    Resume(1, map[], {TAKEN_1}, {}, {}, a1, SetBaseline(1), AHEAD);
  }

  lemma GreetAhead()
    ensures Seen(1, map[], {TAKEN_1}, {}, {}, GREETED_AHEAD)
  {
    BaseAhead();
    assert RowsIn(map[], Span(0, 1)) == {};
    var a1 := GREETED_AHEAD.(tasks := multiset{HelloTail(Conn(10), {})});
    Greet(1, map[], {TAKEN_1}, {}, {}, AHEAD, a1);
    GiveNothing(a1, Conn(10));
    Resume(1, map[], {TAKEN_1}, {}, {}, a1, HelloTail(Conn(10), {}), GREETED_AHEAD);
  }

  lemma HearOfOneAhead()
    ensures OnHandle(GREETED_AHEAD.(queue := multiset{Notice(1, false)}), Notice(1, false)) == GREETED_AHEAD
  {
    assert multiset{Notice(1, false)} - multiset{Notice(1, false)} == multiset{};
  }

  /** A watermark in place is not enough for a hello: the baseline read position
   *  1 as taken, the hello read the log before its row landed, and the notice
   *  that follows is at the watermark. No delivery reads anything in this run. */
  lemma HelloBelowBaselineLosesRow()
    ensures exists w :: Reached(w) && Loses(w, Instance(0), Conn(10), 1)
  {
    GreetAhead();
    Land(1, map[], {TAKEN_1}, {}, {}, GREETED_AHEAD, Conn(20), 1);
    var rows: map<nat, ConnId> := map[1 := Conn(20)];
    assert map[][1 := Conn(20)] == rows;
    assert {TAKEN_1} - {TAKEN_1} + {LANDED_1} == {LANDED_1};
    HearOfOneAhead();
    Tell(1, rows, {LANDED_1}, {}, GREETED_AHEAD, Conn(20), 1, GREETED_AHEAD);
    assert {LANDED_1} - {LANDED_1} == {};
    var b: Pod :| !b.up && Reached(Pair(1, rows, {}, {}, {} + {1}, GREETED_AHEAD, b));
    assert Loses(Pair(1, rows, {}, {}, {} + {1}, GREETED_AHEAD, b), Instance(0), Conn(10), 1);
  }
}
