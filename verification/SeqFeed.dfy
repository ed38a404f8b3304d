/** Account sequence numbers, from the transaction to the poke. */
module SeqFeed {
  // Transactions of all accounts interleave; one that has bumped an account's
  // sequence holds that row until it ends; what it bumped is held back until its
  // commit has been acknowledged.

  import opened Pokes

  datatype TxId = TxId(id: nat)
  datatype Bump = Bump(user: User, n: nat)

  /** An open transaction, or one whose commit is on its way back. */
  datatype Tx = Open(bumps: seq<Bump>) | Committed(bumps: seq<Bump>)

  datatype Feed = Feed(last: map<User, nat>, txs: map<TxId, Tx>, events: Events)

  datatype Step =
    | Begin(t: TxId)
    | NextSeq(t: TxId, user: User)
    | Commit(t: TxId)
    | Release(t: TxId)
    | LoseAck(t: TxId)
    | Rollback(t: TxId)
    | Hear(user: User, n: nat)
    | Join(user: User, sink: Sink)
    | Leave(handle: Handle)
    | Flush(after: Events)

  /** The value a transaction sees: its own latest bump, else the committed. */
  function Latest(bumps: seq<Bump>, user: User, committed: nat): nat {
    if bumps == [] then committed
    else if bumps[|bumps| - 1].user == user then bumps[|bumps| - 1].n
    else Latest(bumps[..|bumps| - 1], user, committed)
  }

  predicate Touches(bumps: seq<Bump>, user: User) {
    exists i :: 0 <= i < |bumps| && bumps[i].user == user
  }

  /** Another open transaction holds the account's row. */
  ghost predicate LockedAgainst(f: Feed, t: TxId, user: User) {
    exists o :: o in f.txs && o != t && f.txs[o].Open? && Touches(f.txs[o].bumps, user)
  }

  function Landed(last: map<User, nat>, bumps: seq<Bump>): map<User, nat> {
    map user | user in last :: Latest(bumps, user, last[user])
  }

  /** Held bumps are noted in the order they were made. */
  function NoteAll(e: Events, bumps: seq<Bump>): Events
    decreases |bumps|
  {
    if bumps == [] then e else NoteAll(Note(e, bumps[0].user, bumps[0].n), bumps[1..])
  }

  ghost function Apply(f: Feed, step: Step): Feed {
    match step
    case Begin(t) => if t in f.txs then f else f.(txs := f.txs[t := Open([])])
    case NextSeq(t, user) =>
      if t in f.txs && f.txs[t].Open? && user in f.last && !LockedAgainst(f, t, user) then
        var n := Latest(f.txs[t].bumps, user, f.last[user]) + 1;
        f.(txs := f.txs[t := Open(f.txs[t].bumps + [Bump(user, n)])])
      else f
    case Commit(t) =>
      if t in f.txs && f.txs[t].Open? then
        f.(last := Landed(f.last, f.txs[t].bumps), txs := f.txs[t := Committed(f.txs[t].bumps)])
      else f
    case Release(t) =>
      if t in f.txs && f.txs[t].Committed? then
        f.(events := NoteAll(f.events, f.txs[t].bumps), txs := f.txs - {t})
      else f
    case LoseAck(t) => if t in f.txs && f.txs[t].Committed? then f.(txs := f.txs - {t}) else f
    case Rollback(t) => if t in f.txs && f.txs[t].Open? then f.(txs := f.txs - {t}) else f
    case Hear(user, n) =>
      if user in f.last && n <= f.last[user] then f.(events := Note(f.events, user, n)) else f
    case Join(user, sink) => f.(events := Subscribe(f.events, user, sink, STREAMS_PER_USER).0)
    case Leave(handle) => f.(events := Unsubscribe(f.events, handle))
    case Flush(after) => if f.events.flush && Delivered(f.events, after) then f.(events := after) else f
  }

  ghost function Execute(f: Feed, steps: seq<Step>): Feed
    decreases |steps|
  {
    if steps == [] then f else Execute(Apply(f, steps[0]), steps[1..])
  }

  ghost predicate Initial(f: Feed) {
    f.txs == map[] && f.events == QUIET
  }

  // ---- Invariant ----

  /** Bumps of one account ascend from above the committed value. */
  ghost predicate BumpsOk(bumps: seq<Bump>, last: map<User, nat>) {
    && (forall i :: 0 <= i < |bumps| ==> bumps[i].user in last && bumps[i].n > last[bumps[i].user])
    && (forall i, j :: 0 <= i < j < |bumps| && bumps[i].user == bumps[j].user ==> bumps[i].n < bumps[j].n)
  }

  ghost predicate TxsOk(f: Feed) {
    && (forall t :: t in f.txs && f.txs[t].Open? ==> BumpsOk(f.txs[t].bumps, f.last))
    && (forall t, o, user {:trigger Touches(f.txs[t].bumps, user), Touches(f.txs[o].bumps, user)} ::
          t in f.txs && o in f.txs && t != o && f.txs[t].Open? && f.txs[o].Open? ==>
          !(Touches(f.txs[t].bumps, user) && Touches(f.txs[o].bumps, user)))
  }

  predicate Below(last: map<User, nat>, user: User, n: nat) {
    user in last && n <= last[user]
  }

  ghost predicate AllBelow(last: map<User, nat>, bumps: seq<Bump>) {
    forall i :: 0 <= i < |bumps| ==> Below(last, bumps[i].user, bumps[i].n)
  }

  ghost predicate CommittedOk(f: Feed) {
    forall t :: t in f.txs && f.txs[t].Committed? ==> AllBelow(f.last, f.txs[t].bumps)
  }

  ghost predicate PendingOk(f: Feed) {
    && (forall user :: user in f.events.pending ==> Below(f.last, user, f.events.pending[user]))
    && (f.events.flush <==> f.events.pending != map[])
  }

  ghost predicate Inv(f: Feed) {
    TxsOk(f) && CommittedOk(f) && PendingOk(f)
  }

  /** Committed values only grow. */
  ghost predicate Grown(last: map<User, nat>, last': map<User, nat>) {
    last.Keys == last'.Keys && forall user :: user in last ==> last[user] <= last'[user]
  }

  lemma {:induction false} LatestFacts(bumps: seq<Bump>, user: User, committed: nat)
    requires forall i, j :: 0 <= i < j < |bumps| && bumps[i].user == bumps[j].user ==> bumps[i].n < bumps[j].n
    requires forall i :: 0 <= i < |bumps| && bumps[i].user == user ==> bumps[i].n > committed
    ensures Latest(bumps, user, committed) >= committed
    ensures forall i :: 0 <= i < |bumps| && bumps[i].user == user ==> bumps[i].n <= Latest(bumps, user, committed)
    ensures !Touches(bumps, user) ==> Latest(bumps, user, committed) == committed
  {
    if bumps != [] {
      var k := |bumps| - 1;
      if bumps[k].user != user {
        LatestFacts(bumps[..k], user, committed);
        if Touches(bumps[..k], user) {
          var i :| 0 <= i < k && bumps[..k][i].user == user;
          assert bumps[i].user == user;
        }
      }
    }
  }

  lemma LandedGrows(last: map<User, nat>, bumps: seq<Bump>)
    requires BumpsOk(bumps, last)
    ensures Grown(last, Landed(last, bumps)) && AllBelow(Landed(last, bumps), bumps)
    ensures forall user :: user in last && !Touches(bumps, user) ==> Landed(last, bumps)[user] == last[user]
  {
    forall user | user in last
      ensures last[user] <= Landed(last, bumps)[user]
      ensures !Touches(bumps, user) ==> Landed(last, bumps)[user] == last[user]
    {
      LatestFacts(bumps, user, last[user]);
    }
    forall i | 0 <= i < |bumps| ensures Below(Landed(last, bumps), bumps[i].user, bumps[i].n) {
      LatestFacts(bumps, bumps[i].user, last[bumps[i].user]);
    }
  }

  lemma {:induction false} NoteAllFacts(e: Events, bumps: seq<Bump>, last: map<User, nat>)
    requires AllBelow(last, bumps) && (e.flush <==> e.pending != map[])
    requires forall user :: user in e.pending ==> Below(last, user, e.pending[user])
    ensures var e' := NoteAll(e, bumps);
      && (forall user :: user in e'.pending ==> Below(last, user, e'.pending[user]))
      && (e'.flush <==> e'.pending != map[])
      && e' == e.(pending := e'.pending, flush := e'.flush)
      && (forall user :: user in e.pending ==> user in e'.pending && e.pending[user] <= e'.pending[user])
      && (forall i :: 0 <= i < |bumps| ==> bumps[i].user in e'.pending && bumps[i].n <= e'.pending[bumps[i].user])
    decreases |bumps|
  {
    if bumps != [] {
      var next := Note(e, bumps[0].user, bumps[0].n);
      assert Below(last, bumps[0].user, bumps[0].n);
      assert bumps[0].user in next.pending;
      forall i | 0 <= i < |bumps[1..]| ensures Below(last, bumps[1..][i].user, bumps[1..][i].n) {
        assert bumps[1..][i] == bumps[i + 1];
      }
      NoteAllFacts(next, bumps[1..], last);
      var e' := NoteAll(e, bumps);
      forall i | 0 <= i < |bumps| ensures bumps[i].user in e'.pending && bumps[i].n <= e'.pending[bumps[i].user] {
        if i > 0 {
          assert bumps[1..][i - 1] == bumps[i];
        }
      }
    }
  }

  lemma NextSeqKeeps(f: Feed, t: TxId, user: User)
    requires Inv(f) && t in f.txs && f.txs[t].Open? && user in f.last && !LockedAgainst(f, t, user)
    ensures Inv(Apply(f, NextSeq(t, user)))
  {
    var f' := Apply(f, NextSeq(t, user));
    var bumps, bumps' := f.txs[t].bumps, f'.txs[t].bumps;
    LatestFacts(bumps, user, f.last[user]);
    assert BumpsOk(bumps', f'.last);
    forall o, other | o in f'.txs && o != t && f'.txs[o].Open? && Touches(f'.txs[o].bumps, other)
      ensures !Touches(bumps', other)
    {
      assert o in f.txs && f.txs[o] == f'.txs[o];
      TouchesSnoc(bumps, bumps'[|bumps|], other);
    }
  }

  lemma TouchesSnoc(bumps: seq<Bump>, bump: Bump, user: User)
    ensures Touches(bumps + [bump], user) <==> Touches(bumps, user) || bump.user == user
  {
    var all := bumps + [bump];
    if Touches(bumps, user) {
      var i :| 0 <= i < |bumps| && bumps[i].user == user;
      assert all[i].user == user;
    }
    if bump.user == user {
      assert all[|bumps|].user == user;
    }
  }

  lemma CommitKeeps(f: Feed, t: TxId)
    requires Inv(f) && t in f.txs && f.txs[t].Open?
    ensures Inv(Apply(f, Commit(t))) && Grown(f.last, Apply(f, Commit(t)).last)
  {
    var f' := Apply(f, Commit(t));
    var bumps := f.txs[t].bumps;
    LandedGrows(f.last, bumps);
    forall o | o in f'.txs && f'.txs[o].Open? ensures BumpsOk(f'.txs[o].bumps, f'.last) {
      assert o in f.txs && o != t && f.txs[o] == f'.txs[o];
      forall i | 0 <= i < |f.txs[o].bumps| ensures !Touches(bumps, f.txs[o].bumps[i].user) {
        assert Touches(f.txs[o].bumps, f.txs[o].bumps[i].user);
      }
    }
    forall o | o in f'.txs && f'.txs[o].Committed? ensures AllBelow(f'.last, f'.txs[o].bumps) {
      if o != t {
        assert AllBelow(f.last, f.txs[o].bumps);
      }
    }
  }

  lemma InvStep(f: Feed, step: Step)
    requires Inv(f)
    ensures Inv(Apply(f, step)) && Grown(f.last, Apply(f, step).last)
  {
    match step
    case NextSeq(t, user) =>
      if t in f.txs && f.txs[t].Open? && user in f.last && !LockedAgainst(f, t, user) { NextSeqKeeps(f, t, user); }
    case Commit(t) => if t in f.txs && f.txs[t].Open? { CommitKeeps(f, t); }
    case Release(t) =>
      if t in f.txs && f.txs[t].Committed? {
        NoteAllFacts(f.events, f.txs[t].bumps, f.last);
      }
    case Hear(user, n) =>
      if user in f.last && n <= f.last[user] {
        assert user in Note(f.events, user, n).pending;
      }
    case Flush(after) =>
    case Begin(t) =>
    case LoseAck(t) =>
    case Rollback(t) =>
    case Join(user, sink) =>
    case Leave(handle) =>
  }

  lemma {:induction false} InvRun(f: Feed, steps: seq<Step>)
    requires Inv(f)
    ensures Inv(Execute(f, steps)) && Grown(f.last, Execute(f, steps).last)
    decreases |steps|
  {
    if steps != [] {
      InvStep(f, steps[0]);
      InvRun(Apply(f, steps[0]), steps[1..]);
    }
  }

  // ---- Main results ----

  /** Whatever a flush writes to a stream is at or below the committed sequence
   *  of an account that stream belongs to. */
  lemma AnnouncedIsCommitted(f0: Feed, steps: seq<Step>, after: Events, sink: Sink, n: nat)
    requires Initial(f0)
    requires var f := Execute(f0, steps);
      f.events.flush && Delivered(f.events, after) && n in News(f.events.written, after.written, sink)
    ensures var f := Execute(f0, steps);
      exists user :: sink in Reached(f.events, user) && Below(f.last, user, n)
  {
    InvRun(f0, steps);
    var f := Execute(f0, steps);
    assert PokedFor(f.events, f.events.pending.Keys, after.written, sink);
    var user :| user in f.events.pending.Keys && sink in Reached(f.events, user) && f.events.pending[user] == n;
    assert Below(f.last, user, f.events.pending[user]);
  }

  /** Step `i` of the run announced the sequence: it released the bumps of a
   *  commit that was acknowledged, or heard of it from another instance. */
  ghost predicate Announces(f0: Feed, steps: seq<Step>, i: int, user: User, n: nat) {
    && 0 <= i < |steps|
    && var f := Execute(f0, steps[..i]);
       match steps[i]
       case Release(t) => t in f.txs && f.txs[t].Committed? && Bump(user, n) in f.txs[t].bumps
       case Hear(u, m) => u == user && m == n
       case _ => false
  }

  ghost predicate Announced(f0: Feed, steps: seq<Step>, user: User, n: nat) {
    exists i :: Announces(f0, steps, i, user, n)
  }

  lemma {:induction false} ExecuteMore(f: Feed, steps: seq<Step>, step: Step)
    ensures Execute(f, steps + [step]) == Apply(Execute(f, steps), step)
    decreases |steps|
  {
    if steps == [] {
      assert [step][1..] == [];
      assert Execute(f, [step]) == Execute(Apply(f, step), []);
    } else {
      ExecuteMore(Apply(f, steps[0]), steps[1..], step);
      assert (steps + [step])[1..] == steps[1..] + [step];
    }
  }

  lemma StillAnnounced(f0: Feed, steps: seq<Step>, step: Step, user: User, n: nat)
    requires Announced(f0, steps, user, n)
    ensures Announced(f0, steps + [step], user, n)
  {
    var i :| Announces(f0, steps, i, user, n);
    assert (steps + [step])[..i] == steps[..i];
    assert Announces(f0, steps + [step], i, user, n);
  }

  /** What is pending after bumps are noted was pending before or is one. */
  lemma {:induction false} NotedFrom(e: Events, bumps: seq<Bump>, user: User)
    requires user in NoteAll(e, bumps).pending
    ensures var n := NoteAll(e, bumps).pending[user];
      (user in e.pending && e.pending[user] == n) || Bump(user, n) in bumps
    decreases |bumps|
  {
    if bumps != [] {
      NotedFrom(Note(e, bumps[0].user, bumps[0].n), bumps[1..], user);
      assert bumps == [bumps[0]] + bumps[1..];
    }
  }

  /** What is pending was announced by a step of the run. */
  lemma {:induction false} PendingWasAnnounced(f0: Feed, steps: seq<Step>, user: User)
    requires Initial(f0) && user in Execute(f0, steps).events.pending
    ensures Announced(f0, steps, user, Execute(f0, steps).events.pending[user])
    decreases |steps|
  {
    if steps != [] {
      var k := |steps| - 1;
      var before, step := steps[..k], steps[k];
      assert steps == before + [step];
      ExecuteMore(f0, before, step);
      var f, n := Execute(f0, before), Execute(f0, steps).events.pending[user];
      if step.Release? && step.t in f.txs && f.txs[step.t].Committed? {
        NotedFrom(f.events, f.txs[step.t].bumps, user);
      }
      if user in f.events.pending && f.events.pending[user] == n {
        PendingWasAnnounced(f0, before, user);
        StillAnnounced(f0, before, step, user, n);
      } else {
        assert Announces(f0, steps, k, user, n);
      }
    }
  }

  /** Over every run, whatever a flush writes to a stream was announced for an
   *  account that stream belongs to: a bump that was rolled back, or whose
   *  commit was not acknowledged, is never the reason for a poke. */
  lemma PokesHaveAReason(f0: Feed, steps: seq<Step>, after: Events, sink: Sink, n: nat)
    requires Initial(f0)
    requires var f := Execute(f0, steps);
      f.events.flush && Delivered(f.events, after) && n in News(f.events.written, after.written, sink)
    ensures exists user :: sink in Reached(Execute(f0, steps).events, user) && Announced(f0, steps, user, n)
  {
    var f := Execute(f0, steps);
    assert PokedFor(f.events, f.events.pending.Keys, after.written, sink);
    var user :| user in f.events.pending.Keys && sink in Reached(f.events, user) && f.events.pending[user] == n;
    PendingWasAnnounced(f0, steps, user);
  }

  /** A bump pending at `n` or above stays so until the flush. */
  ghost predicate Owed(e: Events, user: User, n: nat) {
    user in e.pending && e.pending[user] >= n && e.flush
  }

  lemma OwedStep(f: Feed, step: Step, user: User, n: nat)
    requires Inv(f) && Owed(f.events, user, n) && !step.Flush?
    ensures Owed(Apply(f, step).events, user, n)
  {
    if step.Release? && step.t in f.txs && f.txs[step.t].Committed? {
      NoteAllFacts(f.events, f.txs[step.t].bumps, f.last);
    }
  }

  lemma {:induction false} OwedRun(f: Feed, steps: seq<Step>, user: User, n: nat)
    requires Inv(f) && Owed(f.events, user, n) && forall i :: 0 <= i < |steps| ==> !steps[i].Flush?
    ensures Owed(Execute(f, steps).events, user, n)
    decreases |steps|
  {
    if steps != [] {
      assert !steps[0].Flush?;
      OwedStep(f, steps[0], user, n);
      InvStep(f, steps[0]);
      OwedRun(Apply(f, steps[0]), steps[1..], user, n);
    }
  }

  lemma OwedOnceReleased(f: Feed, t: TxId, i: nat, between: seq<Step>)
    requires Inv(f) && t in f.txs && f.txs[t].Committed? && i < |f.txs[t].bumps|
    requires forall k :: 0 <= k < |between| ==> !between[k].Flush?
    ensures Owed(Execute(Apply(f, Release(t)), between).events, f.txs[t].bumps[i].user, f.txs[t].bumps[i].n)
  {
    NoteAllFacts(f.events, f.txs[t].bumps, f.last);
    InvStep(f, Release(t));
    OwedRun(Apply(f, Release(t)), between, f.txs[t].bumps[i].user, f.txs[t].bumps[i].n);
  }

  lemma OwedIsPoked(f: Feed, user: User, n: nat, after: Events, sink: Sink)
    requires Owed(f.events, user, n) && Delivered(f.events, after)
    ensures var done := Apply(f, Flush(after)).events;
      && done.pending == map[] && !done.flush
      && (sink in Reached(f.events, user) ==> exists m :: m in News(f.events.written, done.written, sink) && m >= n)
  {
    assert PokedFor(f.events, f.events.pending.Keys, after.written, sink);
    if sink in Reached(f.events, user) {
      assert f.events.pending[user] in News(f.events.written, after.written, sink);
    }
  }

  lemma BumpIsPoked(f: Feed, t: TxId, i: nat, between: seq<Step>, after: Events, sink: Sink)
    requires Inv(f) && t in f.txs && f.txs[t].Committed? && i < |f.txs[t].bumps|
    requires forall k :: 0 <= k < |between| ==> !between[k].Flush?
    ensures var bump := f.txs[t].bumps[i];
      var ready := Execute(Apply(f, Release(t)), between);
      && ready.events.flush
      && (Delivered(ready.events, after) ==>
            var done := Apply(ready, Flush(after)).events;
            && done.pending == map[] && !done.flush
            && (sink in Reached(ready.events, bump.user) ==>
                  exists n :: n in News(ready.events.written, done.written, sink) && n >= bump.n))
  {
    OwedOnceReleased(f, t, i, between);
    var ready := Execute(Apply(f, Release(t)), between);
    if Delivered(ready.events, after) {
      OwedIsPoked(ready, f.txs[t].bumps[i].user, f.txs[t].bumps[i].n, after, sink);
    }
  }

  /** Every bump of an acknowledged commit arms the flush, and the next flush,
   *  whatever runs before it, pokes every stream the account then has with a
   *  sequence at or above the bump. */
  lemma CommittedBumpsArePoked(f0: Feed, before: seq<Step>, t: TxId, i: nat, between: seq<Step>, after: Events, sink: Sink)
    requires Initial(f0)
    requires var f := Execute(f0, before); t in f.txs && f.txs[t].Committed? && i < |f.txs[t].bumps|
    requires forall k :: 0 <= k < |between| ==> !between[k].Flush?
    ensures var f := Execute(f0, before);
      var bump := f.txs[t].bumps[i];
      var ready := Execute(Apply(f, Release(t)), between);
      && ready.events.flush
      && (Delivered(ready.events, after) ==>
            var done := Apply(ready, Flush(after)).events;
            && done.pending == map[] && !done.flush
            && (sink in Reached(ready.events, bump.user) ==>
                  exists n :: n in News(ready.events.written, done.written, sink) && n >= bump.n))
  {
    InvRun(f0, before);
    BumpIsPoked(Execute(f0, before), t, i, between, after, sink);
  }

  /** So does a sequence heard of from another instance, once it is committed. */
  lemma HeardIsPoked(f0: Feed, before: seq<Step>, user: User, n: nat, between: seq<Step>, after: Events, sink: Sink)
    requires Initial(f0) && Below(Execute(f0, before).last, user, n)
    requires forall k :: 0 <= k < |between| ==> !between[k].Flush?
    ensures var ready := Execute(Apply(Execute(f0, before), Hear(user, n)), between);
      && ready.events.flush
      && (Delivered(ready.events, after) ==>
            var done := Apply(ready, Flush(after)).events;
            && done.pending == map[] && !done.flush
            && (sink in Reached(ready.events, user) ==> exists m :: m in News(ready.events.written, done.written, sink) && m >= n))
  {
    InvRun(f0, before);
    var f := Execute(f0, before);
    InvStep(f, Hear(user, n));
    assert Owed(Apply(f, Hear(user, n)).events, user, n);
    OwedRun(Apply(f, Hear(user, n)), between, user, n);
    var ready := Execute(Apply(f, Hear(user, n)), between);
    if Delivered(ready.events, after) {
      OwedIsPoked(ready, user, n, after, sink);
    }
  }

  /** A commit whose acknowledgement is lost is made up for by the account's next
   *  one: any transaction that is open later with a bump of that account takes a
   *  higher sequence, and once it is committed, released and flushed every
   *  stream of the account has been poked past the lost bump. */
  lemma LostAckIsMadeUp(
      f0: Feed, before: seq<Step>, t: TxId, i: nat, later: seq<Step>, u: TxId, j: nat,
      between: seq<Step>, after: Events, sink: Sink)
    requires Initial(f0)
    requires var f := Execute(f0, before);
      && t in f.txs && f.txs[t].Committed? && i < |f.txs[t].bumps|
      && var g := Execute(Apply(f, LoseAck(t)), later);
         u in g.txs && g.txs[u].Open? && j < |g.txs[u].bumps| && g.txs[u].bumps[j].user == f.txs[t].bumps[i].user
    requires forall k :: 0 <= k < |between| ==> !between[k].Flush?
    ensures var f := Execute(f0, before);
      var lost := f.txs[t].bumps[i];
      var g := Execute(Apply(f, LoseAck(t)), later);
      var ready := Execute(Apply(Apply(g, Commit(u)), Release(u)), between);
      && g.txs[u].bumps[j].n > lost.n && ready.events.flush
      && (Delivered(ready.events, after) && sink in Reached(ready.events, lost.user) ==>
            var done := Apply(ready, Flush(after)).events;
            exists n :: n in News(ready.events.written, done.written, sink) && n > lost.n)
  {
    InvRun(f0, before);
    var f := Execute(f0, before);
    assert Below(f.last, f.txs[t].bumps[i].user, f.txs[t].bumps[i].n);
    InvStep(f, LoseAck(t));
    InvRun(Apply(f, LoseAck(t)), later);
    var g := Execute(Apply(f, LoseAck(t)), later);
    assert BumpsOk(g.txs[u].bumps, g.last);
    InvStep(g, Commit(u));
    BumpIsPoked(Apply(g, Commit(u)), u, j, between, after, sink);
  }

  // ---- Numbers have no gaps ----

  function BumpsOf(bumps: seq<Bump>, user: User): nat {
    if bumps == [] then 0
    else BumpsOf(bumps[..|bumps| - 1], user) + if bumps[|bumps| - 1].user == user then 1 else 0
  }

  /** The value the transaction sees is the committed one and its own bumps. */
  predicate Consecutive(tx: Tx, user: User, committed: nat) {
    tx.Open? ==> Latest(tx.bumps, user, committed) == committed + BumpsOf(tx.bumps, user)
  }

  lemma {:induction false} UntouchedCounts(bumps: seq<Bump>, user: User, committed: nat)
    requires !Touches(bumps, user)
    ensures BumpsOf(bumps, user) == 0 && Latest(bumps, user, committed) == committed
  {
    if bumps != [] {
      var k := |bumps| - 1;
      assert bumps == bumps[..k] + [bumps[k]];
      TouchesSnoc(bumps[..k], bumps[k], user);
      UntouchedCounts(bumps[..k], user, committed);
    }
  }

  /** How many bumps of the account a step commits. */
  function Lands(f: Feed, step: Step, user: User): nat {
    if step.Commit? && step.t in f.txs && f.txs[step.t].Open? then BumpsOf(f.txs[step.t].bumps, user) else 0
  }

  lemma CommitCounts(f: Feed, t: TxId, user: User)
    requires Inv(f) && user in f.last && t in f.txs && f.txs[t].Open?
    requires forall o :: o in f.txs ==> Consecutive(f.txs[o], user, f.last[user])
    ensures var f' := Apply(f, Commit(t));
      && user in f'.last && f'.last[user] == f.last[user] + Lands(f, Commit(t), user)
      && forall o :: o in f'.txs ==> Consecutive(f'.txs[o], user, f'.last[user])
  {
    var f' := Apply(f, Commit(t));
    assert Consecutive(f.txs[t], user, f.last[user]);
    forall o | o in f'.txs && f'.txs[o].Open? ensures Consecutive(f'.txs[o], user, f'.last[user]) {
      assert o != t && f'.txs[o] == f.txs[o];
      if Touches(f.txs[o].bumps, user) {
        assert !Touches(f.txs[t].bumps, user);
        UntouchedCounts(f.txs[t].bumps, user, f.last[user]);
      } else {
        UntouchedCounts(f.txs[o].bumps, user, f'.last[user]);
      }
    }
  }

  lemma StepCounts(f: Feed, step: Step, user: User)
    requires Inv(f) && user in f.last && forall o :: o in f.txs ==> Consecutive(f.txs[o], user, f.last[user])
    ensures var f' := Apply(f, step);
      && user in f'.last && f'.last[user] == f.last[user] + Lands(f, step, user)
      && forall o :: o in f'.txs ==> Consecutive(f'.txs[o], user, f'.last[user])
  {
    if step.Commit? && step.t in f.txs && f.txs[step.t].Open? {
      CommitCounts(f, step.t, user);
    } else {
      forall o | o in Apply(f, step).txs ensures Consecutive(Apply(f, step).txs[o], user, Apply(f, step).last[user]) {
        assert step.NextSeq? && o in f.txs && f.txs[o].Open? ==>
          Consecutive(f.txs[o], user, f.last[user]) && (f.txs[o].bumps + [Bump(step.user, 0)])[..|f.txs[o].bumps|] == f.txs[o].bumps;
      }
    }
  }

  ghost function LandedBy(f: Feed, steps: seq<Step>, user: User): nat
    decreases |steps|
  {
    if steps == [] then 0 else Lands(f, steps[0], user) + LandedBy(Apply(f, steps[0]), steps[1..], user)
  }

  lemma {:induction false} RunCounts(f: Feed, steps: seq<Step>, user: User)
    requires Inv(f) && user in f.last && forall o :: o in f.txs ==> Consecutive(f.txs[o], user, f.last[user])
    ensures var f' := Execute(f, steps); user in f'.last && f'.last[user] == f.last[user] + LandedBy(f, steps, user)
    decreases |steps|
  {
    if steps != [] {
      InvStep(f, steps[0]);
      StepCounts(f, steps[0], user);
      RunCounts(Apply(f, steps[0]), steps[1..], user);
    }
  }

  /** Over every run an account's sequence has moved on by exactly the number of
   *  its bumps that were committed: none is handed out twice and none left out,
   *  whatever was rolled back. */
  lemma SequencesHaveNoGaps(f0: Feed, steps: seq<Step>, user: User)
    requires Initial(f0) && user in f0.last
    ensures var f := Execute(f0, steps); user in f.last && f.last[user] == f0.last[user] + LandedBy(f0, steps, user)
  {
    RunCounts(f0, steps, user);
  }

  /** A stream that joins is reached from then on, until it leaves; neither
   *  touches sequences, transactions or what is pending. */
  lemma StreamsComeAndGo(f: Feed, user: User, sink: Sink)
    ensures var joined := Apply(f, Join(user, sink));
      var handle := Handle(user, joined.events.sinks[user], sink);
      var left := Apply(joined, Leave(handle));
      && sink in Reached(joined.events, user) && sink !in Reached(left.events, user)
      && joined == f.(events := f.events.(sinks := joined.events.sinks, sets := joined.events.sets, fresh_ := joined.events.fresh_))
      && left == joined.(events := joined.events.(sinks := left.events.sinks, sets := left.events.sets))
  {
    var joined := Apply(f, Join(user, sink));
    RemoveKeeps(Members(joined.events, joined.events.sinks[user]), sink);
  }

  // ---- A transaction by itself ----

  lemma LandedOne(last: map<User, nat>, user: User, n: nat)
    requires user in last
    ensures Landed(last, [Bump(user, n)]) == last[user := n]
  {
    var bumps := [Bump(user, n)];
    forall u | u in last ensures Landed(last, bumps)[u] == last[user := n][u] {
      assert Latest(bumps[..0], u, last[u]) == last[u];
    }
  }

  lemma OneBump(f: Feed, t: TxId, user: User)
    requires Inv(f) && t !in f.txs && user in f.last
    requires forall o :: o in f.txs && f.txs[o].Open? ==> !Touches(f.txs[o].bumps, user)
    ensures Apply(Apply(f, Begin(t)), NextSeq(t, user)) == f.(txs := f.txs[t := Open([Bump(user, f.last[user] + 1)])])
  {
    var begun := Apply(f, Begin(t));
    assert !LockedAgainst(begun, t, user);
    assert [] + [Bump(user, f.last[user] + 1)] == [Bump(user, f.last[user] + 1)];
  }

  /** The transaction with one bump of the account, committed. */
  ghost function OneCommitted(f: Feed, t: TxId, user: User): Feed {
    Apply(Apply(Apply(f, Begin(t)), NextSeq(t, user)), Commit(t))
  }

  lemma OneCommits(f: Feed, t: TxId, user: User)
    requires Inv(f) && t !in f.txs && user in f.last
    requires forall o :: o in f.txs && f.txs[o].Open? ==> !Touches(f.txs[o].bumps, user)
    ensures var n := f.last[user] + 1;
      OneCommitted(f, t, user) == f.(last := f.last[user := n], txs := f.txs[t := Committed([Bump(user, n)])])
  {
    var n := f.last[user] + 1;
    OneBump(f, t, user);
    LandedOne(f.last, user, n);
    assert f.txs[t := Open([Bump(user, n)])][t := Committed([Bump(user, n)])] == f.txs[t := Committed([Bump(user, n)])];
  }

  lemma NoteOne(e: Events, user: User, n: nat)
    requires user in e.pending ==> e.pending[user] < n
    ensures NoteAll(e, [Bump(user, n)]) == e.(pending := e.pending[user := n], flush := true)
  {
    var bumps := [Bump(user, n)];
    assert bumps[1..] == [];
    assert NoteAll(e, bumps) == NoteAll(Note(e, user, n), bumps[1..]);
  }

  lemma OneReleases(f: Feed, t: TxId, user: User)
    requires Inv(f) && t !in f.txs && user in f.last
    requires forall o :: o in f.txs && f.txs[o].Open? ==> !Touches(f.txs[o].bumps, user)
    ensures var n := f.last[user] + 1;
      Apply(OneCommitted(f, t, user), Release(t)) ==
        f.(last := f.last[user := n], events := f.events.(pending := f.events.pending[user := n], flush := true))
  {
    var n := f.last[user] + 1;
    OneCommits(f, t, user);
    NoteOne(f.events, user, n);
    assert f.txs[t := Committed([Bump(user, n)])] - {t} == f.txs;
  }

  lemma OneIsAnnounced(f: Feed, t: TxId, user: User)
    requires Inv(f) && t !in f.txs && user in f.last
    requires forall o :: o in f.txs && f.txs[o].Open? ==> !Touches(f.txs[o].bumps, user)
    ensures var n := f.last[user] + 1;
      var landed := Apply(Apply(Apply(f, Begin(t)), NextSeq(t, user)), Commit(t));
      && landed.last == f.last[user := n] && landed.events == f.events
      && Apply(landed, Release(t)) ==
           f.(last := f.last[user := n], events := f.events.(pending := f.events.pending[user := n], flush := true))
  {
    OneCommits(f, t, user);
    OneReleases(f, t, user);
  }

  /** From any state of any run, a transaction that bumps an account nobody else
   *  has bumped moves it on by one when it commits, announcing nothing yet, and
   *  has it pending once that is acknowledged. */
  lemma OneBumpIsAnnounced(f0: Feed, before: seq<Step>, t: TxId, user: User)
    requires Initial(f0)
    requires var f := Execute(f0, before);
      && t !in f.txs && user in f.last
      && forall o :: o in f.txs && f.txs[o].Open? ==> !Touches(f.txs[o].bumps, user)
    ensures var f := Execute(f0, before);
      var n := f.last[user] + 1;
      var landed := Apply(Apply(Apply(f, Begin(t)), NextSeq(t, user)), Commit(t));
      && landed.last == f.last[user := n] && landed.events == f.events
      && Apply(landed, Release(t)) ==
           f.(last := f.last[user := n], events := f.events.(pending := f.events.pending[user := n], flush := true))
  {
    InvRun(f0, before);
    OneIsAnnounced(Execute(f0, before), t, user);
  }

  lemma OneRollsBack(f: Feed, t: TxId, user: User)
    requires Inv(f) && t !in f.txs && user in f.last
    requires forall o :: o in f.txs && f.txs[o].Open? ==> !Touches(f.txs[o].bumps, user)
    ensures Apply(Apply(Apply(f, Begin(t)), NextSeq(t, user)), Rollback(t)) == f
  {
    OneBump(f, t, user);
    assert f.txs[t := Open([Bump(user, f.last[user] + 1)])] - {t} == f.txs;
  }

  lemma OneIsLost(f: Feed, t: TxId, user: User)
    requires Inv(f) && t !in f.txs && user in f.last
    requires forall o :: o in f.txs && f.txs[o].Open? ==> !Touches(f.txs[o].bumps, user)
    ensures Apply(OneCommitted(f, t, user), LoseAck(t)) == f.(last := f.last[user := f.last[user] + 1])
  {
    OneCommits(f, t, user);
    assert f.txs[t := Committed([Bump(user, f.last[user] + 1)])] - {t} == f.txs;
  }

  /** One that is rolled back leaves no trace, and one whose acknowledgement is
   *  lost leaves the sequence moved on and nothing pending for it. */
  lemma UnannouncedLeavesNothing(f0: Feed, before: seq<Step>, t: TxId, user: User)
    requires Initial(f0)
    requires var f := Execute(f0, before);
      && t !in f.txs && user in f.last
      && forall o :: o in f.txs && f.txs[o].Open? ==> !Touches(f.txs[o].bumps, user)
    ensures var f := Execute(f0, before);
      var bumped := Apply(Apply(f, Begin(t)), NextSeq(t, user));
      && Apply(bumped, Rollback(t)) == f
      && Apply(Apply(bumped, Commit(t)), LoseAck(t)) == f.(last := f.last[user := f.last[user] + 1])
  {
    InvRun(f0, before);
    OneRollsBack(Execute(f0, before), t, user);
    OneIsLost(Execute(f0, before), t, user);
  }

  // ---- The object ----

  /** What a transaction has bumped and not yet announced. */
  class HeldSeqs {
    var bumps: seq<Bump>

    constructor ()
      ensures bumps == []
    {
      bumps := [];
    }

    method Hold(user: User, n: nat)
      modifies this
      ensures bumps == old(bumps) + [Bump(user, n)]
    {
      bumps := bumps + [Bump(user, n)];
    }

    /** Hands the held bumps to the observer, in order, and holds nothing more. */
    method Release(to: SeqEvents)
      modifies this, to`pending, to`flush
      ensures bumps == [] && to.View() == NoteAll(old(to.View()), old(bumps))
    {
      var i := 0;
      ghost var was := to.View();
      while i < |bumps|
        invariant 0 <= i <= |bumps| && bumps == old(bumps)
        invariant NoteAll(to.View(), bumps[i..]) == NoteAll(was, bumps)
        modifies to`pending, to`flush
      {
        assert bumps[i..][0] == bumps[i] && bumps[i..][1..] == bumps[i + 1..];
        to.NoteSeq(bumps[i].user, bumps[i].n);
        i := i + 1;
      }
      bumps := [];
    }
  }
}
