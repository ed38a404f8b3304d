/** The mirror of the account's rows on the device. */
module RowCache {
  // Every sync reply is folded in, in one transaction, by whichever tab got it.
  // Live rows are replaced only by newer ones; tombstones remove their row and
  // leave no trace.

  import opened LibrarySync
  import opened Prelude

  datatype Mirror = Mirror(rows: Rows, cursor: nat)

  datatype Reply = Reply(got: Rows, reached: nat)

  function Find(rows: Rows, id: Id): Option<Row> {
    if id in rows then Some(rows[id]) else None
  }

  /** What the mirror holds of a row once the reply is folded in. */
  function Folded(rows: Rows, got: Rows, id: Id): Option<Row> {
    if id !in got then Find(rows, id)
    else if got[id].state.Gone? then None
    else if id in rows && rows[id].seq_ >= got[id].seq_ then Some(rows[id])
    else Some(got[id])
  }

  function Fold(rows: Rows, got: Rows): Rows {
    map id | id in rows.Keys + got.Keys && Folded(rows, got, id).Some? :: Folded(rows, got, id).value
  }

  function StoreReply(m: Mirror, reply: Reply): Mirror {
    Mirror(Fold(m.rows, reply.got), Max(m.cursor, reply.reached))
  }

  function StoreAll(m: Mirror, replies: seq<Reply>): Mirror {
    if replies == [] then m
    else StoreReply(StoreAll(m, replies[..|replies| - 1]), replies[|replies| - 1])
  }

  lemma FindFold(rows: Rows, got: Rows, id: Id)
    ensures Find(Fold(rows, got), id) == Folded(rows, got, id)
  {
  }

  // ---- Live rows, any order ----

  ghost predicate AllLive(replies: seq<Reply>) {
    forall i, id :: 0 <= i < |replies| && id in replies[i].got ==> !replies[i].got[id].state.Gone?
  }

  /** The row of the id that some reply, or the mirror before, brought. */
  ghost predicate Brought(m: Mirror, replies: seq<Reply>, id: Id, row: Row) {
    (id in m.rows && m.rows[id] == row) || exists i :: 0 <= i < |replies| && id in replies[i].got && replies[i].got[id] == row
  }

  /** However the replies of live rows interleave, the mirror holds exactly the
   *  ids they brought, each with the highest sequence brought for it, and the
   *  highest cursor. */
  lemma {:induction false} HighestWins(m: Mirror, replies: seq<Reply>, id: Id)
    requires AllLive(replies)
    ensures var m' := StoreAll(m, replies);
      && (id in m'.rows ==> Brought(m, replies, id, m'.rows[id]))
      && (forall row :: Brought(m, replies, id, row) ==> id in m'.rows && row.seq_ <= m'.rows[id].seq_)
      && m.cursor <= m'.cursor && (forall i :: 0 <= i < |replies| ==> replies[i].reached <= m'.cursor)
      && (m'.cursor == m.cursor || exists i :: 0 <= i < |replies| && m'.cursor == replies[i].reached)
  {
    if replies != [] {
      var n := |replies| - 1;
      var before := replies[..n];
      HighestWins(m, before, id);
      var mid, m' := StoreAll(m, before), StoreAll(m, replies);
      FindFold(mid.rows, replies[n].got, id);
      BroughtSnoc(m, replies, id);
      assert m'.cursor == mid.cursor || m'.cursor == replies[n].reached;
      if m'.cursor == mid.cursor && mid.cursor != m.cursor {
        var i :| 0 <= i < n && mid.cursor == before[i].reached;
        assert replies[i].reached == m'.cursor;
      }
      forall i | 0 <= i < |replies| ensures replies[i].reached <= m'.cursor {
        assert i < n ==> before[i] == replies[i];
      }
    }
  }

  lemma BroughtSnoc(m: Mirror, replies: seq<Reply>, id: Id)
    requires replies != []
    ensures var n := |replies| - 1;
      forall row {:trigger Brought(m, replies, id, row)} {:trigger Brought(m, replies[..n], id, row)} ::
        Brought(m, replies, id, row) <==>
          Brought(m, replies[..n], id, row) || (id in replies[n].got && replies[n].got[id] == row)
  {
    var n := |replies| - 1;
    forall row ensures Brought(m, replies, id, row) <==>
      Brought(m, replies[..n], id, row) || (id in replies[n].got && replies[n].got[id] == row)
    {
      if i :| 0 <= i < |replies| && id in replies[i].got && replies[i].got[id] == row {
        assert i < n ==> replies[..n][i] == replies[i];
      }
      if i :| 0 <= i < n && id in replies[..n][i].got && replies[..n][i].got[id] == row {
        assert replies[i].got[id] == row;
      }
    }
  }

  // ---- The mirror of a server ----

  /** The mirror of a row the server has at `row`: itself, unless gone. */
  function Kept(row: Row): Option<Row> {
    if row.state.Gone? then None else Some(row)
  }

  ghost predicate MirrorsUpTo(rows: Rows, m: Mirror) {
    forall id :: id in rows && rows[id].seq_ <= m.cursor ==> Find(m.rows, id) == Kept(rows[id])
  }

  /** The account's rows on the server and their mirror here. */
  datatype Device = Device(last: nat, rows: Rows, mirror: Mirror)

  /** Beside complete replies the mirror takes in answers to changes made in a
   *  tab, which leave the cursor alone; a full sync that was asked for rebuilds
   *  it, and a sign-out clears it. */
  datatype Event =
    | Write(id: Id, state: State)
    | Store(pull: Pull)
    | Echo(id: Id, row: Row)
    | Rebuild(pull: Pull)
    | Clear

  const NOTHING := Mirror(map[], 0)

  /** A complete reply, as the sync route forms them. */
  ghost predicate Genuine(d: Device, pull: Pull) {
    pull.Reading? && pull.left == {} && PullOk(World(d.last, d.rows, 0, map[], map[], {}, {}), pull)
  }

  ghost function Happen(d: Device, event: Event): Device {
    match event
    case Write(id, state) =>
      if state.Pending? && id in d.rows then d
      else d.(last := d.last + 1, rows := d.rows[id := Row(d.last + 1, state)])
    case Store(pull) =>
      if Genuine(d, pull) then d.(mirror := StoreReply(d.mirror, Reply(pull.got, pull.upTo))) else d
    case Echo(id, row) =>
      if EchoOk(d.rows, id, row) then d.(mirror := StoreReply(d.mirror, Reply(map[id := row], 0))) else d
    case Rebuild(pull) =>
      if Genuine(d, pull) && pull.since == 0 then d.(mirror := StoreReply(NOTHING, Reply(pull.got, pull.upTo))) else d
    case Clear => d.(mirror := NOTHING)
  }

  ghost function HappenAll(d: Device, events: seq<Event>): Device
    decreases |events|
  {
    if events == [] then d else HappenAll(Happen(d, events[0]), events[1..])
  }

  /** The mirror holds rows the server had, none newer and no tombstone. */
  ghost predicate DeviceOk(d: Device) {
    && (forall id :: id in d.rows ==> 0 < d.rows[id].seq_ <= d.last)
    && d.mirror.cursor <= d.last
    && (forall id :: id in d.mirror.rows ==> HeldOk(d, id))
  }

  predicate HeldOk(d: Device, id: Id)
    requires id in d.mirror.rows
  {
    var held := d.mirror.rows[id];
    && !held.state.Gone? && id in d.rows && held.seq_ <= d.rows[id].seq_
    && (held.seq_ == d.rows[id].seq_ ==> held == d.rows[id])
  }

  // ---- What the mirror has wrong ----

  /** The cursor claims the row and the mirror holds something else. */
  ghost predicate Wrong(d: Device, id: Id) {
    id in d.rows && d.rows[id].seq_ <= d.mirror.cursor && Find(d.mirror.rows, id) != Kept(d.rows[id])
  }

  /** The reply begins past the row's newest change, and the mirror's cursor has
   *  not reached it. */
  ghost predicate Skips(d: Device, pull: Pull, id: Id) {
    && pull.Reading? && id in d.rows && d.mirror.cursor < d.rows[id].seq_ <= pull.since
    && Find(d.mirror.rows, id) != Kept(d.rows[id])
  }

  /** Folding an older row in spoils a newer one: it takes it away, or it comes
   *  back where a deletion left no trace, or where something older still was. */
  predicate Spoils(d: Device, id: Id, row: Row) {
    && id in d.rows && row.seq_ < d.rows[id].seq_ <= d.mirror.cursor
    && if row.state.Gone? then !d.rows[id].state.Gone?
       else id !in d.mirror.rows || d.mirror.rows[id].seq_ < row.seq_
  }

  ghost predicate Exposes(d: Device, event: Event, id: Id) {
    match event
    case Store(pull) =>
      && Genuine(d, pull)
      && (Skips(d, pull, id) || (id in pull.got && Spoils(d, id, pull.got[id])))
    case Echo(other, row) => other == id && EchoOk(d.rows, id, row) && Spoils(d, id, row)
    case _ => false
  }

  /** The row itself arrives, or an older deletion takes away what a newer one
   *  should have. */
  predicate Mends(d: Device, id: Id, row: Row)
    requires id in d.rows
  {
    row.seq_ == d.rows[id].seq_ || (row.state.Gone? && d.rows[id].state.Gone?)
  }

  ghost predicate Cures(d: Device, event: Event, id: Id) {
    match event
    case Write(other, state) => other == id && !(state.Pending? && id in d.rows)
    case Store(pull) => Genuine(d, pull) && id in d.rows && id in pull.got && Mends(d, id, pull.got[id])
    case Echo(other, row) => other == id && EchoOk(d.rows, id, row) && Mends(d, id, row)
    case Rebuild(pull) => Genuine(d, pull) && pull.since == 0
    case Clear => true
  }

  lemma GenuineRow(d: Device, pull: Pull, id: Id)
    requires Genuine(d, pull) && id in d.rows
    ensures pull.since < d.rows[id].seq_ <= pull.upTo ==> id in pull.got && pull.got[id] == d.rows[id]
    ensures id in pull.got ==> EchoOk(d.rows, id, pull.got[id]) && pull.since < pull.got[id].seq_ <= pull.upTo
  {
    if id in pull.got {
      assert GotOk(d.rows, pull, id);
    }
  }

  /** What folding in one row the server had does to its place in the mirror. */
  lemma AfterFolding(d: Device, got: Rows, id: Id)
    requires DeviceOk(d) && id in d.rows && (id in got ==> EchoOk(d.rows, id, got[id]))
    ensures d.rows[id].seq_ <= d.mirror.cursor ==> (
      Folded(d.mirror.rows, got, id) != Kept(d.rows[id]) <==>
        || (Wrong(d, id) && !(id in got && Mends(d, id, got[id])))
        || (id in got && Spoils(d, id, got[id])))
    ensures id in got && got[id].seq_ == d.rows[id].seq_ ==> Folded(d.mirror.rows, got, id) == Kept(d.rows[id])
  {
    if id in d.mirror.rows {
      assert HeldOk(d, id);
    }
  }

  lemma AfterStore(d: Device, pull: Pull, id: Id)
    requires DeviceOk(d) && Genuine(d, pull)
    ensures Wrong(Happen(d, Store(pull)), id) <==>
      (Wrong(d, id) && !Cures(d, Store(pull), id)) || Exposes(d, Store(pull), id)
  {
    if id in d.rows {
      GenuineRow(d, pull, id);
      AfterFolding(d, pull.got, id);
      FindFold(d.mirror.rows, pull.got, id);
    }
  }

  lemma AfterRebuild(d: Device, pull: Pull, id: Id)
    requires DeviceOk(d) && Genuine(d, pull) && pull.since == 0
    ensures !Wrong(Happen(d, Rebuild(pull)), id)
  {
    if id in d.rows {
      GenuineRow(d, pull, id);
      FindFold(map[], pull.got, id);
    }
  }

  /** The law, for every event: a row is wrong in the mirror after it exactly when
   *  it was and the event does not cure it, or the event exposes it. */
  lemma WrongAfterEvent(d: Device, event: Event, id: Id)
    requires DeviceOk(d)
    ensures Wrong(Happen(d, event), id) <==> (Wrong(d, id) && !Cures(d, event, id)) || Exposes(d, event, id)
  {
    match event
    case Write(_, _) =>
    case Store(pull) => if Genuine(d, pull) { AfterStore(d, pull, id); }
    case Echo(other, row) =>
      if EchoOk(d.rows, other, row) && id in d.rows {
        FindFold(d.mirror.rows, map[other := row], id);
        AfterFolding(d, map[other := row], id);
      }
    case Rebuild(pull) => if Genuine(d, pull) && pull.since == 0 { AfterRebuild(d, pull, id); }
    case Clear =>
  }

  // ---- Whole runs ----

  lemma FoldKeeps(d: Device, got: Rows, reached: nat)
    requires DeviceOk(d) && reached <= d.last
    requires forall id :: id in got ==> EchoOk(d.rows, id, got[id])
    ensures DeviceOk(d.(mirror := StoreReply(d.mirror, Reply(got, reached))))
  {
    var d' := d.(mirror := StoreReply(d.mirror, Reply(got, reached)));
    forall id | id in d'.mirror.rows ensures HeldOk(d', id) {
      FindFold(d.mirror.rows, got, id);
      assert id in d.mirror.rows ==> HeldOk(d, id);
    }
  }

  lemma PullKeeps(d: Device, mirror: Mirror, pull: Pull)
    requires DeviceOk(d.(mirror := mirror)) && Genuine(d, pull)
    ensures DeviceOk(d.(mirror := StoreReply(mirror, Reply(pull.got, pull.upTo))))
  {
    forall id | id in pull.got ensures EchoOk(d.rows, id, pull.got[id]) {
      assert GotOk(d.rows, pull, id);
      GenuineRow(d, pull, id);
    }
    FoldKeeps(d.(mirror := mirror), pull.got, pull.upTo);
  }

  lemma DeviceStep(d: Device, event: Event)
    requires DeviceOk(d)
    ensures DeviceOk(Happen(d, event))
  {
    match event
    case Write(id, state) =>
      forall other | other in d.mirror.rows ensures HeldOk(Happen(d, event), other) {
        assert HeldOk(d, other);
      }
    case Store(pull) => if Genuine(d, pull) { PullKeeps(d, d.mirror, pull); }
    case Echo(id, row) => if EchoOk(d.rows, id, row) { FoldKeeps(d, map[id := row], 0); }
    case Rebuild(pull) => if Genuine(d, pull) { PullKeeps(d, NOTHING, pull); }
    case Clear =>
  }

  lemma {:induction false} DeviceRun(d: Device, events: seq<Event>)
    requires DeviceOk(d)
    ensures DeviceOk(HappenAll(d, events))
    decreases |events|
  {
    if events != [] {
      DeviceStep(d, events[0]);
      DeviceRun(Happen(d, events[0]), events[1..]);
    }
  }

  lemma {:induction false} HappenMore(d: Device, events: seq<Event>, event: Event)
    ensures HappenAll(d, events + [event]) == Happen(HappenAll(d, events), event)
    decreases |events|
  {
    if events == [] {
      assert (events + [event])[1..] == [];
    } else {
      assert (events + [event])[1..] == events[1..] + [event];
      HappenMore(Happen(d, events[0]), events[1..], event);
    }
  }

  /** Some event exposed the row and none since has cured it. */
  ghost predicate ExposedForGood(d: Device, events: seq<Event>, id: Id) {
    exists i :: ExposedAt(d, events, i, id)
  }

  ghost predicate ExposedAt(d: Device, events: seq<Event>, i: int, id: Id) {
    && 0 <= i < |events| && Exposes(HappenAll(d, events[..i]), events[i], id)
    && forall j :: i < j < |events| ==> !Cures(HappenAll(d, events[..j]), events[j], id)
  }

  lemma ExposedMore(d: Device, events: seq<Event>, event: Event, id: Id)
    ensures ExposedForGood(d, events + [event], id) <==>
      || Exposes(HappenAll(d, events), event, id)
      || (ExposedForGood(d, events, id) && !Cures(HappenAll(d, events), event, id))
  {
    var all, k := events + [event], |events|;
    assert all[..k] == events && all[k] == event;
    assert forall j :: 0 <= j < k ==> all[..j] == events[..j] && all[j] == events[j];
    if Exposes(HappenAll(d, events), event, id) {
      assert ExposedAt(d, all, k, id);
    }
    if i :| ExposedAt(d, events, i, id) && !Cures(HappenAll(d, events), event, id) {
      forall j | i < j < |all| ensures !Cures(HappenAll(d, all[..j]), all[j], id) {
        if j < k {
          assert !Cures(HappenAll(d, events[..j]), events[j], id);
        }
      }
      assert ExposedAt(d, all, i, id);
    }
    if i :| ExposedAt(d, all, i, id) && i < k {
      assert !Cures(HappenAll(d, all[..k]), all[k], id);
      forall j | i < j < k ensures !Cures(HappenAll(d, events[..j]), events[j], id) {
        assert !Cures(HappenAll(d, all[..j]), all[j], id);
      }
      assert ExposedAt(d, events, i, id);
    }
  }

  const EMPTY := Device(0, map[], NOTHING)

  /** Over every run of writes, replies in any order and from any start, answers,
   *  rebuilds and sign-outs: the mirror has a row its cursor claims wrong exactly
   *  when an event exposed it and none since has cured it. */
  lemma {:induction false} MirrorWrongIff(events: seq<Event>, id: Id)
    ensures Wrong(HappenAll(EMPTY, events), id) <==> ExposedForGood(EMPTY, events, id)
    decreases |events|
  {
    if events != [] {
      var k := |events| - 1;
      var before := events[..k];
      assert events == before + [events[k]];
      MirrorWrongIff(before, id);
      DeviceRun(EMPTY, before);
      WrongAfterEvent(HappenAll(EMPTY, before), events[k], id);
      HappenMore(EMPTY, before, events[k]);
      ExposedMore(EMPTY, before, events[k], id);
    }
  }

  lemma MirrorsIff(d: Device)
    ensures MirrorsUpTo(d.rows, d.mirror) <==> forall id :: !Wrong(d, id)
  {
    if forall id :: !Wrong(d, id) {
      forall id | id in d.rows && d.rows[id].seq_ <= d.mirror.cursor ensures Find(d.mirror.rows, id) == Kept(d.rows[id]) {
        assert !Wrong(d, id);
      }
    }
  }

  /** A mirror whose cursor is the server's is the server's live rows, tombstones
   *  left out, exactly when no row was exposed and left uncured on the way. */
  lemma MirrorIsServerIff(events: seq<Event>)
    requires var d := HappenAll(EMPTY, events); d.mirror.cursor == d.last
    ensures var d := HappenAll(EMPTY, events);
      d.mirror.rows == LiveRows(d.rows) <==> forall id :: !ExposedForGood(EMPTY, events, id)
  {
    var d := HappenAll(EMPTY, events);
    DeviceRun(EMPTY, events);
    forall id ensures Find(d.mirror.rows, id) != Find(LiveRows(d.rows), id) <==> ExposedForGood(EMPTY, events, id) {
      MirrorWrongIff(events, id);
      assert id in d.mirror.rows ==> HeldOk(d, id);
    }
    if forall id :: !ExposedForGood(EMPTY, events, id) {
      assert forall id {:trigger Find(d.mirror.rows, id)} ::
        !ExposedForGood(EMPTY, events, id) ==> Find(d.mirror.rows, id) == Find(LiveRows(d.rows), id);
      SameRows(d.mirror.rows, LiveRows(d.rows));
    }
  }

  /** A reply that lands on a right mirror leaves it right exactly when it begins
   *  past no change the mirror lacks, and no row it carries has changed, at or
   *  below the cursor, between live and deleted since. */
  lemma ReplyKeepsMirrorIff(d: Device, pull: Pull)
    requires DeviceOk(d) && Genuine(d, pull) && MirrorsUpTo(d.rows, d.mirror)
    ensures MirrorsUpTo(d.rows, Happen(d, Store(pull)).mirror) <==>
      && (forall id :: id in d.rows && d.mirror.cursor < d.rows[id].seq_ <= pull.since ==>
            Find(d.mirror.rows, id) == Kept(d.rows[id]))
      && forall id :: id in pull.got && id in d.rows && pull.upTo < d.rows[id].seq_ <= d.mirror.cursor ==>
            (pull.got[id].state.Gone? <==> d.rows[id].state.Gone?)
  {
    var d' := Happen(d, Store(pull));
    MirrorsIff(d);
    MirrorsIff(d');
    forall id ensures Wrong(d', id) <==> (
      && id in d.rows
      && ((d.mirror.cursor < d.rows[id].seq_ <= pull.since && Find(d.mirror.rows, id) != Kept(d.rows[id]))
          || (id in pull.got && pull.upTo < d.rows[id].seq_ <= d.mirror.cursor
              && (pull.got[id].state.Gone? != d.rows[id].state.Gone?))))
    {
      AfterStore(d, pull, id);
      if id in d.rows {
        GenuineRow(d, pull, id);
        assert id in d.mirror.rows ==> HeldOk(d, id);
      }
    }
  }

  // ---- In cursor order ----

  /** Replies are stored in the order of their cursors, without a gap, and answers
   *  to a tab's own changes are not older than what the cursor claims. */
  ghost predicate InOrder(d: Device, events: seq<Event>)
    decreases |events|
  {
    events == [] || (Orderly(d, events[0]) && InOrder(Happen(d, events[0]), events[1..]))
  }

  ghost predicate Orderly(d: Device, event: Event) {
    match event
    case Store(pull) => Genuine(d, pull) ==> pull.since <= d.mirror.cursor <= pull.upTo
    case Echo(id, row) => id in d.rows && d.rows[id].seq_ <= d.mirror.cursor ==> row == d.rows[id]
    case _ => true
  }

  lemma {:induction false} InOrderRun(d: Device, events: seq<Event>)
    requires DeviceOk(d) && MirrorsUpTo(d.rows, d.mirror) && InOrder(d, events)
    ensures DeviceOk(HappenAll(d, events)) && MirrorsUpTo(HappenAll(d, events).rows, HappenAll(d, events).mirror)
    decreases |events|
  {
    if events != [] {
      var d' := Happen(d, events[0]);
      DeviceStep(d, events[0]);
      forall id ensures !Wrong(d', id) {
        WrongAfterEvent(d, events[0], id);
        assert !Wrong(d, id);
      }
      MirrorsIff(d');
      InOrderRun(d', events[1..]);
    }
  }

  /** Filled in cursor order from nothing, the mirror is the server's live rows,
   *  tombstones left out, at every row whose newest sequence it has reached. */
  lemma MirrorIsServer(events: seq<Event>)
    requires InOrder(EMPTY, events)
    ensures var d := HappenAll(EMPTY, events);
      && MirrorsUpTo(d.rows, d.mirror)
      && (d.mirror.cursor == d.last ==> d.mirror.rows == LiveRows(d.rows))
  {
    InOrderRun(EMPTY, events);
    var d := HappenAll(EMPTY, events);
    if d.mirror.cursor == d.last {
      forall id ensures Find(d.mirror.rows, id) == Find(LiveRows(d.rows), id) {
        assert id in d.mirror.rows ==> HeldOk(d, id);
      }
      SameRows(d.mirror.rows, LiveRows(d.rows));
    }
  }

  /** The library a boot builds from the mirror. */
  function Built(rows: Rows): Library {
    map id | id in rows && Shown(rows[id]).Some? :: Shown(rows[id]).value
  }

  /** So what a boot puts on screen agrees with the server up to the cursor that
   *  comes with it, and still does when it lands, whatever is written while it
   *  loads. */
  lemma BootFindsAgreement(events: seq<Event>, later: seq<Event>)
    requires InOrder(EMPTY, events)
    requires forall i :: 0 <= i < |later| ==> later[i].Write?
    ensures var d := HappenAll(EMPTY, events);
      AgreesUpTo(HappenAll(d, later).rows, Built(d.mirror.rows), d.mirror.cursor)
  {
    var d := HappenAll(EMPTY, events);
    InOrderRun(EMPTY, events);
    StillMirrors(d, later);
  }

  lemma {:induction false} StillMirrors(d: Device, later: seq<Event>)
    requires DeviceOk(d) && MirrorsUpTo(d.rows, d.mirror)
    requires forall i :: 0 <= i < |later| ==> later[i].Write?
    ensures AgreesUpTo(HappenAll(d, later).rows, Built(d.mirror.rows), d.mirror.cursor)
    decreases |later|
  {
    if later == [] {
      forall id | id in d.rows && d.rows[id].seq_ <= d.mirror.cursor
        ensures Lookup(Built(d.mirror.rows), id) == Shown(d.rows[id])
      {
        assert Find(d.mirror.rows, id) == Kept(d.rows[id]);
      }
    } else {
      StillMirrors(Happen(d, later[0]), later[1..]);
    }
  }

  function LiveRows(rows: Rows): Rows {
    map id | id in rows && !rows[id].state.Gone? :: rows[id]
  }

  lemma SameRows(a: Rows, b: Rows)
    requires forall id :: Find(a, id) == Find(b, id)
    ensures a == b
  {
    forall id ensures id in a <==> id in b {
      assert Find(a, id) == Find(b, id);
    }
    forall id | id in a ensures a[id] == b[id] {
      assert Find(a, id) == Find(b, id);
    }
  }

  const LIVE := Row(1, Live("text"))
  const GONE := Row(2, Gone)

  /** A row is written and deleted; the reply with the deletion is stored, and
   *  then one that was read before it: the row is back, at the server's cursor. */
  lemma OvertakenReplyResurrects(id: Id)
    ensures var late, newer := Reading(0, 1, {}, map[id := LIVE]), Reading(0, 2, {}, map[id := GONE]);
      var d := HappenAll(EMPTY, [Event.Write(id, LIVE.state), Event.Write(id, Gone), Store(newer), Store(late)]);
      && d.rows == map[id := GONE] && d.mirror == Mirror(map[id := LIVE], 2) && d.mirror.cursor == d.last
  {
    var late, newer := Reading(0, 1, {}, map[id := LIVE]), Reading(0, 2, {}, map[id := GONE]);
    var written := Device(1, map[id := LIVE], NOTHING);
    var deleted := Device(2, map[id := GONE], NOTHING);
    var stored := deleted.(mirror := Mirror(map[], 2));
    assert Happen(EMPTY, Event.Write(id, LIVE.state)) == written && Happen(written, Event.Write(id, Gone)) == deleted;
    assert GotOk(deleted.rows, newer, id) && GotOk(deleted.rows, late, id);
    assert Fold(map[], newer.got) == map[] && Fold(map[], late.got) == map[id := LIVE];
    assert Happen(deleted, Store(newer)) == stored;
    var events := [Event.Write(id, LIVE.state), Event.Write(id, Gone), Store(newer), Store(late)];
    assert events[1..] == [Event.Write(id, Gone), Store(newer), Store(late)];
    assert events[1..][1..] == [Store(newer), Store(late)] && events[1..][1..][1..] == [Store(late)];
    HappenMore(stored, [], Store(late));
    assert [] + [Store(late)] == [Store(late)];
    assert HappenAll(deleted, [Store(newer), Store(late)]) == HappenAll(stored, [Store(late)]);
    assert HappenAll(written, events[1..]) == HappenAll(deleted, events[1..][1..]);
  }

  // ---- The object ----

  lemma FoldMore(rows: Rows, dtos: seq<Dto>, dto: Dto)
    requires dto.id !in ById(dtos)
    ensures var before := Fold(rows, ById(dtos));
      && (dto.id in before <==> dto.id in rows) && (dto.id in rows ==> before[dto.id] == rows[dto.id])
      && Fold(rows, ById(dtos + [dto])) ==
          if dto.row.state.Gone? then before - {dto.id}
          else if dto.id in before && before[dto.id].seq_ >= dto.row.seq_ then before
          else before[dto.id := dto.row]
  {
    assert (dtos + [dto])[..|dtos|] == dtos;
    var got := ById(dtos);
    var before, after := Fold(rows, got), Fold(rows, got[dto.id := dto.row]);
    var expected :=
      if dto.row.state.Gone? then before - {dto.id}
      else if dto.id in before && before[dto.id].seq_ >= dto.row.seq_ then before
      else before[dto.id := dto.row];
    FindFold(rows, got, dto.id);
    forall id ensures Find(after, id) == Find(expected, id) {
      FindFold(rows, got, id);
      FindFold(rows, got[dto.id := dto.row], id);
    }
    SameRows(after, expected);
  }

  /** The row with the higher sequence, and the one that is there on a tie. */
  function Newer(there: Option<Row>, row: Row): Row {
    if there.Some? && there.value.seq_ >= row.seq_ then there.value else row
  }

  /** What a reply does to each id, one by one. */
  lemma RepliesFold(base: Rows, dtos: seq<Dto>)
    requires Once(dtos)
    ensures var folded := Fold(base, ById(dtos));
      && (forall i :: 0 <= i < |dtos| && dtos[i].row.state.Gone? ==> dtos[i].id !in folded)
      && (forall i :: 0 <= i < |dtos| && !dtos[i].row.state.Gone? ==>
            Find(folded, dtos[i].id) == Some(Newer(Find(base, dtos[i].id), dtos[i].row)))
      && (forall id :: Unnamed(dtos, id) ==> Find(folded, id) == Find(base, id))
  {
    forall i | 0 <= i < |dtos| ensures Find(Fold(base, ById(dtos)), dtos[i].id) ==
      if dtos[i].row.state.Gone? then None else Some(Newer(Find(base, dtos[i].id), dtos[i].row))
    {
      ByIdHas(dtos, i);
      FindFold(base, ById(dtos), dtos[i].id);
    }
    forall id | Unnamed(dtos, id) ensures Find(Fold(base, ById(dtos)), id) == Find(base, id) {
      NotYet(dtos, id);
      FindFold(base, ById(dtos), id);
    }
  }

  class MirrorStore {
    var rows: Rows
    var cursor: nat

    constructor ()
      ensures rows == map[] && cursor == 0
    {
      rows, cursor := map[], 0;
    }

    ghost function View(): Mirror
      reads this
    {
      Mirror(rows, cursor)
    }

    /** Folds one reply in; a rebuild clears the mirror first. */
    method StoreSyncRows(dtos: seq<Dto>, reached: nat, rebuild: bool)
      requires Once(dtos)
      modifies this
      ensures View() == StoreReply(if rebuild then Mirror(map[], 0) else old(View()), Reply(ById(dtos), reached))
      ensures cursor == if rebuild then reached else Max(old(cursor), reached)
      ensures forall i :: 0 <= i < |dtos| && dtos[i].row.state.Gone? ==> dtos[i].id !in rows
      ensures forall i :: 0 <= i < |dtos| && !dtos[i].row.state.Gone? ==>
        Find(rows, dtos[i].id) == Some(Newer(if rebuild then None else Find(old(rows), dtos[i].id), dtos[i].row))
      ensures forall id :: Unnamed(dtos, id) ==> Find(rows, id) == if rebuild then None else Find(old(rows), id)
    {
      if rebuild {
        rows, cursor := map[], 0;
      }
      ghost var base := rows;
      assert Fold(base, map[]) == base;
      for i := 0 to |dtos|
        invariant rows == Fold(base, ById(dtos[..i])) && cursor == (if rebuild then 0 else old(cursor))
      {
        var dto := dtos[i];
        NotYet(dtos[..i], dto.id);
        FoldMore(base, dtos[..i], dto);
        assert dtos[..i + 1] == dtos[..i] + [dto];
        if dto.row.state.Gone? {
          rows := rows - {dto.id};
        } else if dto.id !in rows || rows[dto.id].seq_ < dto.row.seq_ {
          rows := rows[dto.id := dto.row];
        }
      }
      assert dtos[..|dtos|] == dtos;
      cursor := Max(cursor, reached);
      RepliesFold(base, dtos);
    }
  }
}
