/**
 * The hub of one server instance: rooms of sockets per document, and per
 * document the watermark of the log. Each method is a stretch of the hub's
 * code between two awaits; what it decides about the watermark and the rows
 * to fetch is the ruling that `ChannelLog` reasons about.
 */
module CollabHub {
  import opened Prelude
  import opened ChannelLog

  datatype Row = Row(n: nat, sender: ConnId, payload: string)

  datatype Frame = Log(row: Row) | Other(text: string)

  class Connection {
    const id: ConnId
    const userId: nat
    var sent: seq<Frame>
    var closed: bool

    constructor (id: ConnId, userId: nat)
      ensures this.id == id && this.userId == userId && sent == [] && !closed
    {
      this.id := id;
      this.userId := userId;
      sent := [];
      closed := false;
    }

    method Send(frame: Frame)
      modifies this`sent
      ensures sent == old(sent) + [frame]
    {
      sent := sent + [frame];
    }
  }

  /** The members map a document's channel holds. A delivery under way keeps
   *  the object, so a room that emptied and was forgotten reaches nobody. */
  class Room {
    var members: map<ConnId, Connection>

    constructor ()
      ensures members == map[]
    {
      members := map[];
    }

    ghost predicate Valid()
      reads this
    {
      forall id :: id in members ==> members[id].id == id
    }
  }

  /** A delivery that waits for its rows, and the watermark to write after. */
  datatype Delivery = Delivery(room: Room, span: Span, mark: Option<nat>)

  predicate Increasing(at: seq<nat>) {
    forall j, k :: 0 <= j < k < |at| ==> at[j] < at[k]
  }

  /** Frame `k` is row `at[k]`, which somebody else posted. */
  predicate PointsAt(id: ConnId, rows: seq<Row>, frames: seq<Frame>, at: seq<nat>) {
    && |at| == |frames|
    && forall k :: 0 <= k < |at| ==> at[k] < |rows| && frames[k] == Log(rows[at[k]]) && rows[at[k]].sender != id
  }

  /** No row of another sender is left out. */
  predicate LeavesOutNone(id: ConnId, rows: seq<Row>, at: seq<nat>) {
    forall i {:trigger i in at} :: 0 <= i < |rows| && rows[i].sender != id ==> i in at
  }

  /** `at` says which rows the frames are: those other senders posted, each once
   *  and in their order. */
  predicate AreAt(id: ConnId, rows: seq<Row>, frames: seq<Frame>, at: seq<nat>) {
    PointsAt(id, rows, frames, at) && Increasing(at) && LeavesOutNone(id, rows, at)
  }

  /** The frames are the rows that `id` did not post, each once, in order. */
  ghost predicate AreTheirs(id: ConnId, rows: seq<Row>, frames: seq<Frame>) {
    exists at: seq<nat> :: AreAt(id, rows, frames, at)
  }

  predicate ByPosition(rows: seq<Row>) {
    forall i, j :: 0 <= i < j < |rows| ==> rows[i].n < rows[j].n
  }

  /** So rows read by position reach a member by position. */
  lemma FramesByPosition(id: ConnId, rows: seq<Row>, frames: seq<Frame>)
    requires AreTheirs(id, rows, frames) && ByPosition(rows)
    ensures forall j, k :: 0 <= j < k < |frames| ==>
      frames[j].Log? && frames[k].Log? && frames[j].row.n < frames[k].row.n
  {
    var at: seq<nat> :| AreAt(id, rows, frames, at);
    forall j, k | 0 <= j < k < |frames|
      ensures frames[j].Log? && frames[k].Log? && frames[j].row.n < frames[k].row.n
    {
      assert at[j] < at[k];
    }
  }

  /** And nobody is free to send anything else: the frames are determined. */
  lemma {:induction false} TheirsAreUnique(id: ConnId, rows: seq<Row>, a: seq<Frame>, b: seq<Frame>)
    requires AreTheirs(id, rows, a) && AreTheirs(id, rows, b)
    ensures a == b
    decreases |rows|
  {
    if rows == [] {
    } else {
      var n := |rows| - 1;
      LastOfTheirs(id, rows, a);
      LastOfTheirs(id, rows, b);
      if rows[n].sender == id {
        TheirsAreUnique(id, rows[..n], a, b);
      } else {
        TheirsAreUnique(id, rows[..n], a[..|a| - 1], b[..|b| - 1]);
        assert a == a[..|a| - 1] + [a[|a| - 1]] && b == b[..|b| - 1] + [b[|b| - 1]];
      }
    }
  }

  lemma LastOfTheirs(id: ConnId, rows: seq<Row>, frames: seq<Frame>)
    requires AreTheirs(id, rows, frames) && rows != []
    ensures var n, m := |rows| - 1, |frames| - 1;
      if rows[n].sender == id then AreTheirs(id, rows[..n], frames)
      else m >= 0 && frames[m] == Log(rows[n]) && AreTheirs(id, rows[..n], frames[..m])
  {
    var n, m := |rows| - 1, |frames| - 1;
    var at: seq<nat> :| AreAt(id, rows, frames, at);
    if rows[n].sender == id {
      assert AreAt(id, rows[..n], frames, at);
    } else {
      assert n in at;
      assert at[m] == n && at == at[..m] + [n];
      forall i | 0 <= i < n && rows[i].sender != id ensures i in at[..m] {
        assert i in at;
      }
      assert LeavesOutNone(id, rows[..n], at[..m]);
      assert AreAt(id, rows[..n], frames[..m], at[..m]);
    }
  }

  /** One more row is read: one more frame, unless its sender is the member. */
  lemma TheirsSnoc(id: ConnId, rows: seq<Row>, frames: seq<Frame>, row: Row)
    requires AreTheirs(id, rows, frames)
    ensures AreTheirs(id, rows + [row], frames + if row.sender == id then [] else [Log(row)])
  {
    var at: seq<nat> :| AreAt(id, rows, frames, at);
    if row.sender == id {
      assert frames + [] == frames;
      assert AreAt(id, rows + [row], frames, at);
    } else {
      assert AreAt(id, rows + [row], frames + [Log(row)], at + [|rows|]);
    }
  }

  /** Sends `frame` to every member of the room but one. */
  method SendToRoom(room: Room, frame: Frame, except: Option<ConnId>)
    requires room.Valid()
    modifies set id | id in room.members :: room.members[id]
    ensures forall id :: id in room.members ==>
      room.members[id].sent == old(room.members[id].sent) + if except == Some(id) then [] else [frame]
    ensures forall id :: id in room.members ==> room.members[id].closed == old(room.members[id].closed)
  {
    var todo := room.members.Keys;
    while todo != {}
      invariant todo <= room.members.Keys
      invariant forall id :: id in todo ==> room.members[id].sent == old(room.members[id].sent)
      invariant forall id :: id in room.members.Keys - todo ==>
        room.members[id].sent == old(room.members[id].sent) + if except == Some(id) then [] else [frame]
      invariant forall id :: id in room.members ==> room.members[id].closed == old(room.members[id].closed)
      decreases todo
    {
      var id :| id in todo;
      if except != Some(id) {
        room.members[id].Send(frame);
      }
      todo := todo - {id};
    }
  }

  /** What the frame list has grown by since it was `was`. */
  ghost predicate GotTheirs(id: ConnId, rows: seq<Row>, was: seq<Frame>, sent: seq<Frame>) {
    was <= sent && AreTheirs(id, rows, sent[|was|..])
  }

  lemma GotNone(id: ConnId, was: seq<Frame>)
    ensures GotTheirs(id, [], was, was)
  {
    assert AreAt(id, [], was[|was|..], []);
  }

  lemma GotOneMore(id: ConnId, rows: seq<Row>, was: seq<Frame>, sent: seq<Frame>, row: Row)
    requires GotTheirs(id, rows, was, sent)
    ensures GotTheirs(id, rows + [row], was, sent + if row.sender == id then [] else [Log(row)])
  {
    TheirsSnoc(id, rows, sent[|was|..], row);
    assert (sent + [Log(row)])[|was|..] == sent[|was|..] + [Log(row)];
    assert sent + [] == sent && sent[|was|..] + [] == sent[|was|..];
  }

  /** Rows have been read: every member gets those it did not post, each once and
   *  in the order read. */
  method DeliverRows(room: Room, rows: seq<Row>)
    requires room.Valid()
    modifies set id | id in room.members :: room.members[id]
    ensures forall id :: id in room.members ==> GotTheirs(id, rows, old(room.members[id].sent), room.members[id].sent)
    ensures forall id :: id in room.members ==> room.members[id].closed == old(room.members[id].closed)
  {
    forall id | id in room.members ensures GotTheirs(id, [], room.members[id].sent, room.members[id].sent) {
      GotNone(id, room.members[id].sent);
    }
    assert rows[..0] == [];
    for k := 0 to |rows|
      invariant forall id :: id in room.members ==> room.members[id].closed == old(room.members[id].closed)
      invariant forall id :: id in room.members ==>
        GotTheirs(id, rows[..k], old(room.members[id].sent), room.members[id].sent)
    {
      label Before:
      SendToRoom(room, Log(rows[k]), Some(rows[k].sender));
      forall id | id in room.members
        ensures GotTheirs(id, rows[..k + 1], old(room.members[id].sent), room.members[id].sent)
      {
        GotOneMore(id, rows[..k], old(room.members[id].sent), old@Before(room.members[id].sent), rows[k]);
        assert rows[..k + 1] == rows[..k] + [rows[k]];
      }
    }
    assert rows[..|rows|] == rows;
  }

  class PgNotifyHub {
    var channels: map<string, Room>
    var watermark: map<string, nat>

    ghost predicate Valid()
      reads this, channels.Values
    {
      && (forall f :: f in channels ==> channels[f].Valid() && channels[f].members != map[])
      && (forall f, g :: f in channels && g in channels && f != g ==> channels[f] != channels[g])
    }

    ghost function Mark(f: string): Option<nat>
      reads this
    {
      if f in watermark then Some(watermark[f]) else None
    }

    constructor ()
      ensures Valid() && channels == map[] && watermark == map[]
    {
      channels := map[];
      watermark := map[];
    }

    /** The new member's room, made on first use. The caller reads the log's
     *  head as the document's baseline when it has no watermark. */
    method Join(f: string, conn: Connection) returns (baseline: bool)
      requires Valid()
      modifies this`channels, channels.Values
      ensures Valid()
      ensures f in channels && conn.id in channels[f].members && channels[f].members[conn.id] == conn
      ensures f in old(channels) ==>
        channels == old(channels) && channels[f].members == old(channels[f].members)[conn.id := conn]
      ensures f !in old(channels) ==> channels[f].members == map[conn.id := conn] && fresh(channels[f])
      ensures forall g :: g in old(channels) && g != f ==>
        g in channels && channels[g] == old(channels[g]) && channels[g].members == old(channels[g].members)
      ensures baseline == Mark(f).None?
    {
      if f !in channels {
        var room := new Room();
        channels := channels[f := room];
      }
      channels[f].members := channels[f].members[conn.id := conn];
      assert conn.id in channels[f].members;
      baseline := f !in watermark;
    }

    /** The baseline has been read. */
    method SetBaseline(f: string, head: nat)
      modifies this`watermark
      ensures watermark == if old(Mark(f)).None? then old(watermark)[f := head] else old(watermark)
    {
      if f !in watermark {
        watermark := watermark[f := head];
      }
    }

    /** The room is forgotten with its last member; the watermark stays. */
    method Leave(f: string, id: ConnId)
      requires Valid()
      modifies this`channels, channels.Values
      ensures Valid()
      ensures f in old(channels) ==> old(channels[f]).members == old(channels[f].members) - {id}
      ensures f in channels <==> f in old(channels) && old(channels[f].members) - {id} != map[]
      ensures forall g :: g in channels ==> g in old(channels) && channels[g] == old(channels[g])
      ensures forall g :: g in old(channels) && g != f ==> g in channels && channels[g].members == old(channels[g].members)
    {
      if f in channels {
        channels[f].members := channels[f].members - {id};
        if channels[f].members == map[] {
          channels := channels - {f};
        }
      }
    }

    /** Carries out a ruling: writes the watermark, and returns the delivery to
     *  start, which holds on to the room as it is now. */
    ghost predicate Obeys(f: string, wasMarks: map<string, nat>, ruling: Ruling, delivery: Option<Delivery>)
      reads this
    {
      && ruling.watermark.Some? && Mark(f) == ruling.watermark
      && watermark == wasMarks[f := ruling.watermark.value]
      && (ruling.fill.None? ==> delivery.None?)
      && (ruling.fill.Some? ==> f in channels && delivery == Some(Delivery(channels[f], ruling.fill.value, ruling.mark)))
    }

    /** A log frame posted here: local sockets at once, gaps below it fetched,
     *  then the mark moves. */
    method BroadcastLog(f: string, row: Row) returns (fill: Option<Delivery>)
      requires Valid()
      modifies this`watermark
      modifies if f in channels then (set id | id in channels[f].members :: channels[f].members[id]) else {}
      ensures f in channels ==> forall id :: id in channels[f].members ==>
        && channels[f].members[id].sent == old(channels[f].members[id].sent) + (if id == row.sender then [] else [Log(row)])
        && channels[f].members[id].closed == old(channels[f].members[id].closed)
      ensures Valid()
      ensures Obeys(f, old(watermark), OnPost(old(Mark(f)), f in channels, row.n), fill)
    {
      if f in channels {
        SendToRoom(channels[f], Log(row), Some(row.sender));
      }
      fill := None;
      if f in watermark {
        if f in channels && row.n - 1 > watermark[f] {
          fill := Some(Delivery(channels[f], Span(watermark[f], row.n - 1), None));
        }
        watermark := watermark[f := Max(watermark[f], row.n)];
      } else {
        watermark := watermark[f := row.n];
      }
    }

    /** A notice arrived: what `deliverLog` does before it awaits anything. */
    method DeliverLog(f: string, n: nat, own: bool) returns (delivery: Option<Delivery>)
      requires Valid()
      modifies this`watermark
      ensures Valid()
      ensures Obeys(f, old(watermark), OnNotice(old(Mark(f)), f in channels, n, own), delivery)
    {
      delivery := None;
      if f !in channels {
        watermark := watermark[f := Max(if f in watermark then watermark[f] else 0, n)];
        return;
      }
      if f !in watermark {
        watermark := watermark[f := n];
        if !own {
          delivery := Some(Delivery(channels[f], Span(n - 1, n), None));
        }
        return;
      }
      var from := watermark[f];
      var upTo: int := if own then n - 1 else n;
      if upTo > from {
        delivery := Some(Delivery(channels[f], Span(from, upTo), Some(Max(from, n))));
      } else {
        watermark := watermark[f := Max(from, n)];
      }
    }

    /** A resync has read the document's head. */
    method ResyncHead(f: string, head: nat) returns (delivery: Option<Delivery>)
      requires Valid()
      modifies this`watermark
      ensures Valid()
      ensures Obeys(f, old(watermark), OnHead(old(Mark(f)), f in channels, head), delivery)
    {
      delivery := None;
      if f in channels && f in watermark && head > watermark[f] {
        delivery := Some(Delivery(channels[f], Span(watermark[f], head), Some(Max(watermark[f], head))));
      } else {
        watermark := watermark[f := Max(if f in watermark then watermark[f] else 0, head)];
      }
    }

    /** The awaited delivery is done: the mark it was to leave is written, even
     *  where another delivery has moved the watermark past it meanwhile. */
    method FinishDelivery(f: string, mark: Option<nat>)
      requires Valid()
      modifies this`watermark
      ensures Valid()
      ensures mark.Some? ==> watermark == old(watermark)[f := mark.value]
      ensures mark.None? ==> watermark == old(watermark)
    {
      if mark.Some? {
        watermark := watermark[f := mark.value];
      }
    }

    /** Access ended: the account's sockets on the document are closed. */
    method Evict(f: string, userId: nat)
      requires Valid()
      modifies if f in channels then (set id | id in channels[f].members :: channels[f].members[id]) else {}
      ensures f in channels ==> forall id :: id in channels[f].members ==>
        && channels[f].members[id].closed == (old(channels[f].members[id].closed) || channels[f].members[id].userId == userId)
        && channels[f].members[id].sent == old(channels[f].members[id].sent)
    {
      if f !in channels {
        return;
      }
      var room := channels[f];
      var todo := room.members.Keys;
      while todo != {}
        invariant todo <= room.members.Keys
        invariant forall id :: id in todo ==> room.members[id].closed == old(room.members[id].closed)
        invariant forall id :: id in room.members.Keys - todo ==>
          room.members[id].closed == (old(room.members[id].closed) || room.members[id].userId == userId)
        invariant forall id :: id in room.members ==> room.members[id].sent == old(room.members[id].sent)
        decreases todo
      {
        var id :| id in todo;
        if room.members[id].userId == userId {
          room.members[id].closed := true;
        }
        todo := todo - {id};
      }
    }
  }
}
