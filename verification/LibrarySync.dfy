/** The library a browser shows and the pulls that keep it. */
module LibrarySync {
  // Each pull asks for the rows past the cursor it saw, the server reads the
  // account's sequence first and each collection after it, and replies land in
  // any order. A start that finds a copy of the library on the device puts that
  // on screen first; the copy is loaded over an await and nothing is looked at
  // again before it lands.

  import opened Prelude

  datatype Kind = Folder | File | Shared
  datatype Id = Id(kind: Kind, name: string)

  /** A row as the server has it: shown with its content, a tombstone, or a
   *  file whose first upload has not landed. */
  datatype State = Live(content: string) | Gone | Pending
  datatype Row = Row(seq_: nat, state: State)

  type Rows = map<Id, Row>
  type Library = map<Id, string>

  datatype PullId = PullId(id: nat)
  datatype Pull = Asked(since: nat) | Reading(since: nat, upTo: nat, left: set<Kind>, got: Rows)

  /** The server's rows, the tab's cursor and library, the pulls under way (those
   *  in `rebuilds` were asked for as a full sync) and the boots that are loading
   *  the device's copy. */
  datatype World = World(
    last: nat, rows: Rows, cursor: nat, library: Library,
    pulls: map<PullId, Pull>, rebuilds: set<PullId>, boots: set<PullId>)

  datatype Step =
    | Write(id: Id, state: State)
    | Issue(p: PullId)
    | ReadLast(p: PullId)
    | ReadRows(p: PullId, kind: Kind)
    | Land(p: PullId)
    | Fail(p: PullId)
    | IssueRebuild(p: PullId)
    | Echo(id: Id, row: Row)
    | Boot(p: PullId)
    | BootLands(p: PullId, library: Library, cursor: nat)
    | BootFindsNothing(p: PullId)
    | Reset

  function Lookup(library: Library, id: Id): Option<string> {
    if id in library then Some(library[id]) else None
  }

  function Shown(row: Row): Option<string> {
    if row.state.Live? then Some(row.state.content) else None
  }

  /** What the library shows of a row once the reply has been applied. */
  function Applied(library: Library, got: Rows, id: Id): Option<string> {
    if id !in got || got[id].state.Pending? then Lookup(library, id) else Shown(got[id])
  }

  function Delta(library: Library, got: Rows): Library {
    map id | id in library.Keys + got.Keys && Applied(library, got, id).Some? :: Applied(library, got, id).value
  }

  /** A reply that lands on a cursor of zero replaces the library, and so does a
   *  full sync that was asked for. */
  function Base(w: World, p: PullId): Library {
    if w.cursor == 0 || p in w.rebuilds then map[] else w.library
  }

  /** An answer to a change made in this tab: a row as the server had it once. */
  predicate EchoOk(rows: Rows, id: Id, row: Row) {
    && id in rows && row.seq_ <= rows[id].seq_ && (row.seq_ == rows[id].seq_ ==> row == rows[id])
    && (row.state.Live? ==> !rows[id].state.Pending?)
  }

  /** What the device's copy can hold: rows and a cursor the server had. */
  ghost predicate CopyOk(w: World, library: Library, cursor: nat) {
    0 < cursor <= w.last && LibraryOk(w.rows, library)
  }

  function InWindow(rows: Rows, kind: Kind, since: nat, upTo: nat): Rows {
    map id | id in rows && id.kind == kind && since < rows[id].seq_ <= upTo :: rows[id]
  }

  const COLLECTIONS := {Folder, File, Shared}

  ghost function Apply(w: World, step: Step): World {
    match step
    case Write(id, state) =>
      if state.Pending? && id in w.rows then w
      else w.(last := w.last + 1, rows := w.rows[id := Row(w.last + 1, state)])
    case Issue(p) =>
      if p in w.pulls then w else w.(pulls := w.pulls[p := Asked(w.cursor)], rebuilds := w.rebuilds - {p})
    case ReadLast(p) =>
      if p in w.pulls && w.pulls[p].Asked? then
        w.(pulls := w.pulls[p := Reading(w.pulls[p].since, w.last, COLLECTIONS, map[])])
      else w
    case ReadRows(p, kind) =>
      if p in w.pulls && w.pulls[p].Reading? && kind in w.pulls[p].left then
        var pull := w.pulls[p];
        w.(pulls := w.pulls[p := pull.(left := pull.left - {kind}, got := pull.got + InWindow(w.rows, kind, pull.since, pull.upTo))])
      else w
    case Land(p) =>
      if Ready(w, p) then
        w.(library := Delta(Base(w, p), w.pulls[p].got), cursor := w.pulls[p].upTo,
           pulls := w.pulls - {p}, rebuilds := w.rebuilds - {p})
      else w
    case Fail(p) => w.(pulls := w.pulls - {p}, rebuilds := w.rebuilds - {p})
    case IssueRebuild(p) =>
      if p in w.pulls then w else w.(pulls := w.pulls[p := Asked(0)], rebuilds := w.rebuilds + {p})
    case Echo(id, row) =>
      if EchoOk(w.rows, id, row) then w.(library := Delta(w.library, map[id := row])) else w
    case Boot(p) => if w.cursor == 0 then w.(boots := w.boots + {p}) else w
    case BootLands(p, library, cursor) =>
      if p in w.boots && CopyOk(w, library, cursor) then
        w.(library := library, cursor := cursor, boots := w.boots - {p})
      else w
    case BootFindsNothing(p) => w.(boots := w.boots - {p})
    case Reset => w.(cursor := 0)
  }

  predicate Ready(w: World, p: PullId) {
    p in w.pulls && w.pulls[p].Reading? && w.pulls[p].left == {}
  }

  ghost function Execute(w: World, steps: seq<Step>): World
    decreases |steps|
  {
    if steps == [] then w else Execute(Apply(w, steps[0]), steps[1..])
  }

  /** The library agrees with every row whose newest sequence is within `n`. */
  ghost predicate AgreesUpTo(rows: Rows, library: Library, n: nat) {
    forall id :: id in rows && rows[id].seq_ <= n ==> Lookup(library, id) == Shown(rows[id])
  }

  // ---- Invariant ----

  /** Nothing is shown that the server never had shown. */
  ghost predicate LibraryOk(rows: Rows, library: Library) {
    forall id :: id in library ==> id in rows && !rows[id].state.Pending?
  }

  ghost predicate PullOk(w: World, pull: Pull) {
    && pull.since <= w.last
    && (pull.Reading? ==>
          && pull.since <= pull.upTo <= w.last
          && (forall id :: id in pull.got ==> GotOk(w.rows, pull, id))
          && (forall id :: id in w.rows && id.kind !in pull.left && pull.since < w.rows[id].seq_ <= pull.upTo ==>
                id in pull.got && pull.got[id] == w.rows[id]))
  }

  /** A row in a reply is one of the window, not newer than the server's. */
  ghost predicate GotOk(rows: Rows, pull: Pull, id: Id)
    requires pull.Reading? && id in pull.got
  {
    && id in rows && pull.since < pull.got[id].seq_ <= pull.upTo && pull.got[id].seq_ <= rows[id].seq_
    && (pull.got[id].state.Live? ==> !rows[id].state.Pending?)
  }

  ghost predicate Sound(w: World) {
    && w.cursor <= w.last && (forall id :: id in w.rows ==> 0 < w.rows[id].seq_ <= w.last)
    && LibraryOk(w.rows, w.library)
    && (forall p :: p in w.rebuilds ==> p in w.pulls && w.pulls[p].since == 0)
    && forall p :: p in w.pulls ==> PullOk(w, w.pulls[p])
  }

  lemma WriteSound(w: World, id: Id, state: State)
    requires Sound(w) && !(state.Pending? && id in w.rows)
    ensures Sound(Apply(w, Write(id, state)))
  {
    var w' := Apply(w, Write(id, state));
    forall p | p in w'.pulls ensures PullOk(w', w'.pulls[p]) {
      var pull := w.pulls[p];
      assert PullOk(w, pull);
      if pull.Reading? {
        forall other | other in pull.got ensures GotOk(w'.rows, pull, other) {
          assert GotOk(w.rows, pull, other);
        }
      }
    }
  }

  lemma ReadRowsSound(w: World, p: PullId, kind: Kind)
    requires Sound(w) && p in w.pulls && w.pulls[p].Reading? && kind in w.pulls[p].left
    ensures Sound(Apply(w, ReadRows(p, kind)))
  {
    var w' := Apply(w, ReadRows(p, kind));
    var pull, pull' := w.pulls[p], w'.pulls[p];
    assert PullOk(w, pull);
    forall id | id in pull'.got ensures GotOk(w'.rows, pull', id) {
      if id in pull.got && !(id.kind == kind && id in w.rows && pull.since < w.rows[id].seq_ <= pull.upTo) {
        assert GotOk(w.rows, pull, id);
      }
    }
    forall id | id in w'.rows && id.kind !in pull'.left && pull.since < w'.rows[id].seq_ <= pull.upTo
      ensures id in pull'.got && pull'.got[id] == w'.rows[id]
    {
      if id.kind != kind {
        assert id !in InWindow(w.rows, kind, pull.since, pull.upTo);
      }
    }
    forall o | o in w'.pulls ensures PullOk(w', w'.pulls[o]) {
      if o != p {
        assert PullOk(w, w.pulls[o]);
      }
    }
  }

  lemma LandSound(w: World, p: PullId)
    requires Sound(w) && Ready(w, p)
    ensures Sound(Apply(w, Land(p)))
  {
    var w' := Apply(w, Land(p));
    var pull := w.pulls[p];
    assert PullOk(w, pull);
    forall id | id in w'.library ensures id in w'.rows && !w'.rows[id].state.Pending? {
      if id in pull.got {
        assert GotOk(w.rows, pull, id);
      }
    }
    forall o | o in w'.pulls ensures PullOk(w', w'.pulls[o]) {
      assert PullOk(w, w.pulls[o]);
    }
  }

  lemma SoundStep(w: World, step: Step)
    requires Sound(w)
    ensures Sound(Apply(w, step))
  {
    match step
    case Write(id, state) => if !(state.Pending? && id in w.rows) { WriteSound(w, id, state); }
    case ReadRows(p, kind) =>
      if p in w.pulls && w.pulls[p].Reading? && kind in w.pulls[p].left { ReadRowsSound(w, p, kind); }
    case Land(p) => if Ready(w, p) { LandSound(w, p); }
    case Issue(p) => AskedSound(w, step);
    case IssueRebuild(p) => AskedSound(w, step);
    case ReadLast(p) => AskedSound(w, step);
    case Fail(p) => AskedSound(w, step);
    case _ => PullsSound(w, Apply(w, step));
  }

  lemma AskedSound(w: World, step: Step)
    requires Sound(w) && (step.Issue? || step.IssueRebuild? || step.ReadLast? || step.Fail?)
    ensures Sound(Apply(w, step))
  {
    OthersSound(w, Apply(w, step), step.p);
  }

  lemma PullsSound(w: World, w': World)
    requires Sound(w) && w'.pulls == w.pulls && w'.rows == w.rows && w'.last == w.last
    requires w'.cursor <= w.last && LibraryOk(w.rows, w'.library) && w'.rebuilds == w.rebuilds
    ensures Sound(w')
  {
    forall p | p in w.pulls ensures PullOk(w', w.pulls[p]) {
      assert PullOk(w, w.pulls[p]);
    }
  }

  lemma OthersSound(w: World, w': World, p: PullId)
    requires Sound(w) && w' == w.(pulls := w'.pulls, rebuilds := w'.rebuilds)
    requires forall o :: o in w'.rebuilds ==> o in w'.pulls && w'.pulls[o].since == 0
    requires forall o :: o in w'.pulls && o != p ==> o in w.pulls && w'.pulls[o] == w.pulls[o]
    requires p in w'.pulls ==>
      || (p in w.pulls && w'.pulls[p] == w.pulls[p])
      || (w'.pulls[p].Asked? && w'.pulls[p].since <= w.last)
      || (w'.pulls[p].Reading? && w'.pulls[p].since <= w'.pulls[p].upTo == w.last && w'.pulls[p].got == map[] && w'.pulls[p].left == COLLECTIONS)
    ensures Sound(w')
  {
    forall o | o in w'.pulls ensures PullOk(w', w'.pulls[o]) {
      if o in w.pulls && w'.pulls[o] == w.pulls[o] {
        assert PullOk(w, w.pulls[o]);
      } else {
        forall id: Id ensures id.kind in COLLECTIONS {
          assert id.kind.Folder? || id.kind.File? || id.kind.Shared?;
        }
      }
    }
  }

  lemma {:induction false} SoundRun(w: World, steps: seq<Step>)
    requires Sound(w)
    ensures Sound(Execute(w, steps))
    decreases |steps|
  {
    if steps != [] {
      SoundStep(w, steps[0]);
      SoundRun(Apply(w, steps[0]), steps[1..]);
    }
  }

  // ---- What is shown wrong ----

  /** The cursor claims the row and the library shows something else. */
  ghost predicate Wrong(w: World, id: Id) {
    id in w.rows && w.rows[id].seq_ <= w.cursor && Lookup(w.library, id) != Shown(w.rows[id])
  }

  /** The newest change of a row is past the cursor and not past where the reply
   *  began, and the reply lands on something else: nobody will bring it. */
  ghost predicate Misses(w: World, p: PullId, id: Id) {
    && Ready(w, p) && id in w.rows && w.cursor < w.rows[id].seq_ <= w.pulls[p].since
    && Lookup(Base(w, p), id) != Shown(w.rows[id])
  }

  ghost predicate Exposes(w: World, step: Step, id: Id) {
    match step
    case Land(p) => Misses(w, p, id)
    case BootLands(p, library, cursor) =>
      && p in w.boots && CopyOk(w, library, cursor)
      && id in w.rows && w.rows[id].seq_ <= cursor && Lookup(library, id) != Shown(w.rows[id])
    case Echo(other, row) =>
      && other == id && EchoOk(w.rows, id, row) && w.rows[id].seq_ <= w.cursor
      && Applied(w.library, map[id := row], id) != Shown(w.rows[id])
    case _ => false
  }

  ghost predicate Cures(w: World, step: Step, id: Id) {
    match step
    case Write(other, state) => other == id && !(state.Pending? && id in w.rows)
    case Land(p) => Ready(w, p) && id in w.rows && w.pulls[p].since < w.rows[id].seq_
    case BootLands(p, library, cursor) => p in w.boots && CopyOk(w, library, cursor)
    case Echo(other, row) => other == id && EchoOk(w.rows, id, row)
    case Reset => true
    case _ => false
  }

  lemma AgreesIff(w: World)
    ensures AgreesUpTo(w.rows, w.library, w.cursor) <==> forall id :: !Wrong(w, id)
  {
    if forall id :: !Wrong(w, id) {
      forall id | id in w.rows && w.rows[id].seq_ <= w.cursor ensures Lookup(w.library, id) == Shown(w.rows[id]) {
        assert !Wrong(w, id);
      }
    }
  }

  lemma AfterLanding(w: World, p: PullId, id: Id)
    requires Sound(w) && Ready(w, p)
    ensures Wrong(Apply(w, Land(p)), id) <==> (Wrong(w, id) && !Cures(w, Land(p), id)) || Misses(w, p, id)
  {
    var w', pull := Apply(w, Land(p)), w.pulls[p];
    assert PullOk(w, pull);
    DeltaLookup(Base(w, p), pull.got, id);
    if id in w.rows && w.rows[id].seq_ <= pull.since {
      assert id in pull.got ==> GotOk(w.rows, pull, id);
    } else if id in w.rows && w.rows[id].seq_ <= pull.upTo {
      assert id in pull.got && pull.got[id] == w.rows[id];
    }
  }

  /** One step of anybody decides anew for one row: it is wrong afterwards just
   *  when it was and the step does not cure it, or the step exposes it. */
  lemma WrongAfterStep(w: World, step: Step, id: Id)
    requires Sound(w)
    ensures Wrong(Apply(w, step), id) <==> (Wrong(w, id) && !Cures(w, step, id)) || Exposes(w, step, id)
  {
    match step
    case Land(p) =>
      if Ready(w, p) {
        AfterLanding(w, p, id);
      }
    case Echo(other, row) =>
      if EchoOk(w.rows, other, row) {
        DeltaLookup(w.library, map[other := row], id);
      }
    case _ =>
  }

  /** A reply that lands on an agreeing library leaves it agreeing exactly when
   *  no row whose newest change lies past the cursor, and not past where the
   *  reply began, is shown differently. None is, of course, when the cursor is
   *  at or past that: the guard a client can check. */
  lemma LandingAgreesIff(w: World, p: PullId)
    requires Sound(w) && Ready(w, p) && AgreesUpTo(w.rows, w.library, w.cursor)
    ensures var w' := Apply(w, Land(p));
      AgreesUpTo(w'.rows, w'.library, w'.cursor) <==>
        forall id :: id in w.rows && w.cursor < w.rows[id].seq_ <= w.pulls[p].since ==>
          Lookup(Base(w, p), id) == Shown(w.rows[id])
  {
    var w' := Apply(w, Land(p));
    forall id ensures Wrong(w', id) <==> (Wrong(w, id) && !Cures(w, Land(p), id)) || Misses(w, p, id) {
      AfterLanding(w, p, id);
    }
    AgreesIff(w);
    AgreesIff(w');
  }

  // ---- Whole runs ----

  /** Some step exposed the row and none since has cured it. */
  ghost predicate ExposedForGood(w: World, steps: seq<Step>, id: Id) {
    exists i :: WrongSince(w, steps, i, id)
  }

  ghost predicate WrongSince(w: World, steps: seq<Step>, i: int, id: Id) {
    && 0 <= i < |steps| && Exposes(Execute(w, steps[..i]), steps[i], id)
    && forall j :: i < j < |steps| ==> !Cures(Execute(w, steps[..j]), steps[j], id)
  }

  lemma {:induction false} ExecuteMore(w: World, steps: seq<Step>, step: Step)
    ensures Execute(w, steps + [step]) == Apply(Execute(w, steps), step)
    decreases |steps|
  {
    if steps == [] {
      assert (steps + [step])[1..] == [];
    } else {
      assert (steps + [step])[1..] == steps[1..] + [step];
      ExecuteMore(Apply(w, steps[0]), steps[1..], step);
    }
  }

  lemma WrongSinceMore(w: World, steps: seq<Step>, step: Step, id: Id)
    ensures ExposedForGood(w, steps + [step], id) <==>
      || Exposes(Execute(w, steps), step, id)
      || (ExposedForGood(w, steps, id) && !Cures(Execute(w, steps), step, id))
  {
    var all, k := steps + [step], |steps|;
    assert all[..k] == steps && all[k] == step;
    assert forall j :: 0 <= j < k ==> all[..j] == steps[..j] && all[j] == steps[j];
    if Exposes(Execute(w, steps), step, id) {
      assert WrongSince(w, all, k, id);
    }
    if i :| WrongSince(w, steps, i, id) && !Cures(Execute(w, steps), step, id) {
      forall j | i < j < |all| ensures !Cures(Execute(w, all[..j]), all[j], id) {
        if j < k {
          assert !Cures(Execute(w, steps[..j]), steps[j], id);
        }
      }
      assert WrongSince(w, all, i, id);
    }
    if i :| WrongSince(w, all, i, id) && i < k {
      assert !Cures(Execute(w, all[..k]), all[k], id);
      forall j | i < j < k ensures !Cures(Execute(w, steps[..j]), steps[j], id) {
        assert !Cures(Execute(w, all[..j]), all[j], id);
      }
      assert WrongSince(w, steps, i, id);
    }
  }

  const START := World(0, map[], 0, map[], map[], {}, {})

  // ---- Main results ----

  /** Over every run whatever, the library shows a row the cursor claims wrongly
   *  exactly when some landing exposed it and nothing since has cured it. */
  lemma {:induction false} WrongIff(steps: seq<Step>, id: Id)
    ensures Wrong(Execute(START, steps), id) <==> ExposedForGood(START, steps, id)
    decreases |steps|
  {
    if steps != [] {
      var k := |steps| - 1;
      var before := steps[..k];
      assert steps == before + [steps[k]];
      WrongIff(before, id);
      SoundRun(START, before);
      WrongAfterStep(Execute(START, before), steps[k], id);
      ExecuteMore(START, before, steps[k]);
      WrongSinceMore(START, before, steps[k], id);
    }
  }

  /** No reply lands on a cursor before its own start, what a boot finds on the
   *  device agrees with the server up to its cursor, and an answer to a change
   *  of this tab is not older than what the cursor claims. */
  ghost predicate Orderly(w: World, step: Step) {
    match step
    case Land(p) => Ready(w, p) ==> w.pulls[p].since <= w.cursor
    case BootLands(p, library, cursor) => AgreesUpTo(w.rows, library, cursor)
    case Echo(id, row) => id in w.rows && w.rows[id].seq_ <= w.cursor ==> row == w.rows[id]
    case _ => true
  }

  ghost predicate OrderlyRun(w: World, steps: seq<Step>)
    decreases |steps|
  {
    steps == [] || (Orderly(w, steps[0]) && OrderlyRun(Apply(w, steps[0]), steps[1..]))
  }

  lemma AgreesStep(w: World, step: Step)
    requires Sound(w) && AgreesUpTo(w.rows, w.library, w.cursor) && Orderly(w, step)
    ensures var w' := Apply(w, step); Sound(w') && AgreesUpTo(w'.rows, w'.library, w'.cursor)
  {
    var w' := Apply(w, step);
    SoundStep(w, step);
    forall id | id in w'.rows && w'.rows[id].seq_ <= w'.cursor
      ensures Lookup(w'.library, id) == Shown(w'.rows[id])
    {
      WrongAfterStep(w, step, id);
      assert !Wrong(w, id);
      assert !Exposes(w, step, id) by {
        if step.Echo? && step.id == id && EchoOk(w.rows, id, step.row) && w.rows[id].seq_ <= w.cursor && w.rows[id].state.Pending? {
          assert id !in w.library;
        }
      }
      assert !Wrong(w', id);
    }
  }

  lemma {:induction false} AgreesRun(w: World, steps: seq<Step>)
    requires Sound(w) && AgreesUpTo(w.rows, w.library, w.cursor) && OrderlyRun(w, steps)
    ensures var w' := Execute(w, steps); Sound(w') && AgreesUpTo(w'.rows, w'.library, w'.cursor)
    decreases |steps|
  {
    if steps != [] {
      AgreesStep(w, steps[0]);
      AgreesRun(Apply(w, steps[0]), steps[1..]);
    }
  }

  /** In every orderly run the library agrees with the server on every row whose
   *  newest sequence is at or below the cursor. */
  lemma LibraryAgrees(steps: seq<Step>)
    requires OrderlyRun(START, steps)
    ensures var w := Execute(START, steps); AgreesUpTo(w.rows, w.library, w.cursor)
  {
    AgreesRun(START, steps);
  }

  /** What a full sync of these rows shows. */
  function FullLibrary(rows: Rows): Library {
    map id | id in rows && rows[id].state.Live? :: rows[id].state.content
  }

  /** A client that has caught up by deltas shows exactly what one full sync
   *  would, just when no row was exposed and left uncured on the way. */
  lemma CaughtUpEqualsFullSyncIff(steps: seq<Step>)
    requires var w := Execute(START, steps); w.cursor == w.last
    ensures var w := Execute(START, steps);
      w.library == FullLibrary(w.rows) <==> forall id :: !ExposedForGood(START, steps, id)
  {
    var w := Execute(START, steps);
    SoundRun(START, steps);
    forall id ensures Lookup(w.library, id) != Lookup(FullLibrary(w.rows), id) <==> ExposedForGood(START, steps, id) {
      WrongIff(steps, id);
      assert id in w.library ==> id in w.rows;
    }
    if forall id :: !ExposedForGood(START, steps, id) {
      assert forall id {:trigger Lookup(w.library, id)} ::
        !ExposedForGood(START, steps, id) ==> Lookup(w.library, id) == Lookup(FullLibrary(w.rows), id);
      SameLibrary(w.library, FullLibrary(w.rows));
    }
  }

  lemma SameLibrary(a: Library, b: Library)
    requires forall id :: Lookup(a, id) == Lookup(b, id)
    ensures a == b
  {
    forall id ensures id in a <==> id in b {
      assert Lookup(a, id) == Lookup(b, id);
    }
    forall id | id in a ensures a[id] == b[id] {
      assert Lookup(a, id) == Lookup(b, id);
    }
  }

  /** A full sync shows every live row and nothing else, whatever was on screen
   *  before: the first pull of an account, and the one asked for when this
   *  device's copy is suspect. */
  lemma FullSyncShowsAll(w: World, p: PullId)
    requires Sound(w) && Ready(w, p) && (w.cursor == 0 || p in w.rebuilds)
    requires w.pulls[p].since == 0 && w.pulls[p].upTo == w.last
    ensures Apply(w, Land(p)).library == FullLibrary(w.rows)
  {
    LandSound(w, p);
    var w' := Apply(w, Land(p));
    forall id ensures Lookup(w'.library, id) == Lookup(FullLibrary(w.rows), id) {
      AfterLanding(w, p, id);
      assert id in w'.library ==> id in w.rows;
    }
    SameLibrary(w'.library, FullLibrary(w.rows));
  }

  // ---- A pull by itself ----

  /** The server answers a pull: the sequence first, then each collection. */
  ghost function Answered(w: World, p: PullId): World {
    Apply(Apply(Apply(Apply(w, ReadLast(p)), ReadRows(p, Folder)), ReadRows(p, File)), ReadRows(p, Shared))
  }

  /** One collection is read. */
  lemma ReadsOne(w: World, p: PullId, kind: Kind)
    requires Sound(w) && p in w.pulls && w.pulls[p].Reading? && kind in w.pulls[p].left
    ensures var w' := Apply(w, ReadRows(p, kind));
      && Sound(w') && p in w'.pulls && w'.pulls[p].Reading? && w'.pulls[p].left == w.pulls[p].left - {kind}
      && w'.pulls[p].since == w.pulls[p].since && w'.pulls[p].upTo == w.pulls[p].upTo
      && w' == w.(pulls := w'.pulls) && w'.pulls - {p} == w.pulls - {p}
  {
    ReadRowsSound(w, p, kind);
  }

  lemma AnsweredIsReady(w: World, p: PullId)
    requires Sound(w) && p in w.pulls && w.pulls[p].Asked?
    ensures var r := Answered(w, p);
      && Sound(r) && Ready(r, p) && r.pulls[p].since == w.pulls[p].since && r.pulls[p].upTo == w.last
      && r == w.(pulls := r.pulls) && r.pulls - {p} == w.pulls - {p}
  {
    var w1 := Apply(w, ReadLast(p));
    SoundStep(w, ReadLast(p));
    var w2 := Apply(w1, ReadRows(p, Folder));
    ReadsOne(w1, p, Folder);
    var w3 := Apply(w2, ReadRows(p, File));
    ReadsOne(w2, p, File);
    ReadsOne(w3, p, Shared);
  }

  lemma CaughtUpIsFull(w: World)
    requires Sound(w) && AgreesUpTo(w.rows, w.library, w.cursor) && w.cursor == w.last
    ensures w.library == FullLibrary(w.rows)
  {
    forall id ensures Lookup(w.library, id) == Lookup(FullLibrary(w.rows), id) {
      assert id in w.library ==> id in w.rows;
    }
    SameLibrary(w.library, FullLibrary(w.rows));
  }

  /** After any run, one pull by itself brings a library that agrees up to its
   *  cursor to exactly what a full sync would show, and a full sync asked for
   *  brings any library there; the other pulls and the server do not notice. */
  lemma OnePullCatchesUp(before: seq<Step>, p: PullId)
    requires p !in Execute(START, before).pulls
    ensures var w := Execute(START, before);
      var delta := Apply(Answered(Apply(w, Issue(p)), p), Land(p));
      var full := Apply(Answered(Apply(w, IssueRebuild(p)), p), Land(p));
      && delta.cursor == full.cursor == w.last && delta.rows == full.rows == w.rows && delta.pulls == full.pulls == w.pulls
      && (AgreesUpTo(w.rows, w.library, w.cursor) ==> delta.library == FullLibrary(w.rows))
      && full.library == FullLibrary(w.rows)
  {
    SoundRun(START, before);
    var w := Execute(START, before);
    DeltaCatchesUp(w, p);
    FullCatchesUp(w, p);
  }

  lemma DeltaCatchesUp(w: World, p: PullId)
    requires Sound(w) && p !in w.pulls
    ensures var w' := Apply(Answered(Apply(w, Issue(p)), p), Land(p));
      && w'.cursor == w.last && w'.rows == w.rows && w'.pulls == w.pulls
      && (AgreesUpTo(w.rows, w.library, w.cursor) ==> w'.library == FullLibrary(w.rows))
  {
    var asked := Apply(w, Issue(p));
    SoundStep(w, Issue(p));
    AnsweredIsReady(asked, p);
    var ready := Answered(asked, p);
    LandSound(ready, p);
    assert asked.pulls - {p} == w.pulls;
    if AgreesUpTo(w.rows, w.library, w.cursor) {
      LandingAgreesIff(ready, p);
      CaughtUpIsFull(Apply(ready, Land(p)));
    }
  }

  lemma FullCatchesUp(w: World, p: PullId)
    requires Sound(w) && p !in w.pulls
    ensures var w' := Apply(Answered(Apply(w, IssueRebuild(p)), p), Land(p));
      w'.cursor == w.last && w'.rows == w.rows && w'.pulls == w.pulls && w'.library == FullLibrary(w.rows)
  {
    var asked := Apply(w, IssueRebuild(p));
    SoundStep(w, IssueRebuild(p));
    AnsweredIsReady(asked, p);
    assert asked.pulls - {p} == w.pulls;
    FullSyncShowsAll(Answered(asked, p), p);
  }

  /** A boot by itself puts the device's copy on screen, or changes nothing. */
  lemma BootShowsTheCopy(w: World, p: PullId, library: Library, cursor: nat)
    requires w.cursor == 0 && CopyOk(w, library, cursor) && p !in w.boots
    ensures Apply(Apply(w, Boot(p)), BootLands(p, library, cursor)) == w.(library := library, cursor := cursor)
    ensures Apply(Apply(w, Boot(p)), BootFindsNothing(p)) == w
  {
    assert w.boots + {p} - {p} == w.boots;
  }

  // ---- The object ----

  datatype Dto = Dto(id: Id, row: Row)

  /** A reply's rows; each row of the server is in it once at most. */
  function ById(dtos: seq<Dto>): Rows {
    if dtos == [] then map[] else ById(dtos[..|dtos| - 1])[dtos[|dtos| - 1].id := dtos[|dtos| - 1].row]
  }

  ghost predicate Once(dtos: seq<Dto>) {
    forall i, j :: 0 <= i < j < |dtos| ==> dtos[i].id != dtos[j].id
  }

  lemma {:induction false} NotYet(dtos: seq<Dto>, id: Id)
    requires forall i :: 0 <= i < |dtos| ==> dtos[i].id != id
    ensures id !in ById(dtos)
  {
    if dtos != [] {
      NotYet(dtos[..|dtos| - 1], id);
    }
  }

  lemma {:induction false} ByIdHas(dtos: seq<Dto>, i: nat)
    requires Once(dtos) && i < |dtos|
    ensures dtos[i].id in ById(dtos) && ById(dtos)[dtos[i].id] == dtos[i].row
  {
    if i < |dtos| - 1 {
      ByIdHas(dtos[..|dtos| - 1], i);
    }
  }

  /** No row of the reply has the id. */
  predicate Unnamed(dtos: seq<Dto>, id: Id) {
    forall i :: 0 <= i < |dtos| ==> dtos[i].id != id
  }

  function ApplyDto(library: Library, dto: Dto): Library {
    match dto.row.state
    case Live(content) => library[dto.id := content]
    case Gone => library - {dto.id}
    case Pending => library
  }

  lemma DeltaLookup(library: Library, got: Rows, id: Id)
    ensures Lookup(Delta(library, got), id) == Applied(library, got, id)
  {
  }

  lemma OneMore(library: Library, dtos: seq<Dto>, dto: Dto)
    requires dto.id !in ById(dtos)
    ensures Delta(library, ById(dtos + [dto])) == ApplyDto(Delta(library, ById(dtos)), dto)
  {
    assert (dtos + [dto])[..|dtos|] == dtos;
    var got := ById(dtos);
    var before, after := Delta(library, got), Delta(library, got[dto.id := dto.row]);
    forall id ensures Lookup(after, id) == Lookup(ApplyDto(before, dto), id) {
      DeltaLookup(library, got, id);
      DeltaLookup(library, got[dto.id := dto.row], id);
    }
    SameLibrary(after, ApplyDto(before, dto));
  }

  /** What a reply does to each id, one by one. */
  lemma RepliesShow(base: Library, dtos: seq<Dto>)
    requires Once(dtos)
    ensures var library := Delta(base, ById(dtos));
      && (forall i :: 0 <= i < |dtos| && dtos[i].row.state.Gone? ==> dtos[i].id !in library)
      && (forall i :: 0 <= i < |dtos| && dtos[i].row.state.Live? ==>
            dtos[i].id in library && library[dtos[i].id] == dtos[i].row.state.content)
      && (forall i :: 0 <= i < |dtos| && dtos[i].row.state.Pending? ==> Lookup(library, dtos[i].id) == Lookup(base, dtos[i].id))
      && (forall id :: Unnamed(dtos, id) ==> Lookup(library, id) == Lookup(base, id))
  {
    forall i | 0 <= i < |dtos| ensures Lookup(Delta(base, ById(dtos)), dtos[i].id) ==
      if dtos[i].row.state.Pending? then Lookup(base, dtos[i].id) else Shown(dtos[i].row)
    {
      ByIdHas(dtos, i);
      DeltaLookup(base, ById(dtos), dtos[i].id);
    }
    forall id | Unnamed(dtos, id) ensures Lookup(Delta(base, ById(dtos)), id) == Lookup(base, id) {
      NotYet(dtos, id);
      DeltaLookup(base, ById(dtos), id);
    }
  }

  class LibraryStore {
    var syncCursor: nat
    var entries: Library

    constructor ()
      ensures syncCursor == 0 && entries == map[]
    {
      syncCursor, entries := 0, map[];
    }

    /** A reply lands: on a cursor of zero the library is built anew, else the
     *  reply changes the one on screen. A row that is gone takes its entry along,
     *  a live one puts its content there, and one that waits for its upload does
     *  nothing. */
    method Refresh(dtos: seq<Dto>, reached: nat)
      requires Once(dtos)
      modifies this
      ensures entries == Delta(if old(syncCursor) == 0 then map[] else old(entries), ById(dtos))
      ensures forall i :: 0 <= i < |dtos| && dtos[i].row.state.Gone? ==> dtos[i].id !in entries
      ensures forall i :: 0 <= i < |dtos| && dtos[i].row.state.Live? ==>
        dtos[i].id in entries && entries[dtos[i].id] == dtos[i].row.state.content
      ensures forall i :: 0 <= i < |dtos| && dtos[i].row.state.Pending? ==>
        Lookup(entries, dtos[i].id) == if old(syncCursor) == 0 then None else Lookup(old(entries), dtos[i].id)
      ensures forall id :: Unnamed(dtos, id) ==>
        Lookup(entries, id) == if old(syncCursor) == 0 then None else Lookup(old(entries), id)
      ensures syncCursor == reached
    {
      var shown := if syncCursor == 0 then map[] else entries;
      ghost var base := shown;
      assert Delta(base, map[]) == base;
      for i := 0 to |dtos|
        invariant shown == Delta(base, ById(dtos[..i]))
      {
        var dto := dtos[i];
        NotYet(dtos[..i], dto.id);
        OneMore(base, dtos[..i], dto);
        assert dtos[..i + 1] == dtos[..i] + [dto];
        if dto.row.state.Gone? {
          shown := shown - {dto.id};
        } else if dto.row.state.Live? {
          shown := shown[dto.id := dto.row.state.content];
        }
      }
      assert dtos[..|dtos|] == dtos;
      RepliesShow(base, dtos);
      entries := shown;
      syncCursor := reached;
    }
  }
}
