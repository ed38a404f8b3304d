/** Runs after which the library is wrong for good. */
module LibraryRuns {
  import opened LibrarySync

  lemma {:induction false} ExecuteJoins(w: World, a: seq<Step>, b: seq<Step>)
    ensures Execute(w, a + b) == Execute(Execute(w, a), b)
    decreases |a|
  {
    if a == [] {
      assert a + b == b;
    } else {
      assert (a + b)[1..] == a[1..] + b;
      ExecuteJoins(Apply(w, a[0]), a[1..], b);
    }
  }

  lemma One(w: World, step: Step)
    ensures Execute(w, [step]) == Apply(w, step)
  {
    assert [step][1..] == [];
    assert Execute(Apply(w, step), []) == Apply(w, step);
  }

  /** A pull from its start until its reply is on the way. */
  function PullSteps(p: PullId): seq<Step> {
    [Issue(p)] + ([ReadLast(p)] + ([ReadRows(p, Folder)] + ([ReadRows(p, File)] + [ReadRows(p, Shared)])))
  }

  function Window(rows: Rows, since: nat, upTo: nat): Rows {
    map id | id in rows && since < rows[id].seq_ <= upTo :: rows[id]
  }

  ghost function With(w: World, p: PullId, pull: Pull): World {
    w.(pulls := w.pulls[p := pull])
  }

  lemma PullOpens(w: World, p: PullId)
    requires p !in w.pulls && p !in w.rebuilds
    ensures Execute(w, [Issue(p)] + [ReadLast(p)]) == With(w, p, Reading(w.cursor, w.last, COLLECTIONS, map[]))
  {
    assert w.rebuilds - {p} == w.rebuilds;
    ExecuteJoins(w, [Issue(p)], [ReadLast(p)]);
    One(w, Issue(p));
    One(Apply(w, Issue(p)), ReadLast(p));
  }

  lemma PullReads(w: World, p: PullId, pull: Pull, kind: Kind)
    requires pull.Reading? && kind in pull.left
    ensures Execute(With(w, p, pull), [ReadRows(p, kind)])
      == With(w, p, pull.(left := pull.left - {kind}, got := pull.got + InWindow(w.rows, kind, pull.since, pull.upTo)))
  {
    One(With(w, p, pull), ReadRows(p, kind));
  }

  lemma PullRuns(w: World, p: PullId)
    requires p !in w.pulls && p !in w.rebuilds
    ensures Execute(w, PullSteps(p)) == With(w, p, Reading(w.cursor, w.last, {}, Window(w.rows, w.cursor, w.last)))
  {
    var since, upTo := w.cursor, w.last;
    var begun := Reading(since, upTo, COLLECTIONS, map[]);
    var folders := Reading(since, upTo, COLLECTIONS - {Folder}, map[] + InWindow(w.rows, Folder, since, upTo));
    var files := folders.(left := folders.left - {File}, got := folders.got + InWindow(w.rows, File, since, upTo));
    ExecuteJoins(w, [Issue(p)] + [ReadLast(p)], [ReadRows(p, Folder)] + ([ReadRows(p, File)] + [ReadRows(p, Shared)]));
    assert PullSteps(p) == ([Issue(p)] + [ReadLast(p)]) + ([ReadRows(p, Folder)] + ([ReadRows(p, File)] + [ReadRows(p, Shared)]));
    PullOpens(w, p);
    ExecuteJoins(With(w, p, begun), [ReadRows(p, Folder)], [ReadRows(p, File)] + [ReadRows(p, Shared)]);
    PullReads(w, p, begun, Folder);
    ExecuteJoins(With(w, p, folders), [ReadRows(p, File)], [ReadRows(p, Shared)]);
    PullReads(w, p, folders, File);
    PullReads(w, p, files, Shared);
    Collected(w.rows, since, upTo);
  }

  /** The three collections together are the window. */
  lemma Collected(rows: Rows, since: nat, upTo: nat)
    ensures map[] + InWindow(rows, Folder, since, upTo) + InWindow(rows, File, since, upTo) + InWindow(rows, Shared, since, upTo)
      == Window(rows, since, upTo)
    ensures COLLECTIONS - {Folder} - {File} - {Shared} == {}
  {
    forall id: Id ensures id.kind.Folder? || id.kind.File? || id.kind.Shared? {
    }
  }

  const A := Id(File, "a")
  const P0 := PullId(0)
  const P1 := PullId(1)
  const P2 := PullId(2)
  const P3 := PullId(3)

  function Version(n: nat, content: string): Rows {
    map[A := Row(n, Live(content))]
  }

  const LATE := Reading(1, 2, {}, Version(2, "second"))

  const SYNCED := World(1, Version(1, "first"), 1, map[A := "first"], map[], {}, {})
  const PULLED_ONCE := World(2, Version(2, "second"), 1, map[A := "first"], map[P1 := LATE], {}, {})
  const OVERTAKEN := World(3, Version(3, "third"), 3, map[A := "third"], map[P1 := LATE], {}, {})
  const ROLLED_BACK := World(3, Version(3, "third"), 2, map[A := "second"], map[P3 := Reading(3, 3, {}, map[])], {}, {})

  const TO_SYNCED := [Write(A, Live("first"))] + (PullSteps(P0) + [Land(P0)])
  const TO_PULLED := [Write(A, Live("second"))] + PullSteps(P1)
  const TO_OVERTAKEN := [Write(A, Live("third"))] + (PullSteps(P2) + [Land(P2)])
  const TO_ROLLED_BACK := PullSteps(P3) + [Land(P1)]

  lemma Synced()
    ensures Execute(START, TO_SYNCED) == SYNCED
  {
    var w := Apply(START, Write(A, Live("first")));
    One(START, Write(A, Live("first")));
    ExecuteJoins(START, [Write(A, Live("first"))], PullSteps(P0) + [Land(P0)]);
    PullRuns(w, P0);
    ExecuteJoins(w, PullSteps(P0), [Land(P0)]);
    assert Window(w.rows, 0, 1) == Version(1, "first");
    var ready := Execute(w, PullSteps(P0));
    One(ready, Land(P0));
    assert Delta(map[], Version(1, "first")) == map[A := "first"];
    assert ready.pulls - {P0} == map[];
  }

  lemma PulledOnce()
    ensures Execute(SYNCED, TO_PULLED) == PULLED_ONCE
  {
    var w := Apply(SYNCED, Write(A, Live("second")));
    One(SYNCED, Write(A, Live("second")));
    ExecuteJoins(SYNCED, [Write(A, Live("second"))], PullSteps(P1));
    assert w.rows == Version(2, "second");
    PullRuns(w, P1);
    assert Window(w.rows, 1, 2) == Version(2, "second");
  }

  const WRITTEN_THRICE := World(3, Version(3, "third"), 1, map[A := "first"], map[P1 := LATE], {}, {})

  lemma Lands(w: World, p: PullId, since: nat, upTo: nat, got: Rows)
    requires p !in w.pulls && p !in w.rebuilds && w.cursor > 0
    ensures Execute(With(w, p, Reading(since, upTo, {}, got)), [Land(p)]) == w.(library := Delta(w.library, got), cursor := upTo)
  {
    var ready := With(w, p, Reading(since, upTo, {}, got));
    One(ready, Land(p));
    assert ready.pulls - {p} == w.pulls && ready.rebuilds - {p} == w.rebuilds;
  }

  lemma Overtaken()
    ensures Execute(PULLED_ONCE, TO_OVERTAKEN) == OVERTAKEN
  {
    var w := WRITTEN_THRICE;
    One(PULLED_ONCE, Write(A, Live("third")));
    assert Apply(PULLED_ONCE, Write(A, Live("third"))).rows == w.rows;
    ExecuteJoins(PULLED_ONCE, [Write(A, Live("third"))], PullSteps(P2) + [Land(P2)]);
    PullRuns(w, P2);
    ExecuteJoins(w, PullSteps(P2), [Land(P2)]);
    assert Window(w.rows, 1, 3) == Version(3, "third");
    Lands(w, P2, 1, 3, Version(3, "third"));
    assert Delta(map[A := "first"], Version(3, "third")) == map[A := "third"];
  }

  lemma RolledBack()
    ensures Execute(OVERTAKEN, TO_ROLLED_BACK) == ROLLED_BACK
  {
    PullRuns(OVERTAKEN, P3);
    ExecuteJoins(OVERTAKEN, PullSteps(P3), [Land(P1)]);
    assert Window(OVERTAKEN.rows, 3, 3) == map[];
    var ready := Execute(OVERTAKEN, PullSteps(P3));
    assert ready.pulls == map[P1 := LATE, P3 := Reading(3, 3, {}, map[])];
    One(ready, Land(P1));
    assert Delta(map[A := "third"], Version(2, "second")) == map[A := "second"];
    assert ready.pulls - {P1} == map[P3 := Reading(3, 3, {}, map[])];
  }

  /** Three pulls overlap: the second overtakes the first, the third starts from
   *  where the second got to, and the first then puts an old row back under
   *  it. Everything has landed, the cursor is the server's last sequence, and
   *  the library shows the second version of a row that is at its third. */
  lemma ThreePullsDisagree()
    ensures var w := Execute(START, TO_SYNCED + (TO_PULLED + (TO_OVERTAKEN + (TO_ROLLED_BACK + [Land(P3)]))));
      && w.pulls == map[] && w.cursor == w.last
      && w.library == map[A := "second"] && FullLibrary(w.rows) == map[A := "third"]
  {
    Synced();
    PulledOnce();
    Overtaken();
    RolledBack();
    ExecuteJoins(START, TO_SYNCED, TO_PULLED + (TO_OVERTAKEN + (TO_ROLLED_BACK + [Land(P3)])));
    ExecuteJoins(SYNCED, TO_PULLED, TO_OVERTAKEN + (TO_ROLLED_BACK + [Land(P3)]));
    ExecuteJoins(PULLED_ONCE, TO_OVERTAKEN, TO_ROLLED_BACK + [Land(P3)]);
    ExecuteJoins(OVERTAKEN, TO_ROLLED_BACK, [Land(P3)]);
    One(ROLLED_BACK, Land(P3));
    assert Delta(map[A := "second"], map[]) == map[A := "second"];
    assert ROLLED_BACK.pulls - {P3} == map[];
  }

  const FRESH_SESSION := World(1, Version(1, "first"), 0, map[A := "first"], map[P1 := Reading(1, 1, {}, map[])], {}, {})

  /** A pull that has nothing new to bring is under way when the session is
   *  started afresh. Its reply lands on a cursor of zero and replaces the
   *  library: the cursor is the server's, and nothing is shown. */
  lemma ReplyAfterResetEmptiesLibrary()
    ensures var w := Execute(START, TO_SYNCED + (PullSteps(P1) + [Reset, Land(P1)]));
      && w.pulls == map[] && w.cursor == w.last
      && w.library == map[] && FullLibrary(w.rows) == map[A := "first"]
  {
    Synced();
    ExecuteJoins(START, TO_SYNCED, PullSteps(P1) + [Reset, Land(P1)]);
    PullRuns(SYNCED, P1);
    assert Window(SYNCED.rows, 1, 1) == map[];
    ExecuteJoins(SYNCED, PullSteps(P1), [Reset, Land(P1)]);
    var ready := Execute(SYNCED, PullSteps(P1));
    ExecuteMore(ready, [Reset], Land(P1));
    assert [Reset] + [Land(P1)] == [Reset, Land(P1)];
    One(ready, Reset);
    assert Apply(ready, Reset) == FRESH_SESSION;
    assert Delta(map[], map[]) == map[];
    assert FRESH_SESSION.pulls - {P1} == map[];
  }
}
