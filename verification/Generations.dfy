/** Generations of one file's content. */
module Generations {
  // Numbers are minted to writers before a byte lands, commits claim the row
  // they read, versions are kept and pruned, and restores move the row back on
  // the strength of an earlier read.

  import opened BlobKeys

  /** The file's row, and the generations kept as versions. */
  datatype Row = Row(generation: nat, uploaded: bool, minted: nat, kept: set<nat>)

  /** What a request saw of the row before it got to its transaction. */
  datatype Look = Look(generation: nat, uploaded: bool)

  datatype Writer = Writer(look: Look, number: nat)

  /** `stored` are the content blobs that exist, `removing` those given up and
   *  about to be unlinked; `mints` and `held` are history: the numbers handed
   *  out, in order, and every generation the row has pointed at or kept. */
  datatype World = World(
    row: Row, looks: set<Look>, writers: set<Writer>, stored: set<nat>, removing: set<nat>, mints: seq<nat>, held: set<nat>)

  datatype Step =
    | Read
    | Mint(look: Look)
    | Write(writer: Writer)
    | Commit(writer: Writer, keep: bool, maxVersions: nat)
    | Restore(look: Look, target: nat)
    | Unlink(number: nat)

  predicate IsMax(m: nat, s: set<nat>) {
    (m in s || (s == {} && m == 0)) && forall n :: n in s ==> n <= m
  }

  /** The highest kept generation, 0 when there is none. */
  function MaxKept(kept: set<nat>): (m: nat)
    ensures IsMax(m, kept)
  {
    if kept == {} then 0
    else
      MaxExists(kept);
      var m :| m in kept && forall n :: n in kept ==> n <= m;
      m
  }

  lemma {:induction false} MaxExists(s: set<nat>)
    requires s != {}
    ensures exists m :: m in s && forall n :: n in s ==> n <= m
    decreases |s|
  {
    var x :| x in s;
    assert s == (s - {x}) + {x};
    if s - {x} == {} {
      assert s == {x};
    } else {
      MaxExists(s - {x});
      var m :| m in s - {x} && forall n :: n in s - {x} ==> n <= m;
      var top := if x > m then x else m;
      assert top in s && forall n :: n in s ==> n <= top;
    }
  }

  /** The number the minting statement assigns. */
  function NextNumber(row: Row): nat {
    var kept := MaxKept(row.kept);
    1 + (if row.minted >= row.generation && row.minted >= kept then row.minted
         else if row.generation >= kept then row.generation
         else kept)
  }

  /** The versions within the window: fewer than `maxVersions` are newer. */
  function Window(kept: set<nat>, maxVersions: nat): set<nat> {
    set n | n in kept && |Newer(kept, n)| < maxVersions
  }

  function Newer(kept: set<nat>, n: nat): set<nat> {
    set m | m in kept && m > n
  }

  predicate Claims(row: Row, look: Look) {
    row.generation == look.generation && row.uploaded == look.uploaded
  }

  function OnCommit(w: World, writer: Writer, keep: bool, maxVersions: nat): World {
    var rest := w.(writers := w.writers - {writer});
    if !Claims(w.row, writer.look) then rest.(removing := w.removing + {writer.number})
    else
      var displaced := if w.row.uploaded then {w.row.generation} else {};
      var all := w.row.kept + if keep then displaced else {};
      var kept := Window(all, maxVersions);
      rest.(row := Row(writer.number, true, w.row.minted, kept),
            removing := w.removing + (if keep then {} else displaced) + (all - kept), held := w.held + {writer.number})
  }

  function OnRestore(w: World, look: Look, target: nat): World {
    if target !in w.row.kept then w
    else
      w.(row := w.row.(generation := target, kept := w.row.kept + {look.generation} - {target}))
  }

  function Apply(w: World, step: Step): World {
    match step
    case Read => w.(looks := w.looks + {Look(w.row.generation, w.row.uploaded)})
    case Mint(look) =>
      if look in w.looks then
        var number := NextNumber(w.row);
        w.(row := w.row.(minted := number), writers := w.writers + {Writer(look, number)}, mints := w.mints + [number])
      else w
    case Write(writer) => if writer in w.writers then w.(stored := w.stored + {writer.number}) else w
    case Commit(writer, keep, maxVersions) =>
      if writer in w.writers && writer.number in w.stored then OnCommit(w, writer, keep, maxVersions) else w
    case Restore(look, target) => if look in w.looks && look.uploaded then OnRestore(w, look, target) else w
    case Unlink(number) =>
      if number in w.removing then w.(removing := w.removing - {number}, stored := w.stored - {number}) else w
  }

  function Execute(w: World, steps: seq<Step>): World
    decreases |steps|
  {
    if steps == [] then w else Execute(Apply(w, steps[0]), steps[1..])
  }

  /** The blobs a download of the file or of a version needs. */
  function Needed(row: Row): set<nat> {
    row.kept + if row.uploaded then {row.generation} else {}
  }

  /** A new row, or one as any migration may have left it. */
  ghost predicate Initial(w: World) {
    && w.looks == {} && w.writers == {} && w.removing == {} && w.mints == []
    && w.row.generation !in w.row.kept && w.held == w.row.kept + {w.row.generation}
    && Needed(w.row) <= w.stored && (!w.row.uploaded ==> w.row.kept == {})
  }

  lemma {:induction false} ExecuteMore(w: World, steps: seq<Step>, step: Step)
    ensures Execute(w, steps + [step]) == Apply(Execute(w, steps), step)
    decreases |steps|
  {
    if steps == [] {
      assert [step][1..] == [];
      assert Execute(w, [step]) == Execute(Apply(w, step), []);
    } else {
      ExecuteMore(Apply(w, steps[0]), steps[1..], step);
      assert (steps + [step])[1..] == steps[1..] + [step];
    }
  }

  // ---- Minting ----

  ghost predicate MintsOk(w: World) {
    && (forall i, j :: 0 <= i < j < |w.mints| ==> w.mints[i] < w.mints[j])
    && (forall i :: 0 <= i < |w.mints| ==> w.mints[i] <= w.row.minted)
    && (forall writer :: writer in w.writers ==> writer.number in w.mints)
    && (forall a, b :: a in w.writers && b in w.writers && a.number == b.number ==> a == b)
  }

  /** A minted number is above everything the row points at, keeps, or has
   *  handed out, and is the least such number. */
  lemma MintIsNext(row: Row)
    ensures NextNumber(row) > row.generation && NextNumber(row) > row.minted
    ensures forall n :: n in row.kept ==> NextNumber(row) > n
    ensures NextNumber(row) - 1 in row.kept + {row.generation, row.minted}
  {
    var m := MaxKept(row.kept);
    assert m in row.kept || (row.kept == {} && m == 0);
  }

  lemma {:induction false} MintsRun(w: World, steps: seq<Step>)
    requires MintsOk(w)
    ensures MintsOk(Execute(w, steps))
    decreases |steps|
  {
    if steps != [] {
      MintsRun(Apply(w, steps[0]), steps[1..]);
    }
  }

  /** Over any run no number is handed out twice, so no two writers ever share
   *  a content blob's name. */
  lemma NoTwoWritersShareABlob(w0: World, steps: seq<Step>, fileId: string, i: nat, j: nat)
    requires Initial(w0) && PlainId(fileId)
    requires var w := Execute(w0, steps); i < |w.mints| && j < |w.mints| && i != j
    ensures var w := Execute(w0, steps);
      w.mints[i] != w.mints[j] && BlobKey(fileId, Data, w.mints[i]) != BlobKey(fileId, Data, w.mints[j])
  {
    MintsRun(w0, steps);
    var w := Execute(w0, steps);
    if BlobKey(fileId, Data, w.mints[i]) == BlobKey(fileId, Data, w.mints[j]) {
      BlobKeysAreDistinct(fileId, Data, w.mints[i], fileId, Data, w.mints[j]);
    }
  }

  // ---- What the row has ever held ----

  /** Nothing the row ever pointed at or kept is above its mint counter, and
   *  what writers hold has not been held yet. */
  ghost predicate Settled(w: World) {
    && (forall n :: n in w.held ==> n <= w.row.minted)
    && w.row.generation in w.held && w.row.kept <= w.held
    && (forall look :: look in w.looks ==> look.generation in w.held)
    && (forall writer :: writer in w.writers ==> writer.number !in w.held && writer.number <= w.row.minted)
    && (forall a, b :: a in w.writers && b in w.writers && a.number == b.number ==> a == b)
    && (forall writer :: writer in w.writers ==> writer.look in w.looks)
  }

  lemma SettledStep(w: World, step: Step)
    requires Settled(w)
    ensures Settled(Apply(w, step)) && w.held <= Apply(w, step).held
  {
    if step.Mint? && step.look in w.looks {
      MintIsNext(w.row);
    }
  }

  lemma {:induction false} SettledRun(w: World, steps: seq<Step>)
    requires Settled(w)
    ensures Settled(Execute(w, steps)) && w.held <= Execute(w, steps).held
    decreases |steps|
  {
    if steps != [] {
      SettledStep(w, steps[0]);
      SettledRun(Apply(w, steps[0]), steps[1..]);
    }
  }

  lemma MintsAboveHeld(w: World, steps: seq<Step>)
    requires Settled(w)
    ensures forall n :: n in w.held ==> n < NextNumber(Execute(w, steps).row)
  {
    SettledRun(w, steps);
    MintIsNext(Execute(w, steps).row);
  }

  // ---- What restores keep in sight ----

  function Reachable(row: Row): set<nat> {
    row.kept + {row.generation}
  }

  predicate Restores(w: World, step: Step) {
    step.Restore? && step.look in w.looks && step.look.uploaded && step.target in w.row.kept
  }

  /** The restore drops number `n` out of sight: the row points at it by now, and
   *  did not when the restore read it. */
  predicate Hides(w: World, step: Step, n: nat) {
    Restores(w, step) && n == w.row.generation && n !in w.row.kept && step.look.generation != n
  }

  /** The restore brings it back: it had read the row when it pointed there. */
  predicate Reveals(w: World, step: Step, n: nat) {
    Restores(w, step) && step.look.generation == n
  }

  /** A restore keeps every generation reachable exactly when the row still
   *  points where it did when the restore read it. */
  lemma RestoreKeepsAllIff(w: World, look: Look, target: nat)
    requires look in w.looks && look.uploaded && target in w.row.kept && w.row.generation !in w.row.kept
    ensures var w' := Apply(w, Restore(look, target));
      Reachable(w.row) <= Reachable(w'.row) <==> look.generation == w.row.generation
  {
    var w' := Apply(w, Restore(look, target));
    if look.generation != w.row.generation {
      assert w.row.generation in Reachable(w.row) && w.row.generation !in Reachable(w'.row);
    }
  }

  /** Of the restores that concern number `n`, the last one hid it. */
  ghost predicate HiddenAt(w: World, steps: seq<Step>, i: int, n: nat) {
    && 0 <= i < |steps| && Hides(Execute(w, steps[..i]), steps[i], n)
    && forall j :: i < j < |steps| ==> !Reveals(Execute(w, steps[..j]), steps[j], n)
  }

  ghost predicate HiddenForGood(w: World, steps: seq<Step>, n: nat) {
    exists i :: HiddenAt(w, steps, i, n)
  }

  lemma StillHidden(w: World, steps: seq<Step>, step: Step, n: nat)
    requires HiddenForGood(w, steps, n) && !Reveals(Execute(w, steps), step, n)
    ensures HiddenForGood(w, steps + [step], n)
  {
    var all, k := steps + [step], |steps|;
    var i :| HiddenAt(w, steps, i, n);
    assert all[..k] == steps && all[k] == step;
    forall j | 0 <= j < k ensures all[..j] == steps[..j] && all[j] == steps[j] {
    }
    assert HiddenAt(w, all, i, n);
  }

  lemma WasHidden(w: World, steps: seq<Step>, step: Step, n: nat)
    requires HiddenForGood(w, steps + [step], n) && !Hides(Execute(w, steps), step, n)
    ensures HiddenForGood(w, steps, n) && !Reveals(Execute(w, steps), step, n)
  {
    var all, k := steps + [step], |steps|;
    var i :| HiddenAt(w, all, i, n);
    assert all[..k] == steps && all[k] == step;
    forall j | 0 <= j < k ensures all[..j] == steps[..j] && all[j] == steps[j] {
    }
    forall j | i < j < k ensures !Reveals(Execute(w, steps[..j]), steps[j], n) {
      assert !Reveals(Execute(w, all[..j]), all[j], n);
    }
    assert HiddenAt(w, steps, i, n);
  }

  ghost predicate NoMint(steps: seq<Step>) {
    forall i :: 0 <= i < |steps| ==> !steps[i].Mint?
  }

  /** A row that has not minted yet: reads and restores only, all of numbers it
   *  held to begin with. */
  ghost predicate Unminted(w: World) {
    && w.writers == {} && w.removing == {} && w.mints == []
    && w.row.generation in w.held && w.row.kept <= w.held && w.row.generation !in w.row.kept
    && Needed(w.row) <= w.stored && (!w.row.uploaded ==> w.row.kept == {})
    && (forall look :: look in w.looks ==> look.generation in w.held && (look.uploaded ==> look.generation in w.stored))
  }

  lemma UnmintedStep(w: World, step: Step, n: nat)
    requires Unminted(w) && !step.Mint? && n in w.held
    ensures Unminted(Apply(w, step)) && Apply(w, step).held == w.held && Apply(w, step).row.minted == w.row.minted
    ensures n !in Reachable(Apply(w, step).row) <==>
      Hides(w, step, n) || (n !in Reachable(w.row) && !Reveals(w, step, n))
  {
  }

  /** Before the first mint a number is out of sight exactly when the last
   *  restore to concern it hid it. */
  lemma {:induction false} OutOfSightIff(w0: World, steps: seq<Step>, n: nat)
    requires Initial(w0) && NoMint(steps) && n in w0.held
    ensures var w := Execute(w0, steps); Unminted(w) && w.held == w0.held && w.row.minted == w0.row.minted
    ensures n !in Reachable(Execute(w0, steps).row) <==> HiddenForGood(w0, steps, n)
    decreases |steps|
  {
    if steps != [] {
      var k := |steps| - 1;
      var before := steps[..k];
      assert steps == before + [steps[k]];
      OutOfSightIff(w0, before, n);
      UnmintedStep(Execute(w0, before), steps[k], n);
      ExecuteMore(w0, before, steps[k]);
      if Hides(Execute(w0, before), steps[k], n) {
        assert HiddenAt(w0, steps, k, n);
      } else if HiddenForGood(w0, steps, n) {
        WasHidden(w0, before, steps[k], n);
      } else if HiddenForGood(w0, before, n) && !Reveals(Execute(w0, before), steps[k], n) {
        StillHidden(w0, before, steps[k], n);
      }
    }
  }

  /** The highest number the row held before it minted any. */
  ghost predicate IsTop(w0: World, top: nat) {
    top in w0.held && forall n :: n in w0.held ==> n <= top
  }

  /** The counter is past the highest number, or no restore has hidden it. */
  ghost predicate TopInSight(w0: World, before: seq<Step>, top: nat) {
    top <= w0.row.minted || !HiddenForGood(w0, before, top)
  }

  /** The row after reads and restores, at its first mint. */
  function FirstMint(w0: World, before: seq<Step>, look: Look): World {
    Apply(Execute(w0, before), Mint(look))
  }

  /** The first mint of any row, new or migrated, settles it exactly when the
   *  highest number it held is past the counter's start or has not been dropped
   *  out of sight by a restore that found the row moved. */
  lemma FirstMintSettlesIff(w0: World, before: seq<Step>, look: Look, top: nat)
    requires Initial(w0) && NoMint(before) && IsTop(w0, top) && look in Execute(w0, before).looks
    ensures Settled(FirstMint(w0, before, look)) <==> TopInSight(w0, before, top)
  {
    var w := Execute(w0, before);
    OutOfSightIff(w0, before, top);
    MintIsNext(w.row);
    var w' := Apply(w, Mint(look));
    assert Writer(look, NextNumber(w.row)) in w'.writers;
    if TopInSight(w0, before, top) {
      assert top < NextNumber(w.row);
    } else {
      assert NextNumber(w.row) - 1 in w.row.kept + {w.row.generation, w.row.minted};
      assert NextNumber(w.row) - 1 != top;
      assert NextNumber(w.row) - 1 <= top;
      assert NextNumber(w.row) <= top;
    }
  }

  /** A row whose restores each found it where they read it has its highest
   *  number in sight. */
  lemma TimelyKeepsInSight(w0: World, before: seq<Step>, n: nat)
    requires forall i :: 0 <= i < |before| && before[i].Restore? ==>
      before[i].look.generation == Execute(w0, before[..i]).row.generation
    ensures !HiddenForGood(w0, before, n)
  {
    forall i ensures !HiddenAt(w0, before, i, n) {
    }
  }

  /** Over every run of a row whose highest number was in sight at its first
   *  mint: no mint gives a number that the row ever pointed at or kept. */
  lemma MintsAreNeverHeld(w0: World, before: seq<Step>, look: Look, top: nat, after: seq<Step>, more: seq<Step>, n: nat)
    requires Initial(w0) && NoMint(before) && IsTop(w0, top) && look in Execute(w0, before).looks && TopInSight(w0, before, top)
    requires n in Execute(FirstMint(w0, before, look), after).held
    ensures n < NextNumber(Execute(Execute(FirstMint(w0, before, look), after), more).row)
  {
    FirstMintSettlesIff(w0, before, look, top);
    SettledRun(FirstMint(w0, before, look), after);
    MintsAboveHeld(Execute(FirstMint(w0, before, look), after), more);
  }

  /** A row from before minting: two restores overlap, the highest generation
   *  drops out of sight, and its number is minted again. */
  lemma LostNumberIsMintedAgain()
    ensures var w0 := World(Row(4, true, 0, {3, 5}), {}, {}, {3, 4, 5}, {}, [], {3, 4, 5});
      var before := [Read, Restore(Look(4, true), 5), Restore(Look(4, true), 3)];
      && Initial(w0) && IsTop(w0, 5) && !TopInSight(w0, before, 5)
      && 5 in w0.held && FirstMint(w0, before, Look(4, true)).mints == [5]
  {
    var w0 := World(Row(4, true, 0, {3, 5}), {}, {}, {3, 4, 5}, {}, [], {3, 4, 5});
    var l := Look(4, true);
    var before := [Read, Restore(l, 5), Restore(l, 3)];
    var w1 := Apply(w0, Read);
    assert w1.looks == {l};
    var w2 := Apply(w1, Restore(l, 5));
    assert w2.row == Row(5, true, 0, {3, 4});
    var w3 := Apply(w2, Restore(l, 3));
    assert w3.row == Row(3, true, 0, {4});
    assert IsMax(4, {4});
    assert MaxKept({4}) == 4;
    assert before[..2] == [Read, Restore(l, 5)];
    Then(w0, Read, [Restore(l, 5), Restore(l, 3)]);
    Then(w1, Restore(l, 5), [Restore(l, 3)]);
    Then(w2, Restore(l, 3), []);
    Then(w0, Read, [Restore(l, 5)]);
    Then(w1, Restore(l, 5), []);
    assert [Read] + [Restore(l, 5), Restore(l, 3)] == before && [Restore(l, 5)] + [Restore(l, 3)] == [Restore(l, 5), Restore(l, 3)];
    assert [Restore(l, 3)] + [] == [Restore(l, 3)] && [Restore(l, 5)] + [] == [Restore(l, 5)] && [Read] + [Restore(l, 5)] == [Read, Restore(l, 5)];
    assert HiddenAt(w0, before, 2, 5);
  }

  // ---- Claims ----

  predicate Succeeds(w: World, step: Step) {
    step.Commit? && step.writer in w.writers && step.writer.number in w.stored && Claims(w.row, step.writer.look)
  }

  /** The row goes back to `look`: a restore of that generation ran. */
  predicate Returns(step: Step, look: Look) {
    step.Restore? && step.target == look.generation
  }

  ghost predicate Away(w: World, look: Look) {
    Settled(w) && look.generation in w.held && w.row.generation != look.generation
  }

  lemma AwayStep(w: World, step: Step, look: Look)
    requires Away(w, look) && !Returns(step, look)
    ensures Away(Apply(w, step), look)
  {
    SettledStep(w, step);
  }

  lemma {:induction false} AwayRun(w: World, steps: seq<Step>, look: Look)
    requires Away(w, look) && forall i :: 0 <= i < |steps| ==> !Returns(steps[i], look)
    ensures Away(Execute(w, steps), look)
    decreases |steps|
  {
    if steps != [] {
      assert !Returns(steps[0], look);
      AwayStep(w, steps[0], look);
      AwayRun(Apply(w, steps[0]), steps[1..], look);
    }
  }

  lemma OneCommitWhileSettled(w: World, first: Step, between: seq<Step>, second: Step)
    requires Settled(w) && Succeeds(w, first)
    requires forall i :: 0 <= i < |between| ==> !Returns(between[i], first.writer.look)
    requires second.Commit? && second.writer.look == first.writer.look
    ensures !Succeeds(Execute(Apply(w, first), between), second)
  {
    SettledStep(w, first);
    AwayRun(Apply(w, first), between, first.writer.look);
  }

  /** Over every such run, of the writers that read the row at one generation at
   *  most one commits until a restore brings that very generation back. */
  lemma OneCommitPerTenure(
      w0: World, before: seq<Step>, look: Look, top: nat, after: seq<Step>, first: Step, between: seq<Step>, second: Step)
    requires Initial(w0) && NoMint(before) && IsTop(w0, top) && look in Execute(w0, before).looks && TopInSight(w0, before, top)
    requires Succeeds(Execute(FirstMint(w0, before, look), after), first)
    requires forall i :: 0 <= i < |between| ==> !Returns(between[i], first.writer.look)
    requires second.Commit? && second.writer.look == first.writer.look
    ensures !Succeeds(Execute(Apply(Execute(FirstMint(w0, before, look), after), first), between), second)
  {
    FirstMintSettlesIff(w0, before, look, top);
    SettledRun(FirstMint(w0, before, look), after);
    OneCommitWhileSettled(Execute(FirstMint(w0, before, look), after), first, between, second);
  }

  /** And after such a restore a second one does. */
  lemma RestoreReopensTenure(w: World, first: Step, writer: Writer)
    requires Settled(w) && Succeeds(w, first) && first.keep && first.maxVersions > 0 && w.row.kept == {}
    requires w.row.uploaded && writer in w.writers && writer != first.writer && writer.look == first.writer.look
    requires writer.number in w.stored
    ensures var back := Restore(Look(first.writer.number, true), w.row.generation);
      Succeeds(Execute(Apply(w, first), [Read, back]), Commit(writer, true, 1))
  {
    var w1 := Apply(w, first);
    assert Newer({w.row.generation}, w.row.generation) == {};
    assert {} + {w.row.generation} == {w.row.generation};
    assert w1.row.kept == {w.row.generation};
    var w2 := Apply(w1, Read);
    var back := Restore(Look(first.writer.number, true), w.row.generation);
    assert back.look in w2.looks;
    var w3 := Apply(w2, back);
    assert [Read, back][1..] == [back] && [back][1..] == [];
    assert Execute(w1, [Read, back]) == Execute(w2, [back]) == Execute(w3, []) == w3;
    assert writer in w3.writers;
  }

  // ---- Blobs given up ----

  /** Every blob the row needs exists and is not about to be unlinked. */
  predicate AllSafe(w: World) {
    Needed(w.row) <= w.stored - w.removing
  }

  /** A restore that applies finds the blob of the generation it had read still
   *  there, and not given up. */
  predicate Sparing(w: World, step: Step) {
    Restores(w, step) ==> step.look.generation in w.stored - w.removing
  }

  ghost predicate Sound(w: World) {
    && Settled(w) && w.row.generation !in w.row.kept
    && (!w.row.uploaded ==> w.row.kept == {})
    && (forall writer :: writer in w.writers ==> writer.number !in w.removing)
    && (forall n :: n in w.removing ==> n <= w.row.minted)
  }

  lemma SoundStep(w: World, step: Step)
    requires Sound(w)
    ensures Sound(Apply(w, step))
  {
    SettledStep(w, step);
    if step.Mint? && step.look in w.looks {
      MintIsNext(w.row);
    }
  }

  /** A step leaves a needed blob missing or doomed exactly when it is a restore
   *  whose own generation had lost its blob since it was read. */
  lemma StepSparesIff(w: World, step: Step)
    requires Sound(w) && AllSafe(w)
    ensures AllSafe(Apply(w, step)) <==> Sparing(w, step)
  {
    if step.Commit? && step.writer in w.writers && step.writer.number in w.stored {
      CommitSpares(w, step.writer, step.keep, step.maxVersions);
    }
  }

  lemma CommitSpares(w: World, writer: Writer, keep: bool, maxVersions: nat)
    requires Sound(w) && AllSafe(w) && writer in w.writers && writer.number in w.stored
    ensures AllSafe(OnCommit(w, writer, keep, maxVersions))
  {
    if Claims(w.row, writer.look) {
      var displaced := if w.row.uploaded then {w.row.generation} else {};
      assert displaced <= Needed(w.row) && displaced !! w.row.kept;
    }
  }

  /** Safe at every moment of the run. */
  ghost predicate AlwaysSafe(w: World, steps: seq<Step>)
    decreases |steps|
  {
    AllSafe(w) && (steps == [] || AlwaysSafe(Apply(w, steps[0]), steps[1..]))
  }

  ghost predicate SparingRun(w: World, steps: seq<Step>)
    decreases |steps|
  {
    steps == [] || (Sparing(w, steps[0]) && SparingRun(Apply(w, steps[0]), steps[1..]))
  }

  lemma {:induction false} RunSparesIff(w: World, steps: seq<Step>)
    requires Sound(w) && AllSafe(w)
    ensures AlwaysSafe(w, steps) <==> SparingRun(w, steps)
    decreases |steps|
  {
    if steps != [] {
      var w' := Apply(w, steps[0]);
      StepSparesIff(w, steps[0]);
      SoundStep(w, steps[0]);
      if AllSafe(w') {
        RunSparesIff(w', steps[1..]);
      } else {
        assert !AlwaysSafe(w', steps[1..]);
      }
    }
  }

  /** Over every run of a row whose highest number was in sight at its first
   *  mint: at every moment each blob that the file or a version needs exists and
   *  is not about to be unlinked, exactly when every restore found the blob of
   *  the generation it had read neither given up nor gone. */
  lemma ReachableBlobsSurviveIff(w0: World, before: seq<Step>, look: Look, top: nat, after: seq<Step>)
    requires Initial(w0) && NoMint(before) && IsTop(w0, top) && look in Execute(w0, before).looks && TopInSight(w0, before, top)
    ensures AlwaysSafe(FirstMint(w0, before, look), after) <==> SparingRun(FirstMint(w0, before, look), after)
  {
    OutOfSightIff(w0, before, top);
    FirstMintSettlesIff(w0, before, look, top);
    RunSparesIff(FirstMint(w0, before, look), after);
  }

  // ---- Blobs nobody has any use for ----

  /** The blob exists; nothing needs it, nobody is to unlink it, and it is not a
   *  writer's. */
  ghost predicate Leaked(w: World, n: nat) {
    n in w.stored && n !in Needed(w.row) && n !in w.removing && Unwritten(w, n)
  }

  ghost predicate Unwritten(w: World, n: nat) {
    forall writer :: writer in w.writers ==> writer.number != n
  }

  /** A restore hides the generation the row points at, and its blob with it. */
  ghost predicate Leaks(w: World, step: Step, n: nat) {
    Hides(w, step, n) && n in w.stored && n !in w.removing
  }

  /** What a commit no longer needs it gives up, and what it gives up is that or
   *  the writer's own. */
  lemma CommitGivesUp(w: World, writer: Writer, keep: bool, maxVersions: nat)
    requires Sound(w) && writer in w.writers
    ensures var w' := OnCommit(w, writer, keep, maxVersions);
      if Claims(w.row, writer.look) then
        && w'.removing == w.removing + (Needed(w.row) - Needed(w'.row)) && writer.number in Needed(w'.row)
        && Needed(w'.row) <= Needed(w.row) + {writer.number}
      else w'.removing == w.removing + {writer.number} && w'.row == w.row
  {
    if Claims(w.row, writer.look) {
      var w' := OnCommit(w, writer, keep, maxVersions);
      forall n ensures n in w'.removing <==> n in w.removing || (n in Needed(w.row) && n !in Needed(w'.row)) {
      }
    }
  }

  /** The law, for every step of a settled row: a blob is leaked after it exactly
   *  when it was and the step does not point back at it, or the step is a restore
   *  that hides it. Commits and unlinks leak nothing. */
  lemma LeakedAfterStep(w: World, step: Step, n: nat)
    requires Sound(w) && n <= w.row.minted
    ensures Leaked(Apply(w, step), n) <==> (Leaked(w, n) && !Reveals(w, step, n)) || Leaks(w, step, n)
  {
    match step
    case Mint(look) => MintLeaks(w, look, n);
    case Commit(writer, keep, maxVersions) =>
      if writer in w.writers && writer.number in w.stored { CommitLeaks(w, writer, keep, maxVersions, n); }
    case Restore(look, target) => RestoreLeaks(w, look, target, n);
    case _ =>
  }

  lemma MintLeaks(w: World, look: Look, n: nat)
    requires Sound(w) && n <= w.row.minted
    ensures Leaked(Apply(w, Mint(look)), n) <==> Leaked(w, n)
  {
    MintIsNext(w.row);
    var w' := Apply(w, Mint(look));
    assert Unwritten(w', n) <==> Unwritten(w, n) by {
      assert forall writer :: writer in w.writers ==> writer in w'.writers;
    }
  }

  lemma CommitLeaks(w: World, writer: Writer, keep: bool, maxVersions: nat, n: nat)
    requires Sound(w) && writer in w.writers && writer.number in w.stored
    ensures Leaked(OnCommit(w, writer, keep, maxVersions), n) <==> Leaked(w, n)
  {
    var w' := OnCommit(w, writer, keep, maxVersions);
    CommitGivesUp(w, writer, keep, maxVersions);
    if n == writer.number {
      assert !Unwritten(w, n);
    } else {
      assert Unwritten(w', n) <==> Unwritten(w, n) by {
        assert forall other :: other in w'.writers ==> other in w.writers;
        assert forall other :: other in w.writers && other.number == n ==> other in w'.writers;
      }
    }
  }

  lemma RestoreLeaks(w: World, look: Look, target: nat, n: nat)
    requires Sound(w)
    ensures var step := Restore(look, target);
      Leaked(Apply(w, step), n) <==> (Leaked(w, n) && !Reveals(w, step, n)) || Leaks(w, step, n)
  {
    var step := Restore(look, target);
    if Restores(w, step) {
      var w' := Apply(w, step);
      assert w.row.uploaded;
      assert w'.writers == w.writers;
      if Hides(w, step, n) {
        assert n in w.held;
        assert Unwritten(w, n);
      }
    }
  }

  /** The last restore that concerned the blob hid it while it was stored, or it
   *  was leaked to begin with and none has pointed back at it. */
  ghost predicate LeakedForGood(w: World, steps: seq<Step>, n: nat) {
    || (Leaked(w, n) && NoneReveals(w, steps, 0, n))
    || exists i :: LeakedAt(w, steps, i, n)
  }

  ghost predicate LeakedAt(w: World, steps: seq<Step>, i: int, n: nat) {
    0 <= i < |steps| && Leaks(Execute(w, steps[..i]), steps[i], n) && NoneReveals(w, steps, i + 1, n)
  }

  ghost predicate NoneReveals(w: World, steps: seq<Step>, from: nat, n: nat) {
    forall j :: from <= j < |steps| ==> !Reveals(Execute(w, steps[..j]), steps[j], n)
  }

  lemma NoneRevealsMore(w: World, steps: seq<Step>, step: Step, from: nat, n: nat)
    requires from <= |steps|
    ensures NoneReveals(w, steps + [step], from, n) <==> NoneReveals(w, steps, from, n) && !Reveals(Execute(w, steps), step, n)
  {
    var all, k := steps + [step], |steps|;
    assert all[..k] == steps && all[k] == step;
    assert forall j :: 0 <= j < k ==> all[..j] == steps[..j] && all[j] == steps[j];
    if NoneReveals(w, all, from, n) {
      assert !Reveals(Execute(w, all[..k]), all[k], n);
      forall j | from <= j < k ensures !Reveals(Execute(w, steps[..j]), steps[j], n) {
        assert !Reveals(Execute(w, all[..j]), all[j], n);
      }
    }
  }

  lemma LeakedMore(w: World, steps: seq<Step>, step: Step, n: nat)
    ensures LeakedForGood(w, steps + [step], n) <==>
      || Leaks(Execute(w, steps), step, n)
      || (LeakedForGood(w, steps, n) && !Reveals(Execute(w, steps), step, n))
  {
    var all, k := steps + [step], |steps|;
    assert all[..k] == steps && all[k] == step;
    assert forall i :: 0 <= i < k ==> all[..i] == steps[..i] && all[i] == steps[i];
    NoneRevealsMore(w, steps, step, 0, n);
    if Leaks(Execute(w, steps), step, n) {
      assert LeakedAt(w, all, k, n);
    }
    forall i | 0 <= i < k ensures LeakedAt(w, all, i, n) <==> LeakedAt(w, steps, i, n) && !Reveals(Execute(w, steps), step, n) {
      NoneRevealsMore(w, steps, step, i + 1, n);
    }
  }

  lemma {:induction false} LeakedRun(w: World, steps: seq<Step>, n: nat)
    requires Sound(w) && n <= w.row.minted
    ensures Sound(Execute(w, steps)) && w.row.minted <= Execute(w, steps).row.minted
    ensures Leaked(Execute(w, steps), n) <==> LeakedForGood(w, steps, n)
    decreases |steps|
  {
    if steps != [] {
      var k := |steps| - 1;
      var before := steps[..k];
      assert steps == before + [steps[k]];
      LeakedRun(w, before, n);
      SoundStep(Execute(w, before), steps[k]);
      MintedGrows(Execute(w, before), steps[k]);
      LeakedAfterStep(Execute(w, before), steps[k], n);
      ExecuteMore(w, before, steps[k]);
      LeakedMore(w, before, steps[k], n);
    }
  }

  lemma MintedGrows(w: World, step: Step)
    ensures w.row.minted <= Apply(w, step).row.minted
  {
    if step.Mint? && step.look in w.looks {
      MintIsNext(w.row);
    }
  }

  /** Over every run of a row whose highest number was in sight at its first
   *  mint, for every number handed out by some moment of it: its blob is stored
   *  afterwards with no use for it exactly when it had none then and no restore
   *  has pointed back at it, or a restore has hidden it for good. In particular
   *  nothing a commit stops needing is forgotten. */
  lemma NothingIsForgottenIff(
      w0: World, before: seq<Step>, look: Look, top: nat, until: seq<Step>, after: seq<Step>, n: nat)
    requires Initial(w0) && NoMint(before) && IsTop(w0, top) && look in Execute(w0, before).looks && TopInSight(w0, before, top)
    requires n <= Execute(FirstMint(w0, before, look), until).row.minted
    ensures var w := Execute(FirstMint(w0, before, look), until);
      Leaked(Execute(w, after), n) <==> LeakedForGood(w, after, n)
  {
    OutOfSightIff(w0, before, top);
    FirstMintSettlesIff(w0, before, look, top);
    LeakedRun(FirstMint(w0, before, look), until, 0);
    LeakedRun(Execute(FirstMint(w0, before, look), until), after, n);
  }

  lemma Then(w: World, step: Step, rest: seq<Step>)
    ensures Execute(w, [step] + rest) == Execute(Apply(w, step), rest)
  {
    assert ([step] + rest)[1..] == rest;
  }

  const SEEN := Look(2, true)
  const LATE_1 := World(Row(2, true, 2, {1}), {}, {}, {1, 2}, {}, [], {1, 2})
  const LATE_2 := World(Row(2, true, 3, {1}), {SEEN}, {Writer(SEEN, 3)}, {1, 2}, {}, [3], {1, 2})
  const LATE_3 := LATE_2.(stored := {1, 2, 3})
  const LATE_4 := World(Row(3, true, 3, {1}), {SEEN}, {}, {1, 2, 3}, {2}, [3], {1, 2, 3})

  lemma LateMint()
    ensures FirstMint(LATE_1, [Read], SEEN) == LATE_2
  {
    assert {} + {SEEN} == {SEEN};
    assert IsMax(1, {1}) && MaxKept({1}) == 1;
    Then(LATE_1, Read, []);
    assert [Read] + [] == [Read];
  }

  /** A restore that read the row before a commit is not sparing: it brings back
   *  a version whose blob that commit has given up. */
  lemma LateRestoreKeepsADoomedBlob()
    ensures var after := [Write(Writer(SEEN, 3)), Commit(Writer(SEEN, 3), false, 5), Restore(SEEN, 1)];
      var w := Execute(FirstMint(LATE_1, [Read], SEEN), after);
      && Initial(LATE_1) && IsTop(LATE_1, 2) && TopInSight(LATE_1, [Read], 2)
      && 2 in w.removing && 2 in w.row.kept && !SparingRun(FirstMint(LATE_1, [Read], SEEN), after)
  {
    var write, commit := Write(Writer(SEEN, 3)), Commit(Writer(SEEN, 3), false, 5);
    LateMint();
    assert {1, 2} + {3} == {1, 2, 3};
    assert Apply(LATE_2, write) == LATE_3;
    Then(LATE_2, write, [commit, Restore(SEEN, 1)]);
    Then(LATE_3, commit, [Restore(SEEN, 1)]);
    assert Apply(LATE_3, commit) == LATE_4;
    Then(LATE_4, Restore(SEEN, 1), []);
    assert [write] + [commit, Restore(SEEN, 1)] == [write, commit, Restore(SEEN, 1)];
    assert [commit] + [Restore(SEEN, 1)] == [commit, Restore(SEEN, 1)];
    assert [Restore(SEEN, 1)] + [] == [Restore(SEEN, 1)];
    assert Apply(LATE_4, Restore(SEEN, 1)).row.kept == {2};
    assert !SparingRun(LATE_4, [Restore(SEEN, 1)]);
    assert [write, commit, Restore(SEEN, 1)][1..] == [commit, Restore(SEEN, 1)];
    assert [commit, Restore(SEEN, 1)][1..] == [Restore(SEEN, 1)];
    assert !SparingRun(LATE_3, [commit, Restore(SEEN, 1)]);
  }

  // ---- Pruning ----

  lemma {:induction false} SubsetSize(a: set<nat>, b: set<nat>)
    requires a <= b
    ensures |a| <= |b|
    decreases |a|
  {
    if a != {} {
      var x :| x in a;
      SubsetSize(a - {x}, b - {x});
    }
  }

  /** The window keeps no more than its size, and nothing older than what it
   *  drops. */
  lemma WindowIsNewest(kept: set<nat>, maxVersions: nat)
    ensures |Window(kept, maxVersions)| == if |kept| <= maxVersions then |kept| else maxVersions
    ensures forall n, m :: n in Window(kept, maxVersions) && m in kept && m > n ==> m in Window(kept, maxVersions)
  {
    var window := Window(kept, maxVersions);
    forall n, m | n in window && m in kept && m > n ensures m in window {
      SubsetSize(Newer(kept, m), Newer(kept, n));
    }
    if window != {} {
      var least := Least(window);
      assert window <= {least} + Newer(kept, least);
      SubsetSize(window, {least} + Newer(kept, least));
    }
    WindowIsFull(kept, maxVersions);
    SubsetSize(window, kept);
  }

  /** What is dropped has `maxVersions` newer ones, all of them kept. */
  lemma WindowIsFull(kept: set<nat>, maxVersions: nat)
    ensures |Window(kept, maxVersions)| >= (if |kept| <= maxVersions then |kept| else maxVersions)
  {
    var window := Window(kept, maxVersions);
    assert forall n :: n in window ==> n in kept;
    if window != kept {
      var rest := kept - window;
      var missing :| missing in kept && missing !in window;
      assert missing in rest;
      var newest := MaxKept(rest);
      assert newest in rest;
      var newer := Newer(kept, newest);
      forall m | m in newer ensures m in window {
        assert m in rest ==> m <= newest;
      }
      SubsetSize(newer, window);
    }
  }

  lemma {:induction false} Least(s: set<nat>) returns (m: nat)
    requires s != {}
    ensures m in s && forall n :: n in s ==> m <= n
    decreases |s|
  {
    m :| m in s;
    if n :| n in s && n < m {
      var rest := Least(s - {m});
      assert n in s - {m};
      assert s == (s - {m}) + {m};
      m := rest;
    }
  }

  /** One file's row as the statements over it see it. */
  class FileRow {
    var generation: nat
    var uploaded: bool
    var mintedGeneration: nat
    var versions: set<nat>

    ghost function View(): Row
      reads this
    {
      Row(generation, uploaded, mintedGeneration, versions)
    }

    method MintGeneration() returns (number: nat)
      modifies this`mintedGeneration
      ensures number == NextNumber(old(View())) && View() == old(View()).(minted := number)
    {
      var kept := MaxKept(versions);
      if mintedGeneration >= generation && mintedGeneration >= kept {
        number := 1 + mintedGeneration;
      } else if generation >= kept {
        number := 1 + generation;
      } else {
        number := 1 + kept;
      }
      mintedGeneration := number;
    }

    method ClaimGeneration(look: Look) returns (claimed: bool)
      ensures claimed == (generation == look.generation && uploaded == look.uploaded)
    {
      claimed := generation == look.generation && uploaded == look.uploaded;
    }

    /** A commit's transaction: claims the row it read, keeps or gives up what it
     *  displaces, moves the row, and prunes. `stale` are the blobs to unlink, the
     *  writer's own when another save landed first. */
    method Commit(writer: Writer, keep: bool, maxVersions: nat, ghost w: World) returns (committed: bool, stale: set<nat>)
      requires w.row == View()
      modifies this
      ensures committed == (old(generation) == writer.look.generation && old(uploaded) == writer.look.uploaded)
      ensures !committed ==> stale == {writer.number} && View() == old(View())
      ensures committed ==> generation == writer.number && uploaded && mintedGeneration == old(mintedGeneration)
      ensures committed ==> Needed(old(View())) - Needed(View()) <= stale <= Needed(old(View()))
      ensures committed && old(generation) !in old(versions) && writer.number !in Needed(old(View())) ==>
        stale == Needed(old(View())) - Needed(View())
      ensures var w' := OnCommit(w, writer, keep, maxVersions); View() == w'.row && w'.removing == w.removing + stale
    {
      committed := ClaimGeneration(writer.look);
      if !committed {
        return false, {writer.number};
      }
      stale := {};
      if uploaded {
        if keep {
          versions := versions + {generation};
        } else {
          stale := {generation};
        }
      }
      generation, uploaded := writer.number, true;
      ghost var all := versions;
      var dropped := PruneVersions(maxVersions);
      stale := stale + set n | n in dropped;
      assert (set n | n in dropped) == all - versions;
      ghost var displaced := if w.row.uploaded then {w.row.generation} else {};
      assert all == w.row.kept + if keep then displaced else {};
    }

    /** A restore's transaction, with the row as it was read before. */
    method Restore(look: Look, target: nat, ghost w: World) returns (restored: bool)
      requires w.row == View()
      modifies this`generation, this`versions
      ensures restored == (target in w.row.kept) && View() == OnRestore(w, look, target).row
    {
      if target !in versions {
        return false;
      }
      versions := versions + {look.generation} - {target};
      generation := target;
      restored := true;
    }

    /** Drops the versions beyond the window, newest first, and returns them. */
    method PruneVersions(maxVersions: nat) returns (dropped: seq<nat>)
      modifies this`versions
      ensures versions == Window(old(versions), maxVersions)
      ensures forall n :: n in dropped <==> n in old(versions) && n !in versions
    {
      ghost var was, seen, window := versions, {}, Window(versions, maxVersions);
      var rows, place := versions, 0;
      dropped := [];
      while rows != {}
        invariant Halfway(was, seen, rows) && place == |seen|
        invariant forall n :: n in versions <==> n in rows || (n in seen && n in window)
        invariant forall n :: n in dropped <==> n in seen && n !in window
        decreases |rows|
      {
        var next := MaxKept(rows);
        NextInWindow(was, seen, rows, next, maxVersions);
        rows := rows - {next};
        if place >= maxVersions {
          versions := versions - {next};
          dropped := dropped + [next];
        }
        seen := seen + {next};
        place := place + 1;
      }
    }
  }

  /** The rows split into the newer ones, seen, and the rest. */
  ghost predicate Halfway(was: set<nat>, seen: set<nat>, rows: set<nat>) {
    seen + rows == was && seen !! rows && forall n, m :: n in rows && m in seen ==> n < m
  }

  lemma NextInWindow(was: set<nat>, seen: set<nat>, rows: set<nat>, next: nat, maxVersions: nat)
    requires Halfway(was, seen, rows) && next in rows && IsMax(next, rows)
    ensures Halfway(was, seen + {next}, rows - {next})
    ensures next in Window(was, maxVersions) <==> |seen| < maxVersions
  {
    assert Newer(was, next) == seen;
  }
}
