/** Temporary files that are written and renamed into place. */
module TempFiles {
  // A send opens a temporary file, writes its bytes chunk by chunk, and renames
  // the file into place. The temporary name is made of the place and the time in
  // milliseconds, so two sends of one place may share it: then they write into
  // one file, each at its own position, and go on doing so once one of them has
  // renamed it.

  import opened Prelude

  datatype WriterId = WriterId(id: nat)
  datatype File = File(id: nat)
  datatype Temp = Temp(id: nat)
  datatype Place = Place(id: nat)

  /** A send under way, with the position it has written up to. */
  datatype Writer = Writer(temp: Temp, place: Place, file: File, source: Bytes, at: nat)

  /** `temps` and `places` name files; `stored` is history: what the send that was
   *  acknowledged last at a place had sent. */
  datatype World = World(
    contents: map<File, Bytes>, temps: map<Temp, File>, places: map<Place, File>,
    writers: map<WriterId, Writer>, stored: map<Place, Bytes>)

  datatype Step =
    | Open(w: WriterId, temp: Temp, place: Place, source: Bytes, unused: File)
    | Write(w: WriterId, count: nat)
    | Finish(w: WriterId)
    | Fail(w: WriterId)
    | Remove(place: Place)

  /** Bytes written at a position, behind a gap of zeros if need be. */
  function Patched(old_: Bytes, at: nat, chunk: Bytes): Bytes {
    if chunk == [] then old_ else seq(Max(|old_|, at + |chunk|), i requires i >= 0 => ByteAt(old_, at, chunk, i))
  }

  function ByteAt(old_: Bytes, at: nat, chunk: Bytes, i: nat): Byte {
    if at <= i < at + |chunk| then chunk[i - at] else if i < |old_| then old_[i] else 0
  }

  /** A name that exists is opened as it is and cut to nothing. */
  function OnOpen(v: World, w: WriterId, temp: Temp, place: Place, source: Bytes, unused: File): World {
    var file := if temp in v.temps then v.temps[temp] else unused;
    v.(contents := v.contents[file := []], temps := v.temps[temp := file],
       writers := v.writers[w := Writer(temp, place, file, source, 0)])
  }

  function OnWrite(v: World, w: WriterId, count: nat): World
    requires w in v.writers && v.writers[w].file in v.contents && v.writers[w].at + count <= |v.writers[w].source|
  {
    var writer := v.writers[w];
    var chunk := writer.source[writer.at..writer.at + count];
    v.(contents := v.contents[writer.file := Patched(v.contents[writer.file], writer.at, chunk)],
       writers := v.writers[w := writer.(at := writer.at + count)])
  }

  /** Everything is written: whatever has the temporary name now gets the place,
   *  or the send fails because nothing has it any more. */
  function OnFinish(v: World, w: WriterId): World
    requires w in v.writers
  {
    var writer := v.writers[w];
    var rest := v.(writers := v.writers - {w});
    if writer.temp !in v.temps then rest
    else
      rest.(temps := v.temps - {writer.temp}, places := v.places[writer.place := v.temps[writer.temp]],
            stored := v.stored[writer.place := writer.source])
  }

  function Apply(v: World, step: Step): World {
    match step
    case Open(w, temp, place, source, unused) =>
      if w !in v.writers && unused !in v.contents then OnOpen(v, w, temp, place, source, unused) else v
    case Write(w, count) =>
      if w in v.writers && v.writers[w].file in v.contents && v.writers[w].at + count <= |v.writers[w].source| then
        OnWrite(v, w, count)
      else v
    case Finish(w) => if w in v.writers && v.writers[w].at == |v.writers[w].source| then OnFinish(v, w) else v
    case Fail(w) => if w in v.writers then v.(writers := v.writers - {w}, temps := v.temps - {v.writers[w].temp}) else v
    case Remove(place) => v.(places := v.places - {place}, stored := v.stored - {place})
  }

  function Execute(v: World, steps: seq<Step>): World
    decreases |steps|
  {
    if steps == [] then v else Execute(Apply(v, steps[0]), steps[1..])
  }

  const EMPTY := World(map[], map[], map[], map[], map[])

  // ---- Sends whose names are apart ----

  ghost predicate WriterOk(v: World, writer: Writer) {
    && writer.at <= |writer.source| && writer.temp in v.temps && v.temps[writer.temp] == writer.file
    && writer.file in v.contents && v.contents[writer.file] == writer.source[..writer.at]
  }

  /** Every file has one name at most. */
  ghost predicate NamesOk(v: World) {
    && (forall t :: t in v.temps ==> v.temps[t] in v.contents)
    && (forall p :: p in v.places ==> v.places[p] in v.contents)
    && (forall t, u :: t in v.temps && u in v.temps && t != u ==> v.temps[t] != v.temps[u])
    && (forall p, q :: p in v.places && q in v.places && p != q ==> v.places[p] != v.places[q])
    && (forall t, p :: t in v.temps && p in v.places ==> v.temps[t] != v.places[p])
    && (forall w :: w in v.writers ==> v.writers[w].file in v.contents)
  }

  ghost predicate Inv(v: World) {
    && NamesOk(v)
    && (forall w :: w in v.writers ==> WriterOk(v, v.writers[w]))
    && (forall w, x :: w in v.writers && x in v.writers && w != x ==> v.writers[w].temp != v.writers[x].temp)
    && v.stored.Keys == v.places.Keys
    && forall p :: p in v.places ==> v.contents[v.places[p]] == v.stored[p]
  }

  /** No send opens a temporary name that is in use. */
  predicate Apart(v: World, step: Step) {
    step.Open? ==> step.temp !in v.temps
  }

  predicate ApartRun(v: World, steps: seq<Step>)
    decreases |steps|
  {
    steps == [] || (Apart(v, steps[0]) && ApartRun(Apply(v, steps[0]), steps[1..]))
  }

  lemma PatchedNext(source: Bytes, at: nat, count: nat)
    requires at + count <= |source|
    ensures Patched(source[..at], at, source[at..at + count]) == source[..at + count]
  {
  }

  lemma WriteKeeps(v: World, w: WriterId, count: nat)
    requires Inv(v) && w in v.writers && v.writers[w].at + count <= |v.writers[w].source|
    ensures Inv(OnWrite(v, w, count))
  {
    var v', writer := OnWrite(v, w, count), v.writers[w];
    assert WriterOk(v, writer);
    PatchedNext(writer.source, writer.at, count);
    forall x | x in v'.writers ensures WriterOk(v', v'.writers[x]) {
      assert WriterOk(v, v.writers[x]);
    }
  }

  lemma FinishKeeps(v: World, w: WriterId)
    requires Inv(v) && w in v.writers && v.writers[w].at == |v.writers[w].source|
    ensures Inv(OnFinish(v, w))
  {
    var v', writer := OnFinish(v, w), v.writers[w];
    assert WriterOk(v, writer) && writer.source[..writer.at] == writer.source;
    forall x | x in v'.writers ensures WriterOk(v', v'.writers[x]) {
      assert WriterOk(v, v.writers[x]);
    }
  }

  lemma OpenKeeps(v: World, w: WriterId, temp: Temp, place: Place, source: Bytes, unused: File)
    requires Inv(v) && w !in v.writers && unused !in v.contents && temp !in v.temps
    ensures Inv(OnOpen(v, w, temp, place, source, unused))
  {
    var v' := OnOpen(v, w, temp, place, source, unused);
    forall x | x in v'.writers ensures WriterOk(v', v'.writers[x]) {
      assert x != w ==> WriterOk(v, v.writers[x]);
    }
  }

  lemma FailKeeps(v: World, w: WriterId)
    requires Inv(v) && w in v.writers
    ensures Inv(Apply(v, Fail(w)))
  {
    var v' := Apply(v, Fail(w));
    forall x | x in v'.writers ensures WriterOk(v', v'.writers[x]) {
      assert WriterOk(v, v.writers[x]);
    }
  }

  lemma RemoveKeeps(v: World, place: Place)
    requires Inv(v)
    ensures Inv(Apply(v, Remove(place)))
  {
    var v' := Apply(v, Remove(place));
    forall x | x in v'.writers ensures WriterOk(v', v'.writers[x]) {
      assert WriterOk(v, v.writers[x]);
    }
  }

  lemma {:induction false} InvRun(v: World, steps: seq<Step>)
    requires Inv(v) && ApartRun(v, steps)
    ensures Inv(Execute(v, steps))
    decreases |steps|
  {
    if steps != [] {
      match steps[0] {
        case Open(w, temp, place, source, unused) =>
          if w !in v.writers && unused !in v.contents { OpenKeeps(v, w, temp, place, source, unused); }
        case Write(w, count) =>
          if w in v.writers && v.writers[w].at + count <= |v.writers[w].source| { WriteKeeps(v, w, count); }
        case Finish(w) => if w in v.writers && v.writers[w].at == |v.writers[w].source| { FinishKeeps(v, w); }
        case Fail(w) => if w in v.writers { FailKeeps(v, w); }
        case Remove(place) => RemoveKeeps(v, place);
      }
      InvRun(Apply(v, steps[0]), steps[1..]);
    }
  }

  /** Over every run in which no temporary name is opened while it is in use, and
   *  however writes, failures and removals interleave: a place holds exactly what
   *  the send acknowledged there last had sent. */
  lemma PlacesHoldWhatWasSent(steps: seq<Step>)
    requires ApartRun(EMPTY, steps)
    ensures var v := Execute(EMPTY, steps);
      && v.places.Keys == v.stored.Keys
      && forall p :: p in v.places ==> v.places[p] in v.contents && v.contents[v.places[p]] == v.stored[p]
  {
    InvRun(EMPTY, steps);
  }

  /** A send under way opened the name. */
  ghost predicate InUse(v: World, temp: Temp) {
    exists w :: w in v.writers && v.writers[w].temp == temp
  }

  lemma UseStep(v: World, step: Step, temp: Temp)
    requires temp in v.temps ==> InUse(v, temp)
    ensures var v' := Apply(v, step); temp in v'.temps ==> InUse(v', temp)
  {
    var v' := Apply(v, step);
    if temp in v'.temps {
      if temp in v.temps {
        var w :| w in v.writers && v.writers[w].temp == temp;
        assert w in v'.writers && v'.writers[w].temp == temp;
      } else {
        assert v'.writers[step.w].temp == temp;
      }
    }
  }

  lemma {:induction false} UseRun(v: World, steps: seq<Step>, temp: Temp)
    requires temp in v.temps ==> InUse(v, temp)
    ensures var v' := Execute(v, steps); temp in v'.temps ==> InUse(v', temp)
    decreases |steps|
  {
    if steps != [] {
      UseStep(v, steps[0], temp);
      UseRun(Apply(v, steps[0]), steps[1..], temp);
    }
  }

  /** Nothing is left of a send that is over, stored or failed: over every run, a
   *  temporary name is there only while a send that opened it is under way. */
  lemma NothingIsLeftOver(steps: seq<Step>)
    ensures var v := Execute(EMPTY, steps);
      && (forall t :: t in v.temps ==> exists w :: w in v.writers && v.writers[w].temp == t)
      && (v.writers == map[] ==> v.temps == map[])
  {
    var v := Execute(EMPTY, steps);
    forall t | t in v.temps ensures InUse(v, t) {
      UseRun(EMPTY, steps, t);
    }
  }

  // ---- Sends that share a name ----

  /** The place has these bytes. */
  predicate Has(v: World, place: Place, bytes: Bytes) {
    place in v.places && v.places[place] in v.contents && v.contents[v.places[place]] == bytes
  }

  /** Nothing takes the place or removes what is there. */
  predicate LeavesPlace(v: World, step: Step, place: Place) {
    && (step.Finish? && step.w in v.writers ==> v.writers[step.w].place != place)
    && (step.Remove? ==> step.place != place)
  }

  predicate LeavesPlaceRun(v: World, steps: seq<Step>, place: Place)
    decreases |steps|
  {
    steps == [] || (LeavesPlace(v, steps[0], place) && LeavesPlaceRun(Apply(v, steps[0]), steps[1..], place))
  }

  ghost predicate Stays(v: World, place: Place, bytes: Bytes) {
    forall steps :: LeavesPlaceRun(v, steps, place) ==> Has(Execute(v, steps), place, bytes)
  }

  /** What the writer has yet to write is there already. */
  predicate Agrees(writer: Writer, bytes: Bytes) {
    writer.at < |writer.source| ==>
      |writer.source| <= |bytes| && writer.source[writer.at..] == bytes[writer.at..|writer.source|]
  }

  ghost predicate NoOtherWriter(v: World, place: Place, bytes: Bytes) {
    place in v.places ==> forall w :: w in v.writers && v.writers[w].file == v.places[place] ==> Agrees(v.writers[w], bytes)
  }

  lemma AgreeingWrite(writer: Writer, bytes: Bytes, count: nat)
    requires Agrees(writer, bytes) && writer.at + count <= |writer.source|
    ensures Patched(bytes, writer.at, writer.source[writer.at..writer.at + count]) == bytes
    ensures Agrees(writer.(at := writer.at + count), bytes)
  {
    if count > 0 {
      var rest, ahead := writer.source[writer.at..], bytes[writer.at..|writer.source|];
      assert forall i :: 0 <= i < |rest| ==> writer.source[writer.at + i] == rest[i] == ahead[i] == bytes[writer.at + i];
    }
  }

  lemma NamesStep(v: World, step: Step)
    requires NamesOk(v)
    ensures NamesOk(Apply(v, step))
  {
    match step
    case Open(w, temp, place, source, unused) =>
      if w !in v.writers && unused !in v.contents { OpenNames(v, w, temp, place, source, unused); }
    case Finish(w) => if w in v.writers { FinishNames(v, w); }
    case _ =>
  }

  lemma OpenNames(v: World, w: WriterId, temp: Temp, place: Place, source: Bytes, unused: File)
    requires NamesOk(v) && unused !in v.contents
    ensures NamesOk(OnOpen(v, w, temp, place, source, unused))
  {
  }

  lemma FinishNames(v: World, w: WriterId)
    requires NamesOk(v) && w in v.writers
    ensures NamesOk(OnFinish(v, w))
  {
  }

  lemma AgreementStep(v: World, step: Step, place: Place, bytes: Bytes)
    requires NamesOk(v) && LeavesPlace(v, step, place) && Has(v, place, bytes) && NoOtherWriter(v, place, bytes)
    ensures var v' := Apply(v, step); Has(v', place, bytes) && NoOtherWriter(v', place, bytes)
  {
    if step.Write? && step.w in v.writers && v.writers[step.w].at + step.count <= |v.writers[step.w].source| {
      if v.writers[step.w].file == v.places[place] {
        AgreeingWrite(v.writers[step.w], bytes, step.count);
      }
    }
  }

  lemma {:induction false} AgreementRun(v: World, steps: seq<Step>, place: Place, bytes: Bytes)
    requires NamesOk(v) && LeavesPlaceRun(v, steps, place) && Has(v, place, bytes) && NoOtherWriter(v, place, bytes)
    ensures Has(Execute(v, steps), place, bytes)
    decreases |steps|
  {
    if steps != [] {
      NamesStep(v, steps[0]);
      AgreementStep(v, steps[0], place, bytes);
      AgreementRun(Apply(v, steps[0]), steps[1..], place, bytes);
    }
  }

  lemma OneStep(v: World, step: Step, place: Place)
    requires LeavesPlace(v, step, place)
    ensures LeavesPlaceRun(v, [step], place) && Execute(v, [step]) == Apply(v, step)
  {
    assert [step][1..] == [];
    assert Execute(Apply(v, step), []) == Apply(v, step);
  }

  /** A writer with other bytes to come writes them. */
  lemma OtherWriterSpoils(v: World, w: WriterId, place: Place, bytes: Bytes)
    requires NamesOk(v) && w in v.writers && place in v.places && v.writers[w].file == v.places[place]
    requires !Agrees(v.writers[w], bytes)
    ensures !Stays(v, place, bytes)
  {
    var writer := v.writers[w];
    var step := Write(w, |writer.source| - writer.at);
    var v' := Apply(v, step);
    assert writer.source[writer.at..writer.at + step.count] == writer.source[writer.at..];
    OneStep(v, step, place);
    var after := Patched(v.contents[writer.file], writer.at, writer.source[writer.at..]);
    assert |writer.source| <= |after| && after[writer.at..|writer.source|] == writer.source[writer.at..];
    assert !Has(v', place, bytes);
  }

  lemma StaysWhereNamed(v: World, place: Place, bytes: Bytes)
    requires NamesOk(v)
    ensures Stays(v, place, bytes) <==> Has(v, place, bytes) && NoOtherWriter(v, place, bytes)
  {
    if Has(v, place, bytes) && NoOtherWriter(v, place, bytes) {
      forall steps | LeavesPlaceRun(v, steps, place) ensures Has(Execute(v, steps), place, bytes) {
        AgreementRun(v, steps, place, bytes);
      }
    } else if !Has(v, place, bytes) {
      assert LeavesPlaceRun(v, [], place) && !Has(Execute(v, []), place, bytes);
    } else {
      var w :| w in v.writers && v.writers[w].file == v.places[place] && !Agrees(v.writers[w], bytes);
      OtherWriterSpoils(v, w, place, bytes);
    }
  }

  lemma {:induction false} NamesRun(v: World, steps: seq<Step>)
    requires NamesOk(v)
    ensures NamesOk(Execute(v, steps))
    decreases |steps|
  {
    if steps != [] {
      NamesStep(v, steps[0]);
      NamesRun(Apply(v, steps[0]), steps[1..]);
    }
  }

  /** When a file that was renamed into place keeps its bytes: after any run, over
   *  every continuation that does not take or remove the place, exactly when no
   *  send that still has the file open has other bytes to write. */
  lemma StaysIff(before: seq<Step>, place: Place, bytes: Bytes)
    ensures var v := Execute(EMPTY, before);
      Stays(v, place, bytes) <==> Has(v, place, bytes) && NoOtherWriter(v, place, bytes)
  {
    NamesRun(EMPTY, before);
    StaysWhereNamed(Execute(EMPTY, before), place, bytes);
  }

  const FIRST := WriterId(0)
  const SECOND := WriterId(1)
  const NAME := Temp(0)
  const PART := Place(0)
  const SHARED := File(0)

  ghost predicate Reached(v: World) {
    exists steps :: Execute(EMPTY, steps) == v
  }

  lemma {:induction false} ExecuteMore(v: World, steps: seq<Step>, step: Step)
    ensures Execute(v, steps + [step]) == Apply(Execute(v, steps), step)
    decreases |steps|
  {
    if steps == [] {
      assert (steps + [step])[1..] == [];
    } else {
      assert (steps + [step])[1..] == steps[1..] + [step];
      ExecuteMore(Apply(v, steps[0]), steps[1..], step);
    }
  }

  lemma Then(v: World, step: Step, v': World)
    requires Reached(v) && Apply(v, step) == v'
    ensures Reached(v')
  {
    var steps :| Execute(EMPTY, steps) == v;
    ExecuteMore(EMPTY, steps, step);
    assert Execute(EMPTY, steps + [step]) == v';
  }

  function Opened(source: Bytes): Writer {
    Writer(NAME, PART, SHARED, source, 0)
  }

  lemma BothOpen(mine: Bytes, theirs: Bytes)
    ensures Reached(World(map[SHARED := []], map[NAME := SHARED], map[], map[FIRST := Opened(mine), SECOND := Opened(theirs)], map[]))
  {
    var one := World(map[SHARED := []], map[NAME := SHARED], map[], map[FIRST := Opened(mine)], map[]);
    assert Execute(EMPTY, []) == EMPTY;
    Then(EMPTY, Open(FIRST, NAME, PART, mine, SHARED), one);
    Then(one, Open(SECOND, NAME, PART, theirs, File(1)), one.(writers := map[FIRST := Opened(mine), SECOND := Opened(theirs)]));
  }

  lemma FirstWrites(mine: Bytes, theirs: Bytes)
    ensures Reached(World(
      map[SHARED := mine], map[NAME := SHARED], map[],
      map[FIRST := Opened(mine).(at := |mine|), SECOND := Opened(theirs)], map[]))
  {
    var both := World(
      map[SHARED := []], map[NAME := SHARED], map[], map[FIRST := Opened(mine), SECOND := Opened(theirs)], map[]);
    BothOpen(mine, theirs);
    PatchedNext(mine, 0, |mine|);
    assert mine[..0] == [] && mine[0..0 + |mine|] == mine && mine[..0 + |mine|] == mine;
    Then(both, Write(FIRST, |mine|), both.(
      contents := map[SHARED := mine], writers := map[FIRST := Opened(mine).(at := |mine|), SECOND := Opened(theirs)]));
  }

  /** Two sends of one part in one millisecond: the first is acknowledged, and then
   *  the second writes over what it stored. */
  lemma SharedNameSpoils(mine: Bytes, theirs: Bytes)
    requires |mine| == |theirs| > 0 && mine != theirs
    ensures exists v ::
      Reached(v) && v.stored == map[PART := mine] && Has(v, PART, mine) && !Stays(v, PART, mine)
  {
    var written := World(
      map[SHARED := mine], map[NAME := SHARED], map[],
      map[FIRST := Opened(mine).(at := |mine|), SECOND := Opened(theirs)], map[]);
    var done := World(map[SHARED := mine], map[], map[PART := SHARED], map[SECOND := Opened(theirs)], map[PART := mine]);
    FirstWrites(mine, theirs);
    assert written.temps - {NAME} == map[] && written.writers - {FIRST} == done.writers;
    Then(written, Finish(FIRST), done);
    assert theirs[0..] == theirs && mine[0..|theirs|] == mine;
    assert !Agrees(done.writers[SECOND], mine);
    StaysWhereNamed(done, PART, mine);
  }
}
