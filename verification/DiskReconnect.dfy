/** What a listener that comes back repairs in the disk cache. */
module DiskReconnect {
  // While the listener was down, other instances' drops were lost. When it is
  // back, every derived key indexed at that moment is dropped, one await after
  // another, while everything else goes on.

  import opened DiskCache
  import opened Prelude
  import opened RecencyIndex

  lemma {:induction false} ExecuteJoin(c: Cache, a: seq<Step>, b: seq<Step>, budget: nat)
    ensures Execute(c, a + b, budget) == Execute(Execute(c, a, budget), b, budget)
    decreases |a|
  {
    if a == [] {
      assert a + b == b;
    } else {
      assert (a + b)[1..] == a[1..] + b;
      ExecuteJoin(Apply(c, a[0], budget), a[1..], b, budget);
    }
  }

  lemma ExecuteOne(c: Cache, step: Step, budget: nat)
    ensures Execute(c, [step], budget) == Apply(c, step, budget)
  {
    assert [step][1..] == [];
    assert Execute(Apply(c, step, budget), [], budget) == Apply(c, step, budget);
  }

  /** A hit on the key, if there is one, has the backing store's bytes, unless a
   *  superseded admission is between its rename and its unlink. */
  ghost predicate HitOk(c: Cache, key: Key) {
    Hit(c, key).Some? && !Superseded(c, key) ==> key in c.backing && Hit(c, key) == Some(c.backing[key])
  }

  /** No read of the key holds other bytes than the store's under the key's
   *  current epoch, and what is indexed, or about to be, is the store's. */
  ghost predicate Clean(c: Cache, key: Key) {
    && (forall f :: f in c.fills && f.key == key && f.Holding? && f.epoch == EpochOf(c.mem, key) ==>
          key in c.backing && c.backing[key] == f.bytes)
    && (Claimed(c, key) && key in c.disk && !Superseded(c, key) ==> key in c.backing && c.backing[key] == c.disk[key])
  }

  /** Bytes being admitted fit the budget: a derived blob's are capped at half
   *  of it. */
  ghost predicate Fits(c: Cache, key: Key, budget: nat) {
    forall f :: f in c.fills && f.key == key && (f.Holding? || f.Renamed?) ==> |f.bytes| <= budget
  }

  /** Nobody writes the key, and no notice of it arrives. */
  ghost predicate Unwritten(steps: seq<Step>, key: Key) {
    forall i :: 0 <= i < |steps| ==> !(steps[i].Overwrite? && steps[i].key == key)
  }

  ghost predicate Undropped(steps: seq<Step>, key: Key) {
    forall i :: 0 <= i < |steps| ==> steps[i] != Drop(key)
  }

  // ---- Clean keys stay clean ----

  function Excused(c: Cache, key: Key): Cache {
    c.(overwritten := c.overwritten - {key})
  }

  lemma CleanIsInv(c: Cache, key: Key, budget: nat)
    requires Inv(c, budget) && Clean(c, key)
    ensures Inv(Excused(c, key), budget)
  {
    var c' := Excused(c, key);
    forall k ensures FileOk(c', k) {
      assert FileOk(c, k);
      assert Claimed(c', k) <==> Claimed(c, k);
      assert Superseded(c', k) <==> Superseded(c, k);
    }
  }

  lemma ExcusedStep(c: Cache, step: Step, budget: nat, key: Key)
    requires !(step.Overwrite? && step.key == key)
    ensures Apply(Excused(c, key), step, budget) == Excused(Apply(c, step, budget), key)
  {
    match step
    case Overwrite(k, _) => assert c.overwritten - {key} + {k} == c.overwritten + {k} - {key};
    case Drop(k) => assert c.overwritten - {key} - {k} == c.overwritten - {k} - {key};
    case Settle(fill) => if fill in c.fills && fill.Renamed? { ExcusedSettle(c, fill, budget, key); }
    case _ =>
  }

  lemma ExcusedSettle(c: Cache, fill: Fill, budget: nat, key: Key)
    requires fill.Renamed?
    ensures OnSettle(Excused(c, key), fill, budget) == Excused(OnSettle(c, fill, budget), key)
  {
  }

  lemma {:induction false} ExcusedRun(c: Cache, steps: seq<Step>, budget: nat, key: Key)
    requires Unwritten(steps, key)
    ensures Execute(Excused(c, key), steps, budget) == Excused(Execute(c, steps, budget), key)
    decreases |steps|
  {
    if steps != [] {
      ExcusedStep(c, steps[0], budget, key);
      ExcusedRun(Apply(c, steps[0], budget), steps[1..], budget, key);
    }
  }

  lemma CleanHits(c: Cache, steps: seq<Step>, budget: nat, key: Key)
    requires Inv(c, budget) && Clean(c, key) && Unwritten(steps, key)
    ensures HitOk(Execute(c, steps, budget), key)
  {
    var end := Execute(c, steps, budget);
    CleanIsInv(c, key, budget);
    ExcusedRun(c, steps, budget, key);
    InvRun(Excused(c, key), steps, budget);
    assert FileOk(Excused(end, key), key);
    if Hit(end, key).Some? {
      assert Has(end.mem.index, key);
      assert Claimed(Excused(end, key), key);
      assert Superseded(Excused(end, key), key) <==> Superseded(end, key);
    }
  }

  // ---- Any other key is served stale by some run ----

  /** What draining leaves as it is. */
  ghost predicate Kept_(c: Cache, c': Cache, key: Key) {
    && EpochOf(c'.mem, key) == EpochOf(c.mem, key) && c'.backing == c.backing && c'.mem == c.mem
    && (forall f :: f in c'.fills ==> f in c.fills)
    && (forall f :: f in c.fills && f.key == key && f.Holding? ==> f in c'.fills)
  }

  lemma DrainOne(c: Cache, f: Fill, budget: nat) returns (steps: seq<Step>)
    requires f in c.fills && (f.Clearing? || (f.Renamed? && f.epoch != EpochOf(c.mem, f.key)))
    ensures Unwritten(steps, f.key) && Undropped(steps, f.key)
    ensures var c' := Execute(c, steps, budget);
      c' == c.(fills := c.fills - multiset{f}, disk := c.disk - {f.key})
  {
    if f.Clearing? {
      steps := [Clear(f)];
      ExecuteOne(c, Clear(f), budget);
      assert c.fills - multiset{f} + multiset{} == c.fills - multiset{f};
    } else {
      steps := [Settle(f)] + [Clear(Clearing(f.key))];
      ExecuteTwo(c, Settle(f), Clear(Clearing(f.key)), budget);
      SettledIsCleared(c, f, budget);
    }
  }

  lemma SettledIsCleared(c: Cache, f: Fill, budget: nat)
    requires f in c.fills && f.Renamed? && f.epoch != EpochOf(c.mem, f.key)
    ensures Apply(Apply(c, Settle(f), budget), Clear(Clearing(f.key)), budget)
      == c.(fills := c.fills - multiset{f}, disk := c.disk - {f.key})
  {
    var clearing := Clearing(f.key);
    var fills := c.fills - multiset{f} + multiset{clearing};
    assert Apply(c, Settle(f), budget) == c.(fills := fills);
    assert clearing in fills && fills - multiset{clearing} + multiset{} == c.fills - multiset{f};
  }

  /** Every superseded admission of the key runs to its end. */
  lemma {:induction false} Drain(c: Cache, key: Key, budget: nat) returns (steps: seq<Step>)
    ensures Unwritten(steps, key) && Undropped(steps, key)
    ensures !Superseded(Execute(c, steps, budget), key) && Kept_(c, Execute(c, steps, budget), key)
    decreases |c.fills|
  {
    if Superseded(c, key) {
      var f :| f in c.fills && f.key == key && (f.Clearing? || (f.Renamed? && f.epoch != EpochOf(c.mem, key)));
      var one := DrainOne(c, f, budget);
      var c1 := Execute(c, one, budget);
      assert |c1.fills| < |c.fills| by {
        assert c.fills == c1.fills + multiset{f};
      }
      var rest := Drain(c1, key, budget);
      steps := one + rest;
      ExecuteJoin(c, one, rest, budget);
    } else {
      steps := [];
    }
  }

  /** An admission under the current epoch ends with the key indexed. */
  lemma SettleIndexes(c: Cache, f: Fill, budget: nat)
    requires f in c.fills && f.Renamed? && f.epoch == EpochOf(c.mem, f.key) && |f.bytes| <= budget
    requires !Superseded(c, f.key)
    ensures var c' := Apply(c, Settle(f), budget);
      Has(c'.mem.index, f.key) && !Superseded(c', f.key) && c'.disk == c.disk && c'.backing == c.backing
  {
    var c' := Apply(c, Settle(f), budget);
    NewestIsKept(Without(c.mem.index, f.key), Entry(f.key, |f.bytes|), budget);
    ReplaceMembers(c, f, multiset{});
    assert EpochOf(c'.mem, f.key) == EpochOf(c.mem, f.key);
  }

  /** Bytes held under the current epoch are placed. */
  lemma HeldIsPlaced(c: Cache, f: Fill, budget: nat)
    requires f in c.fills && f.Holding? && f.epoch == EpochOf(c.mem, f.key) && !Superseded(c, f.key)
    ensures var c', r := Apply(c, Rename(f, true), budget), Renamed(f.key, f.epoch, f.bytes);
      && r in c'.fills && !Superseded(c', f.key) && c'.mem == c.mem && c'.backing == c.backing
      && f.key in c'.disk && c'.disk[f.key] == f.bytes
  {
    ReplaceMembers(c.(disk := c.disk[f.key := f.bytes]), f, multiset{Renamed(f.key, f.epoch, f.bytes)});
  }

  lemma ExecuteTwo(c: Cache, s1: Step, s2: Step, budget: nat)
    ensures Execute(c, [s1] + [s2], budget) == Apply(Apply(c, s1, budget), s2, budget)
  {
    ExecuteJoin(c, [s1], [s2], budget);
    ExecuteOne(c, s1, budget);
    ExecuteOne(Apply(c, s1, budget), s2, budget);
  }

  /** They are indexed then, and served even where they are not the store's. */
  lemma PlacedIsServed(c: Cache, f: Fill, budget: nat)
    requires f in c.fills && f.Renamed? && f.epoch == EpochOf(c.mem, f.key) && |f.bytes| <= budget && !Superseded(c, f.key)
    requires f.key in c.disk && c.disk[f.key] == f.bytes && !(f.key in c.backing && c.backing[f.key] == f.bytes)
    ensures !HitOk(Apply(c, Settle(f), budget), f.key)
  {
    SettleIndexes(c, f, budget);
    assert Hit(Apply(c, Settle(f), budget), f.key) == Some(f.bytes);
  }

  lemma HeldIsServed(c: Cache, f: Fill, budget: nat) returns (steps: seq<Step>)
    requires f in c.fills && f.Holding? && f.epoch == EpochOf(c.mem, f.key) && |f.bytes| <= budget
    requires !(f.key in c.backing && c.backing[f.key] == f.bytes)
    ensures Unwritten(steps, f.key) && Undropped(steps, f.key) && !HitOk(Execute(c, steps, budget), f.key)
  {
    var place, settle := Rename(f, true), Settle(Renamed(f.key, f.epoch, f.bytes));
    var first := Drain(c, f.key, budget);
    var c1 := Execute(c, first, budget);
    HeldIsPlaced(c1, f, budget);
    PlacedIsServed(Apply(c1, place, budget), Renamed(f.key, f.epoch, f.bytes), budget);
    steps := first + ([place] + [settle]);
    ExecuteJoin(c, first, [place] + [settle], budget);
    ExecuteTwo(c1, place, settle, budget);
  }

  lemma UncleanIsServed(c: Cache, key: Key, budget: nat) returns (steps: seq<Step>)
    requires Inv(c, budget) && Fits(c, key, budget) && !Clean(c, key)
    ensures Unwritten(steps, key) && Undropped(steps, key) && !HitOk(Execute(c, steps, budget), key)
  {
    if f :| f in c.fills && f.key == key && f.Holding? && f.epoch == EpochOf(c.mem, key) &&
            !(key in c.backing && c.backing[key] == f.bytes) {
      steps := HeldIsServed(c, f, budget);
    } else if Has(c.mem.index, key) {
      steps := [];
    } else {
      var f :| f in c.fills && f.key == key && f.Renamed? && f.epoch == EpochOf(c.mem, key);
      steps := [Settle(f)];
      SettleIndexes(c, f, budget);
      ExecuteOne(c, Settle(f), budget);
    }
  }

  // ---- The reconnect ----

  /** The run drops every one of the keys, among whatever else it does; other
   *  instances neither write `key` nor announce it. */
  ghost predicate Drops(steps: seq<Step>, keys: seq<Key>, key: Key) {
    && Unwritten(steps, key) && (key !in keys ==> Undropped(steps, key))
    && forall k :: k in keys ==> Drop(k) in steps
  }

  /** Every run that makes the reconnect's drops ends with the key served, if at
   *  all, as the store has it. */
  ghost predicate Repaired(c: Cache, keys: seq<Key>, key: Key, budget: nat) {
    forall steps :: Drops(steps, keys, key) ==> HitOk(Execute(c, steps, budget), key)
  }

  function DropSteps(keys: seq<Key>): seq<Step> {
    seq(|keys|, i requires 0 <= i < |keys| => Drop(keys[i]))
  }

  lemma OtherDropsKeep(c: Cache, k: Key, budget: nat, key: Key)
    requires MemoryOk(c.mem, budget) && k != key
    ensures var c' := Apply(c, Drop(k), budget);
      && MemoryOk(c'.mem, budget) && Hit(c', key) == Hit(c, key) && (Superseded(c', key) <==> Superseded(c, key))
      && c'.backing == c.backing
  {
    DropFacts(c.mem, k, budget);
  }

  lemma {:induction false} OtherDropsKeepHits(c: Cache, keys: seq<Key>, budget: nat, key: Key)
    requires MemoryOk(c.mem, budget) && key !in keys
    ensures HitOk(Execute(c, DropSteps(keys), budget), key) <==> HitOk(c, key)
    decreases |keys|
  {
    if keys != [] {
      assert DropSteps(keys)[1..] == DropSteps(keys[1..]);
      OtherDropsKeep(c, keys[0], budget, key);
      OtherDropsKeepHits(Apply(c, Drop(keys[0]), budget), keys[1..], budget, key);
    }
  }

  /** A drop cleans its key. */
  lemma DroppedHits(c: Cache, steps: seq<Step>, budget: nat, key: Key)
    requires Inv(c, budget) && Unwritten(steps, key) && Drop(key) in steps
    ensures HitOk(Execute(c, steps, budget), key)
  {
    var i :| 0 <= i < |steps| && steps[i] == Drop(key);
    var c1 := Execute(c, steps[..i], budget);
    var c2 := Apply(c1, Drop(key), budget);
    InvRun(c, steps[..i], budget);
    InvStep(c1, Drop(key), budget);
    assert FileOk(c2, key);
    assert Clean(c2, key);
    CleanHits(c2, steps[i + 1..], budget, key);
    assert steps == steps[..i] + steps[i..] && steps[i..][0] == Drop(key) && steps[i..][1..] == steps[i + 1..];
    ExecuteJoin(c, steps[..i], steps[i..], budget);
  }

  /** What a reconnect repairs, over every run in which its drops interleave
   *  with anything but a write of the key: exactly the keys it drops, which are
   *  the derived ones indexed when the listener came back, and those that were
   *  clean then. */
  lemma ReconnectRepairsIff(c: Cache, derived: set<Key>, keys: seq<Key>, budget: nat, key: Key)
    requires Inv(c, budget) && Fits(c, key, budget)
    requires forall k :: k in keys <==> Has(c.mem.index, k) && k in derived
    ensures Repaired(c, keys, key, budget) <==> (Has(c.mem.index, key) && key in derived) || Clean(c, key)
  {
    if key in keys || Clean(c, key) {
      forall steps | Drops(steps, keys, key) ensures HitOk(Execute(c, steps, budget), key) {
        if key in keys {
          DroppedHits(c, steps, budget, key);
        } else {
          CleanHits(c, steps, budget, key);
        }
      }
    } else {
      var stale := UncleanIsServed(c, key, budget);
      var drops := DropSteps(keys);
      InvRun(c, stale, budget);
      OtherDropsKeepHits(Execute(c, stale, budget), keys, budget, key);
      ExecuteJoin(c, stale, drops, budget);
      forall k | k in keys ensures Drop(k) in stale + drops {
        var i :| 0 <= i < |keys| && keys[i] == k;
        assert drops[i] == Drop(k);
      }
      assert Drops(stale + drops, keys, key);
    }
  }

  /** A key that was only being fetched is the case in point: the read began
   *  before the overwrite, the notice was lost, nothing is indexed, and no drop
   *  follows. The state is reachable, so its old bytes can be served for good. */
  lemma ReconnectLeavesStaleBytes(key: Key, old_: Bytes, new_: Bytes, budget: nat)
    requires old_ != new_ && |old_| <= budget
    ensures exists c0, steps :: (
      && Initial(c0)
      && var c := Execute(c0, steps, budget);
         && c.mem.index == [] && Holding(key, 0, old_) in c.fills && key in c.backing && c.backing[key] == new_
         && !Repaired(c, [], key, budget))
  {
    var c0 := Cache(Memory([], 0, map[]), map[], map[key := old_], multiset{}, multiset{}, {}, []);
    var overwrite := Overwrite(key, Some(new_));
    var r1 := Apply(c0, Read(key), budget);
    assert r1.fills == multiset{Fetching(key, 0)};
    var r2 := Apply(r1, Fetch(Fetching(key, 0), true), budget);
    assert r2.fills == multiset{Holding(key, 0, old_)};
    var c := Apply(r2, overwrite, budget);
    var steps := [Read(key)] + ([Fetch(Fetching(key, 0), true)] + [overwrite]);
    ExecuteJoin(c0, [Read(key)], [Fetch(Fetching(key, 0), true)] + [overwrite], budget);
    ExecuteJoin(r1, [Fetch(Fetching(key, 0), true)], [overwrite], budget);
    ExecuteOne(c0, Read(key), budget);
    ExecuteOne(r1, Fetch(Fetching(key, 0), true), budget);
    ExecuteOne(r2, overwrite, budget);
    assert c == Execute(c0, steps, budget);
    InvRun(c0, steps, budget);
    assert Holding(key, 0, old_) in c.fills && !Clean(c, key);
    ReconnectRepairsIff(c, {}, [], budget, key);
  }
}
