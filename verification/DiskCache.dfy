/** Copies of blobs on disk, taken on a miss and dropped on a write. */
module DiskCache {
  // An index in recency order, a byte budget, and an epoch per key. Reads that
  // fill the cache, drops, evictions and unlinks interleave at every await; the
  // backing store is shared with other instances, whose overwrites reach this
  // one as drops.

  import opened Prelude
  import opened RecencyIndex

  type Key = string

  // ---- Memory ----

  datatype Memory = Memory(index: seq<Entry<Key>>, total: int, epochs: map<Key, nat>)

  function EpochOf(m: Memory, key: Key): nat {
    if key in m.epochs then m.epochs[key] else 0
  }

  ghost predicate MemoryOk(m: Memory, budget: nat) {
    Unique(m.index) && m.total == Total(m.index) && m.total <= budget
  }

  function Evict(m: Memory, budget: nat): Memory {
    var kept := Kept(m.index, budget);
    m.(index := kept, total := m.total - (Total(m.index) - Total(kept)))
  }

  function Evicted(m: Memory, budget: nat): seq<Key> {
    Gone(m.index, budget)
  }

  function Forget(m: Memory, key: Key): Memory {
    m.(index := Without(m.index, key), total := m.total - SizeOf(m.index, key))
  }

  /** The synchronous half of a drop. */
  function DropEntry(m: Memory, key: Key): Memory {
    Forget(m, key).(epochs := m.epochs[key := EpochOf(m, key) + 1])
  }

  function Append(m: Memory, key: Key, size: nat): Memory {
    m.(index := m.index + [Entry(key, size)], total := m.total + size)
  }

  function Touch(m: Memory, key: Key): Memory {
    if Has(m.index, key) then Append(Forget(m, key), key, SizeOf(m.index, key)) else m
  }

  /** Before eviction: the admitted entry at the recency tail. */
  function Admit(m: Memory, key: Key, size: nat): Memory {
    Append(Forget(m, key), key, size)
  }

  lemma EvictFacts(m: Memory, budget: nat)
    requires Unique(m.index) && m.total == Total(m.index)
    ensures MemoryOk(Evict(m, budget), budget) && Evict(m, budget).epochs == m.epochs
    ensures forall k :: Has(m.index, k) <==> Has(Evict(m, budget).index, k) || k in Evicted(m, budget)
  {
    EvictionSplits(m.index, budget);
  }

  lemma DropFacts(m: Memory, key: Key, budget: nat)
    requires MemoryOk(m, budget)
    ensures MemoryOk(DropEntry(m, key), budget)
    ensures forall k :: Has(DropEntry(m, key).index, k) <==> k != key && Has(m.index, k)
  {
    WithoutFacts(m.index, key);
  }

  lemma TouchFacts(m: Memory, key: Key, budget: nat)
    requires MemoryOk(m, budget)
    ensures MemoryOk(Touch(m, key), budget)
    ensures forall k :: Has(Touch(m, key).index, k) <==> Has(m.index, k)
  {
    WithoutFacts(m.index, key);
    if Has(m.index, key) {
      AppendFacts(Without(m.index, key), key, SizeOf(m.index, key));
    }
  }

  lemma AdmitFacts(m: Memory, key: Key, size: nat, budget: nat)
    requires MemoryOk(m, budget)
    ensures var a := Admit(m, key, size);
      && Unique(a.index) && a.total == Total(a.index)
      && (forall k :: Has(a.index, k) <==> k == key || Has(m.index, k))
      && MemoryOk(Evict(a, budget), budget)
      && forall k :: Has(Evict(a, budget).index, k) ==> k == key || Has(m.index, k)
  {
    WithoutFacts(m.index, key);
    AppendFacts(Without(m.index, key), key, size);
    EvictFacts(Admit(m, key, size), budget);
  }

  // ---- The whole cache and the store behind it ----

  /** A read that missed. Its bytes arrive, are written aside, renamed into
   *  place, and then admitted or, when a drop has passed it, cleared away. */
  datatype Fill =
    | Fetching(key: Key, epoch: nat)
    | Holding(key: Key, epoch: nat, bytes: Bytes)
    | Renamed(key: Key, epoch: nat, bytes: Bytes)
    | Clearing(key: Key)

  /** `overwritten` and `uses` are history: the keys whose backing bytes moved
   *  since their last drop here, and every admission and hit. */
  datatype Cache = Cache(
    mem: Memory, disk: map<Key, Bytes>, backing: map<Key, Bytes>,
    fills: multiset<Fill>, unlinks: multiset<Key>, overwritten: set<Key>, uses: seq<Key>)

  datatype Step =
    | Read(key: Key)
    | Fetch(fill: Fill, fits: bool)
    | Rename(fill: Fill, lands: bool)
    | Settle(fill: Fill)
    | Clear(fill: Fill)
    | Unlink(key: Key)
    | Overwrite(key: Key, bytes: Option<Bytes>)
    | Drop(key: Key)

  /** What a read of `key` is served from the cache, if anything. */
  function Hit(c: Cache, key: Key): Option<Bytes> {
    if Has(c.mem.index, key) && key in c.disk then Some(c.disk[key]) else None
  }

  function Replace(c: Cache, fill: Fill, next: multiset<Fill>): Cache {
    c.(fills := c.fills - multiset{fill} + next)
  }

  function OnRead(c: Cache, key: Key): Cache {
    if Hit(c, key).Some? then c.(mem := Touch(c.mem, key), uses := c.uses + [key])
    else c.(fills := c.fills + multiset{Fetching(key, EpochOf(c.mem, key))})
  }

  /** The backing store answers: too large, or no such blob, ends the fill. */
  function OnFetch(c: Cache, fill: Fill, fits: bool): Cache
    requires fill.Fetching?
  {
    Replace(c, fill,
      if fits && fill.key in c.backing then multiset{Holding(fill.key, fill.epoch, c.backing[fill.key])} else multiset{})
  }

  function OnRename(c: Cache, fill: Fill, lands: bool): Cache
    requires fill.Holding?
  {
    if lands then
      Replace(c.(disk := c.disk[fill.key := fill.bytes]), fill, multiset{Renamed(fill.key, fill.epoch, fill.bytes)})
    else Replace(c, fill, multiset{})
  }

  function OnSettle(c: Cache, fill: Fill, budget: nat): Cache
    requires fill.Renamed?
  {
    if EpochOf(c.mem, fill.key) != fill.epoch then
      Replace(c, fill, multiset{Clearing(fill.key)})
    else
      var admitted := Admit(c.mem, fill.key, |fill.bytes|);
      Replace(c, fill, multiset{})
        .(mem := Evict(admitted, budget), unlinks := c.unlinks + multiset(Evicted(admitted, budget)),
          uses := c.uses + [fill.key])
  }

  function Apply(c: Cache, step: Step, budget: nat): Cache {
    match step
    case Read(key) => OnRead(c, key)
    case Fetch(fill, fits) => if fill in c.fills && fill.Fetching? then OnFetch(c, fill, fits) else c
    case Rename(fill, lands) => if fill in c.fills && fill.Holding? then OnRename(c, fill, lands) else c
    case Settle(fill) => if fill in c.fills && fill.Renamed? then OnSettle(c, fill, budget) else c
    case Clear(fill) =>
      if fill in c.fills && fill.Clearing? then Replace(c, fill, multiset{}).(disk := c.disk - {fill.key}) else c
    case Unlink(key) =>
      if key in c.unlinks then c.(unlinks := c.unlinks - multiset{key}, disk := c.disk - {key}) else c
    case Overwrite(key, bytes) =>
      c.(backing := if bytes.Some? then c.backing[key := bytes.value] else c.backing - {key},
         overwritten := c.overwritten + {key})
    case Drop(key) =>
      c.(mem := DropEntry(c.mem, key), unlinks := c.unlinks + multiset{key}, overwritten := c.overwritten - {key})
  }

  function Execute(c: Cache, steps: seq<Step>, budget: nat): Cache
    decreases |steps|
  {
    if steps == [] then c else Execute(Apply(c, steps[0], budget), steps[1..], budget)
  }

  ghost predicate Initial(c: Cache) {
    c.mem == Memory([], 0, map[]) && c.disk == map[] && c.fills == multiset{} && c.unlinks == multiset{} &&
    c.overwritten == {} && c.uses == []
  }

  // ---- Coherence ----

  /** A superseded admission of the key is between its rename and its unlink. */
  ghost predicate Superseded(c: Cache, key: Key) {
    exists f :: f in c.fills && f.key == key &&
      (f.Clearing? || (f.Renamed? && f.epoch != EpochOf(c.mem, key)))
  }

  /** The key is indexed, or about to be by a rename that has happened. */
  ghost predicate Claimed(c: Cache, key: Key) {
    Has(c.mem.index, key) || exists f :: f in c.fills && f.key == key && f.Renamed? && f.epoch == EpochOf(c.mem, key)
  }

  /** Bytes on their way in under the key's current epoch are the store's. */
  ghost predicate FillsOk(c: Cache) {
    forall f :: f in c.fills && !f.Clearing? ==>
      && f.epoch <= EpochOf(c.mem, f.key)
      && (f.epoch == EpochOf(c.mem, f.key) && f.key !in c.overwritten && f.Holding? ==>
            f.key in c.backing && c.backing[f.key] == f.bytes)
  }

  ghost predicate FileOk(c: Cache, key: Key) {
    Claimed(c, key) && key in c.disk && key !in c.overwritten && !Superseded(c, key) ==>
      key in c.backing && c.backing[key] == c.disk[key]
  }

  ghost predicate Inv(c: Cache, budget: nat) {
    && MemoryOk(c.mem, budget)
    && ByRecency(c.mem.index, c.uses)
    && FillsOk(c)
    && forall key :: FileOk(c, key)
  }

  // ---- Every step keeps the invariant ----

  lemma ReplaceMembers(c: Cache, fill: Fill, next: multiset<Fill>)
    ensures var c' := Replace(c, fill, next);
      && (forall f :: f in c'.fills ==> f in c.fills || f in next)
      && (forall f :: f in c.fills && f != fill ==> f in c'.fills)
      && (forall f :: f in next ==> f in c'.fills)
  {
  }

  /** A change of memory and fills that claims no more and excuses no less. */
  lemma FileStaysOk(c: Cache, c': Cache, key: Key)
    requires FileOk(c, key)
    requires key in c'.disk ==> key in c.disk && c'.disk[key] == c.disk[key]
    requires key in c.overwritten ==> key in c'.overwritten
    requires key in c.backing ==> key in c'.backing && c'.backing[key] == c.backing[key]
    requires Claimed(c', key) ==> Claimed(c, key)
    requires Superseded(c, key) ==> Superseded(c', key)
    ensures FileOk(c', key)
  {
  }

  lemma FillsOnly(c: Cache, c': Cache, key: Key)
    requires c'.mem == c.mem
    requires forall f :: f in c'.fills && f.key == key && f.Renamed? ==> f in c.fills
    requires forall f :: f in c.fills && f.key == key && (f.Renamed? || f.Clearing?) ==> f in c'.fills
    ensures Claimed(c', key) ==> Claimed(c, key)
    ensures Superseded(c, key) ==> Superseded(c', key)
  {
  }

  lemma ReadKeeps(c: Cache, key: Key, budget: nat)
    requires Inv(c, budget)
    ensures Inv(OnRead(c, key), budget)
  {
    var c' := OnRead(c, key);
    if Hit(c, key).Some? {
      TouchFacts(c.mem, key, budget);
      UseKeepsRecency(c.mem.index, key, SizeOf(c.mem.index, key), c.uses);
      forall k ensures FileOk(c', k) {
        assert FileOk(c, k);
      }
    } else {
      forall k ensures FileOk(c', k) {
        FillsOnly(c, c', k);
        FileStaysOk(c, c', k);
      }
    }
  }

  lemma FetchKeeps(c: Cache, fill: Fill, fits: bool, budget: nat)
    requires Inv(c, budget) && fill in c.fills && fill.Fetching?
    ensures Inv(OnFetch(c, fill, fits), budget)
  {
    var c' := OnFetch(c, fill, fits);
    forall k ensures FileOk(c', k) {
      FillsOnly(c, c', k);
      FileStaysOk(c, c', k);
    }
  }

  lemma RenameKeeps(c: Cache, fill: Fill, lands: bool, budget: nat)
    requires Inv(c, budget) && fill in c.fills && fill.Holding?
    ensures Inv(OnRename(c, fill, lands), budget)
  {
    var c' := OnRename(c, fill, lands);
    forall k ensures FileOk(c', k) {
      if k == fill.key && lands {
        var f := Renamed(fill.key, fill.epoch, fill.bytes);
        assert f in c'.fills;
        assert f.epoch != EpochOf(c'.mem, k) ==> Superseded(c', k);
      } else {
        FillsOnly(c, c', k);
        FileStaysOk(c, c', k);
      }
    }
  }

  lemma SupersededKeeps(c: Cache, fill: Fill, budget: nat)
    requires Inv(c, budget) && fill in c.fills && fill.Renamed? && EpochOf(c.mem, fill.key) != fill.epoch
    ensures Inv(OnSettle(c, fill, budget), budget)
  {
    var c' := OnSettle(c, fill, budget);
    forall k ensures FileOk(c', k) {
      if k == fill.key {
        assert Clearing(k) in c'.fills;
        assert Superseded(c', k);
      } else {
        FillsOnly(c, c', k);
        FileStaysOk(c, c', k);
      }
    }
  }

  lemma AdmissionKeeps(c: Cache, fill: Fill, budget: nat)
    requires Inv(c, budget) && fill in c.fills && fill.Renamed? && EpochOf(c.mem, fill.key) == fill.epoch
    ensures Inv(OnSettle(c, fill, budget), budget)
  {
    var c' := OnSettle(c, fill, budget);
    AdmitFacts(c.mem, fill.key, |fill.bytes|, budget);
    UseKeepsRecency(c.mem.index, fill.key, |fill.bytes|, c.uses);
    forall k ensures FileOk(c', k) {
      SettleClaims(c, fill, budget, k);
      FileStaysOk(c, c', k);
    }
  }

  lemma SettleKeeps(c: Cache, fill: Fill, budget: nat)
    requires Inv(c, budget) && fill in c.fills && fill.Renamed?
    ensures Inv(OnSettle(c, fill, budget), budget)
  {
    if EpochOf(c.mem, fill.key) != fill.epoch {
      SupersededKeeps(c, fill, budget);
    } else {
      AdmissionKeeps(c, fill, budget);
    }
  }

  lemma SettleClaims(c: Cache, fill: Fill, budget: nat, k: Key)
    requires Inv(c, budget) && fill in c.fills && fill.Renamed? && EpochOf(c.mem, fill.key) == fill.epoch
    ensures Claimed(OnSettle(c, fill, budget), k) ==> Claimed(c, k)
    ensures Superseded(c, k) ==> Superseded(OnSettle(c, fill, budget), k)
  {
    var c' := OnSettle(c, fill, budget);
    AdmitFacts(c.mem, fill.key, |fill.bytes|, budget);
    EvictFacts(Admit(c.mem, fill.key, |fill.bytes|), budget);
    assert forall j :: EpochOf(c'.mem, j) == EpochOf(c.mem, j);
    if f :| f in c.fills && f.key == k && (f.Clearing? || (f.Renamed? && f.epoch != EpochOf(c.mem, k))) {
      assert f in c'.fills;
    }
    if f :| f in c'.fills && f.key == k && f.Renamed? && f.epoch == EpochOf(c'.mem, k) {
      assert f in c.fills;
    }
  }

  lemma ClearKeeps(c: Cache, fill: Fill, budget: nat)
    requires Inv(c, budget) && fill in c.fills && fill.Clearing?
    ensures Inv(Apply(c, Clear(fill), budget), budget)
  {
    var c' := Apply(c, Clear(fill), budget);
    forall k ensures FileOk(c', k) {
      if k != fill.key {
        FillsOnly(c, c', k);
        FileStaysOk(c, c', k);
      }
    }
  }

  lemma DropKeeps(c: Cache, key: Key, budget: nat)
    requires Inv(c, budget)
    ensures Inv(Apply(c, Drop(key), budget), budget)
  {
    var c' := Apply(c, Drop(key), budget);
    DropFacts(c.mem, key, budget);
    WithoutKeepsRecency(c.mem.index, key, c.uses);
    assert forall k :: k != key ==> EpochOf(c'.mem, k) == EpochOf(c.mem, k);
    forall k ensures FileOk(c', k) {
      if k == key {
        assert !Claimed(c', key);
      } else {
        assert Claimed(c', k) ==> Claimed(c, k);
        FileStaysOk(c, c', k);
      }
    }
  }

  lemma OutsideKeeps(c: Cache, step: Step, budget: nat)
    requires Inv(c, budget) && (step.Overwrite? || step.Unlink?)
    ensures Inv(Apply(c, step, budget), budget)
  {
    var c' := Apply(c, step, budget);
    forall k ensures FileOk(c', k) {
      assert FileOk(c, k);
      FillsOnly(c, c', k);
    }
  }

  lemma InvStep(c: Cache, step: Step, budget: nat)
    requires Inv(c, budget)
    ensures Inv(Apply(c, step, budget), budget)
  {
    match step
    case Read(key) => ReadKeeps(c, key, budget);
    case Fetch(fill, fits) => if fill in c.fills && fill.Fetching? { FetchKeeps(c, fill, fits, budget); }
    case Rename(fill, lands) => if fill in c.fills && fill.Holding? { RenameKeeps(c, fill, lands, budget); }
    case Settle(fill) => if fill in c.fills && fill.Renamed? { SettleKeeps(c, fill, budget); }
    case Clear(fill) => if fill in c.fills && fill.Clearing? { ClearKeeps(c, fill, budget); }
    case Unlink(key) => OutsideKeeps(c, step, budget);
    case Overwrite(key, bytes) => OutsideKeeps(c, step, budget);
    case Drop(key) => DropKeeps(c, key, budget);
  }

  lemma {:induction false} InvRun(c: Cache, steps: seq<Step>, budget: nat)
    requires Inv(c, budget)
    ensures Inv(Execute(c, steps, budget), budget)
    decreases |steps|
  {
    if steps != [] {
      InvStep(c, steps[0], budget);
      InvRun(Apply(c, steps[0], budget), steps[1..], budget);
    }
  }

  // ---- Main results ----

  /** In every reachable state a hit returns the backing store's bytes, unless
   *  an overwrite of the key has not been followed by its drop, or a
   *  superseded admission of it is between its rename and its unlink. */
  lemma HitsAreCurrent(c0: Cache, steps: seq<Step>, budget: nat, key: Key)
    requires Initial(c0)
    requires var c := Execute(c0, steps, budget);
      Hit(c, key).Some? && key !in c.overwritten && !Superseded(c, key)
    ensures var c := Execute(c0, steps, budget);
      key in c.backing && Hit(c, key) == Some(c.backing[key])
  {
    InvRun(c0, steps, budget);
    assert FileOk(Execute(c0, steps, budget), key);
  }

  /** In every reachable state the byte count is the sum of the indexed sizes,
   *  is within budget, and the index is in recency order. */
  lemma BudgetHolds(c0: Cache, steps: seq<Step>, budget: nat)
    requires Initial(c0)
    ensures var c := Execute(c0, steps, budget);
      c.mem.total == Total(c.mem.index) <= budget && Unique(c.mem.index) && ByRecency(c.mem.index, c.uses)
  {
    InvRun(c0, steps, budget);
  }

  /** What a settled admission evicts is the shortest run of least recently
   *  used entries that restores the budget. */
  lemma EvictionIsMinimal(c: Cache, fill: Fill, budget: nat)
    requires Inv(c, budget) && fill in c.fills && fill.Renamed? && fill.epoch == EpochOf(c.mem, fill.key)
    ensures var full := Without(c.mem.index, fill.key) + [Entry(fill.key, |fill.bytes|)];
      var kept := OnSettle(c, fill, budget).mem.index;
      var n := |full| - |kept|;
      && n >= 0 && kept == full[n..] && Total(kept) <= budget
      && (forall m :: 0 <= m < n ==> Total(full[m..]) > budget)
      && (forall i, j :: 0 <= i < n <= j < |full| ==>
            LastUse(c.uses + [fill.key], full[i].key) < LastUse(c.uses + [fill.key], full[j].key))
  {
    var full := Without(c.mem.index, fill.key) + [Entry(fill.key, |fill.bytes|)];
    ExcessIsLeast(full, budget);
    UseKeepsRecency(c.mem.index, fill.key, |fill.bytes|, c.uses);
    var n := Excess(full, budget);
    var kept := OnSettle(c, fill, budget).mem.index;
    assert kept == full[n..] && Total(kept) <= budget;
  }

  // ---- No file is left behind ----

  /** Somebody will deal with the key's file. */
  ghost predicate Accounted(c: Cache, key: Key) {
    || Has(c.mem.index, key)
    || key in c.unlinks
    || exists f :: f in c.fills && f.key == key && (f.Renamed? || f.Clearing?)
  }

  ghost predicate NoOrphan(c: Cache, key: Key) {
    key in c.disk ==> Accounted(c, key)
  }

  lemma SettleLeavesNoOrphan(c: Cache, fill: Fill, budget: nat, key: Key)
    requires MemoryOk(c.mem, budget) && NoOrphan(c, key) && fill in c.fills && fill.Renamed?
    ensures NoOrphan(OnSettle(c, fill, budget), key)
  {
    var c' := OnSettle(c, fill, budget);
    if EpochOf(c.mem, fill.key) != fill.epoch {
      ReplaceMembers(c, fill, multiset{Clearing(fill.key)});
      assert Clearing(fill.key) in c'.fills;
    } else {
      ReplaceMembers(c, fill, multiset{});
      AdmitFacts(c.mem, fill.key, |fill.bytes|, budget);
      EvictFacts(Admit(c.mem, fill.key, |fill.bytes|), budget);
    }
  }

  lemma RenameLeavesNoOrphan(c: Cache, fill: Fill, lands: bool, key: Key)
    requires NoOrphan(c, key) && fill in c.fills && fill.Holding?
    ensures NoOrphan(OnRename(c, fill, lands), key)
  {
    if lands {
      assert Renamed(fill.key, fill.epoch, fill.bytes) in OnRename(c, fill, lands).fills;
    }
  }

  lemma MemoryLeavesNoOrphan(c: Cache, step: Step, budget: nat, key: Key)
    requires MemoryOk(c.mem, budget) && NoOrphan(c, key) && (step.Read? || step.Drop?)
    ensures NoOrphan(Apply(c, step, budget), key)
  {
    if step.Drop? {
      DropFacts(c.mem, step.key, budget);
    } else if Hit(c, step.key).Some? {
      TouchFacts(c.mem, step.key, budget);
    }
  }

  lemma OrphanStep(c: Cache, step: Step, budget: nat, key: Key)
    requires Inv(c, budget) && NoOrphan(c, key)
    ensures NoOrphan(Apply(c, step, budget), key)
  {
    match step
    case Settle(fill) => if fill in c.fills && fill.Renamed? { SettleLeavesNoOrphan(c, fill, budget, key); }
    case Rename(fill, lands) => if fill in c.fills && fill.Holding? { RenameLeavesNoOrphan(c, fill, lands, key); }
    case Read(_) => MemoryLeavesNoOrphan(c, step, budget, key);
    case Drop(_) => MemoryLeavesNoOrphan(c, step, budget, key);
    case Fetch(fill, fits) => if fill in c.fills && fill.Fetching? { FetchLeavesNoOrphan(c, fill, fits, key); }
    case _ => UnlinkLeavesNoOrphan(c, step, budget, key);
  }

  lemma FetchLeavesNoOrphan(c: Cache, fill: Fill, fits: bool, key: Key)
    requires NoOrphan(c, key) && fill in c.fills && fill.Fetching?
    ensures NoOrphan(OnFetch(c, fill, fits), key)
  {
  }

  lemma UnlinkLeavesNoOrphan(c: Cache, step: Step, budget: nat, key: Key)
    requires NoOrphan(c, key) && (step.Clear? || step.Unlink? || step.Overwrite?)
    ensures NoOrphan(Apply(c, step, budget), key)
  {
  }

  lemma {:induction false} NoOrphanRun(c: Cache, steps: seq<Step>, budget: nat, key: Key)
    requires Inv(c, budget) && NoOrphan(c, key)
    ensures NoOrphan(Execute(c, steps, budget), key)
    decreases |steps|
  {
    if steps != [] {
      OrphanStep(c, steps[0], budget, key);
      InvStep(c, steps[0], budget);
      NoOrphanRun(Apply(c, steps[0], budget), steps[1..], budget, key);
    }
  }

  /** Over every run no file is left behind: each is of an indexed key, or on its
   *  way to be unlinked, or in the hands of the admission that renamed it. */
  lemma NoFileIsForgotten(c0: Cache, steps: seq<Step>, budget: nat, key: Key)
    requires Initial(c0) && key in Execute(c0, steps, budget).disk
    ensures var c := Execute(c0, steps, budget);
      || Has(c.mem.index, key)
      || key in c.unlinks
      || exists f :: f in c.fills && f.key == key && (f.Renamed? || f.Clearing?)
  {
    NoOrphanRun(c0, steps, budget, key);
  }
}
