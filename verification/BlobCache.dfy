/**
 * What the disk cache has in memory, each method a stretch between two awaits.
 * `DiskCache` proves what these stretches add up to once files and the store
 * behind them change in between.
 */
module BlobCache {
  import opened Prelude
  import opened BlobKeys
  import opened RecencyIndex
  import opened DiskCache

  const ENTRY_CAP := 4 * 1024 * 1024

  /** How a read is answered: by the store behind the cache, by a file here, or
   *  by the store with leave to admit what it has under this epoch, if that is no
   *  more than `cap` bytes. */
  datatype Answer = Bypass | FromFile | FromStore(epoch: nat, cap: nat)

  /** Nothing is indexed under the key any more, its epoch is one higher, and the
   *  other keys have not noticed. */
  ghost predicate Dropped(was: Memory, now: Memory, key: Key) {
    && !Has(now.index, key) && EpochOf(now, key) == EpochOf(was, key) + 1
    && OthersStay(was, now, key)
  }

  ghost predicate OthersStay(was: Memory, now: Memory, key: Key) {
    forall k :: k != key ==> Same(was, now, k)
  }

  /** The key is indexed as it was, and its epoch has not moved. */
  ghost predicate Same(was: Memory, now: Memory, k: Key) {
    && (Has(now.index, k) <==> Has(was.index, k)) && SizeOf(now.index, k) == SizeOf(was.index, k)
    && EpochOf(now, k) == EpochOf(was, k)
  }

  lemma {:induction false} SizesStay(index: seq<Entry<Key>>, key: Key, k: Key)
    requires k != key
    ensures SizeOf(Without(index, key), k) == SizeOf(index, k)
  {
    if index != [] {
      SizesStay(index[1..], key, k);
    }
  }

  lemma EntryDropped(m: Memory, key: Key, budget: nat)
    requires MemoryOk(m, budget)
    ensures Dropped(m, DropEntry(m, key), key)
  {
    WithoutFacts(m.index, key);
    forall k | k != key ensures Same(m, DropEntry(m, key), k) {
      SizesStay(m.index, key, k);
    }
  }

  /** What was used last is evicted only when it is too large by itself. */
  lemma LastIsKept(index: seq<Entry<Key>>, budget: nat)
    requires index != []
    ensures index[|index| - 1].size <= budget ==>
      var kept := Kept(index, budget); kept != [] && kept[|kept| - 1] == index[|index| - 1]
  {
    var n := |index| - 1;
    ExcessIsLeast(index, budget);
    assert index[n..] == [index[n]] && index[n..][1..] == [];
  }

  class DiskCachedBlobStore {
    const maxBytes: nat
    const cacheDerived: bool
    const contentMaxBytes: nat
    /** Recency order, oldest first. */
    var index: seq<Entry<Key>>
    var totalBytes: int
    var epochs: map<Key, nat>

    ghost function View(): Memory
      reads this
    {
      Memory(index, totalBytes, epochs)
    }

    /** What holds between any two stretches. */
    ghost predicate Valid()
      reads this
    {
      MemoryOk(View(), maxBytes)
    }

    predicate Cacheable(key: Key) {
      (cacheDerived && IsDerivedKey(key)) || (contentMaxBytes > 0 && IsContentKey(key))
    }

    /** Starts from the entries a directory scan found, oldest first. */
    constructor (maxBytes: nat, cacheDerived: bool, contentMaxBytes: nat, found: seq<Entry<Key>>)
      requires Unique(found)
      ensures Valid() && this.maxBytes == maxBytes && this.cacheDerived == cacheDerived
      ensures this.contentMaxBytes == contentMaxBytes
      ensures index == Kept(found, maxBytes) && epochs == map[]
    {
      this.maxBytes := maxBytes;
      this.cacheDerived := cacheDerived;
      this.contentMaxBytes := contentMaxBytes;
      index := found;
      totalBytes := Total(found);
      epochs := map[];
      new;
      var _ := EvictToBudget();
    }

    /** Forgets entries, the longest unused first, until the rest fit, and returns
     *  the keys whose files are to be unlinked. */
    method EvictToBudget() returns (gone: seq<Key>)
      requires Unique(index) && totalBytes == Total(index)
      modifies this`index, this`totalBytes
      ensures View() == Evict(old(View()), maxBytes) && gone == Evicted(old(View()), maxBytes)
      ensures Valid()
    {
      ghost var was := View();
      EvictFacts(was, maxBytes);
      gone := [];
      ghost var n: nat := 0;
      while |index| > 0 && totalBytes > maxBytes
        invariant n <= Excess(was.index, maxBytes) <= |was.index| && index == was.index[n..] && totalBytes == Total(index)
        invariant Excess(was.index, maxBytes) == n + Excess(index, maxBytes)
        invariant |gone| == n && forall i :: 0 <= i < n ==> gone[i] == was.index[i].key
        decreases |index|
      {
        gone := gone + [index[0].key];
        totalBytes := totalBytes - index[0].size;
        index := index[1..];
        n := n + 1;
      }
      assert n == Excess(was.index, maxBytes);
      assert index == Kept(was.index, maxBytes);
    }

    /** The part of a drop that runs before its unlink is awaited. For a key of a
     *  class that is cached here the entry goes and the epoch moves on, indexed or
     *  not; for any other key nothing happens. */
    method DropLocal(key: Key)
      requires Valid()
      modifies this`index, this`totalBytes, this`epochs
      ensures Valid()
      ensures cacheDerived && IsDerivedKey(key) ==> Dropped(old(View()), View(), key)
      ensures contentMaxBytes > 0 && IsContentKey(key) ==> Dropped(old(View()), View(), key)
      ensures !(cacheDerived && IsDerivedKey(key)) && !(contentMaxBytes > 0 && IsContentKey(key)) ==> View() == old(View())
      ensures View() == DropEntry(old(View()), key) || View() == old(View())
    {
      if !Cacheable(key) {
        return;
      }
      EntryDropped(View(), key, maxBytes);
      DropFacts(View(), key, maxBytes);
      WithoutFacts(index, key);
      epochs := epochs[key := (if key in epochs then epochs[key] else 0) + 1];
      if Has(index, key) {
        totalBytes := totalBytes - SizeOf(index, key);
        index := Without(index, key);
      }
    }

    /** The listener is back: every key of the derived class that was indexed is
     *  dropped. What may run between two of these drops is in `DiskReconnect`. */
    method DropDerived()
      requires Valid()
      modifies this`index, this`totalBytes, this`epochs
      ensures Valid()
      ensures forall k :: cacheDerived && IsDerivedKey(k) && Has(old(index), k) ==>
        !Has(index, k) && EpochOf(View(), k) > EpochOf(old(View()), k)
      ensures forall k :: !(cacheDerived && IsDerivedKey(k)) || !Has(old(index), k) ==> Same(old(View()), View(), k)
    {
      var keys := DerivedKeys();
      for i := 0 to |keys|
        invariant Valid()
        invariant forall k :: k in keys[..i] ==> !Has(index, k) && EpochOf(View(), k) > EpochOf(old(View()), k)
        invariant forall k :: k !in keys[..i] ==> Same(old(View()), View(), k)
      {
        ghost var was := View();
        DropLocal(keys[i]);
        assert keys[i] in keys;
        forall k ensures if k in keys[..i + 1] then !Has(index, k) && EpochOf(View(), k) > EpochOf(old(View()), k)
          else Same(old(View()), View(), k)
        {
          assert k in keys[..i + 1] <==> k in keys[..i] || k == keys[i];
          if k != keys[i] {
            assert Same(was, View(), k);
          }
        }
      }
      assert keys[..|keys|] == keys;
    }

    /** Indexes an entry as the last used. */
    method PutLast(key: Key, size: nat)
      requires Valid()
      modifies this`index, this`totalBytes
      ensures View() == Admit(old(View()), key, size) && Unique(index) && totalBytes == Total(index)
      ensures index != [] && index[|index| - 1] == Entry(key, size)
    {
      AdmitFacts(View(), key, size, maxBytes);
      WithoutFacts(index, key);
      if Has(index, key) {
        totalBytes := totalBytes - SizeOf(index, key);
        index := Without(index, key);
      }
      index := index + [Entry(key, size)];
      totalBytes := totalBytes + size;
    }

    /** A fill's file has been renamed into place: it is admitted, unless a
     *  drop has passed it; then the file is the caller's to unlink. */
    method Settle(key: Key, size: nat, epoch: nat) returns (admitted: bool, gone: seq<Key>)
      requires Valid()
      modifies this`index, this`totalBytes
      ensures Valid()
      ensures admitted == (EpochOf(old(View()), key) == epoch)
      ensures admitted ==>
        View() == Evict(Admit(old(View()), key, size), maxBytes) && gone == Evicted(Admit(old(View()), key, size), maxBytes)
      ensures admitted && size <= maxBytes ==> index != [] && index[|index| - 1] == Entry(key, size)
      ensures !admitted ==> View() == old(View()) && gone == []
    {
      if (if key in epochs then epochs[key] else 0) != epoch {
        return false, [];
      }
      PutLast(key, size);
      LastIsKept(index, maxBytes);
      admitted := true;
      gone := EvictToBudget();
    }

    /** A read of a key: past the cache for a range and for a key of no class that
     *  is cached here; else a hit when it is indexed and its file exists, and
     *  otherwise the epoch under which its bytes may be admitted. */
    method Get(key: Key, ranged: bool, exists_: bool) returns (answer: Answer)
      requires Valid()
      modifies this`index, this`totalBytes
      ensures Valid()
      ensures answer.Bypass? <==>
        ranged || (!(cacheDerived && IsDerivedKey(key)) && !(contentMaxBytes > 0 && IsContentKey(key)))
      ensures answer.FromFile? <==> !answer.Bypass? && Has(old(index), key) && exists_
      ensures answer.FromStore? ==> answer.epoch == EpochOf(old(View()), key)
      ensures answer.FromStore? ==>
        answer.cap == if contentMaxBytes > 0 && IsContentKey(key) then contentMaxBytes else Min(4 * 1024 * 1024, maxBytes / 2)
      ensures answer.FromFile? ==> index != [] && index[|index| - 1] == Entry(key, SizeOf(old(index), key))
      ensures View() == if answer.FromFile? then Touch(old(View()), key) else old(View())
    {
      if ranged || !Cacheable(key) {
        return Bypass;
      }
      if !(Has(index, key) && exists_) {
        var cap := if contentMaxBytes > 0 && IsContentKey(key) then contentMaxBytes else Min(ENTRY_CAP, maxBytes / 2);
        return FromStore(if key in epochs then epochs[key] else 0, cap);
      }
      TouchFacts(View(), key, maxBytes);
      var size := SizeOf(index, key);
      index := Without(index, key) + [Entry(key, size)];
      answer := FromFile;
    }

    /** The indexed keys of the derived class, which a returning listener drops. */
    method DerivedKeys() returns (keys: seq<Key>)
      ensures forall k :: k in keys <==> Has(index, k) && cacheDerived && IsDerivedKey(k)
    {
      keys := [];
      for i := 0 to |index|
        invariant forall k :: k in keys <==> Has(index[..i], k) && cacheDerived && IsDerivedKey(k)
      {
        if cacheDerived && IsDerivedKey(index[i].key) {
          keys := keys + [index[i].key];
        }
        forall k ensures Has(index[..i + 1], k) <==> Has(index[..i], k) || k == index[i].key {
          if Has(index[..i], k) {
            var j :| 0 <= j < i && index[..i][j].key == k;
            assert index[..i + 1][j].key == k;
          }
          if k == index[i].key {
            assert index[..i + 1][i].key == k;
          }
        }
      }
      assert index[..|index|] == index;
    }
  }
}
