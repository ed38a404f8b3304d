/**
 * The memory of the media window cache as the server keeps it, each method a
 * stretch between two awaits. Every method is a step of `WindowCache`: run in
 * a state whose memory part is the object's, it leaves the object with the
 * memory part of the state that step leads to.
 */
module MediaCache {
  import opened Prelude
  import opened RecencyIndex
  import opened WindowCache

  /** What a settled fill that no drop has passed does to the memory. */
  lemma SettledMemory(c: Cache, fill: Fill, size: nat, budget: nat)
    requires fill in c.fills && fill.Placed? && Current(c, fill)
    ensures var c', books := Apply(c, Step.Settle(fill, size), budget), Admission(c.index, c.total, fill.name, size, budget);
      && c'.index == books.index && c'.total == books.total && c'.unlinks == c.unlinks + multiset(books.gone)
      && c'.inflight == c.inflight - {fill.name} && c'.active == c.active - 1 && c'.epochs == c.epochs
  {
  }

  class MediaWindowCache {
    const maxBytes: nat
    const windowBytes: nat
    /** Recency order, oldest first. */
    var index: seq<Entry<Name>>
    var totalBytes: int
    var inflight: set<Name>
    var fillsActive: int
    var epochs: map<Key, nat>

    /** The object holds what the modelled server has in memory. */
    ghost predicate Holds(c: Cache)
      reads this
    {
      && index == c.index && totalBytes == c.total && inflight == c.inflight
      && fillsActive == c.active && epochs == c.epochs
    }

    constructor (maxBytes: nat, windowBytes: nat)
      ensures this.maxBytes == maxBytes && this.windowBytes == windowBytes && Holds(EMPTY)
    {
      this.maxBytes := maxBytes;
      this.windowBytes := windowBytes;
      index, totalBytes, inflight, fillsActive, epochs := [], 0, {}, 0, map[];
    }

    /** Asks for a fill: nothing to do for a window that is here or on its way,
     *  shed at the limit, else begun under the key's epoch. */
    method Fill(name: Name, exists_: bool, ghost c: Cache) returns (begun: Option<Fill>)
      requires Holds(c) && exists_ == (name in c.disk)
      modifies this`inflight, this`fillsActive
      ensures Holds(Apply(c, Want(name), maxBytes))
      ensures begun.Some? <==> !Present(c, name) && name !in c.inflight && c.active < FILLS_MAX
      ensures begun.Some? ==> begun.value == Started(name, At(c.epochs, name.key))
      ensures begun.Some? ==> begun.value in Apply(c, Want(name), maxBytes).fills
    {
      begun := None;
      if Has(index, name) && exists_ {
        return;
      }
      if name in inflight {
        return;
      }
      if fillsActive < FILLS_MAX {
        fillsActive := fillsActive + 1;
        begun := Some(Started(name, if name.key in epochs then epochs[name.key] else 0));
      }
      inflight := inflight + {name};
    }

    /** The window's file is in place: it joins the index, unless a drop has
     *  passed the fill, and then its file is the caller's to unlink. */
    method Settle(fill: Fill, size: nat, ghost c: Cache) returns (landed: bool, gone: seq<Name>)
      requires Holds(c) && fill in c.fills && fill.Placed?
      modifies this`index, this`totalBytes, this`inflight, this`fillsActive
      ensures landed == Current(c, fill)
      ensures Holds(Apply(c, Step.Settle(fill, size), maxBytes))
      ensures landed ==> Apply(c, Step.Settle(fill, size), maxBytes).unlinks == c.unlinks + multiset(gone)
      ensures !landed ==> gone == []
    {
      if (if fill.name.key in epochs then epochs[fill.name.key] else 0) != fill.epoch {
        return false, [];
      }
      SettledMemory(c, fill, size, maxBytes);
      gone := Admit(fill.name, size);
      EndFill(fill.name);
      landed := true;
    }

    /** The window replaces its predecessor in the index, and the oldest go. */
    method Admit(name: Name, size: nat) returns (gone: seq<Name>)
      modifies this`index, this`totalBytes
      ensures Books(index, totalBytes, gone) == Admission(old(index), old(totalBytes), name, size, maxBytes)
      ensures old(totalBytes) - SizeOf(old(index), name) + size <= maxBytes ==> gone == []
    {
      totalBytes := totalBytes - SizeOf(index, name) + size;
      index := Without(index, name) + [Entry(name, size)];
      gone := Evict();
    }

    /** Forgets the least recently used windows until the running total is
     *  within budget, and no more than that; their files are the caller's to
     *  unlink. */
    method Evict() returns (gone: seq<Name>)
      modifies this`index, this`totalBytes
      ensures |gone| == Overrun(old(index), old(totalBytes), maxBytes)
      ensures index == old(index)[|gone|..] && gone == Keys(old(index)[..|gone|])
      ensures totalBytes == old(totalBytes) - Total(old(index)[..|gone|])
      ensures totalBytes <= maxBytes || index == []
      ensures old(totalBytes) <= maxBytes ==> gone == []
      ensures forall m :: 0 <= m < |gone| ==> old(totalBytes) - Total(old(index)[..m]) > maxBytes
    {
      ghost var was, before := index, totalBytes;
      OverrunIsLeast(was, before, maxBytes);
      gone := [];
      ghost var n: nat := 0;
      while |index| > 0 && totalBytes > maxBytes
        invariant n <= |was| && index == was[n..] && gone == Keys(was[..n])
        invariant totalBytes == before - Total(was[..n])
        invariant Overrun(was, before, maxBytes) == n + Overrun(index, totalBytes, maxBytes)
        decreases |index|
      {
        assert was[..n + 1] == was[..n] + [index[0]];
        TotalSnoc(was[..n], index[0]);
        gone := gone + [index[0].key];
        totalBytes := totalBytes - index[0].size;
        index := index[1..];
        n := n + 1;
      }
    }

    /** What every fill that began does when it is over. */
    method EndFill(name: Name)
      modifies this`inflight, this`fillsActive
      ensures inflight == old(inflight) - {name}
      ensures fillsActive == old(fillsActive) - 1
    {
      fillsActive := fillsActive - 1;
      inflight := inflight - {name};
    }

    /** A drop begins: the key's epoch moves on, and the windows to forget are
     *  those indexed now. */
    method BeginDrop(key: Key, ghost c: Cache) returns (remaining: seq<Entry<Name>>)
      requires Holds(c)
      modifies this`epochs
      ensures Holds(Apply(c, Step.BeginDrop(key), maxBytes))
      ensures Dropping(key, remaining, At(c.versions, key)) in Apply(c, Step.BeginDrop(key), maxBytes).drops
    {
      epochs := epochs[key := (if key in epochs then epochs[key] else 0) + 1];
      remaining := [];
      var i := |index|;
      while i > 0
        invariant 0 <= i <= |index| && remaining == WindowsOf(index[i..], key)
      {
        i := i - 1;
        assert index[i..][0] == index[i] && index[i..][1..] == index[i + 1..];
        if index[i].key.key == key {
          remaining := [index[i]] + remaining;
        }
      }
      assert index[0..] == index;
    }

    /** A drop forgets its next window; the file is the caller's to unlink
     *  before it goes on. */
    method DropNext(drop: Dropping, ghost c: Cache)
      requires Holds(c) && drop in c.drops && drop.remaining != []
      modifies this`index, this`totalBytes
      ensures Holds(Apply(c, Step.DropNext(drop), maxBytes))
    {
      index := Without(index, drop.remaining[0].key);
      totalBytes := totalBytes - drop.remaining[0].size;
    }

    /** A read found its window here. */
    method Touch(name: Name, ghost c: Cache)
      requires Holds(c) && Present(c, name)
      modifies this`index
      ensures Holds(Apply(c, BeginRead(name), maxBytes))
    {
      var size := SizeOf(index, name);
      index := Without(index, name) + [Entry(name, size)];
    }
  }
}
