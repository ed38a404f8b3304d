/**
 * An index in recency order with a byte size per entry, and eviction from its
 * old end: what both disk caches keep in memory.
 */
module RecencyIndex {

  datatype Entry<K> = Entry(key: K, size: nat)

  function Total<K(==)>(index: seq<Entry<K>>): nat {
    if index == [] then 0 else index[0].size + Total(index[1..])
  }

  predicate Unique<K(==)>(index: seq<Entry<K>>) {
    forall i, j :: 0 <= i < j < |index| ==> index[i].key != index[j].key
  }

  predicate Has<K(==)>(index: seq<Entry<K>>, key: K) {
    exists i :: 0 <= i < |index| && index[i].key == key
  }

  function Without<K(==)>(index: seq<Entry<K>>, key: K): seq<Entry<K>> {
    if index == [] then []
    else if index[0].key == key then Without(index[1..], key)
    else [index[0]] + Without(index[1..], key)
  }

  function SizeOf<K(==)>(index: seq<Entry<K>>, key: K): nat {
    if index == [] then 0
    else if index[0].key == key then index[0].size
    else SizeOf(index[1..], key)
  }

  /** How many entries go, oldest first, for the rest to fit. */
  function Excess<K(==)>(index: seq<Entry<K>>, budget: nat): (n: nat)
    ensures n <= |index|
  {
    if Total(index) <= budget then 0 else 1 + Excess(index[1..], budget)
  }

  function Kept<K(==)>(index: seq<Entry<K>>, budget: nat): seq<Entry<K>> {
    index[Excess(index, budget)..]
  }

  /** Eviction removes the shortest run of oldest entries that restores the
   *  budget. */
  lemma {:induction false} ExcessIsLeast<K>(index: seq<Entry<K>>, budget: nat)
    ensures Total(Kept(index, budget)) <= budget
    ensures forall n :: 0 <= n < Excess(index, budget) ==> Total(index[n..]) > budget
  {
    if Total(index) > budget {
      ExcessIsLeast(index[1..], budget);
      var rest := index[1..];
      assert index[1 + Excess(rest, budget)..] == rest[Excess(rest, budget)..];
      forall n | 0 <= n < Excess(index, budget) ensures Total(index[n..]) > budget {
        if n > 0 {
          assert index[n..] == rest[n - 1..];
        } else {
          assert index[0..] == index;
        }
      }
    } else {
      assert index[0..] == index;
    }
  }

  lemma {:induction false} WithoutFacts<K>(index: seq<Entry<K>>, key: K)
    requires Unique(index)
    ensures Unique(Without(index, key)) && !Has(Without(index, key), key)
    ensures Total(Without(index, key)) == Total(index) - SizeOf(index, key)
    ensures forall k :: k != key ==> (Has(Without(index, key), k) <==> Has(index, k))
    ensures forall e :: e in Without(index, key) ==> e in index
    ensures !Has(index, key) ==> Without(index, key) == index && SizeOf(index, key) == 0
  {
    if index != [] {
      var rest := index[1..];
      WithoutFacts(rest, key);
      if index[0].key == key {
        assert !Has(rest, key);
        forall k | k != key ensures Has(Without(index, key), k) <==> Has(index, k) {
          HasHead(index, k);
        }
      } else {
        var w := Without(rest, key);
        assert Without(index, key)[1..] == w;
        forall i | 0 <= i < |w| ensures w[i].key != index[0].key {
          assert w[i] in w;
        }
        forall k ensures Has(index, k) <==> k == index[0].key || Has(rest, k) {
          HasHead(index, k);
        }
        forall k ensures Has(Without(index, key), k) <==> k == index[0].key || Has(w, k) {
          HasHead(Without(index, key), k);
        }
        assert !Has(index, key) ==> !Has(rest, key);
      }
    }
  }

  lemma HasHead<K>(index: seq<Entry<K>>, k: K)
    requires index != []
    ensures Has(index, k) <==> index[0].key == k || Has(index[1..], k)
  {
    if Has(index, k) && index[0].key != k {
      var i :| 0 <= i < |index| && index[i].key == k;
      assert index[1..][i - 1].key == k;
    }
    if Has(index[1..], k) {
      var i :| 0 <= i < |index[1..]| && index[1..][i].key == k;
      assert index[i + 1].key == k;
    }
  }

  lemma {:induction false} TotalSnoc<K>(index: seq<Entry<K>>, e: Entry<K>)
    ensures Total(index + [e]) == Total(index) + e.size
  {
    if index == [] {
      assert index + [e] == [e] && [e][1..] == [];
    } else {
      assert (index + [e])[1..] == index[1..] + [e];
      TotalSnoc(index[1..], e);
    }
  }

  /** How many entries an eviction takes by a running total that may have
   *  drifted from the sum of the sizes. */
  function Overrun<K(==)>(index: seq<Entry<K>>, total: int, budget: nat): (n: nat)
    ensures n <= |index|
  {
    if index == [] || total <= budget then 0 else 1 + Overrun(index[1..], total - index[0].size, budget)
  }

  /** It stops at the least number that brings the running total within budget,
   *  and takes everything only when none does. */
  lemma {:induction false} OverrunIsLeast<K>(index: seq<Entry<K>>, total: int, budget: nat)
    ensures var n := Overrun(index, total, budget);
      && (n == |index| || total - Total(index[..n]) <= budget)
      && forall m :: 0 <= m < n ==> total - Total(index[..m]) > budget
  {
    if index != [] && total > budget {
      var rest, n := index[1..], Overrun(index, total, budget);
      OverrunIsLeast(rest, total - index[0].size, budget);
      forall m | 0 < m <= n ensures Total(index[..m]) == index[0].size + Total(rest[..m - 1]) {
        assert index[..m][1..] == rest[..m - 1];
      }
    }
  }

  /** With a running total within budget nothing goes. */
  lemma NothingOverruns<K>(index: seq<Entry<K>>, total: int, budget: nat)
    requires total <= budget
    ensures Overrun(index, total, budget) == 0
  {
    OverrunIsLeast(index, total, budget);
    assert index[..0] == [];
  }

  lemma TailByRecency<K>(index: seq<Entry<K>>, uses: seq<K>, n: nat)
    requires ByRecency(index, uses) && n <= |index|
    ensures ByRecency(index[n..], uses)
  {
  }

  function Keys<K>(index: seq<Entry<K>>): seq<K> {
    seq(|index|, i requires 0 <= i < |index| => index[i].key)
  }

  datatype Books<K> = Books(index: seq<Entry<K>>, total: int, gone: seq<K>)

  /** An entry replaces its predecessor at the recency tail, and the oldest
   *  entries go until the running total is within budget. */
  function Admission<K(==)>(index: seq<Entry<K>>, total: int, key: K, size: nat, budget: nat): Books<K> {
    var full := Without(index, key) + [Entry(key, size)];
    var total' := total - SizeOf(index, key) + size;
    var n := Overrun(full, total', budget);
    Books(full[n..], total' - Total(full[..n]), Keys(full[..n]))
  }

  /** An admission adds its own key to the index and no other. */
  lemma AdmissionFacts<K>(index: seq<Entry<K>>, total: int, key: K, size: nat, budget: nat)
    requires Unique(index)
    ensures var books := Admission(index, total, key, size, budget);
      Unique(books.index) && forall k :: Has(books.index, k) ==> k == key || Has(index, k)
  {
    var full := Without(index, key) + [Entry(key, size)];
    WithoutFacts(index, key);
    AppendFacts(Without(index, key), key, size);
  }

  /** What is not in the index after an admission is among the keys given up. */
  lemma AdmissionSplits<K>(index: seq<Entry<K>>, total: int, key: K, size: nat, budget: nat, k: K)
    requires Unique(index) && (k == key || Has(index, k))
    ensures var books := Admission(index, total, key, size, budget); Has(books.index, k) || k in books.gone
  {
    var full := Without(index, key) + [Entry(key, size)];
    WithoutFacts(index, key);
    AppendFacts(Without(index, key), key, size);
    var n := Overrun(full, total - SizeOf(index, key) + size, budget);
    var i :| 0 <= i < |full| && full[i].key == k;
    if i < n {
      assert Keys(full[..n])[i] == k;
    } else {
      assert full[n..][i - n].key == k;
    }
  }

  function Gone<K(==)>(index: seq<Entry<K>>, budget: nat): seq<K> {
    seq(Excess(index, budget), i requires 0 <= i < Excess(index, budget) => index[i].key)
  }

  /** Eviction splits the indexed keys into those kept and those gone. */
  lemma EvictionSplits<K>(index: seq<Entry<K>>, budget: nat)
    requires Unique(index)
    ensures Unique(Kept(index, budget)) && Total(Kept(index, budget)) <= budget
    ensures forall k :: Has(index, k) <==> Has(Kept(index, budget), k) || k in Gone(index, budget)
  {
    ExcessIsLeast(index, budget);
    var n, kept, gone := Excess(index, budget), Kept(index, budget), Gone(index, budget);
    forall k ensures Has(index, k) <==> Has(kept, k) || k in gone {
      if Has(index, k) {
        var i :| 0 <= i < |index| && index[i].key == k;
        if i < n {
          assert gone[i] == k;
        } else {
          assert kept[i - n].key == k;
        }
      }
      if Has(kept, k) {
        var i :| 0 <= i < |kept| && kept[i].key == k;
        assert index[i + n].key == k;
      }
      if k in gone {
        var i :| 0 <= i < |gone| && gone[i] == k;
        assert index[i].key == k;
      }
    }
  }

  /** The newest entry survives an eviction when it fits the budget by itself. */
  lemma {:induction false} NewestIsKept<K>(index: seq<Entry<K>>, e: Entry<K>, budget: nat)
    requires e.size <= budget
    ensures Excess(index + [e], budget) <= |index| && Has(Kept(index + [e], budget), e.key)
  {
    var all := index + [e];
    if index == [] {
      assert all == [e] && [e][1..] == [];
      assert Total(all) == e.size + Total<K>([]);
      assert Kept(all, budget) == all && all[0] == e;
    } else {
      assert all[1..] == index[1..] + [e];
      NewestIsKept(index[1..], e, budget);
      var kept := Kept(all, budget);
      assert kept[|kept| - 1] == e;
    }
  }

  /** An entry added at the recency tail. */
  lemma AppendFacts<K>(index: seq<Entry<K>>, key: K, size: nat)
    requires Unique(index) && !Has(index, key)
    ensures var index' := index + [Entry(key, size)];
      && Unique(index') && Total(index') == Total(index) + size
      && forall k :: Has(index', k) <==> k == key || Has(index, k)
  {
    TotalSnoc(index, Entry(key, size));
    var index' := index + [Entry(key, size)];
    forall k ensures Has(index', k) <==> k == key || Has(index, k) {
      if k == key {
        assert index'[|index|].key == key;
      } else if Has(index, k) {
        var i :| 0 <= i < |index| && index[i].key == k;
        assert index'[i].key == k;
      }
    }
  }

  // ---- Recency ----

  /** Position of the last use of `key`, or -1. */
  function LastUse<K(==)>(uses: seq<K>, key: K): int {
    if uses == [] then -1
    else if uses[|uses| - 1] == key then |uses| - 1
    else LastUse(uses[..|uses| - 1], key)
  }

  /** The index lists its keys from least to most recently used. */
  ghost predicate ByRecency<K>(index: seq<Entry<K>>, uses: seq<K>) {
    forall i, j :: 0 <= i < j < |index| ==> LastUse(uses, index[i].key) < LastUse(uses, index[j].key)
  }

  lemma {:induction false} LastUseBound<K>(uses: seq<K>, key: K)
    ensures -1 <= LastUse(uses, key) < |uses|
  {
    if uses != [] && uses[|uses| - 1] != key {
      LastUseBound(uses[..|uses| - 1], key);
    }
  }

  lemma {:induction false} WithoutIsPart<K>(index: seq<Entry<K>>, key: K)
    ensures forall e :: e in Without(index, key) ==> e in index && e.key != key
  {
    if index != [] {
      WithoutIsPart(index[1..], key);
    }
  }

  /** `Without` keeps the order of what it keeps. */
  lemma {:induction false} WithoutKeepsRecency<K>(index: seq<Entry<K>>, key: K, uses: seq<K>)
    requires ByRecency(index, uses)
    ensures ByRecency(Without(index, key), uses)
  {
    if index != [] {
      var rest := index[1..];
      WithoutKeepsRecency(rest, key, uses);
      WithoutIsPart(rest, key);
      var w := Without(rest, key);
      if index[0].key != key {
        forall j | 0 <= j < |w| ensures LastUse(uses, index[0].key) < LastUse(uses, w[j].key) {
          assert w[j] in rest;
          var i :| 0 <= i < |rest| && rest[i] == w[j];
          assert index[i + 1] == w[j];
        }
      }
    }
  }

  /** A use at the recency tail keeps the order. */
  lemma UseKeepsRecency<K>(index: seq<Entry<K>>, key: K, size: nat, uses: seq<K>)
    requires ByRecency(index, uses)
    ensures ByRecency(Without(index, key) + [Entry(key, size)], uses + [key])
  {
    WithoutKeepsRecency(index, key, uses);
    WithoutIsPart(index, key);
    var w, uses' := Without(index, key), uses + [key];
    assert uses'[..|uses|] == uses;
    forall i | 0 <= i < |w| ensures LastUse(uses', w[i].key) == LastUse(uses, w[i].key) < |uses| {
      assert w[i] in w;
      LastUseBound(uses, w[i].key);
    }
  }
}
