/** The sharded key layout: a flat key space fanned into two directory levels. */
module Sharded {
  type Key = string

  function Shard(key: Key): Key {
    if |key| < 4 then key else key[..2] + "/" + key[2..4] + "/" + key
  }

  /** The key a shard was made for. */
  function Unshard(name: Key): Key {
    if |name| < 4 || |name| < 6 then name else name[6..]
  }

  lemma UnshardShard(key: Key)
    ensures Unshard(Shard(key)) == key
  {
    if |key| >= 4 {
      assert Shard(key)[6..] == key;
    }
  }

  lemma ShardIsInjective(k1: Key, k2: Key)
    requires Shard(k1) == Shard(k2)
    ensures k1 == k2
  {
    UnshardShard(k1);
    UnshardShard(k2);
  }

  ghost predicate Injective(layout: Key -> Key) {
    forall k1, k2 :: layout(k1) == layout(k2) ==> k1 == k2
  }

  /** The inner store holds exactly the plain map, under the layout's names. */
  ghost predicate Represents<V>(layout: Key -> Key, inner: map<Key, V>, plain: map<Key, V>) {
    && (forall key :: key in plain <==> layout(key) in inner)
    && (forall key :: key in plain ==> inner[layout(key)] == plain[key])
  }

  lemma PutRefines<V>(layout: Key -> Key, inner: map<Key, V>, plain: map<Key, V>, key: Key, value: V)
    requires Injective(layout) && Represents(layout, inner, plain)
    ensures Represents(layout, inner[layout(key) := value], plain[key := value])
  {
    forall k ensures k in plain[key := value] <==> layout(k) in inner[layout(key) := value] {
    }
  }

  lemma RemoveRefines<V>(layout: Key -> Key, inner: map<Key, V>, plain: map<Key, V>, key: Key)
    requires Injective(layout) && Represents(layout, inner, plain)
    ensures Represents(layout, inner - {layout(key)}, plain - {key})
  {
    forall k ensures k in plain - {key} <==> layout(k) in inner - {layout(key)} {
    }
  }

  /** Through the sharded names, a store is a plain map: whatever is put,
   *  read or removed under a key concerns that key alone. */
  lemma ShardingRefines<V>(inner: map<Key, V>, plain: map<Key, V>, key: Key, value: V)
    requires Represents(Shard, inner, plain)
    ensures Represents(Shard, inner[Shard(key) := value], plain[key := value])
    ensures Represents(Shard, inner - {Shard(key)}, plain - {key})
  {
    forall k1, k2 | Shard(k1) == Shard(k2) ensures k1 == k2 {
      ShardIsInjective(k1, k2);
    }
    PutRefines(Shard, inner, plain, key, value);
    RemoveRefines(Shard, inner, plain, key);
  }
}
