/**
 * The split of blob traffic over two stores: content in the primary store with
 * copies of its ends in the fast one, thumbnails and indexes in the fast store
 * with copies of what predates the split made on the way out.
 */
module Routed {
  import opened Prelude
  import opened Cuts
  import opened ReadPath

  /** What a bookend copy is to write: the head's last byte, and where the tail
   *  starts when the head does not already reach that far. */
  datatype Plan = Plan(headEnd: int, tailStart: Option<int>)

  /** The head is as long as it can be, and there is a tail exactly when the
   *  blob's last bytes begin behind the head. */
  ghost predicate CoversEnds(plan: Plan, g: Geometry, total: nat) {
    && plan.headEnd == HeadEnd(g, total) < total
    && (plan.tailStart.Some? <==> TailStart(g, total) > HeadEnd(g, total))
    && (plan.tailStart.Some? ==> plan.tailStart.value == TailStart(g, total))
    && (plan.tailStart.None? ==> plan.headEnd + 1 >= total - g.tailBytes)
  }

  class RoutedBlobStore {
    const headBytes: nat
    const tailBytes: nat
    /** Keys whose bookends are being copied. */
    var healing: set<Key>

    constructor (headBytes: nat, tailBytes: nat)
      ensures this.headBytes == headBytes && this.tailBytes == tailBytes && healing == {}
    {
      this.headBytes := headBytes;
      this.tailBytes := tailBytes;
      healing := {};
    }

    /** Begins copying a blob's ends, unless that is under way or the blob is
     *  empty. Between them head and tail leave nothing out of reach of a plan
     *  without a tail. */
    method CopyBookends(key: Key, total: nat) returns (plan: Option<Plan>)
      modifies this`healing
      ensures plan.Some? <==> total > 0 && key !in old(healing)
      ensures healing == if plan.Some? then old(healing) + {key} else old(healing)
      ensures plan.Some? ==> CoversEnds(plan.value, Geometry(headBytes, tailBytes, 0), total)
    {
      if total == 0 || key in healing {
        return None;
      }
      healing := healing + {key};
      var headEnd, tailStart := Min(headBytes, total) - 1, Max(0, total - tailBytes);
      plan := Some(Plan(headEnd, if tailStart > headEnd then Some(tailStart) else None));
    }

    method EndCopy(key: Key)
      modifies this`healing
      ensures healing == old(healing) - {key}
    {
      healing := healing - {key};
    }

    /** A ranged read of a content key. A read that wanted a bookend that is not
     *  there starts a copy of both. */
    method GetRange(t: Tiers, key: Key, start: nat, end: nat, total: nat) returns (bytes: Option<Bytes>, plan: Option<Plan>)
      modifies this`healing
      ensures bytes == RoutedGet(Geometry(headBytes, tailBytes, 0), t, key, start, end, total)
      ensures var headTo, tailFrom := Min(headBytes, total), Max(0, total - tailBytes);
        var wantsHead, wantsTail := total > 0 && end < headTo, total > 0 && end >= headTo && start >= tailFrom >= headTo;
        && (wantsHead && Head(key) in t.copies ==> bytes == Some(Cut(t.copies[Head(key)], start, end + 1)))
        && (wantsTail && Tail(key) in t.copies ==> bytes == Some(Cut(t.copies[Tail(key)], start - tailFrom, end - tailFrom + 1)))
        && (!(wantsHead && Head(key) in t.copies) && !(wantsTail && Tail(key) in t.copies) ==>
              bytes == if key in t.primary then Some(Cut(t.primary[key], start, end + 1)) else None)
        && (plan.Some? <==>
              (key !in old(healing) && ((wantsHead && Head(key) !in t.copies) || (wantsTail && Tail(key) !in t.copies))))
      ensures plan.Some? ==> CoversEnds(plan.value, Geometry(headBytes, tailBytes, 0), total)
      ensures healing == if plan.Some? then old(healing) + {key} else old(healing)
    {
      plan := None;
      if total > 0 {
        var headEnd, tailStart := Min(headBytes, total) - 1, Max(0, total - tailBytes);
        if end <= headEnd {
          if Head(key) in t.copies {
            return Some(Cut(t.copies[Head(key)], start, end + 1)), None;
          }
          plan := CopyBookends(key, total);
        } else if start >= tailStart && tailStart > headEnd {
          if Tail(key) in t.copies {
            return Some(Cut(t.copies[Tail(key)], start - tailStart, end - tailStart + 1)), None;
          }
          plan := CopyBookends(key, total);
        }
      }
      bytes := PrimaryGet(t, key, start, end);
    }
  }

  // ---- Derived blobs that predate the split ----

  const HEAL_CAP := 4 * 1024 * 1024

  datatype Heal = Heal(key: Key, bytes: Bytes)

  /** The two stores as derived keys see them; `misses` are reads that missed in
   *  the fast store and are about to ask the primary one, `heals` the copies
   *  such reads have read and not yet written. */
  datatype Split = Split(derived: map<Key, Bytes>, primary: map<Key, Bytes>, misses: multiset<Key>, heals: multiset<Heal>)

  datatype Step =
    | Miss(key: Key)
    | ReadPrimary(key: Key)
    | LandHeal(heal: Heal)
    | LoseHeal(heal: Heal)
    | Put(key: Key, bytes: Bytes)
    | RemoveDerived(key: Key)
    | RemovePrimary(key: Key)

  /** What a read of the key answers with. */
  function Plain(s: Split, key: Key): Option<Bytes> {
    if key in s.derived then Some(s.derived[key])
    else if key in s.primary then Some(s.primary[key])
    else None
  }

  predicate Copied(s: Split, key: Key) {
    key in s.primary && |s.primary[key]| <= HEAL_CAP
  }

  function Apply(s: Split, step: Step): Split {
    match step
    case Miss(key) => if key !in s.derived then s.(misses := s.misses + multiset{key}) else s
    case ReadPrimary(key) =>
      if key in s.misses then
        s.(misses := s.misses - multiset{key},
           heals := if Copied(s, key) then s.heals + multiset{Heal(key, s.primary[key])} else s.heals)
      else s
    case LandHeal(heal) =>
      if heal in s.heals then s.(derived := s.derived[heal.key := heal.bytes], heals := s.heals - multiset{heal}) else s
    case LoseHeal(heal) => s.(heals := s.heals - multiset{heal})
    case Put(key, bytes) => s.(derived := s.derived[key := bytes])
    case RemoveDerived(key) => s.(derived := s.derived - {key})
    case RemovePrimary(key) => s.(primary := s.primary - {key})
  }

  function Execute(s: Split, steps: seq<Step>): Split
    decreases |steps|
  {
    if steps == [] then s else Execute(Apply(s, steps[0]), steps[1..])
  }

  predicate Writes(step: Step, key: Key) {
    (step.Put? || step.RemoveDerived? || step.RemovePrimary?) && step.key == key
  }

  ghost predicate Unwritten(steps: seq<Step>, key: Key) {
    forall i :: 0 <= i < |steps| ==> !Writes(steps[i], key)
  }

  /** However reads of all keys and the copies they leave interleave, the key
   *  goes on reading as `v` until somebody writes it. */
  ghost predicate Stays(s: Split, key: Key, v: Option<Bytes>) {
    forall steps :: Unwritten(steps, key) ==> Plain(Execute(s, steps), key) == v
  }

  /** No copy of the key is under way with other bytes than `v`, and no read is
   *  about to make one. */
  ghost predicate NoOtherCopy(s: Split, key: Key, v: Option<Bytes>) {
    && (forall heal :: heal in s.heals && heal.key == key ==> v == Some(heal.bytes))
    && (key in s.misses && Copied(s, key) ==> v == Some(s.primary[key]))
  }

  lemma CopyStep(s: Split, step: Step, key: Key, v: Option<Bytes>)
    requires Plain(s, key) == v && NoOtherCopy(s, key, v) && !Writes(step, key)
    ensures Plain(Apply(s, step), key) == v && NoOtherCopy(Apply(s, step), key, v)
  {
  }

  lemma {:induction false} CopiesKeep(s: Split, steps: seq<Step>, key: Key, v: Option<Bytes>)
    requires Plain(s, key) == v && NoOtherCopy(s, key, v) && Unwritten(steps, key)
    ensures Plain(Execute(s, steps), key) == v
    decreases |steps|
  {
    if steps != [] {
      CopyStep(s, steps[0], key, v);
      CopiesKeep(Apply(s, steps[0]), steps[1..], key, v);
    }
  }

  lemma ExecuteOne(s: Split, step: Step)
    ensures Execute(s, [step]) == Apply(s, step)
  {
    assert [step][1..] == [];
    assert Execute(Apply(s, step), []) == Apply(s, step);
  }

  lemma ExecuteTwo(s: Split, s1: Step, s2: Step)
    ensures Execute(s, [s1, s2]) == Apply(Apply(s, s1), s2)
  {
    assert [s1, s2][1..] == [s2];
    ExecuteOne(Apply(s, s1), s2);
  }

  lemma LandReads(s: Split, heal: Heal)
    requires heal in s.heals
    ensures Plain(Apply(s, LandHeal(heal)), heal.key) == Some(heal.bytes)
  {
  }

  /** A copy with other bytes lands. */
  lemma CopySpoils(s: Split, key: Key, v: Option<Bytes>) returns (steps: seq<Step>)
    requires !NoOtherCopy(s, key, v)
    ensures Unwritten(steps, key) && Plain(Execute(s, steps), key) != v
  {
    if heal :| heal in s.heals && heal.key == key && v != Some(heal.bytes) {
      steps := [LandHeal(heal)];
      ExecuteOne(s, LandHeal(heal));
      LandReads(s, heal);
    } else {
      steps := FetchSpoils(s, key, v);
    }
  }

  lemma FetchSpoils(s: Split, key: Key, v: Option<Bytes>) returns (steps: seq<Step>)
    requires key in s.misses && Copied(s, key) && v != Some(s.primary[key])
    ensures Unwritten(steps, key) && Plain(Execute(s, steps), key) != v
  {
    var copy := Heal(key, s.primary[key]);
    steps := [ReadPrimary(key), LandHeal(copy)];
    ExecuteTwo(s, ReadPrimary(key), LandHeal(copy));
    LandReads(Apply(s, ReadPrimary(key)), copy);
  }

  /** When healing is invisible: exactly when the key reads as it should and no
   *  read holds, or is about to copy, other bytes. */
  lemma HealingIsInvisibleIff(s: Split, key: Key, v: Option<Bytes>)
    ensures Stays(s, key, v) <==> Plain(s, key) == v && NoOtherCopy(s, key, v)
  {
    if Plain(s, key) == v && NoOtherCopy(s, key, v) {
      forall steps | Unwritten(steps, key) ensures Plain(Execute(s, steps), key) == v {
        CopiesKeep(s, steps, key, v);
      }
    } else if Plain(s, key) != v {
      assert Unwritten([], key) && Execute(s, []) == s;
    } else {
      var steps := CopySpoils(s, key, v);
    }
  }

  /** A put lasts, whatever runs after it short of another write, exactly when no
   *  read of the key was under way with other bytes, or about to fetch them. */
  lemma PutLastsIff(s: Split, key: Key, bytes: Bytes)
    ensures Stays(Apply(s, Step.Put(key, bytes)), key, Some(bytes)) <==>
      && (forall heal :: heal in s.heals && heal.key == key ==> heal.bytes == bytes)
      && (key in s.misses && Copied(s, key) ==> s.primary[key] == bytes)
  {
    HealingIsInvisibleIff(Apply(s, Step.Put(key, bytes)), key, Some(bytes));
  }

  /** A remove whose two halves are over lasts exactly when nothing healed the
   *  key between them and no copy of it is under way. */
  lemma RemoveLastsIff(s: Split, between: seq<Step>, key: Key)
    ensures var half := Execute(Apply(s, RemoveDerived(key)), between);
      Stays(Apply(half, RemovePrimary(key)), key, None) <==>
        key !in half.derived && forall heal :: heal in half.heals ==> heal.key != key
  {
    var half := Execute(Apply(s, RemoveDerived(key)), between);
    HealingIsInvisibleIff(Apply(half, RemovePrimary(key)), key, None);
  }

  /** A remove with nothing between its halves takes the key out of both stores,
   *  and nothing else. */
  lemma RemoveTakesTheKey(s: Split, key: Key)
    ensures var s' := Apply(Apply(s, RemoveDerived(key)), RemovePrimary(key));
      && key !in s'.derived && key !in s'.primary && s'.misses == s.misses && s'.heals == s.heals
      && forall other :: other != key ==> Plain(s', other) == Plain(s, other) && (Copied(s', other) <==> Copied(s, other))
  {
    var half := Apply(s, RemoveDerived(key));
    var s' := Apply(half, RemovePrimary(key));
    forall other | other != key ensures Plain(s', other) == Plain(s, other) && (Copied(s', other) <==> Copied(s, other)) {
      assert (other in half.derived <==> other in s.derived) && (other in s'.primary <==> other in s.primary);
    }
  }

  predicate Lands(s: Split, step: Step) {
    step.LandHeal? && step.heal in s.heals
  }

  predicate Misses(s: Split, step: Step) {
    step.Miss? && step.key !in s.derived
  }

  /** How many copies land over a run. */
  function Landings(s: Split, steps: seq<Step>): nat
    decreases |steps|
  {
    if steps == [] then 0 else (if Lands(s, steps[0]) then 1 else 0) + Landings(Apply(s, steps[0]), steps[1..])
  }

  /** How many reads miss. */
  function Missing(s: Split, steps: seq<Step>): nat
    decreases |steps|
  {
    if steps == [] then 0 else (if Misses(s, steps[0]) then 1 else 0) + Missing(Apply(s, steps[0]), steps[1..])
  }

  lemma OneCopyPerMiss(s: Split, step: Step)
    ensures var s' := Apply(s, step);
      (if Lands(s, step) then 1 else 0) + |s'.heals| + |s'.misses| <=
      (if Misses(s, step) then 1 else 0) + |s.heals| + |s.misses|
  {
    match step
    case ReadPrimary(key) => if key in s.misses { assert |s.misses - multiset{key}| == |s.misses| - 1; }
    case LandHeal(heal) => if heal in s.heals { assert |s.heals - multiset{heal}| == |s.heals| - 1; }
    case LoseHeal(heal) => if heal in s.heals { assert |s.heals - multiset{heal}| == |s.heals| - 1; }
    case _ =>
  }

  /** Over every run each copy that lands is of a miss of its own: no read makes
   *  two. */
  lemma {:induction false} CopiesAreOfMisses(s: Split, steps: seq<Step>)
    ensures var s' := Execute(s, steps);
      Landings(s, steps) + |s'.heals| + |s'.misses| <= Missing(s, steps) + |s.heals| + |s.misses|
    decreases |steps|
  {
    if steps != [] {
      OneCopyPerMiss(s, steps[0]);
      CopiesAreOfMisses(Apply(s, steps[0]), steps[1..]);
    }
  }

  /** A put that lands after a read has missed, before or after the read has its
   *  bytes, can be undone by the copy the read makes. */
  lemma HealUndoesPut(key: Key, stale: Bytes, newer: Bytes)
    requires stale != newer && |stale| <= HEAL_CAP
    ensures var missed := Apply(Split(map[], map[key := stale], multiset{}, multiset{}), Miss(key));
      && !Stays(Apply(missed, Step.Put(key, newer)), key, Some(newer))
      && !Stays(Apply(Apply(missed, ReadPrimary(key)), Step.Put(key, newer)), key, Some(newer))
  {
    var missed := Apply(Split(map[], map[key := stale], multiset{}, multiset{}), Miss(key));
    PutLastsIff(missed, key, newer);
    PutLastsIff(Apply(missed, ReadPrimary(key)), key, newer);
    assert Heal(key, stale) in Apply(missed, ReadPrimary(key)).heals;
  }

  /** And so can a remove, when the read has its bytes before the primary copy
   *  goes: the blob is back. */
  lemma HealUndoesRemove(key: Key, stale: Bytes)
    requires |stale| <= HEAL_CAP
    ensures var s := Split(map[], map[key := stale], multiset{}, multiset{});
      var half := Execute(Apply(s, RemoveDerived(key)), [Miss(key), ReadPrimary(key)]);
      Plain(Apply(half, RemovePrimary(key)), key) == None && !Stays(Apply(half, RemovePrimary(key)), key, None)
  {
    var s := Split(map[], map[key := stale], multiset{}, multiset{});
    var removed := Apply(s, RemoveDerived(key));
    ExecuteTwo(removed, Miss(key), ReadPrimary(key));
    assert Heal(key, stale) in Execute(removed, [Miss(key), ReadPrimary(key)]).heals;
    RemoveLastsIff(s, [Miss(key), ReadPrimary(key)], key);
  }
}
