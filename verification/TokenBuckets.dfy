/**
 * The pacer in front of a rate-limited store: callers wait in two lanes, and a
 * pump hands out slots one interval apart, sleeping out each and choosing its
 * caller at grant time. The clock is real-valued; a sleep ends no more than
 * `early` before the slot it was for, which is what a timer in whole
 * milliseconds may do, with `early` at one.
 */
module TokenBuckets {
  datatype Lane = Interactive | Background
  datatype Caller = Caller(id: nat)

  /** `came` is how many interactive callers had come by the grant. */
  datatype Grant = Grant(caller: Caller, lane: Lane, slot: real, at: real, came: nat)

  datatype Pump = Resting | Sleeping(slot: real)

  /** `granted`, `arrivedFirst` and `arrivedBehind` are history: the grants in
   *  order, and the callers of each lane in the order they came. */
  datatype Bucket = Bucket(
    next: real, interactive: seq<Caller>, background: seq<Caller>, pump: Pump,
    granted: seq<Grant>, arrivedFirst: seq<Caller>, arrivedBehind: seq<Caller>)

  const FULL := Bucket(0.0, [], [], Resting, [], [], [])

  function Later(a: real, b: real): real {
    if a >= b then a else b
  }

  function Queue(b: Bucket, lane: Lane, caller: Caller): Bucket {
    match lane
    case Interactive => b.(interactive := b.interactive + [caller], arrivedFirst := b.arrivedFirst + [caller])
    case Background => b.(background := b.background + [caller], arrivedBehind := b.arrivedBehind + [caller])
  }

  /** The slot goes to the head of the interactive lane, else of the other. */
  function GrantHead(b: Bucket, slot: real, now: real): Bucket {
    if b.interactive != [] then
      b.(interactive := b.interactive[1..],
         granted := b.granted + [Grant(b.interactive[0], Interactive, slot, now, |b.arrivedFirst|)])
    else if b.background != [] then
      b.(background := b.background[1..],
         granted := b.granted + [Grant(b.background[0], Background, slot, now, |b.arrivedFirst|)])
    else b
  }

  predicate Empty(b: Bucket) {
    b.interactive == [] && b.background == []
  }

  /** The pump's loop, up to its next sleep or its end. */
  function Run(b: Bucket, interval: real, now: real): Bucket
    decreases |b.interactive| + |b.background|
  {
    if Empty(b) then b.(pump := Resting)
    else
      var slot := Later(now, b.next);
      var claimed := b.(next := slot + interval);
      if slot > now then claimed.(pump := Sleeping(slot)) else Run(GrantHead(claimed, slot, now), interval, now)
  }

  datatype Event = Take(lane: Lane, caller: Caller, now: real) | Wake(now: real)

  function Apply(b: Bucket, event: Event, interval: real, early: real): Bucket {
    match event
    case Take(lane, caller, now) =>
      var queued := Queue(b, lane, caller);
      if b.pump.Resting? then Run(queued, interval, now) else queued
    case Wake(now) =>
      if b.pump.Sleeping? && now >= b.pump.slot - early then Run(GrantHead(b, b.pump.slot, now), interval, now) else b
  }

  function Execute(b: Bucket, events: seq<Event>, interval: real, early: real): Bucket
    decreases |events|
  {
    if events == [] then b else Execute(Apply(b, events[0], interval, early), events[1..], interval, early)
  }

  // ---- Invariant ----

  function CallersOf(granted: seq<Grant>, lane: Lane): seq<Caller> {
    if granted == [] then []
    else
      var before := CallersOf(granted[..|granted| - 1], lane);
      if granted[|granted| - 1].lane == lane then before + [granted[|granted| - 1].caller] else before
  }

  ghost predicate Spaced(granted: seq<Grant>, interval: real, early: real) {
    && (forall k :: 0 <= k < |granted| - 1 ==> granted[k + 1].slot >= granted[k].slot + interval)
    && (forall k :: 0 <= k < |granted| ==> granted[k].at >= granted[k].slot - early)
  }

  /** Whenever a background caller was granted, as many interactive ones had been
   *  as had come. */
  ghost predicate InteractiveFirst(granted: seq<Grant>) {
    forall k :: 0 <= k < |granted| && granted[k].lane.Background? ==>
      |CallersOf(granted[..k], Interactive)| == granted[k].came
  }

  ghost predicate Fifo(b: Bucket) {
    && CallersOf(b.granted, Interactive) + b.interactive == b.arrivedFirst
    && CallersOf(b.granted, Background) + b.background == b.arrivedBehind
    && InteractiveFirst(b.granted)
  }

  /** The slot is an interval or more after the last one granted. */
  ghost predicate Free(b: Bucket, slot: real, interval: real) {
    b.granted != [] ==> slot >= b.granted[|b.granted| - 1].slot + interval
  }

  ghost predicate Awake(b: Bucket, interval: real) {
    && (b.pump.Resting? ==> Empty(b))
    && (b.pump.Sleeping? ==> !Empty(b) && Free(b, b.pump.slot, interval) && b.next == b.pump.slot + interval)
  }

  ghost predicate Inv(b: Bucket, interval: real, early: real) {
    Spaced(b.granted, interval, early) && Fifo(b) && Free(b, b.next, interval) && Awake(b, interval)
  }

  lemma GrantFifo(b: Bucket, slot: real, now: real)
    requires Fifo(b)
    ensures Fifo(GrantHead(b, slot, now))
  {
    var b' := GrantHead(b, slot, now);
    forall k | 0 <= k < |b'.granted| && b'.granted[k].lane.Background?
      ensures |CallersOf(b'.granted[..k], Interactive)| == b'.granted[k].came
    {
      if k < |b.granted| {
        assert b'.granted[..k] == b.granted[..k];
      } else {
        assert b'.granted[..k] == b.granted;
      }
    }
  }

  lemma GrantSpaced(b: Bucket, slot: real, interval: real, now: real, early: real)
    requires Spaced(b.granted, interval, early) && Free(b, slot, interval)
    requires now >= slot - early && b.next == slot + interval && !Empty(b)
    ensures var b' := GrantHead(b, slot, now); Spaced(b'.granted, interval, early) && Free(b', b'.next, interval)
  {
  }

  lemma {:induction false} RunFifo(b: Bucket, interval: real, now: real)
    requires Fifo(b)
    ensures Fifo(Run(b, interval, now))
    decreases |b.interactive| + |b.background|
  {
    var slot := Later(now, b.next);
    var claimed := b.(next := slot + interval);
    if !Empty(b) && slot <= now {
      GrantFifo(claimed, slot, now);
      var next := GrantHead(claimed, slot, now);
      assert Run(b, interval, now) == Run(next, interval, now);
      RunFifo(next, interval, now);
    }
  }

  lemma {:induction false} RunSpaced(b: Bucket, interval: real, now: real, early: real)
    requires interval > 0.0 && early >= 0.0 && Spaced(b.granted, interval, early) && Free(b, b.next, interval)
    ensures var b' := Run(b, interval, now);
      Spaced(b'.granted, interval, early) && Free(b', b'.next, interval) && Awake(b', interval)
    decreases |b.interactive| + |b.background|
  {
    var slot := Later(now, b.next);
    if !Empty(b) && slot <= now {
      var claimed := b.(next := slot + interval);
      var next := GrantHead(claimed, slot, now);
      GrantSpaced(claimed, slot, interval, now, early);
      assert Run(b, interval, now) == Run(next, interval, now);
      RunSpaced(next, interval, now, early);
    }
  }

  lemma QueueFifo(b: Bucket, lane: Lane, caller: Caller)
    requires Fifo(b)
    ensures Fifo(Queue(b, lane, caller))
  {
    var first, behind := CallersOf(b.granted, Interactive), CallersOf(b.granted, Background);
    assert first + (b.interactive + [caller]) == (first + b.interactive) + [caller];
    assert behind + (b.background + [caller]) == (behind + b.background) + [caller];
  }

  lemma InvStep(b: Bucket, event: Event, interval: real, early: real)
    requires interval > 0.0 && early >= 0.0 && Inv(b, interval, early)
    ensures Inv(Apply(b, event, interval, early), interval, early)
  {
    match event
    case Take(lane, caller, now) => TakeKeeps(b, lane, caller, now, interval, early);
    case Wake(now) =>
      if b.pump.Sleeping? && now >= b.pump.slot - early {
        GrantFifo(b, b.pump.slot, now);
        GrantSpaced(b, b.pump.slot, interval, now, early);
        RunKeeps(GrantHead(b, b.pump.slot, now), interval, now, early);
      }
  }

  lemma TakeKeeps(b: Bucket, lane: Lane, caller: Caller, now: real, interval: real, early: real)
    requires interval > 0.0 && early >= 0.0 && Inv(b, interval, early)
    ensures Inv(Apply(b, Take(lane, caller, now), interval, early), interval, early)
  {
    QueueFifo(b, lane, caller);
    if b.pump.Resting? {
      RunKeeps(Queue(b, lane, caller), interval, now, early);
    }
  }

  lemma RunKeeps(b: Bucket, interval: real, now: real, early: real)
    requires interval > 0.0 && early >= 0.0 && Fifo(b) && Spaced(b.granted, interval, early) && Free(b, b.next, interval)
    ensures Inv(Run(b, interval, now), interval, early)
  {
    RunFifo(b, interval, now);
    RunSpaced(b, interval, now, early);
  }

  lemma {:induction false} InvRun(b: Bucket, events: seq<Event>, interval: real, early: real)
    requires interval > 0.0 && early >= 0.0 && Inv(b, interval, early)
    ensures Inv(Execute(b, events, interval, early), interval, early)
    decreases |events|
  {
    if events != [] {
      InvStep(b, events[0], interval, early);
      InvRun(Apply(b, events[0], interval, early), events[1..], interval, early);
    }
  }

  // ---- Main results ----

  lemma {:induction false} SlotsClimb(granted: seq<Grant>, interval: real, k: nat, early: real)
    requires Spaced(granted, interval, early) && k < |granted|
    ensures granted[k].slot >= granted[0].slot + k as real * interval
  {
    if k > 0 {
      SlotsClimb(granted, interval, k - 1, early);
      assert granted[(k - 1) + 1].slot >= granted[k - 1].slot + interval;
      assert k as real * interval == (k - 1) as real * interval + interval;
    }
  }

  lemma AtMost(n: nat, span: real, interval: real)
    requires interval > 0.0 && n as real * interval <= span
    ensures n <= (span / interval).Floor
  {
    var q := span / interval;
    assert q * interval == span;
    assert (q - n as real) * interval == q * interval - n as real * interval;
    assert q >= n as real;
  }

  /** By any time `t` at or after the first slot no more callers have been
   *  granted than there are whole intervals since, and one; a timer that wakes
   *  early adds to the time by as much. */
  lemma RateHolds(events: seq<Event>, interval: real, early: real, n: nat, t: real)
    requires interval > 0.0 && early >= 0.0 && 0 < n
    requires var b := Execute(FULL, events, interval, early);
      n <= |b.granted| && forall k :: 0 <= k < n ==> b.granted[k].at <= t
    ensures var t0 := Execute(FULL, events, interval, early).granted[0].slot;
      n <= ((t + early - t0) / interval).Floor + 1
  {
    InvRun(FULL, events, interval, early);
    var b := Execute(FULL, events, interval, early);
    SlotsClimb(b.granted, interval, n - 1, early);
    assert b.granted[n - 1].slot - early <= b.granted[n - 1].at <= t;
    AtMost(n - 1, t + early - b.granted[0].slot, interval);
  }

  /** Each lane is granted in the order its callers came, and a background
   *  caller only when every interactive one that has come was granted before. */
  lemma LanesAreFair(events: seq<Event>, interval: real, early: real)
    requires interval > 0.0 && early >= 0.0
    ensures var b := Execute(FULL, events, interval, early);
      && CallersOf(b.granted, Interactive) <= b.arrivedFirst && CallersOf(b.granted, Background) <= b.arrivedBehind
      && InteractiveFirst(b.granted)
  {
    InvRun(FULL, events, interval, early);
  }

  /** A slot is one interval after the last, or the moment of its grant. */
  ghost predicate Prompt(granted: seq<Grant>, interval: real) {
    forall k :: 0 <= k < |granted| - 1 ==>
      granted[k + 1].slot == granted[k].slot + interval || granted[k + 1].slot == granted[k + 1].at
  }

  /** The next slot is one interval after the last. */
  ghost predicate Level(b: Bucket, interval: real) {
    b.granted != [] ==> b.next == b.granted[|b.granted| - 1].slot + interval
  }

  /** And so is the one being slept out. */
  ghost predicate Due(b: Bucket, interval: real) {
    match b.pump
    case Resting => Level(b, interval)
    case Sleeping(slot) =>
      b.next == slot + interval && (b.granted != [] ==> slot == b.granted[|b.granted| - 1].slot + interval)
  }

  lemma {:induction false} RunIsPrompt(b: Bucket, interval: real, now: real)
    requires Prompt(b.granted, interval) && Level(b, interval)
    ensures var b' := Run(b, interval, now); Prompt(b'.granted, interval) && Due(b', interval)
    decreases |b.interactive| + |b.background|
  {
    var slot := Later(now, b.next);
    if !Empty(b) && slot <= now {
      var next := GrantHead(b.(next := slot + interval), slot, now);
      assert Run(b, interval, now) == Run(next, interval, now);
      RunIsPrompt(next, interval, now);
    }
  }

  lemma WakeIsPrompt(b: Bucket, now: real, interval: real)
    requires b.pump.Sleeping? && !Empty(b) && Prompt(b.granted, interval) && Due(b, interval)
    ensures var b' := Run(GrantHead(b, b.pump.slot, now), interval, now); Prompt(b'.granted, interval) && Due(b', interval)
  {
    RunIsPrompt(GrantHead(b, b.pump.slot, now), interval, now);
  }

  lemma PromptStep(b: Bucket, event: Event, interval: real, early: real)
    requires Awake(b, interval) && Prompt(b.granted, interval) && Due(b, interval)
    ensures var b' := Apply(b, event, interval, early); Prompt(b'.granted, interval) && Due(b', interval)
  {
    match event
    case Take(lane, caller, now) => if b.pump.Resting? { RunIsPrompt(Queue(b, lane, caller), interval, now); }
    case Wake(now) => if b.pump.Sleeping? && now >= b.pump.slot - early { WakeIsPrompt(b, now, interval); }
  }

  lemma {:induction false} PromptRun(b: Bucket, events: seq<Event>, interval: real, early: real)
    requires interval > 0.0 && early >= 0.0 && Inv(b, interval, early) && Prompt(b.granted, interval) && Due(b, interval)
    ensures var b' := Execute(b, events, interval, early); Prompt(b'.granted, interval) && Due(b', interval)
    decreases |events|
  {
    if events != [] {
      InvStep(b, events[0], interval, early);
      PromptStep(b, events[0], interval, early);
      PromptRun(Apply(b, events[0], interval, early), events[1..], interval, early);
    }
  }

  /** And no slot is left out: each is one interval after the last or, when that
   *  has passed, the moment of its grant; and while anybody waits, the slot being
   *  slept out is one interval after the last one granted. */
  lemma SlotsAreNotWasted(events: seq<Event>, interval: real, early: real)
    requires interval > 0.0 && early >= 0.0
    ensures var b := Execute(FULL, events, interval, early);
      && (forall k :: 0 <= k < |b.granted| - 1 ==>
            b.granted[k + 1].slot == b.granted[k].slot + interval || b.granted[k + 1].slot == b.granted[k + 1].at)
      && ((b.interactive != [] || b.background != []) && b.granted != [] ==>
            b.pump == Sleeping(b.granted[|b.granted| - 1].slot + interval))
  {
    InvRun(FULL, events, interval, early);
    PromptRun(FULL, events, interval, early);
    NothingIsWasted(Execute(FULL, events, interval, early), interval);
  }

  lemma NothingIsWasted(b: Bucket, interval: real)
    requires Awake(b, interval) && Prompt(b.granted, interval) && Due(b, interval)
    ensures forall k :: 0 <= k < |b.granted| - 1 ==>
      b.granted[k + 1].slot == b.granted[k].slot + interval || b.granted[k + 1].slot == b.granted[k + 1].at
    ensures (b.interactive != [] || b.background != []) && b.granted != [] ==>
      b.pump == Sleeping(b.granted[|b.granted| - 1].slot + interval)
  {
  }

  /** Nobody is queued with no pump running, and what a sleeping pump wakes to
   *  is a grant. */
  lemma NobodyIsForgotten(events: seq<Event>, interval: real, early: real, now: real)
    requires interval > 0.0 && early >= 0.0
    ensures var b := Execute(FULL, events, interval, early);
      && (b.interactive != [] || b.background != [] ==> b.pump.Sleeping?)
      && (b.pump.Sleeping? && now >= b.pump.slot - early ==> |Apply(b, Wake(now), interval, early).granted| > |b.granted|)
  {
    InvRun(FULL, events, interval, early);
    var b := Execute(FULL, events, interval, early);
    if b.pump.Sleeping? && now >= b.pump.slot - early {
      RunGrants(GrantHead(b, b.pump.slot, now), interval, now);
    }
  }

  lemma {:induction false} RunGrants(b: Bucket, interval: real, now: real)
    ensures |b.granted| <= |Run(b, interval, now).granted|
    decreases |b.interactive| + |b.background|
  {
    if !Empty(b) {
      var slot := Later(now, b.next);
      if slot <= now {
        RunGrants(GrantHead(b.(next := slot + interval), slot, now), interval, now);
      }
    }
  }

  // ---- The object ----

  /** The callers woken, in order. */
  function Named(granted: seq<Grant>): seq<Caller> {
    seq(|granted|, i requires 0 <= i < |granted| => granted[i].caller)
  }

  lemma NamedMore(before: seq<Grant>, after: seq<Grant>, more: seq<Caller>)
    requires |after| == |before| + |more| && before <= after
    requires forall i :: 0 <= i < |more| ==> after[|before| + i].caller == more[i]
    ensures Named(after) == Named(before) + more
  {
  }

  lemma Regroup<T>(a: seq<T>, b: seq<T>, c: seq<T>, d: seq<T>)
    ensures (a + b) + c + d == a + (b + (c + d))
    ensures (a + b) + c == a + (b + c)
  {
  }

  class TokenBucket {
    const interval: real
    var next: real
    var interactive: seq<Caller>
    var background: seq<Caller>
    var pumping: bool
    /** The slot a pump under way is sleeping out. */
    var slot: real

    /** The object holds what the modelled one has in memory. */
    ghost predicate Holds(b: Bucket)
      reads this
    {
      && next == b.next && interactive == b.interactive && background == b.background
      && pumping == b.pump.Sleeping? && (pumping ==> slot == b.pump.slot)
    }

    constructor (perSecond: real)
      requires perSecond > 0.0
      ensures interval == 1000.0 / perSecond && interval > 0.0 && Holds(FULL)
    {
      interval := 1000.0 / perSecond;
      next, interactive, background, pumping, slot := 0.0, [], [], false, 0.0;
    }

    method Take(lane: Lane, caller: Caller, now: real, ghost b: Bucket, ghost early: real) returns (granted: seq<Caller>)
      requires Holds(b)
      modifies this
      ensures Holds(Apply(b, Event.Take(lane, caller, now), interval, early))
      ensures Named(Apply(b, Event.Take(lane, caller, now), interval, early).granted) == Named(b.granted) + granted
      ensures old(pumping) ==> granted == []
      ensures granted + (interactive + background) ==
        if lane.Interactive? then old(interactive) + [caller] + old(background) else old(interactive) + old(background) + [caller]
    {
      granted := [];
      if lane.Interactive? {
        interactive := interactive + [caller];
      } else {
        background := background + [caller];
      }
      if !pumping {
        granted := RunPump(now, Queue(b, lane, caller));
      }
    }

    /** The sleep is over. */
    method Wake(now: real, ghost b: Bucket, ghost early: real) returns (granted: seq<Caller>)
      requires Holds(b) && pumping && now >= slot - early
      modifies this
      ensures Holds(Apply(b, Event.Wake(now), interval, early))
      ensures Named(Apply(b, Event.Wake(now), interval, early).granted) == Named(b.granted) + granted
      ensures granted + (interactive + background) == old(interactive) + old(background)
      ensures old(interactive) != [] || old(background) != [] ==> granted != []
    {
      var first := GrantOne();
      ghost var after := GrantHead(b, slot, now);
      NamedMore(b.granted, after.granted, first);
      SameRun(after, interval, now);
      pumping := false;
      var more := RunPump(now, after.(pump := Resting));
      granted := first + more;
      Regroup(first, more, interactive + background, []);
      Regroup(Named(b.granted), first, more, []);
    }

    method GrantOne() returns (granted: seq<Caller>)
      modifies this`interactive, this`background
      ensures interactive == if old(interactive) != [] then old(interactive)[1..] else []
      ensures background == if old(interactive) == [] && old(background) != [] then old(background)[1..] else old(background)
      ensures granted == if old(interactive) != [] then [old(interactive)[0]]
        else if old(background) != [] then [old(background)[0]] else []
      ensures granted + (interactive + background) == old(interactive) + old(background)
    {
      granted := [];
      if interactive != [] {
        granted, interactive := [interactive[0]], interactive[1..];
      } else if background != [] {
        granted, background := [background[0]], background[1..];
      }
    }

    /** Hands out slots until one lies ahead or nobody waits. */
    method RunPump(now: real, ghost b: Bucket) returns (granted: seq<Caller>)
      requires Holds(b) && !pumping
      modifies this
      ensures Holds(Run(b, interval, now)) && Named(Run(b, interval, now).granted) == Named(b.granted) + granted
      ensures !pumping ==> interactive == [] && background == []
      ensures pumping ==> slot > now && (interactive != [] || background != [])
      ensures granted + (interactive + background) == old(interactive) + old(background)
    {
      granted := [];
      ghost var state, waiting := b, interactive + background;
      while interactive != [] || background != []
        invariant !pumping && next == state.next && interactive == state.interactive && background == state.background
        invariant Run(state, interval, now) == Run(b, interval, now)
        invariant Named(state.granted) == Named(b.granted) + granted
        invariant granted + (interactive + background) == waiting
        decreases |interactive| + |background|
      {
        slot := Later(now, next);
        next := slot + interval;
        if slot > now {
          pumping := true;
          return;
        }
        ghost var before, earlier := state, granted;
        state := GrantHead(state.(next := slot + interval), slot, now);
        var one := GrantOne();
        NamedMore(before.granted, state.granted, one);
        Regroup(Named(b.granted), granted, one, []);
        granted := granted + one;
        Regroup(earlier, one, interactive + background, []);
      }
    }
  }

  /** Where the pump was before it runs makes no difference. */
  lemma SameRun(b: Bucket, interval: real, now: real)
    ensures Run(b.(pump := Resting), interval, now) == Run(b, interval, now)
    decreases |b.interactive| + |b.background|
  {
    if !Empty(b) {
      var slot := Later(now, b.next);
      if slot <= now {
        var claimed := b.(next := slot + interval);
        SameRun(GrantHead(claimed, slot, now), interval, now);
        assert GrantHead(claimed.(pump := Resting), slot, now) == GrantHead(claimed, slot, now).(pump := Resting);
      }
    }
  }
}
