/** The loop that pulls when something was announced. */
module AutoSync {
  // One pull runs at a time, pokes that land during one are remembered, and a
  // finite ladder of follow-up pulls runs when one stops short of what a poke
  // announced.

  import opened Prelude

  const RECHECKS: nat := 3

  /** `cursor` is the store's, `pulls` is history: how many pulls were begun. */
  datatype State = State(
    inFlight: bool, pendingPush: bool, announced: nat, attempt: nat, recheck: bool,
    cursor: nat, ready: bool, pulls: nat)

  datatype Event =
    | Poke(n: nat)
    | Beat(cooling: bool)
    | RecheckFires
    | PullEnds(cursor: nat)
    | CursorMoves(cursor: nat)
    | Session(ready: bool)

  const IDLE := State(false, false, 0, 0, false, 0, true, 0)

  function Kick(s: State, pushed: bool, cooling: bool): State {
    if s.inFlight then s.(pendingPush := s.pendingPush || pushed)
    else if !pushed && cooling then s
    else if !s.ready then s
    else s.(inFlight := true, pulls := s.pulls + 1)
  }

  function ScheduleRecheck(s: State): State {
    if s.recheck || s.attempt >= RECHECKS then s else s.(recheck := true)
  }

  function OnPoke(s: State, n: nat): State {
    Kick(if n > s.announced then s.(announced := n, attempt := 0) else s, true, false)
  }

  function OnPullEnds(s: State, cursor: nat): State {
    var ended := s.(inFlight := false, cursor := cursor);
    if ended.pendingPush then Kick(ended.(pendingPush := false), true, false)
    else if ended.cursor >= ended.announced then ended.(attempt := 0)
    else ScheduleRecheck(ended)
  }

  function OnRecheck(s: State): State {
    Kick(s.(recheck := false, attempt := s.attempt + 1), true, false)
  }

  function Apply(s: State, event: Event): State {
    match event
    case Poke(n) => OnPoke(s, n)
    case Beat(cooling) => Kick(s, false, cooling)
    case RecheckFires => if s.recheck then OnRecheck(s) else s
    case PullEnds(cursor) => if s.inFlight then OnPullEnds(s, cursor) else s
    case CursorMoves(cursor) => s.(cursor := cursor)
    case Session(ready) => s.(ready := ready)
  }

  function Execute(s: State, events: seq<Event>): State
    decreases |events|
  {
    if events == [] then s else Execute(Apply(s, events[0]), events[1..])
  }

  // ---- What is dropped ----

  /** The rechecks of a ladder are armed one at a time, and pokes are remembered
   *  only while a pull runs. */
  predicate Inv(s: State) {
    s.attempt <= RECHECKS && (s.recheck ==> s.attempt < RECHECKS) && (s.pendingPush ==> s.inFlight)
  }

  /** Something was announced that the cursor has not reached; rechecks are left,
   *  and yet nothing is running or armed that would look for it. */
  predicate Dropped(s: State) {
    s.announced > s.cursor && !s.inFlight && !s.recheck && s.attempt < RECHECKS
  }

  predicate Drops(s: State, event: Event) {
    match event
    case Poke(n) => n > s.announced && n > s.cursor && !s.ready && !s.inFlight && !s.recheck
    case RecheckFires =>
      s.recheck && !s.ready && !s.inFlight && s.announced > s.cursor && s.attempt + 1 < RECHECKS
    case PullEnds(cursor) =>
      && s.inFlight && s.pendingPush && !s.ready && !s.recheck
      && s.announced > cursor && s.attempt < RECHECKS
    case CursorMoves(cursor) => s.announced > cursor && !s.inFlight && !s.recheck && s.attempt < RECHECKS
    case _ => false
  }

  predicate Rescues(s: State, event: Event) {
    match event
    case Poke(_) => s.ready
    case Beat(cooling) => s.ready && !cooling
    case CursorMoves(cursor) => cursor >= s.announced
    case _ => false
  }

  lemma InvStep(s: State, event: Event)
    requires Inv(s)
    ensures Inv(Apply(s, event))
  {
  }

  lemma {:induction false} InvRun(s: State, events: seq<Event>)
    requires Inv(s)
    ensures Inv(Execute(s, events))
    decreases |events|
  {
    if events != [] {
      InvStep(s, events[0]);
      InvRun(Apply(s, events[0]), events[1..]);
    }
  }

  /** One event decides anew: news is dropped after it just when it was and the
   *  event does not rescue it, or the event drops it. */
  lemma DroppedAfterEvent(s: State, event: Event)
    requires Inv(s)
    ensures Dropped(Apply(s, event)) <==> (Dropped(s) && !Rescues(s, event)) || Drops(s, event)
  {
  }

  // ---- Whole runs ----

  lemma {:induction false} ExecuteMore(s: State, events: seq<Event>, event: Event)
    ensures Execute(s, events + [event]) == Apply(Execute(s, events), event)
    decreases |events|
  {
    if events == [] {
      assert (events + [event])[1..] == [];
    } else {
      assert (events + [event])[1..] == events[1..] + [event];
      ExecuteMore(Apply(s, events[0]), events[1..], event);
    }
  }

  /** Some event dropped news and none after it rescued it. */
  ghost predicate DroppedForGood(s: State, events: seq<Event>) {
    exists i :: DroppedAt(s, events, i)
  }

  ghost predicate DroppedAt(s: State, events: seq<Event>, i: int) {
    && 0 <= i < |events| && Drops(Execute(s, events[..i]), events[i])
    && Unrescued(s, events, i + 1)
  }

  ghost predicate Unrescued(s: State, events: seq<Event>, from: nat) {
    forall j :: from <= j < |events| ==> !Rescues(Execute(s, events[..j]), events[j])
  }

  lemma DroppedMore(s: State, events: seq<Event>, event: Event)
    ensures DroppedForGood(s, events + [event]) <==>
      || Drops(Execute(s, events), event)
      || (DroppedForGood(s, events) && !Rescues(Execute(s, events), event))
  {
    var all, k := events + [event], |events|;
    assert all[..k] == events && all[k] == event;
    assert forall j :: 0 <= j < k ==> all[..j] == events[..j] && all[j] == events[j];
    if Drops(Execute(s, events), event) {
      assert DroppedAt(s, all, k);
    }
    if i :| DroppedAt(s, events, i) && !Rescues(Execute(s, events), event) {
      forall j | i < j < |all| ensures !Rescues(Execute(s, all[..j]), all[j]) {
        if j < k {
          assert !Rescues(Execute(s, events[..j]), events[j]);
        }
      }
      assert DroppedAt(s, all, i);
    }
    if i :| DroppedAt(s, all, i) && i < k {
      assert !Rescues(Execute(s, all[..k]), all[k]);
      forall j | i < j < k ensures !Rescues(Execute(s, events[..j]), events[j]) {
        assert !Rescues(Execute(s, all[..j]), all[j]);
      }
      assert DroppedAt(s, events, i);
    }
  }

  // ---- Main results ----

  /** Over every run whatever, sessions that end and cursors that go back
   *  included: an announcement is dropped exactly when some event dropped it and
   *  none after it rescued it. */
  lemma {:induction false} DroppedIff(events: seq<Event>)
    ensures Dropped(Execute(IDLE, events)) <==> DroppedForGood(IDLE, events)
    decreases |events|
  {
    if events != [] {
      var k := |events| - 1;
      var before := events[..k];
      assert events == before + [events[k]];
      DroppedIff(before);
      InvRun(IDLE, before);
      DroppedAfterEvent(Execute(IDLE, before), events[k]);
      ExecuteMore(IDLE, before, events[k]);
      DroppedMore(IDLE, before, events[k]);
    }
  }

  /** At rest the announcement was reached, or all three rechecks were made,
   *  exactly when it was not dropped on the way. */
  lemma AtRestReachedOrSpentIff(events: seq<Event>)
    requires var s := Execute(IDLE, events); !s.inFlight && !s.recheck
    ensures var s := Execute(IDLE, events);
      s.announced <= s.cursor || s.attempt == RECHECKS <==> !DroppedForGood(IDLE, events)
  {
    DroppedIff(events);
    InvRun(IDLE, events);
  }

  /** The session stays, and outside of a pull the cursor does not go back. */
  predicate Steady(s: State, event: Event) {
    match event
    case Session(ready) => ready
    case CursorMoves(cursor) => s.inFlight || cursor >= s.cursor
    case _ => true
  }

  predicate SteadyRun(s: State, events: seq<Event>)
    decreases |events|
  {
    events == [] || (Steady(s, events[0]) && SteadyRun(Apply(s, events[0]), events[1..]))
  }

  lemma {:induction false} SteadyDropsNothing(s: State, events: seq<Event>)
    requires Inv(s) && s.ready && !Dropped(s) && SteadyRun(s, events)
    ensures !Dropped(Execute(s, events))
    decreases |events|
  {
    if events != [] {
      InvStep(s, events[0]);
      DroppedAfterEvent(s, events[0]);
      SteadyDropsNothing(Apply(s, events[0]), events[1..]);
    }
  }

  /** In a steady run, whatever was announced has been reached, or a pull is
   *  running, or a recheck is armed, or the rechecks are spent. */
  lemma NewsIsNeverDropped(events: seq<Event>)
    requires SteadyRun(IDLE, events)
    ensures var s := Execute(IDLE, events);
      s.announced <= s.cursor || s.inFlight || s.recheck || s.attempt >= RECHECKS
    ensures !DroppedForGood(IDLE, events)
  {
    SteadyDropsNothing(IDLE, events);
    DroppedIff(events);
  }

  lemma {:induction false} StaysDropped(s: State, after: seq<Event>)
    requires Inv(s) && Dropped(s) && Unrescued(s, after, 0)
    ensures Dropped(Execute(s, after))
    decreases |after|
  {
    if after != [] {
      var s' := Apply(s, after[0]);
      InvStep(s, after[0]);
      DroppedAfterEvent(s, after[0]);
      assert after[..0] == [] && !Rescues(Execute(s, after[..0]), after[0]);
      forall j | 0 <= j < |after[1..]| ensures !Rescues(Execute(s', after[1..][..j]), after[1..][j]) {
        assert after[..j + 1][1..] == after[1..][..j];
        assert !Rescues(Execute(s, after[..j + 1]), after[j + 1]);
      }
      StaysDropped(s', after[1..]);
    }
  }

  /** A cursor that goes back while the loop is at rest is not noticed, whatever
   *  led there: nothing looks for the announcement until a poke or a beat comes
   *  or the cursor moves on by itself. */
  lemma CursorBackIsNotNoticed(before: seq<Event>, cursor: nat, after: seq<Event>)
    requires var s := Execute(IDLE, before);
      && !s.inFlight && !s.recheck && s.attempt < RECHECKS && cursor < s.announced
      && Unrescued(Apply(s, CursorMoves(cursor)), after, 0)
    ensures Dropped(Execute(Apply(Execute(IDLE, before), CursorMoves(cursor)), after))
  {
    InvRun(IDLE, before);
    InvStep(Execute(IDLE, before), CursorMoves(cursor));
    StaysDropped(Apply(Execute(IDLE, before), CursorMoves(cursor)), after);
  }

  /** So is a session that is away when the ladder's next recheck fires. */
  lemma RecheckWithoutSessionIsLost(before: seq<Event>, after: seq<Event>)
    requires var s := Execute(IDLE, before);
      && s.recheck && !s.ready && !s.inFlight && s.announced > s.cursor && s.attempt + 1 < RECHECKS
      && Unrescued(Apply(s, RecheckFires), after, 0)
    ensures Dropped(Execute(Apply(Execute(IDLE, before), RecheckFires), after))
  {
    InvRun(IDLE, before);
    InvStep(Execute(IDLE, before), RecheckFires);
    StaysDropped(Apply(Execute(IDLE, before), RecheckFires), after);
  }

  // ---- The loop comes to rest ----

  /** What the loop does by itself, without fresh pokes or beats. */
  predicate Internal(s: State, event: Event) {
    (event.RecheckFires? && s.recheck) || (event.PullEnds? && s.inFlight)
  }

  predicate InternalRun(s: State, events: seq<Event>)
    decreases |events|
  {
    events == [] || (Internal(s, events[0]) && InternalRun(Apply(s, events[0]), events[1..]))
  }

  function Count(b: bool): nat {
    if b then 1 else 0
  }

  /** How many more pulls the loop can begin by itself: the one already asked
   *  for, and one per recheck left; a pull that catches up while a recheck is
   *  armed begins the ladder again. */
  function PullsLeft(s: State): nat {
    Count(s.pendingPush) +
    if s.inFlight && s.recheck then RECHECKS
    else if s.inFlight || s.recheck then Max(0, RECHECKS - s.attempt)
    else 0
  }

  /** Everything the loop can still do by itself. */
  function Measure(s: State): nat {
    4 * PullsLeft(s) + 2 * Count(s.inFlight) + Count(s.recheck)
  }

  /** A pull that begins takes one of those left; nothing adds to them; and every
   *  internal event brings the loop closer to rest, wherever the cursor ends. */
  lemma InternalStep(s: State, event: Event)
    requires Inv(s) && Internal(s, event)
    ensures var s' := Apply(s, event);
      && Inv(s') && s'.pulls + PullsLeft(s') <= s.pulls + PullsLeft(s)
      && Measure(s') < Measure(s)
  {
  }

  lemma {:induction false} PullsAreBounded(s: State, events: seq<Event>)
    requires Inv(s) && InternalRun(s, events)
    ensures Execute(s, events).pulls <= s.pulls + PullsLeft(s)
    ensures |events| <= Measure(s)
    decreases |events|
  {
    if events != [] {
      InternalStep(s, events[0]);
      PullsAreBounded(Apply(s, events[0]), events[1..]);
    }
  }

  /** In any state one announcement costs at most four pulls, its own among them,
   *  and then the loop comes to rest. */
  lemma OneAnnouncementIsFinite(before: seq<Event>, n: nat, after: seq<Event>)
    requires InternalRun(Apply(Execute(IDLE, before), Poke(n)), after)
    ensures Execute(Apply(Execute(IDLE, before), Poke(n)), after).pulls <= Execute(IDLE, before).pulls + 4
    ensures |after| <= 19
  {
    InvRun(IDLE, before);
    InvStep(Execute(IDLE, before), Poke(n));
    PullsAreBounded(Apply(Execute(IDLE, before), Poke(n)), after);
  }

  // ---- One pull for all that came during one ----

  /** A poke came, or an armed recheck fired. */
  predicate Asks(s: State, event: Event) {
    event.Poke? || (event.RecheckFires? && s.recheck)
  }

  ghost predicate AskedDuring(s: State, events: seq<Event>) {
    exists i :: AskedAt(s, events, i)
  }

  ghost predicate AskedAt(s: State, events: seq<Event>, i: int) {
    0 <= i < |events| && Asks(Execute(s, events[..i]), events[i])
  }

  predicate NoneEnds(events: seq<Event>) {
    forall i :: 0 <= i < |events| ==> !events[i].PullEnds?
  }

  lemma AskedMore(s: State, events: seq<Event>, event: Event)
    ensures AskedDuring(s, events + [event]) <==> AskedDuring(s, events) || Asks(Execute(s, events), event)
  {
    var all, k := events + [event], |events|;
    assert all[..k] == events && all[k] == event;
    assert forall j :: 0 <= j < k ==> all[..j] == events[..j] && all[j] == events[j];
    if i :| AskedAt(s, events, i) {
      assert AskedAt(s, all, i);
    }
    if i :| AskedAt(s, all, i) {
      assert i < k ==> AskedAt(s, events, i);
    }
    if Asks(Execute(s, events), event) {
      assert AskedAt(s, all, k);
    }
  }

  lemma {:induction false} PendingIffAsked(s: State, events: seq<Event>)
    requires s.inFlight && !s.pendingPush && NoneEnds(events)
    ensures var s' := Execute(s, events);
      && s'.inFlight && s'.pulls == s.pulls && (s'.pendingPush <==> AskedDuring(s, events))
    decreases |events|
  {
    if events != [] {
      var k := |events| - 1;
      var before := events[..k];
      assert events == before + [events[k]];
      PendingIffAsked(s, before);
      ExecuteMore(s, before, events[k]);
      AskedMore(s, before, events[k]);
    }
  }

  /** Over every run: when a pull ends with a session in place, another begins
   *  with it exactly when a poke came or a recheck fired since it began, and it
   *  is one however many did. Without a session none begins. */
  lemma OneMorePullIffAsked(before: seq<Event>, begins: Event, during: seq<Event>, cursor: nat)
    requires Apply(Execute(IDLE, before), begins).pulls > Execute(IDLE, before).pulls && NoneEnds(during)
    ensures var s := Apply(Execute(IDLE, before), begins);
      var last := Execute(s, during);
      var ended := Apply(last, PullEnds(cursor));
      && last.pulls == s.pulls
      && ended.pulls == s.pulls + (if last.ready && AskedDuring(s, during) then 1 else 0)
      && (ended.inFlight <==> last.ready && AskedDuring(s, during))
  {
    InvRun(IDLE, before);
    PendingIffAsked(Apply(Execute(IDLE, before), begins), during);
  }

  /** Every pull that begins is counted, and nothing else is. */
  lemma PullsAreCounted(s: State, event: Event)
    requires Inv(s)
    ensures var s' := Apply(s, event);
      s'.pulls == s.pulls + Count(s'.inFlight && (!s.inFlight || (event.PullEnds? && s.pendingPush)))
  {
  }

  /** A pull that ends with nothing asked for during it arms a recheck exactly when
   *  it stopped short and one is left, and otherwise starts the ladder afresh
   *  exactly when it did not stop short. */
  lemma LadderIff(before: seq<Event>, cursor: nat)
    requires var s := Execute(IDLE, before); s.inFlight && !s.pendingPush
    ensures var s, s' := Execute(IDLE, before), Apply(Execute(IDLE, before), PullEnds(cursor));
      && !s'.inFlight && s'.announced == s.announced && s'.cursor == cursor
      && (s'.recheck <==> s.recheck || (cursor < s.announced && s.attempt < RECHECKS))
      && s'.attempt == if cursor >= s.announced then 0 else s.attempt
  {
  }

  /** And a recheck that fires is spent: the ladder has one fewer left. */
  lemma RecheckIsSpent(s: State)
    requires Inv(s) && s.recheck
    ensures var s' := Apply(s, RecheckFires);
      && !s'.recheck && s'.attempt == s.attempt + 1 && (s.ready || s.inFlight ==> s'.inFlight)
      && (s.inFlight ==> s'.pendingPush) && s'.announced == s.announced && s'.cursor == s.cursor
  {
  }

  /** With the session away, the recheck that would have found the news is lost
   *  with it. */
  lemma SessionAwayDropsNews(n: nat)
    requires n > 0
    ensures var s := Execute(IDLE, [Poke(n), PullEnds(n - 1), Session(false), RecheckFires]);
      Dropped(s) && s.announced == n && s.pulls == 1
  {
    var events := [Poke(n), PullEnds(n - 1), Session(false), RecheckFires];
    ExecuteMore(IDLE, [], Poke(n));
    ExecuteMore(IDLE, [Poke(n)], PullEnds(n - 1));
    ExecuteMore(IDLE, [Poke(n), PullEnds(n - 1)], Session(false));
    ExecuteMore(IDLE, [Poke(n), PullEnds(n - 1), Session(false)], RecheckFires);
    assert [] + [Poke(n)] == [Poke(n)] && [Poke(n)] + [PullEnds(n - 1)] == [Poke(n), PullEnds(n - 1)];
    assert [Poke(n), PullEnds(n - 1)] + [Session(false)] == [Poke(n), PullEnds(n - 1), Session(false)];
    assert [Poke(n), PullEnds(n - 1), Session(false)] + [RecheckFires] == events;
  }

  // ---- The object ----

  class Loop {
    var inFlight: bool
    var pendingPush: bool
    var announced: nat
    var recheckAttempt: nat
    var recheck: bool

    /** The loop holds what the modelled one has in memory. */
    ghost predicate Matches(s: State)
      reads this
    {
      && inFlight == s.inFlight && pendingPush == s.pendingPush && announced == s.announced
      && recheckAttempt == s.attempt && recheck == s.recheck
    }

    constructor ()
      ensures Matches(IDLE)
    {
      inFlight, pendingPush, announced, recheckAttempt, recheck := false, false, 0, 0, false;
    }

    /** Begins a pull unless one runs; `begun` says whether. */
    method KickOff(pushed: bool, cooling: bool, ready: bool, ghost s: State) returns (begun: bool)
      requires Matches(s) && ready == s.ready
      modifies this`inFlight, this`pendingPush
      ensures Matches(Kick(s, pushed, cooling)) && begun == (Kick(s, pushed, cooling).pulls > s.pulls)
      ensures begun <==> !old(inFlight) && (pushed || !cooling) && ready
      ensures inFlight == (old(inFlight) || begun)
      ensures pendingPush == (old(pendingPush) || (old(inFlight) && pushed))
    {
      begun := false;
      if inFlight {
        if pushed {
          pendingPush := true;
        }
        return;
      }
      if !pushed && cooling {
        return;
      }
      if !ready {
        return;
      }
      inFlight, begun := true, true;
    }

    method ArmRecheck(ghost s: State)
      requires Matches(s)
      modifies this`recheck
      ensures Matches(ScheduleRecheck(s))
    {
      if recheck || recheckAttempt >= RECHECKS {
        return;
      }
      recheck := true;
    }

    method Poked(n: nat, ready: bool, ghost s: State)
      requires Matches(s) && ready == s.ready
      modifies this
      ensures Matches(Apply(s, Poke(n)))
    {
      if n > announced {
        announced, recheckAttempt := n, 0;
      }
      var _ := KickOff(true, false, ready, if n > s.announced then s.(announced := n, attempt := 0) else s);
    }

    method RecheckFired(ready: bool, ghost s: State)
      requires Matches(s) && recheck && ready == s.ready
      modifies this
      ensures Matches(Apply(s, RecheckFires))
    {
      recheck := false;
      recheckAttempt := recheckAttempt + 1;
      var _ := KickOff(true, false, ready, s.(recheck := false, attempt := s.attempt + 1));
    }

    method PullEnded(cursor: nat, ready: bool, ghost s: State)
      requires Matches(s) && inFlight && ready == s.ready
      modifies this
      ensures Matches(Apply(s, PullEnds(cursor)))
    {
      inFlight := false;
      ghost var ended := s.(inFlight := false, cursor := cursor);
      if pendingPush {
        pendingPush := false;
        var _ := KickOff(true, false, ready, ended.(pendingPush := false));
        return;
      }
      if cursor >= announced {
        recheckAttempt := 0;
      } else {
        ArmRecheck(ended);
      }
    }
  }
}
