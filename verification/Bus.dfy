/** The notification bus' listening connection. */
module Bus {
  // Every connection attempt, and the connection it becomes, carries a
  // generation; events of a superseded one find that the bus has moved on.
  // Attempts listen on one channel per await. A channel that is new while a
  // connection is up is asked for there without waiting for the answer, which
  // may be a refusal.

  import opened Prelude

  type Channel = string

  /** A connection being made or up, and the channels it listens on so far. */
  datatype Attempt = Attempt(generation: nat, listened: set<Channel>)

  /** A LISTEN sent on the connection that was up, and not waited for. */
  datatype Ask = Ask(generation: nat, channel: Channel)

  /** A call of a reconnect handler, for the connection of that number. */
  datatype Told = Told(connection: nat, watcher: nat, first: bool)

  datatype Heard = Heard(generation: nat, channel: Channel)

  /** A connection's round of the reconnect handlers: how many it has called, and
   *  whether it would still call one that is registered now. */
  datatype Round = Round(called: nat, open: bool)

  /** `watchers` counts the reconnect handlers, which connection `k` calls one
   *  after another in `rounds[k]`, awaiting each. `refused`, `told` and
   *  `delivered` are history: LISTENs that failed, calls made, notices
   *  dispatched. */
  datatype State = State(
    closed: bool, generation: nat, timer: bool, listener: Option<Attempt>, connected: bool,
    connects: nat, failures: nat, handlers: set<Channel>, attempts: set<Attempt>,
    asked: set<Ask>, watchers: nat, rounds: seq<Round>,
    refused: set<Ask>, told: seq<Told>, delivered: seq<Heard>)

  datatype Step =
    | Start
    | Subscribe(channel: Channel)
    | AskLands(ask: Ask)
    | AskFails(ask: Ask)
    | Watch
    | Listen(attempt: Attempt, channel: Channel)
    | Connect(attempt: Attempt)
    | Call(connection: nat)
    | EndRound(connection: nat)
    | Fail(attempt: Attempt)
    | Die(generation: nat)
    | Notify(generation: nat, channel: Channel)
    | TimerFires
    | Close

  const FRESH := State(false, 0, false, None, false, 0, 0, {}, {}, {}, 0, [], {}, [], [])

  predicate Stale(s: State, generation: nat) {
    s.closed || generation != s.generation
  }

  function BeginAttempt(s: State): State {
    if s.closed then s
    else s.(generation := s.generation + 1, attempts := s.attempts + {Attempt(s.generation + 1, {})})
  }

  function ScheduleReconnect(s: State): State {
    if s.closed || s.timer then s else s.(timer := true, failures := s.failures + 1)
  }

  /** The listening connection is up. Its round begins, and is over at once when
   *  there is nobody to call. */
  function GoLive(s: State, attempt: Attempt): State {
    s.(listener := Some(attempt), connected := true, failures := 0, connects := s.connects + 1,
       rounds := s.rounds + [Round(0, s.watchers > 0)])
  }

  function OnConnect(s: State, attempt: Attempt): State {
    var rest := s.(attempts := s.attempts - {attempt});
    if Stale(s, attempt.generation) then rest else GoLive(rest, attempt)
  }

  function OnFail(s: State, attempt: Attempt): State {
    var rest := s.(attempts := s.attempts - {attempt});
    if Stale(s, attempt.generation) then rest else ScheduleReconnect(rest)
  }

  /** A connection reported an error or its end, or missed a heartbeat. */
  function OnDie(s: State, generation: nat): State {
    if Stale(s, generation) then s
    else ScheduleReconnect(s.(generation := s.generation + 1, connected := false, listener := None))
  }

  function OnListen(s: State, attempt: Attempt, channel: Channel): State {
    s.(attempts := s.attempts - {attempt} + {attempt.(listened := attempt.listened + {channel})})
  }

  /** A channel that is new while a connection is up is asked for there. */
  function OnSubscribe(s: State, channel: Channel): State {
    s.(handlers := s.handlers + {channel},
       asked := if s.listener.Some? && channel !in s.handlers
                then s.asked + {Ask(s.listener.value.generation, channel)} else s.asked)
  }

  function OnAskLands(s: State, ask: Ask): State {
    s.(asked := s.asked - {ask},
       listener := if s.listener.Some? && s.listener.value.generation == ask.generation
                   then Some(s.listener.value.(listened := s.listener.value.listened + {ask.channel})) else s.listener)
  }

  predicate Open(s: State, k: nat) {
    k < |s.rounds| && s.rounds[k].open
  }

  /** The next reconnect handler of a connection's round is called. */
  function OnCall(s: State, k: nat): State
    requires Open(s, k)
  {
    s.(rounds := s.rounds[k := Round(s.rounds[k].called + 1, true)],
       told := s.told + [Told(k, s.rounds[k].called, k == 0)])
  }

  /** The last handler there is has returned. */
  function OnEndRound(s: State, k: nat): State
    requires Open(s, k)
  {
    s.(rounds := s.rounds[k := s.rounds[k].(open := false)])
  }

  /** The connection of that generation listens on the channel. */
  ghost predicate Hears(s: State, generation: nat, channel: Channel) {
    || (s.listener.Some? && s.listener.value.generation == generation && channel in s.listener.value.listened)
    || exists a :: a in s.attempts && a.generation == generation && channel in a.listened
  }

  ghost function Apply(s: State, step: Step): State {
    match step
    case Start => if s.closed || s.listener.Some? || s.timer then s else BeginAttempt(s)
    case Subscribe(channel) => OnSubscribe(s, channel)
    case AskLands(ask) => if ask in s.asked then OnAskLands(s, ask) else s
    case AskFails(ask) => if ask in s.asked then s.(asked := s.asked - {ask}, refused := s.refused + {ask}) else s
    case Watch => s.(watchers := s.watchers + 1)
    case Call(k) => if Open(s, k) && s.rounds[k].called < s.watchers then OnCall(s, k) else s
    case EndRound(k) => if Open(s, k) && s.rounds[k].called == s.watchers then OnEndRound(s, k) else s
    case Listen(attempt, channel) =>
      if attempt in s.attempts && channel in s.handlers then OnListen(s, attempt, channel) else s
    case Connect(attempt) =>
      if attempt in s.attempts && s.handlers <= attempt.listened then OnConnect(s, attempt) else s
    case Fail(attempt) => if attempt in s.attempts then OnFail(s, attempt) else s
    case Die(generation) => OnDie(s, generation)
    case Notify(generation, channel) =>
      if Stale(s, generation) || !Hears(s, generation, channel) then s
      else s.(delivered := s.delivered + [Heard(generation, channel)])
    case TimerFires => if s.timer then BeginAttempt(s.(timer := false)) else s
    case Close => s.(closed := true, generation := s.generation + 1, connected := false, timer := false, listener := None)
  }

  ghost function Execute(s: State, steps: seq<Step>): State
    decreases |steps|
  {
    if steps == [] then s else Execute(Apply(s, steps[0]), steps[1..])
  }

  // ---- Invariant ----

  /** The bus is connecting and nothing has superseded the attempt. */
  ghost predicate Connecting(s: State) {
    exists a :: a in s.attempts && a.generation == s.generation
  }

  /** Of a retry timer, an attempt under way and a listener that is up there is
   *  never more than one. */
  ghost predicate OneAtMost(s: State) {
    && (s.timer ==> s.listener.None? && !Connecting(s))
    && (s.listener.Some? ==> !Connecting(s))
  }

  ghost predicate ListenerOk(s: State) {
    && (s.connected <==> s.listener.Some?)
    && (s.listener.Some? ==> s.listener.value.generation == s.generation)
  }

  /** While a connection is up, a subscribed channel is listened on exactly when
   *  its LISTEN there has been answered and not refused. */
  ghost predicate ListeningOk(s: State) {
    && (forall a :: a in s.attempts ==> a.listened <= s.handlers)
    && (forall x :: x in s.asked + s.refused ==>
          x.generation <= s.generation && x.channel in s.handlers && forall a :: a in s.attempts ==> a.generation != x.generation)
    && s.asked !! s.refused
    && (s.listener.Some? ==> s.listener.value.listened <= s.handlers)
    && (s.listener.Some? ==> forall channel :: channel in s.handlers ==>
          (channel in s.listener.value.listened <==> Ask(s.generation, channel) !in s.asked + s.refused))
  }

  ghost predicate AttemptsOk(s: State) {
    && (forall a :: a in s.attempts ==> a.generation <= s.generation)
    && (forall a, b :: a in s.attempts && b in s.attempts && a.generation == b.generation ==> a == b)
  }

  ghost predicate WasTold(told: seq<Told>, k: nat, h: nat) {
    Told(k, h, k == 0) in told
  }

  /** Every connection has called the handlers of its round so far once each,
   *  in order, and told them whether it is the first. */
  ghost predicate ToldOk(s: State) {
    && |s.rounds| == s.connects
    && (forall k :: 0 <= k < |s.rounds| ==> s.rounds[k].called <= s.watchers)
    && (forall i :: 0 <= i < |s.told| ==>
          var t := s.told[i];
          t.connection < |s.rounds| && t.watcher < s.rounds[t.connection].called && (t.first <==> t.connection == 0))
    && (forall k: nat, h: nat :: k < |s.rounds| && h < s.rounds[k].called ==> WasTold(s.told, k, h))
    && (forall i, j :: 0 <= i < j < |s.told| && s.told[i].connection == s.told[j].connection ==>
          s.told[i].watcher < s.told[j].watcher)
  }

  ghost predicate Inv(s: State) {
    && OneAtMost(s) && ListenerOk(s) && AttemptsOk(s) && ListeningOk(s) && ToldOk(s)
    && (s.closed ==> !s.timer && s.listener.None?)
    && (forall i :: 0 <= i < |s.delivered| ==> s.delivered[i].generation <= s.generation)
  }

  /** Begun, not closed, and nothing left that would bring the listener back. */
  ghost predicate Stuck(s: State) {
    !s.closed && s.generation > 0 && !s.timer && s.listener.None? && !Connecting(s)
  }

  lemma BeginKeeps(s: State)
    requires Inv(s) && !s.timer && s.listener.None?
    ensures Inv(BeginAttempt(s)) && !Stuck(BeginAttempt(s))
  {
    if !s.closed {
      assert Attempt(s.generation + 1, {}) in BeginAttempt(s).attempts;
    }
  }

  lemma ListenKeeps(s: State, attempt: Attempt, channel: Channel)
    requires Inv(s) && attempt in s.attempts && channel in s.handlers
    ensures Inv(OnListen(s, attempt, channel)) && (!Stuck(s) ==> !Stuck(OnListen(s, attempt, channel)))
  {
    var next := attempt.(listened := attempt.listened + {channel});
    var s' := OnListen(s, attempt, channel);
    assert Connecting(s') <==> Connecting(s) by {
      if Connecting(s) {
        var a :| a in s.attempts && a.generation == s.generation;
        assert (if a == attempt then next else a) in s'.attempts;
      }
      if Connecting(s') {
        var a :| a in s'.attempts && a.generation == s'.generation;
        assert (if a == next then attempt else a) in s.attempts;
      }
    }
  }

  lemma ConnectKeeps(s: State, attempt: Attempt)
    requires Inv(s) && !Stuck(s) && attempt in s.attempts && s.handlers <= attempt.listened
    ensures Inv(OnConnect(s, attempt)) && !Stuck(OnConnect(s, attempt))
  {
  }

  lemma FailKeeps(s: State, attempt: Attempt)
    requires Inv(s) && !Stuck(s) && attempt in s.attempts
    ensures Inv(OnFail(s, attempt)) && !Stuck(OnFail(s, attempt))
  {
  }

  lemma DieKeeps(s: State, generation: nat)
    requires Inv(s) && !Stuck(s)
    ensures Inv(OnDie(s, generation)) && !Stuck(OnDie(s, generation))
  {
  }

  lemma AskLandsKeeps(s: State, ask: Ask)
    requires Inv(s) && !Stuck(s)
    ensures Inv(Apply(s, AskLands(ask))) && !Stuck(Apply(s, AskLands(ask)))
  {
    SameConnecting(s, Apply(s, AskLands(ask)));
  }

  lemma AskFailsKeeps(s: State, ask: Ask)
    requires Inv(s) && !Stuck(s)
    ensures Inv(Apply(s, AskFails(ask))) && !Stuck(Apply(s, AskFails(ask)))
  {
    SameConnecting(s, Apply(s, AskFails(ask)));
  }

  lemma CloseKeeps(s: State)
    requires Inv(s)
    ensures Inv(Apply(s, Close)) && !Stuck(Apply(s, Close))
  {
  }

  lemma InvStep(s: State, step: Step)
    requires Inv(s) && !Stuck(s)
    ensures Inv(Apply(s, step)) && !Stuck(Apply(s, step))
  {
    match step
    case Start => if !s.closed && s.listener.None? && !s.timer { BeginKeeps(s); }
    case Listen(attempt, channel) =>
      if attempt in s.attempts && channel in s.handlers { ListenKeeps(s, attempt, channel); }
    case Connect(attempt) =>
      if attempt in s.attempts && s.handlers <= attempt.listened { ConnectKeeps(s, attempt); }
    case Fail(attempt) => if attempt in s.attempts { FailKeeps(s, attempt); }
    case Die(generation) => DieKeeps(s, generation);
    case TimerFires => if s.timer { BeginKeeps(s.(timer := false)); }
    case Subscribe(channel) => SubscribeKeeps(s, channel);
    case AskLands(ask) => AskLandsKeeps(s, ask);
    case AskFails(ask) => AskFailsKeeps(s, ask);
    case Close => CloseKeeps(s);
    case _ => HandlerKeeps(s, step);
  }

  lemma HandlerKeeps(s: State, step: Step)
    requires Inv(s) && !Stuck(s) && (step.Notify? || step.Watch? || step.Call? || step.EndRound?)
    ensures Inv(Apply(s, step)) && !Stuck(Apply(s, step))
  {
    SameConnecting(s, Apply(s, step));
    if step.Call? && Open(s, step.connection) && s.rounds[step.connection].called < s.watchers {
      CallKeeps(s, step.connection);
    }
    if step.EndRound? && Open(s, step.connection) {
      EndKeeps(s, step.connection);
    }
  }

  lemma EndKeeps(s: State, k: nat)
    requires ToldOk(s) && Open(s, k)
    ensures ToldOk(OnEndRound(s, k))
  {
    var s' := OnEndRound(s, k);
    assert forall j :: 0 <= j < |s.rounds| ==> s'.rounds[j].called == s.rounds[j].called;
  }

  lemma SameConnecting(s: State, s': State)
    requires s.attempts == s'.attempts && s.generation == s'.generation
    ensures Connecting(s) <==> Connecting(s')
  {
  }

  lemma CallKeeps(s: State, k: nat)
    requires Inv(s) && Open(s, k) && s.rounds[k].called < s.watchers
    ensures Inv(OnCall(s, k)) && (!Stuck(s) ==> !Stuck(OnCall(s, k)))
  {
    var s' := OnCall(s, k);
    SameConnecting(s, s');
    forall j: nat, h: nat | j < |s'.rounds| && h < s'.rounds[j].called ensures WasTold(s'.told, j, h) {
      if j == k && h == s.rounds[k].called {
        assert s'.told[|s.told|] == Told(k, h, k == 0);
      } else {
        assert WasTold(s.told, j, h);
      }
    }
  }

  lemma SubscribeKeeps(s: State, channel: Channel)
    requires Inv(s)
    ensures Inv(OnSubscribe(s, channel)) && (!Stuck(s) ==> !Stuck(OnSubscribe(s, channel)))
  {
    assert Connecting(OnSubscribe(s, channel)) <==> Connecting(s);
  }

  lemma {:induction false} InvRun(s: State, steps: seq<Step>)
    requires Inv(s) && !Stuck(s)
    ensures Inv(Execute(s, steps)) && !Stuck(Execute(s, steps))
    decreases |steps|
  {
    if steps != [] {
      InvStep(s, steps[0]);
      InvRun(Apply(s, steps[0]), steps[1..]);
    }
  }

  // ---- Main results ----

  lemma ReachableOk(steps: seq<Step>)
    ensures Inv(Execute(FRESH, steps)) && !Stuck(Execute(FRESH, steps))
  {
    InvRun(FRESH, steps);
  }

  lemma {:induction false} GenerationGrows(s: State, steps: seq<Step>)
    ensures s.generation <= Execute(s, steps).generation
    decreases |steps|
  {
    if steps != [] {
      GenerationGrows(Apply(s, steps[0]), steps[1..]);
    }
  }

  /** A bus that was started and not closed always has exactly one thing going
   *  for it: a retry timer, an attempt nothing superseded, or a listener. */
  lemma AlwaysExactlyOne(before: seq<Step>, after: seq<Step>)
    requires var s := Execute(FRESH, before); !s.closed && s.listener.None? && !s.timer
    requires !Execute(Apply(Execute(FRESH, before), Start), after).closed
    ensures var s := Execute(Apply(Execute(FRESH, before), Start), after);
      && (s.timer || Connecting(s) || s.listener.Some?)
      && !(s.timer && Connecting(s)) && !(s.timer && s.listener.Some?) && !(Connecting(s) && s.listener.Some?)
  {
    var s0 := Execute(FRESH, before);
    ReachableOk(before);
    InvStep(s0, Start);
    InvRun(Apply(s0, Start), after);
    GenerationGrows(Apply(s0, Start), after);
  }

  /** In every run, while a connection is up it hears a subscribed channel
   *  exactly when that channel's LISTEN on it is not on its way and was not
   *  refused: those subscribed before it went live, and those asked for since
   *  whose LISTEN landed. */
  lemma HearsIffListenLanded(steps: seq<Step>, channel: Channel)
    requires var s := Execute(FRESH, steps); s.listener.Some? && channel in s.handlers
    ensures var s := Execute(FRESH, steps);
      Hears(s, s.generation, channel) <==> Ask(s.generation, channel) !in s.asked && Ask(s.generation, channel) !in s.refused
  {
    ReachableOk(steps);
    var s := Execute(FRESH, steps);
    assert !Connecting(s);
    assert Ask(s.generation, channel) in s.asked + s.refused <==> Ask(s.generation, channel) in s.asked || Ask(s.generation, channel) in s.refused;
  }

  /** A channel whose LISTEN was refused is not heard on that connection again,
   *  whatever follows. */
  lemma {:induction false} RefusedStaysDeaf(s: State, steps: seq<Step>, ask: Ask)
    requires Inv(s) && !Stuck(s) && ask in s.refused
    ensures var s' := Execute(s, steps);
      && |s.delivered| <= |s'.delivered|
      && forall i :: |s.delivered| <= i < |s'.delivered| ==> s'.delivered[i] != Heard(ask.generation, ask.channel)
    decreases |steps|
  {
    if steps != [] {
      var s1 := Apply(s, steps[0]);
      InvStep(s, steps[0]);
      RefusedStep(s, steps[0], ask);
      GenerationStep(s, steps[0]);
      HistoryStays(s1, steps[1..]);
      RefusedStaysDeaf(s1, steps[1..], ask);
      forall i | |s.delivered| <= i < |Execute(s, steps).delivered|
        ensures Execute(s, steps).delivered[i] != Heard(ask.generation, ask.channel)
      {
        if i < |s1.delivered| {
          assert Execute(s, steps).delivered[i] == s1.delivered[i];
        }
      }
    }
  }

  lemma RefusedStep(s: State, step: Step, ask: Ask)
    requires Inv(s) && ask in s.refused
    ensures var s' := Apply(s, step);
      ask in s'.refused && forall i :: |s.delivered| <= i < |s'.delivered| ==> s'.delivered[i] != Heard(ask.generation, ask.channel)
  {
    if step == Notify(ask.generation, ask.channel) && !Stale(s, ask.generation) {
      assert ask in s.asked + s.refused;
      assert !Hears(s, ask.generation, ask.channel);
    }
  }

  lemma {:induction false} ExecuteMore(s: State, steps: seq<Step>, step: Step)
    ensures Execute(s, steps + [step]) == Apply(Execute(s, steps), step)
    decreases |steps|
  {
    if steps == [] {
      assert [step][1..] == [];
      assert Execute(s, [step]) == Execute(Apply(s, step), []);
    } else {
      ExecuteMore(Apply(s, steps[0]), steps[1..], step);
      assert (steps + [step])[1..] == steps[1..] + [step];
    }
  }

  ghost predicate Reached(s: State) {
    exists steps :: Execute(FRESH, steps) == s
  }

  lemma FreshIsReached()
    ensures Reached(FRESH)
  {
    assert Execute(FRESH, []) == FRESH;
  }

  lemma Then(s: State, step: Step, s': State)
    requires Reached(s) && Apply(s, step) == s'
    ensures Reached(s')
  {
    var steps :| Execute(FRESH, steps) == s;
    ExecuteMore(FRESH, steps, step);
    assert Execute(FRESH, steps + [step]) == s';
  }

  /** The bus is up, subscribed to `channel`, and deaf on it for as long as this
   *  connection lasts: the LISTEN that was not waited for failed. */
  lemma FailedListenIsDeaf(channel: Channel, after: seq<Step>)
    ensures exists s :: Reached(s) && s.connected && channel in s.handlers && StaysDeaf(s, after, channel)
  {
    var live := Attempt(1, {});
    var s1 := FRESH.(generation := 1, attempts := {live});
    var s2 := s1.(attempts := {}, listener := Some(live), connected := true, connects := 1, rounds := [Round(0, false)]);
    var s3 := s2.(handlers := {channel}, asked := {Ask(1, channel)});
    var s4 := s3.(asked := {}, refused := {Ask(1, channel)});
    FreshIsReached();
    Then(FRESH, Start, s1);
    assert s1.attempts - {live} == {};
    Then(s1, Connect(live), s2);
    Then(s2, Subscribe(channel), s3);
    assert s3.asked - {Ask(1, channel)} == {};
    Then(s3, AskFails(Ask(1, channel)), s4);
    var steps :| Execute(FRESH, steps) == s4;
    ReachableOk(steps);
    RefusedStaysDeaf(s4, after, Ask(1, channel));
    assert StaysDeaf(s4, after, channel);
  }

  ghost predicate StaysDeaf(s: State, after: seq<Step>, channel: Channel) {
    forall i :: |s.delivered| <= i < |Execute(s, after).delivered| ==>
      Execute(s, after).delivered[i] != Heard(s.generation, channel)
  }

  // ---- Rounds of reconnect handlers ----

  ghost predicate Ended(s: State, k: nat) {
    k < |s.rounds| && !s.rounds[k].open
  }

  /** Step `i` ends the round of connection `k`. */
  ghost predicate EndsAt(steps: seq<Step>, i: int, k: nat) {
    0 <= i < |steps| && !Ended(Execute(FRESH, steps[..i]), k) && Ended(Execute(FRESH, steps[..i + 1]), k)
  }

  /** Handler `h` was there when the round of connection `k` ended. */
  ghost predicate InTime(steps: seq<Step>, k: nat, h: nat) {
    exists i :: EndsAt(steps, i, k) && h < Execute(FRESH, steps[..i + 1]).watchers
  }

  /** A round that has ended changes no more. */
  lemma EndedStays(s: State, step: Step, k: nat)
    requires Ended(s, k)
    ensures Ended(Apply(s, step), k) && Apply(s, step).rounds[k] == s.rounds[k]
  {
  }

  /** A round ends when it has called every handler there is. */
  lemma EndsWithAll(s: State, step: Step, k: nat)
    requires ToldOk(s) && !Ended(s, k) && Ended(Apply(s, step), k)
    ensures var s' := Apply(s, step); s'.rounds[k].called == s'.watchers
  {
  }

  lemma {:induction false} CalledIffInTime(steps: seq<Step>, k: nat, h: nat)
    requires Ended(Execute(FRESH, steps), k)
    ensures h < Execute(FRESH, steps).rounds[k].called <==> InTime(steps, k, h)
    decreases |steps|
  {
    var n := |steps| - 1;
    var before := steps[..n];
    var s := Execute(FRESH, before);
    assert steps == before + [steps[n]];
    ExecuteMore(FRESH, before, steps[n]);
    ReachableOk(before);
    if Ended(s, k) {
      CalledIffInTime(before, k, h);
      EndedStays(s, steps[n], k);
      InTimeBefore(before, steps[n], k, h);
    } else {
      EndsWithAll(s, steps[n], k);
      EndsLast(before, steps[n], k, h);
    }
  }

  /** A round that had ended ended where it did before. */
  lemma InTimeBefore(before: seq<Step>, step: Step, k: nat, h: nat)
    requires Ended(Execute(FRESH, before), k)
    ensures InTime(before + [step], k, h) <==> InTime(before, k, h)
  {
    var steps, n := before + [step], |before|;
    assert forall i :: 0 <= i <= n ==> before[..i] == steps[..i];
    assert before[..n] == before;
    if i :| EndsAt(before, i, k) && h < Execute(FRESH, before[..i + 1]).watchers {
      assert EndsAt(steps, i, k);
    }
    if i :| EndsAt(steps, i, k) && h < Execute(FRESH, steps[..i + 1]).watchers {
      assert i < n;
      assert EndsAt(before, i, k);
    }
  }

  /** And one that ends now ends now only. */
  lemma EndsLast(before: seq<Step>, step: Step, k: nat, h: nat)
    requires !Ended(Execute(FRESH, before), k) && Ended(Execute(FRESH, before + [step]), k)
    ensures InTime(before + [step], k, h) <==> h < Execute(FRESH, before + [step]).watchers
  {
    var steps, n := before + [step], |before|;
    assert steps[..n] == before && steps[..n + 1] == steps;
    assert EndsAt(steps, n, k);
    if i :| EndsAt(steps, i, k) && i < n {
      EndedToTheEnd(steps, i + 1, n, k);
    }
  }

  lemma {:induction false} EndedToTheEnd(steps: seq<Step>, i: nat, n: nat, k: nat)
    requires i <= n <= |steps| && Ended(Execute(FRESH, steps[..i]), k)
    ensures Ended(Execute(FRESH, steps[..n]), k)
    decreases n - i
  {
    if i < n {
      assert steps[..i + 1] == steps[..i] + [steps[i]];
      ExecuteMore(FRESH, steps[..i], steps[i]);
      EndedStays(Execute(FRESH, steps[..i]), steps[i], k);
      EndedToTheEnd(steps, i + 1, n, k);
    }
  }

  /** Over every run, once a connection's round of reconnect handlers is over, a
   *  handler was told of that connection exactly when it was registered by then;
   *  it was told once, in order of registration, and of the first connection as
   *  first and of no other. */
  lemma ToldIffInTime(steps: seq<Step>, k: nat, h: nat)
    requires Ended(Execute(FRESH, steps), k)
    ensures var told := Execute(FRESH, steps).told;
      && (WasTold(told, k, h) <==> InTime(steps, k, h))
      && (forall i :: 0 <= i < |told| && told[i].connection == k ==> told[i].first == (k == 0))
      && forall i, j :: 0 <= i < j < |told| && told[i].connection == told[j].connection == k ==> told[i].watcher < told[j].watcher
  {
    ReachableOk(steps);
    CalledIffInTime(steps, k, h);
    var s := Execute(FRESH, steps);
    if WasTold(s.told, k, h) {
      var i :| 0 <= i < |s.told| && s.told[i] == Told(k, h, k == 0);
      assert h < s.rounds[k].called;
    }
  }

  /** A round that is let run, with no handler added, calls the ones left once
   *  each, and then it is over. */
  lemma {:induction false} RoundRunsOut(s: State, k: nat) returns (steps: seq<Step>)
    requires Open(s, k) && s.rounds[k].called <= s.watchers
    ensures var s' := Execute(s, steps); Ended(s', k) && s'.rounds[k].called == s'.watchers == s.watchers
    ensures |Execute(s, steps).told| == |s.told| + (s.watchers - s.rounds[k].called)
    decreases s.watchers - s.rounds[k].called
  {
    var step := if s.rounds[k].called == s.watchers then EndRound(k) else Call(k);
    var s' := Apply(s, step);
    if step.EndRound? {
      steps := [step];
      assert Execute(s', []) == s' && [step][1..] == [];
    } else {
      var rest := RoundRunsOut(s', k);
      steps := [step] + rest;
      assert steps[1..] == rest;
    }
  }

  // Two reconnect handlers; the first connection has called one of them, and
  // then a second connection is up as well.
  const ONE_CALLED := State(
    false, 1, false, Some(Attempt(1, {})), true, 1, 0, {}, {}, {}, 2, [Round(1, true)], {}, [Told(0, 0, true)], [])
  const TWO_ROUNDS := State(
    false, 3, false, Some(Attempt(3, {})), true, 2, 0, {}, {}, {}, 2, [Round(1, true), Round(0, true)],
    {}, [Told(0, 0, true)], [])

  lemma FirstRound()
    ensures Reached(ONE_CALLED)
  {
    var a1 := Attempt(1, {});
    var s1, s2 := FRESH.(watchers := 1), FRESH.(watchers := 2);
    var s3 := s2.(generation := 1, attempts := {a1});
    var s4 := ONE_CALLED.(rounds := [Round(0, true)], told := []);
    FreshIsReached();
    Then(FRESH, Watch, s1);
    Then(s1, Watch, s2);
    Then(s2, Start, s3);
    assert s3.attempts - {a1} == {};
    Then(s3, Connect(a1), s4);
    Then(s4, Call(0), ONE_CALLED);
  }

  lemma SecondRound()
    ensures Reached(TWO_ROUNDS)
  {
    var a2 := Attempt(3, {});
    var s1 := ONE_CALLED.(generation := 2, connected := false, listener := None, timer := true, failures := 1);
    var s2 := s1.(generation := 3, timer := false, attempts := {a2});
    FirstRound();
    Then(ONE_CALLED, Die(1), s1);
    Then(s1, TimerFires, s2);
    assert s2.attempts - {a2} == {};
    assert [Round(1, true)] + [Round(0, true)] == [Round(1, true), Round(0, true)];
    Then(s2, Connect(a2), TWO_ROUNDS);
  }

  /** Rounds are not kept apart: a reconnection's handlers may all run while the
   *  first connection's second handler is yet to be called. */
  lemma RoundsOverlap()
    ensures exists s :: Reached(s) && s.told == [Told(0, 0, true), Told(1, 0, false), Told(1, 1, false), Told(0, 1, true)]
  {
    var s1 := TWO_ROUNDS.(rounds := [Round(1, true), Round(1, true)], told := [Told(0, 0, true), Told(1, 0, false)]);
    var s2 := s1.(rounds := [Round(1, true), Round(2, true)], told := s1.told + [Told(1, 1, false)]);
    var s3 := s2.(rounds := [Round(2, true), Round(2, true)], told := s2.told + [Told(0, 1, true)]);
    SecondRound();
    assert TWO_ROUNDS.rounds[1 := Round(1, true)] == s1.rounds;
    assert s1.rounds[1 := Round(2, true)] == s2.rounds && s2.rounds[0 := Round(2, true)] == s3.rounds;
    Then(TWO_ROUNDS, Call(1), s1);
    Then(s1, Call(1), s2);
    Then(s2, Call(0), s3);
  }

  /** What is told from here on is told connection by connection. */
  ghost predicate InTurn(s: State, after: seq<Step>) {
    var told := Execute(s, after).told;
    forall i, j :: |s.told| <= i < j < |told| ==> told[i].connection <= told[j].connection
  }

  ghost predicate KeptApart(s: State) {
    forall after: seq<Step> :: Execute(s, after).connects == s.connects ==> InTurn(s, after)
  }

  ghost predicate OneOpen(s: State) {
    forall j: nat, k: nat :: Open(s, j) && Open(s, k) ==> j == k
  }

  lemma CallsStay(s: State, step: Step)
    ensures s.connects <= Apply(s, step).connects && s.told <= Apply(s, step).told
    ensures forall i :: |s.told| <= i < |Apply(s, step).told| ==> Open(s, Apply(s, step).told[i].connection)
    ensures Apply(s, step).connects == s.connects ==> forall k: nat :: Open(Apply(s, step), k) ==> Open(s, k)
  {
  }

  /** With no connection going live, only rounds that are open now go on. */
  lemma {:induction false} OnlyOpenCall(s: State, after: seq<Step>)
    ensures s.connects <= Execute(s, after).connects && s.told <= Execute(s, after).told
    ensures Execute(s, after).connects == s.connects ==>
      forall i :: |s.told| <= i < |Execute(s, after).told| ==> Open(s, Execute(s, after).told[i].connection)
    decreases |after|
  {
    if after != [] {
      var s' := Apply(s, after[0]);
      CallsStay(s, after[0]);
      OnlyOpenCall(s', after[1..]);
      var told := Execute(s, after).told;
      if Execute(s, after).connects == s.connects {
        forall i | |s.told| <= i < |told| ensures Open(s, told[i].connection) {
          if i < |s'.told| {
            assert told[i] == s'.told[i];
          } else {
            assert Open(s', told[i].connection);
          }
        }
      }
    }
  }

  /** Two open rounds, and handlers enough, and the later one goes first. */
  lemma OpenRoundsCross(s: State, j: nat, k: nat)
    requires ToldOk(s) && Open(s, j) && Open(s, k) && j < k
    ensures !KeptApart(s)
  {
    var s1 := Apply(s, Watch);
    var s2, s3 := Apply(s1, Call(k)), Apply(Apply(s1, Call(k)), Call(j));
    var after := [Watch, Call(k), Call(j)];
    assert after[1..] == [Call(k), Call(j)] && after[1..][1..] == [Call(j)] && [Call(j)][1..] == [];
    assert Execute(s3, []) == s3 && Execute(s2, [Call(j)]) == s3 && Execute(s1, [Call(k), Call(j)]) == s3;
    assert Execute(s, after) == s3;
    assert s3.told == s.told + [Told(k, s.rounds[k].called, k == 0)] + [Told(j, s.rounds[j].called, j == 0)];
    var n := |s.told|;
    assert s3.told[n].connection == k && s3.told[n + 1].connection == j;
    assert !InTurn(s, after);
  }

  lemma OneOpenIsInTurn(s: State)
    requires OneOpen(s)
    ensures KeptApart(s)
  {
    forall after | Execute(s, after).connects == s.connects ensures InTurn(s, after) {
      OnlyOpenCall(s, after);
    }
  }

  /** When the rounds of several connections are kept apart: from any state of
   *  any run, whatever follows short of another connection tells them in turn
   *  exactly when at most one round is open. */
  lemma KeptApartIff(before: seq<Step>)
    ensures KeptApart(Execute(FRESH, before)) <==> OneOpen(Execute(FRESH, before))
  {
    var s := Execute(FRESH, before);
    ReachableOk(before);
    if OneOpen(s) {
      OneOpenIsInTurn(s);
    } else {
      var j: nat, k: nat :| Open(s, j) && Open(s, k) && j != k;
      OpenRoundsCross(s, if j < k then j else k, if j < k then k else j);
    }
  }

  /** Once a connection is given up, nothing it still has to say is heard. */
  lemma {:induction false} DeadConnectionsAreSilent(s: State, steps: seq<Step>, generation: nat)
    requires generation < s.generation
    ensures |Execute(s, steps).delivered| >= |s.delivered|
    ensures forall i :: |s.delivered| <= i < |Execute(s, steps).delivered| ==> Execute(s, steps).delivered[i].generation > generation
    decreases |steps|
  {
    if steps != [] {
      var s' := Apply(s, steps[0]);
      GenerationStep(s, steps[0]);
      DeadConnectionsAreSilent(s', steps[1..], generation);
      forall i | |s.delivered| <= i < |Execute(s, steps).delivered|
        ensures Execute(s, steps).delivered[i].generation > generation
      {
        if i < |s'.delivered| {
          HistoryStays(s', steps[1..]);
          assert Execute(s, steps).delivered[i] == s'.delivered[i];
        }
      }
    }
  }

  lemma GenerationStep(s: State, step: Step)
    ensures s.generation <= Apply(s, step).generation
    ensures s.delivered <= Apply(s, step).delivered
    ensures forall i :: |s.delivered| <= i < |Apply(s, step).delivered| ==> Apply(s, step).delivered[i].generation == s.generation
  {
  }

  lemma {:induction false} HistoryStays(s: State, steps: seq<Step>)
    ensures s.delivered <= Execute(s, steps).delivered
    decreases |steps|
  {
    if steps != [] {
      GenerationStep(s, steps[0]);
      HistoryStays(Apply(s, steps[0]), steps[1..]);
    }
  }

  // ---- The object ----

  class PgBus {
    var closed: bool
    var generation: nat
    var connected: bool
    var connects: nat
    var failures: nat
    /** The connection that is up, told apart by its generation. */
    var listener: Option<nat>
    var reconnectTimer: bool
    var handlers: set<Channel>

    /** The object holds what the modelled bus has in memory. */
    ghost predicate Holds(s: State)
      reads this
    {
      && closed == s.closed && generation == s.generation && connected == s.connected && connects == s.connects
      && failures == s.failures && reconnectTimer == s.timer && handlers == s.handlers
      && listener == if s.listener.Some? then Some(s.listener.value.generation) else None
    }

    constructor ()
      ensures Holds(FRESH)
    {
      closed, generation, connected, connects, failures := false, 0, false, 0, 0;
      listener, reconnectTimer, handlers := None, false, {};
    }

    method Start(ghost s: State) returns (attempt: Option<Attempt>)
      requires Holds(s)
      modifies this
      ensures Holds(Apply(s, Step.Start))
      ensures attempt.Some? <==> !s.closed && s.listener.None? && !s.timer
      ensures attempt.Some? ==> attempt.value in Apply(s, Step.Start).attempts && attempt.value.generation == generation
    {
      attempt := None;
      if closed || listener.Some? || reconnectTimer {
        return;
      }
      attempt := ConnectListener();
    }

    /** Opens a connection under the next generation. */
    method ConnectListener() returns (attempt: Option<Attempt>)
      modifies this`generation
      ensures attempt == if closed then None else Some(Attempt(generation, {}))
      ensures generation == if closed then old(generation) else old(generation) + 1
    {
      if closed {
        return None;
      }
      generation := generation + 1;
      attempt := Some(Attempt(generation, {}));
    }

    /** A new channel: while a connection is up, it is asked for there, and the
     *  answer is not waited for. */
    method SubscribeTo(channel: Channel, ghost s: State) returns (ask: Option<Ask>)
      requires Holds(s)
      modifies this`handlers
      ensures Holds(Apply(s, Subscribe(channel)))
      ensures Apply(s, Subscribe(channel)).asked == s.asked + if ask.Some? then {ask.value} else {}
    {
      ask := if channel !in handlers && listener.Some? then Some(Ask(listener.value, channel)) else None;
      handlers := handlers + {channel};
    }

    /** The connection is made and listens on every channel; `current` is false
     *  when it is to be ended instead. Its round of handlers, to be told
     *  `first`, begins. */
    method Connected(attempt: Attempt, ghost s: State) returns (current: bool, first: bool)
      requires Holds(s) && attempt in s.attempts && handlers <= attempt.listened
      modifies this
      ensures Holds(Apply(s, Connect(attempt))) && current == !Stale(s, attempt.generation)
      ensures current ==> |Apply(s, Connect(attempt)).rounds| == |s.rounds| + 1 && (first <==> s.connects == 0)
    {
      current, first := !(closed || attempt.generation != generation), false;
      if !current {
        return;
      }
      listener, connected := Some(attempt.generation), true;
      first := connects == 0;
      failures := 0;
      connects := connects + 1;
    }

    method ConnectFailed(attempt: Attempt, ghost s: State)
      requires Holds(s) && attempt in s.attempts
      modifies this
      ensures Holds(Apply(s, Fail(attempt)))
    {
      if !(closed || attempt.generation != generation) {
        ScheduleReconnect();
      }
    }

    method ScheduleReconnect()
      modifies this`failures, this`reconnectTimer
      ensures reconnectTimer == (old(reconnectTimer) || !closed)
      ensures failures == if closed || old(reconnectTimer) then old(failures) else old(failures) + 1
    {
      if closed || reconnectTimer {
        return;
      }
      failures := failures + 1;
      reconnectTimer := true;
    }

    /** An error, the end of the connection, or a heartbeat it missed. */
    method DropListener(of: nat, ghost s: State)
      requires Holds(s)
      modifies this
      ensures Holds(Apply(s, Die(of)))
    {
      if closed || of != generation {
        return;
      }
      generation := generation + 1;
      connected := false;
      listener := None;
      ScheduleReconnect();
    }

    method TimerFired(ghost s: State) returns (attempt: Option<Attempt>)
      requires Holds(s) && reconnectTimer
      modifies this
      ensures Holds(Apply(s, TimerFires)) && (attempt.Some? <==> !s.closed)
      ensures attempt.Some? ==> attempt.value in Apply(s, TimerFires).attempts && attempt.value.generation == generation
    {
      reconnectTimer := false;
      attempt := ConnectListener();
    }

    method Shut(ghost s: State)
      requires Holds(s)
      modifies this
      ensures Holds(Apply(s, Close))
    {
      closed := true;
      generation := generation + 1;
      connected := false;
      reconnectTimer := false;
      listener := None;
    }
  }
}
