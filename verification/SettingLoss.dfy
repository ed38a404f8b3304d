/** When the account is left without something a device knows. */
module SettingLoss {
  // Pushes may fail, and pushes of one device may overtake each other. Over every
  // such run a fact that nobody brings to the account any more was abandoned by
  // a step of one of two kinds.

  import opened Decisions
  import opened Facts
  import opened Prelude
  import opened SettingAgreement
  import opened SettingSync

  ghost predicate Knows(w: World, d: DevId, fact: Fact) {
    d in w.devices && fact in w.devices[d].learned
  }

  ghost predicate SomebodyKnows(w: World, fact: Fact) {
    exists d :: Knows(w, d, fact)
  }

  ghost predicate InAccount(w: World, fact: Fact) {
    w.stamp > 0 && Absorbed(w.blob.payload.learned, fact)
  }

  ghost predicate Carries(w: World, push: PushId, fact: Fact) {
    push in w.pushes && Absorbed(w.pushes[push].learned, fact)
  }

  ghost predicate OnItsWay(w: World, fact: Fact) {
    exists push :: Carries(w, push, fact)
  }

  /** The device owes a push, or will compare when it next pulls. */
  ghost predicate WillTell(w: World, d: DevId) {
    d in w.devices && (w.devices[d].owed || w.devices[d].mark != w.stamp)
  }

  ghost predicate WillBeTold(w: World, fact: Fact) {
    exists d :: Knows(w, d, fact) && WillTell(w, d)
  }

  /** Somebody knows the fact, the account does not answer for it, and nothing
   *  will bring it there. */
  ghost predicate Abandoned(w: World, fact: Fact) {
    SomebodyKnows(w, fact) && !InAccount(w, fact) && !OnItsWay(w, fact) && !WillBeTold(w, fact)
  }

  /** The step abandons the fact: the last push that carried it fails, or a device
   *  takes its own blob, which lacks the fact, for seen, while everybody else who
   *  knows it is done. */
  ghost predicate Abandons(w: World, step: Step, fact: Fact) {
    && SomebodyKnows(w, fact) && !InAccount(w, fact)
    && match step
       case LosePush(push) =>
         Carries(w, push, fact) && !WillBeTold(w, fact) && forall other :: other != push ==> !Carries(w, other, fact)
       case PushDone(reply) =>
         && reply in w.replies && Knows(w, reply.dev, fact) && !w.devices[reply.dev].owed
         && reply.stamp == w.stamp && !OnItsWay(w, fact)
         && forall d :: d != reply.dev && Knows(w, d, fact) ==> !WillTell(w, d)
       case _ => false
  }

  /** What the device of a landing answer has learned then. */
  ghost function LearnedThen(w: World, answer: Fetched): iset<Fact>
    requires answer.dev in w.devices
  {
    if answer.stamp == 0 then w.devices[answer.dev].learned else w.devices[answer.dev].learned + answer.payload.learned
  }

  ghost predicate PushesBack(w: World, answer: Fetched)
    requires answer.dev in w.devices
  {
    answer.stamp == 0 || KnewMore(w.devices[answer.dev].record, answer.payload.record)
  }

  /** The step gives the fact another chance: a device that knows it changes or
   *  pushes, learns it from an old answer, or forgets what it had seen; or the
   *  blob is replaced, which everybody will pull. */
  ghost predicate Revives(w: World, step: Step, fact: Fact) {
    match step
    case Flip(d, _) => Knows(w, d, fact)
    case PushDue(d) => d in w.devices && w.devices[d].owed && Absorbed(w.devices[d].learned, fact)
    case Put(push, at) => push in w.pushes && push.dev in w.devices && at > w.stamp
    case PushDone(reply) => reply in w.replies && Knows(w, reply.dev, fact) && reply.stamp != w.stamp
    case Land(answer) =>
      && answer in w.fetched && answer.dev in w.devices && (answer.stamp == 0 || answer.stamp > w.devices[answer.dev].mark)
      && (if PushesBack(w, answer) then Absorbed(LearnedThen(w, answer), fact) else fact in answer.payload.learned)
    case LosePush(_) => false
    case Fetch(_) => false
    case _ =>
      && step.d in w.devices && ChangeOf(w.devices[step.d].record, step).Some?
      && fact in w.devices[step.d].learned + ChangeOf(w.devices[step.d].record, step).value.facts
  }

  // ---- The law ----

  /** One device becomes another, with the account as it was and the pushes as
   *  they were but for one that may begin. */
  ghost predicate Locally(w: World, w': World, d: DevId) {
    && d in w.devices && d in w'.devices && w'.devices == w.devices[d := w'.devices[d]]
    && w'.stamp == w.stamp && w'.blob == w.blob && w.devices[d].learned <= w'.devices[d].learned
  }

  lemma LocalKnowledge(w: World, w': World, d: DevId, fact: Fact)
    requires Locally(w, w', d)
    ensures InAccount(w', fact) <==> InAccount(w, fact)
    ensures SomebodyKnows(w', fact) <==> SomebodyKnows(w, fact) || Knows(w', d, fact)
    ensures WillBeTold(w', fact) <==>
      || (Knows(w', d, fact) && WillTell(w', d))
      || (exists o :: o != d && Knows(w, o, fact) && WillTell(w, o))
  {
    forall o | o != d ensures (Knows(w', o, fact) <==> Knows(w, o, fact)) && (WillTell(w', o) <==> WillTell(w, o)) {
    }
    if o :| Knows(w, o, fact) {
      assert Knows(w', o, fact);
    }
    if o :| o != d && Knows(w, o, fact) && WillTell(w, o) {
      assert Knows(w', o, fact) && WillTell(w', o);
    }
  }

  lemma SamePushes(w: World, w': World, fact: Fact)
    requires w'.pushes == w.pushes
    ensures OnItsWay(w', fact) <==> OnItsWay(w, fact)
  {
    forall push ensures Carries(w', push, fact) <==> Carries(w, push, fact) {
    }
  }

  /** The pushes of a device are numbered, so one that begins replaces none. */
  ghost predicate Numbered(w: World) {
    forall push :: push in w.pushes && push.dev in w.devices ==> push.serial < w.devices[push.dev].begun
  }

  lemma OneMorePush(w: World, d: DevId, device: Device, fact: Fact)
    requires d in w.devices && Numbered(w) && device.begun == w.devices[d].begun
    ensures OnItsWay(BeginPush(w, d, device), fact) <==> OnItsWay(w, fact) || Absorbed(device.learned, fact)
  {
    var w', id := BeginPush(w, d, device), PushId(d, device.begun);
    assert id !in w.pushes;
    forall push | push != id ensures Carries(w', push, fact) <==> Carries(w, push, fact) {
    }
    assert Carries(w', id, fact) <==> Absorbed(device.learned, fact);
    if push :| Carries(w, push, fact) {
      assert Carries(w', push, fact);
    }
  }

  /** A device that changes and now has to tell. */
  lemma OwingLaw(w: World, d: DevId, device: Device, fact: Fact)
    requires d in w.devices && w.devices[d].learned <= device.learned && device.owed
    ensures var w' := w.(devices := w.devices[d := device]);
      Abandoned(w', fact) <==> Abandoned(w, fact) && fact !in device.learned
  {
    var w' := w.(devices := w.devices[d := device]);
    LocalKnowledge(w, w', d, fact);
    SamePushes(w, w', fact);
    if o :| Knows(w, o, fact) && WillTell(w, o) {
      assert o == d || (o != d && Knows(w, o, fact) && WillTell(w, o));
    }
  }

  /** A device that begins a push, with whatever it has learned by then. */
  lemma PushingLaw(w: World, d: DevId, device: Device, fact: Fact)
    requires d in w.devices && Numbered(w) && device.begun == w.devices[d].begun && w.devices[d].learned <= device.learned
    ensures Abandoned(BeginPush(w, d, device), fact) <==> Abandoned(w, fact) && !Absorbed(device.learned, fact)
  {
    var w' := BeginPush(w, d, device);
    LocalKnowledge(w, w', d, fact);
    OneMorePush(w, d, device, fact);
    if fact in device.learned {
      HeldIsAbsorbed(device.learned, iset{fact});
    }
    if o :| Knows(w, o, fact) && WillTell(w, o) {
      assert o == d || (o != d && Knows(w, o, fact) && WillTell(w, o));
    }
  }

  lemma PutLaw(w: World, push: PushId, at: nat, fact: Fact)
    requires Rep(w) && push in w.pushes && push.dev in w.devices && at > w.stamp
    ensures !Abandoned(OnPut(w, push, at), fact)
  {
    var w' := OnPut(w, push, at);
    if d :| Knows(w', d, fact) {
      assert GoodDevice(w, d);
      assert WillTell(w', d);
    }
  }

  lemma LoseLaw(w: World, push: PushId, fact: Fact)
    ensures Abandoned(Apply(w, LosePush(push)), fact) <==> Abandoned(w, fact) || Abandons(w, LosePush(push), fact)
  {
    var w' := Apply(w, LosePush(push));
    assert forall d :: Knows(w', d, fact) <==> Knows(w, d, fact);
    assert forall d :: WillTell(w', d) <==> WillTell(w, d);
    assert forall p :: Carries(w', p, fact) <==> p != push && Carries(w, p, fact);
  }

  lemma DoneLaw(w: World, reply: Reply, fact: Fact)
    requires reply in w.replies && reply.dev in w.devices
    ensures var step := PushDone(reply);
      Abandoned(Apply(w, step), fact) <==> (Abandoned(w, fact) && !Revives(w, step, fact)) || Abandons(w, step, fact)
  {
    var d, w' := reply.dev, Apply(w, PushDone(reply));
    LocalKnowledge(w, w', d, fact);
    SamePushes(w, w', fact);
    assert Knows(w', d, fact) <==> Knows(w, d, fact);
    if o :| Knows(w, o, fact) && WillTell(w, o) {
      assert o == d || (o != d && Knows(w, o, fact) && WillTell(w, o));
    }
  }

  /** An answer that lands without news: a device that learns the fact from it,
   *  or knew it, has an account that answers for it, or has an old answer and
   *  will compare again. */
  lemma SeenLaw(w: World, d: DevId, stamp: nat, payload: Payload, fact: Fact)
    requires d in w.devices && w.devices[d].mark < stamp <= w.stamp && (stamp == w.stamp ==> payload == w.blob.payload)
    requires Covers(payload.learned, w.devices[d].learned + payload.learned)
    ensures var w' := w.(devices := w.devices[d := Pulled(w.devices[d], stamp, payload)]);
      Abandoned(w', fact) <==> Abandoned(w, fact) && fact !in payload.learned
  {
    var w' := w.(devices := w.devices[d := Pulled(w.devices[d], stamp, payload)]);
    LocalKnowledge(w, w', d, fact);
    SamePushes(w, w', fact);
    assert stamp != w.stamp ==> WillTell(w', d);
    assert stamp == w.stamp && Knows(w', d, fact) ==> InAccount(w, fact);
    assert WillTell(w, d);
    if o :| Knows(w, o, fact) && WillTell(w, o) {
      assert o == d || (o != d && Knows(w, o, fact) && WillTell(w, o));
    }
  }

  lemma NoNewsLaw(w: World, answer: Fetched, fact: Fact)
    requires Rep(w) && Sound(Everyone(w)) && answer in w.fetched && answer.dev in w.devices
    requires answer.stamp > w.devices[answer.dev].mark && !KnewMore(w.devices[answer.dev].record, answer.payload.record)
    ensures Abandoned(OnLand(w, answer), fact) <==> Abandoned(w, fact) && fact !in answer.payload.learned
  {
    PulledIsGood(w, answer);
    assert GoodAnswer(w, answer);
    NothingNewSeen(answer.payload, w.devices[answer.dev].learned);
    SeenLaw(w, answer.dev, answer.stamp, answer.payload, fact);
  }

  lemma LandLaw(w: World, answer: Fetched, fact: Fact)
    requires Rep(w) && Numbered(w) && Sound(Everyone(w)) && answer in w.fetched && answer.dev in w.devices
    ensures Abandoned(OnLand(w, answer), fact) <==> Abandoned(w, fact) && !Revives(w, Land(answer), fact)
  {
    var device := w.devices[answer.dev];
    if answer.stamp == 0 {
      SeedLaw(w, answer, fact);
    } else if answer.stamp > device.mark {
      if KnewMore(device.record, answer.payload.record) {
        NewsLaw(w, answer, fact);
      } else {
        NoNewsLaw(w, answer, fact);
      }
    }
  }

  lemma SeedLaw(w: World, answer: Fetched, fact: Fact)
    requires Numbered(w) && answer in w.fetched && answer.dev in w.devices && answer.stamp == 0
    ensures Abandoned(OnLand(w, answer), fact) <==> Abandoned(w, fact) && !Revives(w, Land(answer), fact)
  {
    PushingLaw(w, answer.dev, w.devices[answer.dev], fact);
  }

  lemma NewsLaw(w: World, answer: Fetched, fact: Fact)
    requires Numbered(w) && answer in w.fetched && answer.dev in w.devices && 0 < answer.stamp
    requires answer.stamp > w.devices[answer.dev].mark && KnewMore(w.devices[answer.dev].record, answer.payload.record)
    ensures Abandoned(OnLand(w, answer), fact) <==> Abandoned(w, fact) && !Revives(w, Land(answer), fact)
  {
    PushingLaw(w, answer.dev, Pulled(w.devices[answer.dev], answer.stamp, answer.payload), fact);
  }

  /** The law, for every step: a fact is abandoned after it exactly when it was
   *  and got no other chance, or the step abandons it. */
  lemma AbandonedAfterStep(w: World, step: Step, fact: Fact)
    requires Rep(w) && Numbered(w) && Sound(Everyone(w))
    ensures Abandoned(Apply(w, step), fact) <==>
      (Abandoned(w, fact) && !Revives(w, step, fact)) || Abandons(w, step, fact)
  {
    match step
    case Flip(d, switches) =>
      if d in w.devices { OwingLaw(w, d, w.devices[d].(switches := switches, owed := true), fact); }
    case PushDue(d) =>
      if d in w.devices && w.devices[d].owed { PushingLaw(w, d, w.devices[d].(owed := false), fact); }
    case Put(push, at) => if push in w.pushes && push.dev in w.devices && at > w.stamp { PutLaw(w, push, at, fact); }
    case LosePush(push) => LoseLaw(w, push, fact);
    case PushDone(reply) => if reply in w.replies && reply.dev in w.devices { DoneLaw(w, reply, fact); }
    case Fetch(d) => FetchLaw(w, d, fact);
    case Land(answer) => if answer in w.fetched && answer.dev in w.devices { LandLaw(w, answer, fact); }
    case _ => ChangeLaw(w, step, fact);
  }

  lemma ChangeLaw(w: World, step: Step, fact: Fact)
    requires step.Decide? || step.SetPin? || step.RememberSearch?
    ensures Abandoned(Apply(w, step), fact) <==> Abandoned(w, fact) && !Revives(w, step, fact)
  {
    if step.d in w.devices && ChangeOf(w.devices[step.d].record, step).Some? {
      OwingLaw(w, step.d, Changed(w.devices[step.d], ChangeOf(w.devices[step.d].record, step).value), fact);
    }
  }

  lemma FetchLaw(w: World, d: DevId, fact: Fact)
    ensures Abandoned(Apply(w, Fetch(d)), fact) <==> Abandoned(w, fact)
  {
    var w' := Apply(w, Fetch(d));
    assert forall o :: Knows(w', o, fact) <==> Knows(w, o, fact);
    assert forall o :: WillTell(w', o) <==> WillTell(w, o);
    SamePushes(w, w', fact);
  }

  lemma NumberedStep(w: World, step: Step)
    requires Numbered(w)
    ensures Numbered(Apply(w, step))
  {
  }

  // ---- Runs ----

  /** Of the steps that concern the fact, the last one abandoned it. */
  ghost predicate AbandonedForGood(w: World, steps: seq<Step>, fact: Fact) {
    exists i :: AbandonedAt(w, steps, i, fact)
  }

  ghost predicate AbandonedAt(w: World, steps: seq<Step>, i: int, fact: Fact) {
    && 0 <= i < |steps| && Abandons(Execute(w, steps[..i]), steps[i], fact)
    && forall j :: i < j < |steps| ==> !Revives(Execute(w, steps[..j]), steps[j], fact)
  }

  lemma StillAbandoned(w: World, steps: seq<Step>, step: Step, fact: Fact)
    requires AbandonedForGood(w, steps, fact) && !Revives(Execute(w, steps), step, fact)
    ensures AbandonedForGood(w, steps + [step], fact)
  {
    var all, k := steps + [step], |steps|;
    var i :| AbandonedAt(w, steps, i, fact);
    assert all[..k] == steps && all[k] == step;
    forall j | 0 <= j < k ensures all[..j] == steps[..j] && all[j] == steps[j] {
    }
    assert AbandonedAt(w, all, i, fact);
  }

  lemma WasAbandoned(w: World, steps: seq<Step>, step: Step, fact: Fact)
    requires AbandonedForGood(w, steps + [step], fact) && !Abandons(Execute(w, steps), step, fact)
    ensures AbandonedForGood(w, steps, fact) && !Revives(Execute(w, steps), step, fact)
  {
    var all, k := steps + [step], |steps|;
    var i :| AbandonedAt(w, all, i, fact);
    assert all[..k] == steps && all[k] == step;
    forall j | 0 <= j < k ensures all[..j] == steps[..j] && all[j] == steps[j] {
    }
    forall j | i < j < k ensures !Revives(Execute(w, steps[..j]), steps[j], fact) {
      assert !Revives(Execute(w, all[..j]), all[j], fact);
    }
    assert AbandonedAt(w, steps, i, fact);
  }

  lemma AbandonedMore(w: World, steps: seq<Step>, step: Step, fact: Fact)
    ensures AbandonedForGood(w, steps + [step], fact) <==>
      || Abandons(Execute(w, steps), step, fact)
      || (AbandonedForGood(w, steps, fact) && !Revives(Execute(w, steps), step, fact))
  {
    if Abandons(Execute(w, steps), step, fact) {
      assert (steps + [step])[..|steps|] == steps;
      assert AbandonedAt(w, steps + [step], |steps|, fact);
    } else if AbandonedForGood(w, steps + [step], fact) {
      WasAbandoned(w, steps, step, fact);
    } else if AbandonedForGood(w, steps, fact) && !Revives(Execute(w, steps), step, fact) {
      StillAbandoned(w, steps, step, fact);
    }
  }

  lemma {:induction false} InTimePrefix(w: World, steps: seq<Step>, k: nat)
    requires k <= |steps| && InTimeRun(w, steps)
    ensures InTimeRun(w, steps[..k])
    ensures Everyone(Execute(w, steps[..k])) <= Everyone(Execute(w, steps))
    decreases |steps|
  {
    if k == 0 {
      EveryoneStaysRun(w, steps);
    } else {
      assert steps[..k][1..] == steps[1..][..k - 1];
      InTimePrefix(Apply(w, steps[0]), steps[1..], k - 1);
    }
  }

  lemma {:induction false} NumberedRun(w: World, steps: seq<Step>)
    requires Numbered(w)
    ensures Numbered(Execute(w, steps))
    decreases |steps|
  {
    if steps != [] {
      NumberedStep(w, steps[0]);
      NumberedRun(Apply(w, steps[0]), steps[1..]);
    }
  }

  lemma {:induction false} AbandonedAfterRun(w0: World, steps: seq<Step>, fact: Fact)
    requires Initial(w0) && InTimeRun(w0, steps) && Sound(Everyone(Execute(w0, steps)))
    ensures Abandoned(Execute(w0, steps), fact) <==> AbandonedForGood(w0, steps, fact)
    decreases |steps|
  {
    if steps != [] {
      var k := |steps| - 1;
      var before := steps[..k];
      assert steps == before + [steps[k]];
      InTimePrefix(w0, steps, k);
      SoundSubset(Everyone(Execute(w0, steps)), Everyone(Execute(w0, before)));
      AbandonedAfterRun(w0, before, fact);
      StartsGood(w0);
      RepRun(w0, before);
      NumberedRun(w0, before);
      AbandonedAfterStep(Execute(w0, before), steps[k], fact);
      ExecuteMore(w0, before, steps[k]);
      AbandonedMore(w0, before, steps[k], fact);
    } else {
      forall d | d in w0.devices ensures fact !in w0.devices[d].learned {
        assert New(w0.devices[d]);
      }
    }
  }

  /** When all is quiet, over every run: the account does not answer for a fact
   *  that some device knows exactly when a step abandoned it and none after gave
   *  it another chance. */
  lemma QuietLacksIff(w0: World, steps: seq<Step>, fact: Fact)
    requires Initial(w0) && InTimeRun(w0, steps)
    requires var w := Execute(w0, steps); Sound(Everyone(w)) && Quiet(w) && SomebodyKnows(w, fact)
    ensures var w := Execute(w0, steps);
      !Absorbed(FactsOf(w.blob.payload.record), fact) <==> AbandonedForGood(w0, steps, fact)
  {
    var w := Execute(w0, steps);
    StartsGood(w0);
    RepRun(w0, steps);
    AbandonedAfterRun(w0, steps, fact);
    assert GoodPayload(w, w.blob.payload);
    HeldIsAbsorbed(w.blob.payload.learned, FactsOf(w.blob.payload.record));
    if Absorbed(w.blob.payload.learned, fact) {
      AbsorbedThrough(FactsOf(w.blob.payload.record), w.blob.payload.learned, fact);
    }
    if Absorbed(FactsOf(w.blob.payload.record), fact) {
      AbsorbedThrough(w.blob.payload.learned, FactsOf(w.blob.payload.record), fact);
    }
  }
}
