/** When every device has seen the latest settings, all hold the same. */
module SettingAgreement {
  import opened Decisions
  import opened Facts
  import opened Prelude
  import opened SettingSync

  // ---- Invariant ----

  /** Where a device's switches come from while it owes no push: the last pull
   *  since its last push began, or that push. */
  predicate SwitchesOk(device: Device) {
    !device.owed ==> device.switches == device.pulled.GetOr(device.sentSwitches)
  }

  ghost predicate DeviceOk(w: World, d: DevId)
    requires d in w.devices
  {
    var device := w.devices[d];
    && device.sentOwn <= device.own && (!device.owed ==> device.own <= device.sentOwn)
    && device.landed <= device.begun && SwitchesOk(device)
    && forall serial: nat :: PushId(d, serial) in w.pushes <==> device.landed <= serial < device.begun
  }

  /** A snapshot of the device: its last one has what it had decided. */
  ghost predicate SnapshotOk(device: Device, payload: Payload, last: bool) {
    && payload.learned <= device.learned
    && (last ==> device.sentOwn <= payload.learned && payload.switches == device.sentSwitches)
  }

  ghost predicate PushOk(w: World, push: PushId)
    requires push in w.pushes
  {
    push.dev in w.devices && SnapshotOk(w.devices[push.dev], w.pushes[push], push.serial + 1 == w.devices[push.dev].begun)
  }

  ghost predicate BlobOk(w: World) {
    w.stamp > 0 ==>
      var push := w.blob.push;
      && push.dev in w.devices && push.serial + 1 == w.devices[push.dev].landed
      && SnapshotOk(w.devices[push.dev], w.blob.payload, push.serial + 1 == w.devices[push.dev].begun)
  }

  /** A device with nothing under way that has seen the blob, somebody else's,
   *  knows what the blob does and nothing the blob does not answer for. */
  ghost predicate SeenOk(w: World, d: DevId)
    requires d in w.devices
  {
    var device := w.devices[d];
    w.stamp > 0 && device.mark == w.stamp && d != w.blob.push.dev && !device.owed && device.landed == device.begun ==>
      && w.blob.payload.learned <= device.learned && Covers(w.blob.payload.learned, device.learned)
      && device.switches == w.blob.payload.switches
  }

  ghost predicate Flow(w: World) {
    && (forall d :: d in w.devices ==> DeviceOk(w, d) && SeenOk(w, d))
    && (forall push :: push in w.pushes ==> PushOk(w, push))
    && BlobOk(w)
  }

  ghost predicate Inv(w: World) {
    Rep(w) && Flow(w)
  }

  /** No push is lost, and a device's pushes arrive in the order they began. */
  ghost predicate Orderly(w: World, step: Step) {
    && InTime(w, step) && !step.LosePush?
    && (step.Put? && step.push.dev in w.devices ==> step.push.serial == w.devices[step.push.dev].landed)
  }

  ghost predicate OrderlyRun(w: World, steps: seq<Step>)
    decreases |steps|
  {
    steps == [] || (Orderly(w, steps[0]) && OrderlyRun(Apply(w, steps[0]), steps[1..]))
  }

  /** What device `d` becomes may rest on nothing but its own history. */
  ghost predicate Becomes(w: World, d: DevId, device: Device)
    requires d in w.devices
  {
    var was := w.devices[d];
    && was.learned <= device.learned && was.own <= device.own
    && device.sentOwn == was.sentOwn && device.sentSwitches == was.sentSwitches
    && device.begun == was.begun && device.landed == was.landed
  }

  /** The other devices do not notice. */
  lemma OthersKeep(w: World, w': World, d: DevId, o: DevId)
    requires Flow(w) && d in w.devices && o in w.devices && o != d
    requires w'.devices.Keys == w.devices.Keys && w'.devices[o] == w.devices[o]
    requires w'.stamp == w.stamp && w'.blob == w.blob
    requires forall push: PushId :: push.dev != d ==> (push in w'.pushes <==> push in w.pushes)
    ensures DeviceOk(w', o) && SeenOk(w', o)
  {
    assert DeviceOk(w, o) && SeenOk(w, o);
    forall serial: nat ensures PushId(o, serial) in w'.pushes <==> w.devices[o].landed <= serial < w.devices[o].begun {
      assert PushId(o, serial).dev != d;
    }
  }

  /** A device that changes here, and owes a push if that made it differ. */
  lemma LocalKeeps(w: World, d: DevId, device: Device)
    requires Flow(w) && d in w.devices && Becomes(w, d, device) && SwitchesOk(device)
    requires !device.owed ==> device.own == w.devices[d].own && !w.devices[d].owed
    requires SeenOk(w.(devices := w.devices[d := device]), d)
    ensures Flow(w.(devices := w.devices[d := device]))
  {
    var w' := w.(devices := w.devices[d := device]);
    assert DeviceOk(w, d);
    forall o | o in w'.devices ensures DeviceOk(w', o) && SeenOk(w', o) {
      if o != d {
        OthersKeep(w, w', d, o);
      }
    }
    forall push | push in w'.pushes ensures PushOk(w', push) {
      assert PushOk(w, push);
    }
  }

  lemma BeginDevice(w: World, d: DevId, device: Device)
    requires Flow(w) && d in w.devices && Becomes(w, d, device)
    ensures DeviceOk(BeginPush(w, d, device), d) && SeenOk(BeginPush(w, d, device), d)
  {
    var w' := BeginPush(w, d, device);
    assert DeviceOk(w, d);
    forall serial: nat ensures PushId(d, serial) in w'.pushes <==> device.landed <= serial < device.begun + 1 {
      assert PushId(d, serial) in w.pushes <==> device.landed <= serial < device.begun;
    }
  }

  /** A device that changes and begins a push. */
  lemma BeginKeeps(w: World, d: DevId, device: Device)
    requires Flow(w) && d in w.devices && Becomes(w, d, device) && device.own <= device.learned
    ensures Flow(BeginPush(w, d, device))
  {
    var w' := BeginPush(w, d, device);
    BeginDevice(w, d, device);
    assert DeviceOk(w, d);
    forall o | o in w'.devices ensures DeviceOk(w', o) && SeenOk(w', o) {
      if o != d {
        OthersKeep(w, w', d, o);
      }
    }
    forall push | push in w'.pushes ensures PushOk(w', push) {
      if push in w.pushes {
        assert PushOk(w, push);
        if push.dev == d {
          assert PushId(d, push.serial) in w.pushes;
        }
      }
    }
  }

  lemma PutDevice(w: World, push: PushId, at: nat, o: DevId)
    requires Flow(w) && push in w.pushes && push.dev in w.devices && push.serial == w.devices[push.dev].landed
    requires o in w.devices && w.devices[o].mark < at
    ensures DeviceOk(OnPut(w, push, at), o) && SeenOk(OnPut(w, push, at), o)
  {
    var w' := OnPut(w, push, at);
    assert DeviceOk(w, o);
    forall serial: nat ensures PushId(o, serial) in w'.pushes <==> w'.devices[o].landed <= serial < w.devices[o].begun {
      assert PushId(o, serial) in w.pushes <==> w.devices[o].landed <= serial < w.devices[o].begun;
    }
  }

  lemma PutKeeps(w: World, push: PushId, at: nat)
    requires Flow(w) && push in w.pushes && push.dev in w.devices && push.serial == w.devices[push.dev].landed
    requires forall o :: o in w.devices ==> w.devices[o].mark < at
    ensures Flow(OnPut(w, push, at))
  {
    var w' := OnPut(w, push, at);
    assert PushOk(w, push);
    forall o | o in w'.devices ensures DeviceOk(w', o) && SeenOk(w', o) {
      PutDevice(w, push, at, o);
    }
    forall other | other in w'.pushes ensures PushOk(w', other) {
      assert PushOk(w, other);
    }
  }

  lemma RecordsKeep(w: World, step: Step)
    requires Inv(w) && Records(step) && Orderly(w, step) && Sound(Everyone(Apply(w, step)))
    ensures Inv(Apply(w, step))
  {
    if Apply(w, step) != w {
      var device := w.devices[step.d];
      RepStep(w, step);
      LocalKeeps(w, step.d, Changed(device, ChangeOf(device.record, step).value));
    }
  }

  lemma DoneKeeps(w: World, reply: Reply)
    requires Inv(w) && reply in w.replies && reply.dev in w.devices
    ensures Inv(Apply(w, PushDone(reply)))
  {
    RepDone(w, reply);
    assert DeviceOk(w, reply.dev) && GoodReply(w, reply);
    LocalKeeps(w, reply.dev, w.devices[reply.dev].(mark := reply.stamp));
  }

  /** An answer that holds nothing new either way leaves the device where the
   *  blob is. */
  lemma NothingNewSeen(payload: Payload, learned: iset<Fact>)
    requires Covers(payload.learned, learned)
    ensures Covers(payload.learned, learned + payload.learned)
  {
    HeldIsAbsorbed(payload.learned, payload.learned);
    CoversBoth(payload.learned, learned, payload.learned);
  }

  lemma LandKeeps(w: World, answer: Fetched)
    requires Inv(w) && Sound(Everyone(w)) && answer in w.fetched && answer.dev in w.devices
    ensures Inv(OnLand(w, answer))
  {
    var d := answer.dev;
    var device := w.devices[d];
    RepLands(w, answer);
    assert DeviceOk(w, d) && SeenOk(w, d) && GoodDevice(w, d) && GoodAnswer(w, answer);
    if answer.stamp == 0 {
      BeginKeeps(w, d, device);
    } else if answer.stamp > device.mark {
      var applied := Pulled(device, answer.stamp, answer.payload);
      PulledIsGood(w, answer);
      if KnewMore(device.record, answer.payload.record) {
        BeginKeeps(w, d, applied);
      } else {
        NothingNewSeen(answer.payload, device.learned);
        LocalKeeps(w, d, applied);
      }
    }
  }

  lemma FetchKeeps(w: World, d: DevId)
    requires Inv(w)
    ensures Inv(Apply(w, Fetch(d)))
  {
    var w' := Apply(w, Fetch(d));
    RepTraffic(w, Fetch(d));
    forall o | o in w'.devices ensures DeviceOk(w', o) && SeenOk(w', o) {
      assert DeviceOk(w, o) && SeenOk(w, o);
    }
    forall push | push in w'.pushes ensures PushOk(w', push) {
      assert PushOk(w, push);
    }
  }

  lemma FlipKeeps(w: World, d: DevId, switches: string)
    requires Inv(w) && d in w.devices
    ensures Inv(Apply(w, Flip(d, switches)))
  {
    assert GoodDevice(w, d) && DeviceOk(w, d);
    RepBegins(w, d, w.devices[d].(switches := switches, owed := true));
    LocalKeeps(w, d, w.devices[d].(switches := switches, owed := true));
  }

  lemma DueKeeps(w: World, d: DevId)
    requires Inv(w) && d in w.devices && w.devices[d].owed
    ensures Inv(Apply(w, PushDue(d)))
  {
    assert GoodDevice(w, d) && DeviceOk(w, d);
    RepBegins(w, d, w.devices[d].(owed := false));
    BeginKeeps(w, d, w.devices[d].(owed := false));
  }

  lemma InvStep(w: World, step: Step)
    requires Inv(w) && Orderly(w, step) && Sound(Everyone(Apply(w, step)))
    ensures Inv(Apply(w, step))
  {
    EveryoneStays(w, step);
    SoundSubset(Everyone(Apply(w, step)), Everyone(w));
    match step
    case Flip(d, switches) => if d in w.devices { FlipKeeps(w, d, switches); }
    case PushDue(d) => if d in w.devices && w.devices[d].owed { DueKeeps(w, d); }
    case Put(push, at) =>
      if push in w.pushes && push.dev in w.devices && at > w.stamp {
        RepPuts(w, push, at);
        assert forall o :: o in w.devices ==> GoodDevice(w, o);
        PutKeeps(w, push, at);
      }
    case PushDone(reply) => if reply in w.replies && reply.dev in w.devices { DoneKeeps(w, reply); }
    case Fetch(d) => FetchKeeps(w, d);
    case Land(answer) => if answer in w.fetched && answer.dev in w.devices { LandKeeps(w, answer); }
    case _ => RecordsKeep(w, step);
  }

  lemma {:induction false} InvRun(w: World, steps: seq<Step>)
    requires Inv(w) && OrderlyRun(w, steps) && Sound(Everyone(Execute(w, steps)))
    ensures Inv(Execute(w, steps))
    decreases |steps|
  {
    if steps != [] {
      var w' := Apply(w, steps[0]);
      EveryoneStaysRun(w', steps[1..]);
      SoundSubset(Everyone(Execute(w, steps)), Everyone(w'));
      InvStep(w, steps[0]);
      InvRun(w', steps[1..]);
    }
  }

  lemma StartsOk(w: World)
    requires Initial(w)
    ensures Inv(w)
  {
    StartsGood(w);
    forall d | d in w.devices ensures DeviceOk(w, d) && SeenOk(w, d) {
      assert New(w.devices[d]);
    }
  }

  // ---- Convergence ----

  /** Everybody has seen the latest blob, no push is due and none is on its way. */
  ghost predicate Quiet(w: World) {
    && w.stamp > 0 && w.pushes == map[]
    && forall d :: d in w.devices ==> w.devices[d].mark == w.stamp && !w.devices[d].owed
  }

  lemma NothingBegun(w: World, d: DevId)
    requires Inv(w) && d in w.devices && w.pushes == map[]
    ensures w.devices[d].landed == w.devices[d].begun
  {
    assert DeviceOk(w, d);
    assert PushId(d, w.devices[d].landed) !in w.pushes;
  }

  lemma OthersAgree(w: World, d: DevId)
    requires Inv(w) && Quiet(w) && d in w.devices && d != w.blob.push.dev
    ensures w.blob.payload.learned <= w.devices[d].learned && Covers(w.blob.payload.learned, w.devices[d].learned)
    ensures w.devices[d].switches == w.blob.payload.switches
  {
    assert SeenOk(w, d);
    NothingBegun(w, d);
  }

  /** The blob answers for all its pusher knows: what others decided they would
   *  have pushed, had the blob not answered for it. */
  lemma PusherAgrees(w: World)
    requires Inv(w) && Quiet(w)
    ensures var d := w.blob.push.dev;
      d in w.devices && w.blob.payload.learned <= w.devices[d].learned && Covers(w.blob.payload.learned, w.devices[d].learned)
  {
    var d := w.blob.push.dev;
    assert DeviceOk(w, d) && GoodDevice(w, d);
    NothingBegun(w, d);
    forall fact | fact in w.devices[d].learned ensures Absorbed(w.blob.payload.learned, fact) {
      var o :| o in w.devices && fact in w.devices[o].own;
      assert DeviceOk(w, o) && GoodDevice(w, o);
      if o != d {
        OthersAgree(w, o);
      } else {
        HeldIsAbsorbed(w.blob.payload.learned, w.devices[d].sentOwn);
      }
    }
  }

  /** When every device has seen the latest stamp with no push due, all devices
   *  and the account hold the same sets, pins with their values, and searches;
   *  and all but the one whose push the blob is hold its switches. */
  lemma AllAgree(w0: World, steps: seq<Step>, d: DevId)
    requires Initial(w0) && OrderlyRun(w0, steps)
    requires var w := Execute(w0, steps); Sound(Everyone(w)) && Quiet(w) && d in w.devices
    ensures var w := Execute(w0, steps);
      && SameRecord(w.devices[d].record, w.blob.payload.record)
      && (d != w.blob.push.dev ==> w.devices[d].switches == w.blob.payload.switches)
  {
    var w := Execute(w0, steps);
    StartsOk(w0);
    InvRun(w0, steps);
    if d != w.blob.push.dev {
      OthersAgree(w, d);
    } else {
      PusherAgrees(w);
    }
    assert GoodDevice(w, d) && GoodPayload(w, w.blob.payload);
    HeldIsAbsorbed(w.devices[d].learned, w.blob.payload.learned);
    SameHistorySameRecord(w.devices[d].record, w.devices[d].learned, w.blob.payload.record, w.blob.payload.learned);
  }

  /** The device whose push the blob is differs from it in its switches exactly
   *  when a pull has landed there since that push began, and the last one to do
   *  so brought others. */
  lemma PusherSwitchesIff(w0: World, steps: seq<Step>)
    requires Initial(w0) && OrderlyRun(w0, steps)
    requires var w := Execute(w0, steps); Sound(Everyone(w)) && Quiet(w)
    ensures var w := Execute(w0, steps);
      w.blob.push.dev in w.devices
      && var device := w.devices[w.blob.push.dev];
         device.switches != w.blob.payload.switches <==> device.pulled.Some? && device.pulled.value != w.blob.payload.switches
  {
    var w := Execute(w0, steps);
    StartsOk(w0);
    InvRun(w0, steps);
    PusherAgrees(w);
    NothingBegun(w, w.blob.push.dev);
    assert DeviceOk(w, w.blob.push.dev);
  }
}
