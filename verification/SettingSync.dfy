/** The settings an account keeps and the devices that follow them. */
module SettingSync {
  // A push seals a snapshot of the device and overwrites the blob; a pull
  // applies a blob that is newer than anything the device has seen, switches by
  // overwriting and decisions by merging, and pushes back when the device knew
  // more. Requests and replies of all devices interleave.

  import opened Decisions
  import opened Facts
  import opened Prelude

  datatype DevId = DevId(id: nat)

  /** From `learned` on the fields are history: all facts that ever reached the
   *  device, those decided here, the pushes begun and arrived, `own` and the
   *  switches when the last push began, and the switches of the last pull
   *  applied since. */
  datatype Device = Device(
    record: Decisions, switches: string, mark: nat, owed: bool,
    learned: iset<Fact>, own: iset<Fact>, begun: nat, landed: nat,
    sentOwn: iset<Fact>, sentSwitches: string, pulled: Option<string>)

  datatype PushId = PushId(dev: DevId, serial: nat)

  /** `learned` is history. */
  datatype Payload = Payload(record: Decisions, switches: string, learned: iset<Fact>)

  datatype Blob = Blob(payload: Payload, push: PushId)

  datatype Reply = Reply(dev: DevId, stamp: nat)
  datatype Fetched = Fetched(dev: DevId, stamp: nat, payload: Payload)

  /** A stamp of 0 is an account without settings. */
  datatype World = World(
    devices: map<DevId, Device>, stamp: nat, blob: Blob,
    pushes: map<PushId, Payload>, replies: iset<Reply>, fetched: iset<Fetched>)

  datatype Step =
    | Decide(d: DevId, name: DecisionSet, keys: seq<string>)
    | SetPin(d: DevId, tag: string, on: bool, time: int)
    | RememberSearch(d: DevId, q: string, time: int)
    | Flip(d: DevId, switches: string)
    | PushDue(d: DevId)
    | Put(push: PushId, at: nat)
    | LosePush(push: PushId)
    | PushDone(reply: Reply)
    | Fetch(d: DevId)
    | Land(answer: Fetched)

  /** What a recording step changes here, if anything: the record it leaves, and
   *  the facts it adds. */
  datatype Change = Change(record: Decisions, facts: iset<Fact>)

  predicate Records(step: Step) {
    step.Decide? || step.SetPin? || step.RememberSearch?
  }

  ghost function ChangeOf(record: Decisions, step: Step): Option<Change>
    requires Records(step)
  {
    match step
    case Decide(_, name, keys) =>
      if HasNewKey(record, name, keys) then Some(Change(WithKeys(record, name, keys), KeyFacts(name, keys))) else None
    case SetPin(_, tag, on, at) =>
      if SaysAgain(record, tag, on) then None else Some(Change(WithPin(record, tag, on, at), iset{Pinned(tag, at, on)}))
    case RememberSearch(_, q, at) =>
      if q == "" then None else Some(Change(WithSearch(record, q, at), iset{SearchedAt(q, at)}))
  }

  ghost function Changed(device: Device, change: Change): Device {
    device.(record := change.record, learned := device.learned + change.facts, own := device.own + change.facts, owed := true)
  }

  /** A push begins: the snapshot is taken at once. */
  ghost function BeginPush(w: World, d: DevId, device: Device): World {
    w.(devices := w.devices[d := device.(begun := device.begun + 1, sentOwn := device.own, sentSwitches := device.switches, pulled := None)],
       pushes := w.pushes[PushId(d, device.begun) := Payload(device.record, device.switches, device.learned)])
  }

  ghost function Pulled(device: Device, stamp: nat, payload: Payload): Device {
    device.(record := Merge(device.record, payload.record), learned := device.learned + payload.learned,
            switches := payload.switches, mark := stamp, pulled := Some(payload.switches))
  }

  ghost function OnLand(w: World, answer: Fetched): World
    requires answer.dev in w.devices
  {
    var device := w.devices[answer.dev];
    if answer.stamp == 0 then BeginPush(w, answer.dev, device)
    else if answer.stamp <= device.mark then w
    else
      var applied := Pulled(device, answer.stamp, answer.payload);
      if KnewMore(device.record, answer.payload.record) then BeginPush(w, answer.dev, applied)
      else w.(devices := w.devices[answer.dev := applied])
  }

  ghost function OnPut(w: World, push: PushId, at: nat): World
    requires push in w.pushes && push.dev in w.devices
  {
    var device := w.devices[push.dev];
    w.(devices := w.devices[push.dev := device.(landed := device.landed + 1)],
       stamp := at, blob := Blob(w.pushes[push], push), pushes := w.pushes - {push},
       replies := w.replies + iset{Reply(push.dev, at)})
  }

  ghost function Apply(w: World, step: Step): World {
    match step
    case Flip(d, switches) =>
      if d in w.devices then w.(devices := w.devices[d := w.devices[d].(switches := switches, owed := true)]) else w
    case PushDue(d) =>
      if d in w.devices && w.devices[d].owed then BeginPush(w, d, w.devices[d].(owed := false)) else w
    case Put(push, at) => if push in w.pushes && push.dev in w.devices && at > w.stamp then OnPut(w, push, at) else w
    case LosePush(push) => w.(pushes := w.pushes - {push})
    case PushDone(reply) =>
      if reply in w.replies && reply.dev in w.devices then
        w.(devices := w.devices[reply.dev := w.devices[reply.dev].(mark := reply.stamp)])
      else w
    case Fetch(d) => w.(fetched := w.fetched + iset{Fetched(d, w.stamp, w.blob.payload)})
    case Land(answer) => if answer in w.fetched && answer.dev in w.devices then OnLand(w, answer) else w
    case _ =>
      if step.d in w.devices && ChangeOf(w.devices[step.d].record, step).Some? then
        w.(devices := w.devices[step.d := Changed(w.devices[step.d], ChangeOf(w.devices[step.d].record, step).value)])
      else w
  }

  ghost function Execute(w: World, steps: seq<Step>): World
    decreases |steps|
  {
    if steps == [] then w else Execute(Apply(w, steps[0]), steps[1..])
  }

  lemma {:induction false} ExecuteMore(w: World, steps: seq<Step>, step: Step)
    ensures Execute(w, steps + [step]) == Apply(Execute(w, steps), step)
    decreases |steps|
  {
    if steps == [] {
      assert [step][1..] == [];
      assert Execute(w, [step]) == Execute(Apply(w, step), []);
    } else {
      ExecuteMore(Apply(w, steps[0]), steps[1..], step);
      assert (steps + [step])[1..] == steps[1..] + [step];
    }
  }

  const NO_RECORD := Decisions(map[], [], map[])

  ghost predicate New(device: Device) {
    && device.record == NO_RECORD && device.learned == device.own == device.sentOwn == iset{}
    && device.mark == 0 && !device.owed && device.begun == device.landed == 0
    && device.sentSwitches == device.switches && device.pulled == None
  }

  ghost predicate Initial(w: World) {
    && w.stamp == 0 && w.pushes == map[] && w.replies == iset{} && w.fetched == iset{}
    && forall d :: d in w.devices ==> New(w.devices[d])
  }

  // ---- What a run is asked ----

  ghost function Everyone(w: World): iset<Fact> {
    iset fact, d | d in w.devices && fact in w.devices[d].own :: fact
  }

  ghost predicate DistinctIn(facts: iset<Fact>, name: DecisionSet, keys: seq<string>) {
    && (forall i, j :: 0 <= i < j < |keys| ==> keys[i] != keys[j])
    && forall key :: key in keys ==> Decided(name, key) in facts
  }

  /** All that is ever decided keeps within the limits of the sets, and gives
   *  one word at a time. Searches may be as many as they like. */
  ghost predicate Sound(facts: iset<Fact>) {
    && OneWord(facts)
    && forall name, keys :: DistinctIn(facts, name, keys) ==> |keys| <= SetLimit(name)
  }

  /** A pin's new word is newer than the one it replaces here. */
  ghost predicate InTime(w: World, step: Step) {
    step.SetPin? && step.d in w.devices && step.tag in w.devices[step.d].record.pins
      && !SaysAgain(w.devices[step.d].record, step.tag, step.on) ==>
      step.time > w.devices[step.d].record.pins[step.tag].at
  }

  ghost predicate InTimeRun(w: World, steps: seq<Step>)
    decreases |steps|
  {
    steps == [] || (InTime(w, steps[0]) && InTimeRun(Apply(w, steps[0]), steps[1..]))
  }

  // ---- Records represent what was learned ----

  ghost predicate Good(record: Decisions, learned: iset<Fact>) {
    Represents(record, learned) && Canonical(record)
  }

  lemma SoundSubset(facts: iset<Fact>, some: iset<Fact>)
    requires Sound(facts) && some <= facts
    ensures Sound(some)
  {
    forall name, keys | DistinctIn(some, name, keys) ensures |keys| <= SetLimit(name) {
      assert DistinctIn(facts, name, keys);
    }
  }

  lemma KeysStayCanonical(record: Decisions, name: DecisionSet, keys: seq<string>)
    requires Canonical(record)
    ensures Canonical(WithKeys(record, name, keys))
  {
    var d := WithKeys(record, name, keys);
    UniqueFacts(Keys(record, name) + keys);
    forall n ensures |Keys(d, n)| <= SetLimit(n) && forall i, j :: 0 <= i < j < |Keys(d, n)| ==> Keys(d, n)[i] != Keys(d, n)[j] {
      assert n != name ==> Keys(d, n) == Keys(record, n);
    }
  }

  lemma OthersStayCanonical(record: Decisions, d: Decisions)
    requires Canonical(record) && d.sets == record.sets && OncePerQuery(d.searches) && |d.searches| <= RECENT_SEARCH_LIMIT
    ensures Canonical(d)
  {
    assert forall name :: Keys(d, name) == Keys(record, name);
  }

  lemma KeysAreGood(record: Decisions, learned: iset<Fact>, name: DecisionSet, keys: seq<string>)
    requires Good(record, learned) && Sound(learned + KeyFacts(name, keys))
    ensures Good(WithKeys(record, name, keys), learned + KeyFacts(name, keys))
  {
    var all := Keys(record, name) + keys;
    UniqueFacts(all);
    forall key | key in Unique(all) ensures Decided(name, key) in learned + KeyFacts(name, keys) {
      if key in Keys(record, name) {
        assert Holds(record, Decided(name, key));
        assert Decided(name, key) in FactsOf(record);
      }
    }
    assert DistinctIn(learned + KeyFacts(name, keys), name, Unique(all));
    KeysRepresent(record, learned, name, keys);
    KeysStayCanonical(record, name, keys);
  }

  lemma ChangeIsGood(device: Device, step: Step)
    requires Records(step) && ChangeOf(device.record, step).Some? && Good(device.record, device.learned)
    requires Sound(device.learned + ChangeOf(device.record, step).value.facts)
    requires step.SetPin? && step.tag in device.record.pins ==> step.time > device.record.pins[step.tag].at
    ensures var device' := Changed(device, ChangeOf(device.record, step).value); Good(device'.record, device'.learned)
  {
    match step
    case Decide(_, name, keys) => KeysAreGood(device.record, device.learned, name, keys);
    case SetPin(_, tag, on, at) =>
      PinRepresentsIff(device.record, device.learned, tag, on, at);
      OthersStayCanonical(device.record, WithPin(device.record, tag, on, at));
    case RememberSearch(_, q, at) =>
      SearchRepresents(device.record, device.learned, q, at);
      MergedSearchesAreNewest(device.record.searches, [Search(q, at)]);
      OthersStayCanonical(device.record, WithSearch(device.record, q, at));
  }

  lemma MergeIsGood(local: Decisions, l: iset<Fact>, remote: Decisions, r: iset<Fact>)
    requires Good(local, l) && Good(remote, r) && Sound(l + r)
    ensures Good(Merge(local, remote), l + r)
    ensures KnewMore(local, remote) <==> !Covers(r, l)
  {
    forall name ensures |Unique(Keys(remote, name) + Keys(local, name))| <= SetLimit(name) {
      var all := Keys(remote, name) + Keys(local, name);
      UniqueFacts(all);
      forall key | key in Unique(all) ensures Decided(name, key) in l + r {
        assert Holds(local, Decided(name, key)) || Holds(remote, Decided(name, key));
        assert Decided(name, key) in FactsOf(local) || Decided(name, key) in FactsOf(remote);
      }
      assert DistinctIn(l + r, name, Unique(all));
    }
    MergeIsMerge(local, remote);
    MergeRepresents(local, l, remote, r, Merge(local, remote));
    MergesAreCanonical(local, remote, Merge(local, remote));
    NewsOfHistories(local, l, remote, r);
  }

  ghost predicate GoodDevice(w: World, d: DevId)
    requires d in w.devices
  {
    var device := w.devices[d];
    Good(device.record, device.learned) && device.own <= device.learned <= Everyone(w) && device.mark <= w.stamp
  }

  ghost predicate GoodPayload(w: World, payload: Payload) {
    Good(payload.record, payload.learned) && payload.learned <= Everyone(w)
  }

  ghost predicate GoodAnswer(w: World, f: Fetched) {
    f.stamp <= w.stamp && (f.stamp > 0 ==> GoodPayload(w, f.payload)) && (f.stamp == w.stamp > 0 ==> f.payload == w.blob.payload)
  }

  ghost predicate GoodReply(w: World, r: Reply) {
    0 < r.stamp <= w.stamp && (r.stamp == w.stamp ==> r.dev == w.blob.push.dev)
  }

  /** Every record, at rest or on its way, represents what it stands for. Holds
   *  in every run, whatever is lost or overtaken. */
  ghost predicate Rep(w: World) {
    && (forall d :: d in w.devices ==> GoodDevice(w, d))
    && (forall push :: push in w.pushes ==> GoodPayload(w, w.pushes[push]))
    && (w.stamp > 0 ==> GoodPayload(w, w.blob.payload))
    && (forall f :: f in w.fetched ==> GoodAnswer(w, f))
    && (forall r :: r in w.replies ==> GoodReply(w, r))
  }

  /** One device changed, and everybody's facts with it at most grew. */
  lemma EveryoneGrows(w: World, w': World, d: DevId)
    requires d in w.devices && d in w'.devices && w'.devices == w.devices[d := w'.devices[d]]
    requires w.devices[d].own <= w'.devices[d].own
    ensures Everyone(w) <= Everyone(w') && w'.devices[d].own <= Everyone(w')
    ensures w'.devices[d].own == w.devices[d].own ==> Everyone(w') == Everyone(w)
  {
    forall fact | fact in Everyone(w) ensures fact in Everyone(w') {
      var o :| o in w.devices && fact in w.devices[o].own;
      assert o in w'.devices && fact in w'.devices[o].own;
    }
    if w'.devices[d].own == w.devices[d].own {
      forall fact | fact in Everyone(w') ensures fact in Everyone(w) {
        var o :| o in w'.devices && fact in w'.devices[o].own;
        assert o in w.devices && fact in w.devices[o].own;
      }
    }
  }

  /** Only `d` changed, and with it what is on its way at most by its push. */
  ghost predicate LocalTo(w: World, w': World, d: DevId) {
    && d in w.devices && d in w'.devices && w'.devices == w.devices[d := w'.devices[d]]
    && w.devices[d].own <= w'.devices[d].own
    && w'.stamp == w.stamp && w'.blob == w.blob && w'.fetched == w.fetched && w'.replies == w.replies
  }

  lemma RepLocal(w: World, w': World, d: DevId)
    requires Rep(w) && LocalTo(w, w', d) && GoodDevice(w', d)
    requires forall push :: push in w'.pushes ==>
      || (push in w.pushes && w'.pushes[push] == w.pushes[push])
      || (w'.pushes[push].learned == w'.devices[d].learned && w'.pushes[push].record == w'.devices[d].record)
    ensures Rep(w')
  {
    EveryoneGrows(w, w', d);
    forall o | o in w'.devices ensures GoodDevice(w', o) {
      assert o != d ==> GoodDevice(w, o);
    }
    forall push | push in w'.pushes ensures GoodPayload(w', w'.pushes[push]) {
      if push in w.pushes {
        assert GoodPayload(w, w.pushes[push]);
      }
    }
    forall f | f in w'.fetched ensures GoodAnswer(w', f) {
      assert GoodAnswer(w, f);
    }
    forall r | r in w'.replies ensures GoodReply(w', r) {
      assert GoodReply(w, r);
    }
  }

  lemma RepRecords(w: World, step: Step)
    requires Rep(w) && Records(step) && InTime(w, step) && Sound(Everyone(Apply(w, step)))
    ensures Rep(Apply(w, step))
  {
    var w' := Apply(w, step);
    if w' != w {
      var device := w.devices[step.d];
      var facts := ChangeOf(device.record, step).value.facts;
      EveryoneGrows(w, w', step.d);
      assert GoodDevice(w, step.d);
      assert device.learned + facts <= Everyone(w');
      SoundSubset(Everyone(w'), device.learned + facts);
      ChangeIsGood(device, step);
      RepLocal(w, w', step.d);
    }
  }

  lemma RepBegins(w: World, d: DevId, device: Device)
    requires Rep(w) && d in w.devices && device.own == w.devices[d].own <= device.learned
    requires Good(device.record, device.learned) && device.learned <= Everyone(w) && device.mark <= w.stamp
    ensures Rep(BeginPush(w, d, device)) && Rep(w.(devices := w.devices[d := device]))
    ensures Everyone(BeginPush(w, d, device)) == Everyone(w) == Everyone(w.(devices := w.devices[d := device]))
  {
    var w1, w2 := BeginPush(w, d, device), w.(devices := w.devices[d := device]);
    EveryoneGrows(w, w1, d);
    EveryoneGrows(w, w2, d);
    RepLocal(w, w1, d);
    RepLocal(w, w2, d);
  }

  /** A pull leaves the device with what it and the answer had learned. */
  lemma PulledIsGood(w: World, answer: Fetched)
    requires Rep(w) && Sound(Everyone(w)) && answer in w.fetched && answer.dev in w.devices && answer.stamp > 0
    ensures var device, applied := w.devices[answer.dev], Pulled(w.devices[answer.dev], answer.stamp, answer.payload);
      && Good(applied.record, applied.learned) && applied.learned <= Everyone(w) && applied.mark <= w.stamp
      && (KnewMore(device.record, answer.payload.record) <==> !Covers(answer.payload.learned, device.learned))
  {
    var device := w.devices[answer.dev];
    assert GoodAnswer(w, answer) && GoodDevice(w, answer.dev);
    SoundSubset(Everyone(w), device.learned + answer.payload.learned);
    MergeIsGood(device.record, device.learned, answer.payload.record, answer.payload.learned);
  }

  lemma RepLands(w: World, answer: Fetched)
    requires Rep(w) && Sound(Everyone(w)) && answer in w.fetched && answer.dev in w.devices
    ensures Rep(OnLand(w, answer))
  {
    var device := w.devices[answer.dev];
    assert GoodDevice(w, answer.dev);
    if answer.stamp == 0 {
      RepBegins(w, answer.dev, device);
    } else if answer.stamp > device.mark {
      PulledIsGood(w, answer);
      RepBegins(w, answer.dev, Pulled(device, answer.stamp, answer.payload));
    }
  }

  lemma RepPuts(w: World, push: PushId, at: nat)
    requires Rep(w) && push in w.pushes && push.dev in w.devices && at > w.stamp
    ensures Rep(OnPut(w, push, at)) && Everyone(OnPut(w, push, at)) == Everyone(w)
  {
    var w' := OnPut(w, push, at);
    EveryoneGrows(w, w', push.dev);
    forall o | o in w'.devices ensures GoodDevice(w', o) {
      assert GoodDevice(w, o);
    }
    forall other | other in w'.pushes ensures GoodPayload(w', w'.pushes[other]) {
      assert GoodPayload(w, w.pushes[other]);
    }
    assert GoodPayload(w, w.pushes[push]);
    forall f | f in w'.fetched ensures GoodAnswer(w', f) {
      assert GoodAnswer(w, f);
    }
    forall r | r in w'.replies ensures GoodReply(w', r) {
      assert r in w.replies ==> GoodReply(w, r);
    }
  }

  lemma RepTraffic(w: World, step: Step)
    requires Rep(w) && (step.LosePush? || step.Fetch?)
    ensures Rep(Apply(w, step)) && Everyone(Apply(w, step)) == Everyone(w)
  {
    var w' := Apply(w, step);
    assert w'.devices == w.devices;
    forall o | o in w'.devices ensures GoodDevice(w', o) {
      assert GoodDevice(w, o);
    }
    forall push | push in w'.pushes ensures GoodPayload(w', w'.pushes[push]) {
      assert GoodPayload(w, w.pushes[push]);
    }
    forall f | f in w'.fetched ensures GoodAnswer(w', f) {
      assert f in w.fetched ==> GoodAnswer(w, f);
    }
    forall r | r in w'.replies ensures GoodReply(w', r) {
      assert GoodReply(w, r);
    }
  }

  lemma RepDone(w: World, reply: Reply)
    requires Rep(w) && reply in w.replies && reply.dev in w.devices
    ensures Rep(Apply(w, PushDone(reply)))
  {
    var device := w.devices[reply.dev];
    assert GoodReply(w, reply) && GoodDevice(w, reply.dev);
    RepBegins(w, reply.dev, device.(mark := reply.stamp));
  }

  lemma OwnStays(w: World, step: Step, d: DevId)
    requires d in w.devices
    ensures d in Apply(w, step).devices && w.devices[d].own <= Apply(w, step).devices[d].own
  {
  }

  /** Facts decided stay decided. */
  lemma EveryoneStays(w: World, step: Step)
    ensures Everyone(w) <= Everyone(Apply(w, step))
  {
    forall fact | fact in Everyone(w) ensures fact in Everyone(Apply(w, step)) {
      var d :| d in w.devices && fact in w.devices[d].own;
      OwnStays(w, step, d);
    }
  }

  lemma {:induction false} EveryoneStaysRun(w: World, steps: seq<Step>)
    ensures Everyone(w) <= Everyone(Execute(w, steps))
    decreases |steps|
  {
    if steps != [] {
      EveryoneStays(w, steps[0]);
      EveryoneStaysRun(Apply(w, steps[0]), steps[1..]);
    }
  }

  lemma RepStep(w: World, step: Step)
    requires Rep(w) && InTime(w, step) && Sound(Everyone(Apply(w, step)))
    ensures Rep(Apply(w, step))
  {
    EveryoneStays(w, step);
    SoundSubset(Everyone(Apply(w, step)), Everyone(w));
    match step
    case Flip(d, switches) =>
      if d in w.devices {
        assert GoodDevice(w, d);
        RepBegins(w, d, w.devices[d].(switches := switches, owed := true));
      }
    case PushDue(d) =>
      if d in w.devices && w.devices[d].owed {
        assert GoodDevice(w, d);
        RepBegins(w, d, w.devices[d].(owed := false));
      }
    case Put(push, at) => if push in w.pushes && push.dev in w.devices && at > w.stamp { RepPuts(w, push, at); }
    case LosePush(_) => RepTraffic(w, step);
    case PushDone(reply) => if reply in w.replies && reply.dev in w.devices { RepDone(w, reply); }
    case Fetch(_) => RepTraffic(w, step);
    case Land(answer) => if answer in w.fetched && answer.dev in w.devices { RepLands(w, answer); }
    case _ => RepRecords(w, step);
  }

  lemma {:induction false} RepRun(w: World, steps: seq<Step>)
    requires Rep(w) && InTimeRun(w, steps) && Sound(Everyone(Execute(w, steps)))
    ensures Rep(Execute(w, steps))
    decreases |steps|
  {
    if steps != [] {
      var w' := Apply(w, steps[0]);
      EveryoneStaysRun(w', steps[1..]);
      SoundSubset(Everyone(Execute(w, steps)), Everyone(w'));
      RepStep(w, steps[0]);
      RepRun(w', steps[1..]);
    }
  }

  lemma StartsGood(w: World)
    requires Initial(w)
    ensures Rep(w)
  {
    forall d | d in w.devices ensures GoodDevice(w, d) {
      assert New(w.devices[d]);
      forall fact ensures fact !in FactsOf(NO_RECORD) {
        assert !Holds(NO_RECORD, fact);
      }
    }
  }

  // ---- A decision stays ----

  lemma LearnedStays(w: World, step: Step, d: DevId)
    requires d in w.devices
    ensures d in Apply(w, step).devices && w.devices[d].learned <= Apply(w, step).devices[d].learned
  {
  }

  lemma {:induction false} LearnedStaysRun(w: World, steps: seq<Step>, d: DevId)
    requires d in w.devices
    ensures d in Execute(w, steps).devices && w.devices[d].learned <= Execute(w, steps).devices[d].learned
    decreases |steps|
  {
    if steps != [] {
      LearnedStays(w, steps[0], d);
      LearnedStaysRun(Apply(w, steps[0]), steps[1..], d);
    }
  }

  /** What a device's record holds it answers for ever after, whatever pushes and
   *  pulls come and go, overtake each other or are lost: a key stays, a word on a
   *  pin stands until a newer one, a search until six newer ones. */
  lemma DecisionsStay(w0: World, before: seq<Step>, after: seq<Step>, d: DevId, fact: Fact)
    requires Initial(w0) && InTimeRun(w0, before) && InTimeRun(Execute(w0, before), after)
    requires Sound(Everyone(Execute(Execute(w0, before), after)))
    requires d in Execute(w0, before).devices && fact in FactsOf(Execute(w0, before).devices[d].record)
    ensures var w := Execute(Execute(w0, before), after);
      d in w.devices && Absorbed(FactsOf(w.devices[d].record), fact)
  {
    var w1 := Execute(w0, before);
    var w2 := Execute(w1, after);
    StartsGood(w0);
    EveryoneStaysRun(w1, after);
    SoundSubset(Everyone(w2), Everyone(w1));
    RepRun(w0, before);
    RepRun(w1, after);
    LearnedStaysRun(w1, after, d);
    assert GoodDevice(w1, d) && GoodDevice(w2, d);
    assert fact in w2.devices[d].learned;
  }

  // ---- A decision by itself ----

  /** Decided on `d`, pushed and stored. */
  ghost function Stored(w: World, d: DevId, name: DecisionSet, keys: seq<string>, now: nat): World
    requires d in w.devices
  {
    Apply(Apply(Apply(Apply(w, Decide(d, name, keys)), PushDue(d)), Put(PushId(d, w.devices[d].begun), now)), PushDone(Reply(d, now)))
  }

  lemma DecisionIsStored(w: World, d: DevId, name: DecisionSet, keys: seq<string>, now: nat)
    requires d in w.devices && HasNewKey(w.devices[d].record, name, keys) && now > w.stamp
    requires PushId(d, w.devices[d].begun) !in w.pushes
    ensures var record := WithKeys(w.devices[d].record, name, keys);
      var w' := Stored(w, d, name, keys, now);
      && w'.stamp == now && w'.blob.payload.record == record && w'.blob.payload.switches == w.devices[d].switches
      && w'.pushes == w.pushes && w'.devices.Keys == w.devices.Keys
      && w'.devices[d].record == record && w'.devices[d].mark == now && !w'.devices[d].owed
      && forall e :: e in w.devices && e != d ==> w'.devices[e] == w.devices[e]
  {
    var w1 := Apply(w, Decide(d, name, keys));
    var w2 := Apply(w1, PushDue(d));
    assert w2.pushes - {PushId(d, w.devices[d].begun)} == w.pushes;
  }

  /** A pull by itself takes what the account has. */
  lemma PullTakes(w: World, e: DevId)
    requires e in w.devices && w.stamp > w.devices[e].mark
    ensures var w' := Apply(Apply(w, Fetch(e)), Land(Fetched(e, w.stamp, w.blob.payload)));
      var remote, was := w.blob.payload.record, w.devices[e].record;
      && e in w'.devices && w'.devices[e].record == Merge(was, remote)
      && w'.devices[e].switches == w.blob.payload.switches && w'.devices[e].mark == w.stamp
      && w'.pushes.Keys == w.pushes.Keys + (if KnewMore(was, remote) then {PushId(e, w.devices[e].begun)} else {})
      && w'.stamp == w.stamp && w'.blob == w.blob
  {
  }

  /** From any state, a decision that is new to a device is in the account's record
   *  once its push is stored, and another device that then pulls holds the merge
   *  of it, with the switches, and pushes back exactly when it knew more. */
  lemma OneDecisionTravels(w: World, d: DevId, e: DevId, name: DecisionSet, keys: seq<string>, now: nat)
    requires d in w.devices && e in w.devices && d != e && HasNewKey(w.devices[d].record, name, keys)
    requires now > w.stamp && now > w.devices[e].mark && PushId(d, w.devices[d].begun) !in w.pushes
    ensures var stored := Stored(w, d, name, keys, now);
      var w' := Apply(Apply(stored, Fetch(e)), Land(Fetched(e, now, stored.blob.payload)));
      var record, was := WithKeys(w.devices[d].record, name, keys), w.devices[e].record;
      && stored.stamp == now && stored.blob.payload.record == record
      && e in w'.devices && w'.devices[e].record == Merge(was, record)
      && w'.devices[e].switches == w.devices[d].switches && w'.devices[e].mark == now
      && w'.pushes.Keys == w.pushes.Keys + (if KnewMore(was, record) then {PushId(e, w.devices[e].begun)} else {})
      && w'.stamp == now && w'.blob == stored.blob
  {
    DecisionIsStored(w, d, name, keys, now);
    PullTakes(Stored(w, d, name, keys, now), e);
  }
}
