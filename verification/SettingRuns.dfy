/** Runs after which devices and account differ although nothing is under way. */
module SettingRuns {
  import opened Decisions
  import opened Facts
  import opened Prelude
  import opened SettingAgreement
  import opened SettingLoss
  import opened SettingSync

  // One device suffices for all of them.

  const A := DevId(0)
  const NOTHING: iset<Fact> := iset{}
  const KEY := Decided(DismissedTrips, "trip")
  const TRIP := WithKeys(NO_RECORD, DismissedTrips, ["trip"])
  const UNSEEN := Device(NO_RECORD, "off", 0, false, NOTHING, NOTHING, 0, 0, NOTHING, "off", None)
  const NO_BLOB := Blob(Payload(NO_RECORD, "", NOTHING), PushId(A, 0))

  ghost predicate Reached(w0: World, w: World) {
    exists steps :: Execute(w0, steps) == w
  }

  lemma StartIsReached(w0: World)
    ensures Reached(w0, w0)
  {
    assert Execute(w0, []) == w0;
  }

  lemma Then(w0: World, w: World, step: Step, w': World)
    requires Reached(w0, w) && Apply(w, step) == w'
    ensures Reached(w0, w')
  {
    var steps :| Execute(w0, steps) == w;
    ExecuteMore(w0, steps, step);
    assert Execute(w0, steps + [step]) == w';
  }

  lemma Changes(w: World, device: Device, step: Step, change: Change)
    requires Reached(START, w) && w.devices == map[A := device]
    requires Records(step) && step.d == A && ChangeOf(device.record, step) == Some(change)
    ensures Reached(START, w.(devices := map[A := Changed(device, change)]))
  {
    Then(START, w, step, w.(devices := map[A := Changed(device, change)]));
  }

  lemma PushesDue(w: World, device: Device)
    requires Reached(START, w) && w.devices == map[A := device] && device.owed
    ensures Reached(START, BeginPush(w, A, device.(owed := false)))
  {
    Then(START, w, PushDue(A), BeginPush(w, A, device.(owed := false)));
  }

  /** A newer blob lands on a device that knew nothing more. */
  lemma LandsQuietly(w: World, device: Device, answer: Fetched)
    requires Reached(START, w) && w.devices == map[A := device] && answer in w.fetched && answer.dev == A
    requires answer.stamp > device.mark && !KnewMore(device.record, answer.payload.record)
    ensures Reached(START, w.(devices := map[A := Pulled(device, answer.stamp, answer.payload)]))
  {
    Then(START, w, Land(answer), w.(devices := map[A := Pulled(device, answer.stamp, answer.payload)]));
  }

  /** A device that knows nothing of an account without settings. */
  const START := World(map[A := UNSEEN], 0, NO_BLOB, map[], iset{}, iset{})

  // ---- The device seeds the account ----

  const SEED := Payload(NO_RECORD, "off", NOTHING)
  const SEEDER := UNSEEN.(mark := 1, begun := 1, landed := 1)
  const ASKED := START.(fetched := iset{Fetched(A, 0, NO_BLOB.payload)})
  const SEEDING := ASKED.(devices := map[A := UNSEEN.(begun := 1)], pushes := map[PushId(A, 0) := SEED])
  const STORED := SEEDING.(
    devices := map[A := SEEDER.(mark := 0)], stamp := 1, blob := Blob(SEED, PushId(A, 0)), pushes := map[], replies := iset{Reply(A, 1)})
  const SEEDED := STORED.(devices := map[A := SEEDER])

  lemma Asks()
    ensures Initial(START) && Reached(START, SEEDING)
  {
    StartIsReached(START);
    Then(START, START, Fetch(A), ASKED);
    Then(START, ASKED, Land(Fetched(A, 0, NO_BLOB.payload)), SEEDING);
  }

  lemma Seeds()
    ensures Reached(START, SEEDED)
  {
    Asks();
    assert SEEDING.pushes - {PushId(A, 0)} == map[];
    Then(START, SEEDING, Put(PushId(A, 0), 1), STORED);
    Then(START, STORED, PushDone(Reply(A, 1)), SEEDED);
  }

  lemma TripIsNew()
    ensures ChangeOf(NO_RECORD, Decide(A, DismissedTrips, ["trip"])) == Some(Change(TRIP, iset{KEY}))
    ensures NOTHING + iset{KEY} == iset{KEY}
  {
    assert ["trip"][0] !in Keys(NO_RECORD, DismissedTrips);
    forall fact ensures fact in KeyFacts(DismissedTrips, ["trip"]) <==> fact == KEY {
      assert "trip" in ["trip"];
    }
    assert KeyFacts(DismissedTrips, ["trip"]) == iset{KEY};
  }

  /** The device decides. */
  lemma DecidesTrip(w: World, device: Device, device': Device)
    requires Reached(START, w) && w.devices == map[A := device]
    requires device.record == NO_RECORD && device.learned == device.own == NOTHING
    requires device' == device.(record := TRIP, learned := iset{KEY}, own := iset{KEY}, owed := true)
    ensures Reached(START, w.(devices := map[A := device']))
  {
    TripIsNew();
    Changes(w, device, Decide(A, DismissedTrips, ["trip"]), Change(TRIP, iset{KEY}));
  }

  /** All is quiet, and the account's record does not answer for the decision
   *  that the device knows. */
  ghost predicate Forgotten(w: World) {
    Quiet(w) && Knows(w, A, KEY) && !Absorbed(FactsOf(w.blob.payload.record), KEY)
  }

  lemma EmptyBlobForgets(w: World)
    requires Quiet(w) && Knows(w, A, KEY) && w.blob.payload.record == NO_RECORD
    ensures Forgotten(w)
  {
    assert !Holds(NO_RECORD, KEY);
  }

  // ---- A push fails ----

  const DECIDER := SEEDER.(record := TRIP, learned := iset{KEY}, own := iset{KEY})
  const OWING := SEEDED.(devices := map[A := DECIDER.(owed := true)])
  const TELLING := SEEDED.(
    devices := map[A := DECIDER.(begun := 2, sentOwn := iset{KEY})], pushes := map[PushId(A, 1) := Payload(TRIP, "off", iset{KEY})])

  lemma Tells()
    ensures Reached(START, TELLING)
  {
    Seeds();
    DecidesTrip(SEEDED, SEEDER, DECIDER.(owed := true));
    Then(START, OWING, PushDue(A), TELLING);
  }

  /** A push that fails is forgotten: the decision is on its device alone, which
   *  has seen the latest stamp and owes nothing. */
  lemma FailedPushIsForgotten()
    ensures Initial(START) && exists w :: Reached(START, w) && Forgotten(w)
  {
    var w := TELLING.(pushes := map[]);
    Asks();
    Tells();
    assert TELLING.pushes - {PushId(A, 1)} == map[];
    Then(START, TELLING, LosePush(PushId(A, 1)), w);
    EmptyBlobForgets(w);
  }

  // ---- A push overtakes another ----

  const FLIPPED := SEEDER.(switches := "on", begun := 2, sentSwitches := "on")
  const EARLIER := Payload(NO_RECORD, "on", NOTHING)
  const LATER := Payload(TRIP, "on", iset{KEY})
  const ONE_SENT := SEEDED.(devices := map[A := FLIPPED], pushes := map[PushId(A, 1) := EARLIER])
  const BOTH_SENT := FLIPPED.(record := TRIP, learned := iset{KEY}, own := iset{KEY}, begun := 3, sentOwn := iset{KEY})
  const TWO_UNDER_WAY := ONE_SENT.(devices := map[A := BOTH_SENT], pushes := map[PushId(A, 1) := EARLIER, PushId(A, 2) := LATER])

  lemma SendsOne()
    ensures Reached(START, ONE_SENT)
  {
    Seeds();
    var flipped := SEEDED.(devices := map[A := SEEDER.(switches := "on", owed := true)]);
    Then(START, SEEDED, Flip(A, "on"), flipped);
    Then(START, flipped, PushDue(A), ONE_SENT);
  }

  lemma SendsTwo()
    ensures Reached(START, TWO_UNDER_WAY)
  {
    SendsOne();
    var owing := FLIPPED.(record := TRIP, learned := iset{KEY}, own := iset{KEY}, owed := true);
    DecidesTrip(ONE_SENT, FLIPPED, owing);
    PushesDue(ONE_SENT.(devices := map[A := owing]), owing);
  }

  const LATER_STORED := TWO_UNDER_WAY.(
    devices := map[A := BOTH_SENT.(landed := 2)], stamp := 2, blob := Blob(LATER, PushId(A, 2)),
    pushes := map[PushId(A, 1) := EARLIER], replies := iset{Reply(A, 1), Reply(A, 2)})
  const EARLIER_STORED := LATER_STORED.(
    devices := map[A := BOTH_SENT.(landed := 3)], stamp := 3, blob := Blob(EARLIER, PushId(A, 1)),
    pushes := map[], replies := iset{Reply(A, 1), Reply(A, 2), Reply(A, 3)})

  lemma Overtakes()
    ensures Reached(START, LATER_STORED)
  {
    SendsTwo();
    assert TWO_UNDER_WAY.pushes - {PushId(A, 2)} == LATER_STORED.pushes;
    assert TWO_UNDER_WAY.replies + iset{Reply(A, 2)} == LATER_STORED.replies;
    Then(START, TWO_UNDER_WAY, Put(PushId(A, 2), 2), LATER_STORED);
  }

  lemma IsOvertaken()
    ensures Reached(START, EARLIER_STORED)
  {
    Overtakes();
    assert LATER_STORED.pushes - {PushId(A, 1)} == map[];
    assert LATER_STORED.replies + iset{Reply(A, 3)} == EARLIER_STORED.replies;
    Then(START, LATER_STORED, Put(PushId(A, 1), 3), EARLIER_STORED);
  }

  /** Of two pushes of one device under way, the later arrives first: the blob
   *  ends as the earlier snapshot, and its device has seen it. */
  lemma ReorderedPushesLoseADecision()
    ensures Initial(START) && exists w :: Reached(START, w) && Forgotten(w)
  {
    var w := EARLIER_STORED.(devices := map[A := BOTH_SENT.(landed := 3, mark := 3)]);
    Asks();
    IsOvertaken();
    Then(START, EARLIER_STORED, PushDone(Reply(A, 3)), w);
    EmptyBlobForgets(w);
  }

  // ---- A pull lands between a snapshot and its arrival ----

  const ON_STORED := ONE_SENT.(
    devices := map[A := FLIPPED.(landed := 2)], stamp := 2, blob := Blob(EARLIER, PushId(A, 1)), pushes := map[],
    replies := iset{Reply(A, 1), Reply(A, 2)})
  const ANSWER := Fetched(A, 2, EARLIER)
  const PULLING := ON_STORED.(fetched := ON_STORED.fetched + iset{ANSWER})
  const DIMMED := FLIPPED.(landed := 2, switches := "dim", begun := 3, sentSwitches := "dim")
  const DIM := Payload(NO_RECORD, "dim", NOTHING)
  const DIMMING := PULLING.(devices := map[A := DIMMED], pushes := map[PushId(A, 2) := DIM])
  const UNDONE := DIMMED.(record := Merge(NO_RECORD, NO_RECORD), switches := "on", mark := 2, pulled := Some("on"))
  const APPLIED := DIMMING.(devices := map[A := UNDONE])
  const DIM_STORED := APPLIED.(
    devices := map[A := UNDONE.(landed := 3)], stamp := 3, blob := Blob(DIM, PushId(A, 2)), pushes := map[],
    replies := iset{Reply(A, 1), Reply(A, 2), Reply(A, 3)})

  lemma Pulls()
    ensures Reached(START, PULLING)
  {
    SendsOne();
    assert ONE_SENT.pushes - {PushId(A, 1)} == map[];
    assert ONE_SENT.replies + iset{Reply(A, 2)} == ON_STORED.replies;
    Then(START, ONE_SENT, Put(PushId(A, 1), 2), ON_STORED);
    Then(START, ON_STORED, Fetch(A), PULLING);
  }

  lemma Dims()
    ensures Reached(START, DIMMING)
  {
    Pulls();
    var flipped := PULLING.(devices := map[A := FLIPPED.(landed := 2, switches := "dim", owed := true)]);
    Then(START, PULLING, Flip(A, "dim"), flipped);
    Then(START, flipped, PushDue(A), DIMMING);
  }

  lemma NoNews()
    ensures !KnewMore(NO_RECORD, NO_RECORD)
  {
    forall fact ensures fact !in FactsOf(NO_RECORD) {
      assert !Holds(NO_RECORD, fact);
    }
    KnewMoreIff(NO_RECORD, NO_RECORD);
  }

  lemma Applies()
    ensures Reached(START, APPLIED)
  {
    Dims();
    NoNews();
    assert NOTHING + NOTHING == NOTHING;
    LandsQuietly(DIMMING, DIMMED, ANSWER);
  }

  lemma Stores()
    ensures Reached(START, DIM_STORED)
  {
    Applies();
    assert APPLIED.pushes - {PushId(A, 2)} == map[];
    assert APPLIED.replies + iset{Reply(A, 3)} == DIM_STORED.replies;
    Then(START, APPLIED, Put(PushId(A, 2), 3), DIM_STORED);
  }

  /** A pull that lands between a push's snapshot and its arrival overwrites the
   *  pusher's own switches, and the pusher then takes the blob for seen. */
  lemma PusherKeepsOverwrittenSwitches()
    ensures Initial(START) && exists w :: Reached(START, w) && Differs(w)
  {
    Asks();
    SeesOwn();
    DiffersThen();
  }

  /** All is quiet, and the pusher's switches are not the account's. */
  ghost predicate Differs(w: World) {
    Quiet(w) && A in w.devices && w.devices[A].switches != w.blob.payload.switches
  }

  const DIM_SEEN := DIM_STORED.(devices := map[A := UNDONE.(landed := 3, mark := 3)])

  lemma SeesOwn()
    ensures Reached(START, DIM_SEEN)
  {
    Stores();
    Then(START, DIM_STORED, PushDone(Reply(A, 3)), DIM_SEEN);
  }

  lemma DiffersThen()
    ensures Differs(DIM_SEEN)
  {
    assert "on"[0] == 'o' && "dim"[0] == 'd';
  }

  // ---- Two words at one time ----

  const ON_5 := Pinned("p", 5, true)
  const OFF_5 := Pinned("p", 5, false)
  const PIN_ON := NO_RECORD.(pins := map["p" := Pin(true, 5)])
  const PIN_OFF := NO_RECORD.(pins := map["p" := Pin(false, 5)])
  const PINNER := SEEDER.(
    record := PIN_ON, learned := iset{ON_5}, own := iset{ON_5}, begun := 2, sentOwn := iset{ON_5})
  const PIN_ON_SENT := Payload(PIN_ON, "off", iset{ON_5})
  const PINNING := SEEDED.(devices := map[A := PINNER], pushes := map[PushId(A, 1) := PIN_ON_SENT])

  lemma Pins()
    ensures Reached(START, PINNING)
  {
    var owing := SEEDED.(devices := map[A := PINNER.(owed := true, begun := 1, sentOwn := NOTHING)]);
    Seeds();
    assert NOTHING + iset{ON_5} == iset{ON_5};
    Then(START, SEEDED, SetPin(A, "p", true, 5), owing);
    Then(START, owing, PushDue(A), PINNING);
  }

  const PIN_STORED := PINNING.(
    devices := map[A := PINNER.(landed := 2)], stamp := 2, blob := Blob(PIN_ON_SENT, PushId(A, 1)), pushes := map[],
    replies := iset{Reply(A, 1), Reply(A, 2)})
  const PIN_ANSWER := Fetched(A, 2, PIN_ON_SENT)
  const PIN_PULLING := PIN_STORED.(fetched := PIN_STORED.fetched + iset{PIN_ANSWER})

  lemma PullsPin()
    ensures Reached(START, PIN_PULLING)
  {
    Pins();
    assert PINNING.pushes - {PushId(A, 1)} == map[];
    assert PINNING.replies + iset{Reply(A, 2)} == PIN_STORED.replies;
    Then(START, PINNING, Put(PushId(A, 1), 2), PIN_STORED);
    Then(START, PIN_STORED, Fetch(A), PIN_PULLING);
  }

  const BOTH_WORDS := iset{ON_5, OFF_5}
  const UNPINNER := PINNER.(record := PIN_OFF, learned := BOTH_WORDS, own := BOTH_WORDS, begun := 3, landed := 2, sentOwn := BOTH_WORDS)
  const PIN_OFF_SENT := Payload(PIN_OFF, "off", BOTH_WORDS)
  const UNPINNING := PIN_PULLING.(devices := map[A := UNPINNER], pushes := map[PushId(A, 2) := PIN_OFF_SENT])

  lemma Unpins()
    ensures Reached(START, UNPINNING)
  {
    var owing := PIN_PULLING.(devices := map[A := UNPINNER.(owed := true, begun := 2, sentOwn := iset{ON_5})]);
    PullsPin();
    assert iset{ON_5} + iset{OFF_5} == BOTH_WORDS;
    assert map["p" := Pin(true, 5)]["p" := Pin(false, 5)] == map["p" := Pin(false, 5)];
    Then(START, PIN_PULLING, SetPin(A, "p", false, 5), owing);
    Then(START, owing, PushDue(A), UNPINNING);
  }

  lemma TieIsNoNews()
    ensures !KnewMore(PIN_OFF, PIN_ON) && Merge(PIN_OFF, PIN_ON).pins == PIN_ON.pins
  {
    var none: seq<Search> := [];
    SetNewsIff(PIN_OFF, PIN_ON);
    assert none + none == none;
  }

  const REPINNED := UNPINNER.(record := Merge(PIN_OFF, PIN_ON), mark := 2, pulled := Some("off"))
  const PIN_APPLIED := UNPINNING.(devices := map[A := REPINNED])
  const PIN_OFF_STORED := PIN_APPLIED.(
    devices := map[A := REPINNED.(landed := 3)], stamp := 3, blob := Blob(PIN_OFF_SENT, PushId(A, 2)), pushes := map[],
    replies := iset{Reply(A, 1), Reply(A, 2), Reply(A, 3)})
  const PIN_OFF_SEEN := PIN_OFF_STORED.(devices := map[A := REPINNED.(landed := 3, mark := 3)])

  lemma AppliesPin()
    ensures Reached(START, PIN_APPLIED)
  {
    Unpins();
    TieIsNoNews();
    assert BOTH_WORDS + iset{ON_5} == BOTH_WORDS;
    LandsQuietly(UNPINNING, UNPINNER, PIN_ANSWER);
  }

  lemma StoresPin()
    ensures Reached(START, PIN_OFF_STORED)
  {
    AppliesPin();
    assert PIN_APPLIED.pushes - {PushId(A, 2)} == map[];
    assert PIN_APPLIED.replies + iset{Reply(A, 3)} == PIN_OFF_STORED.replies;
    Then(START, PIN_APPLIED, Put(PushId(A, 2), 3), PIN_OFF_STORED);
  }

  lemma SeesPin()
    ensures Reached(START, PIN_OFF_SEEN)
  {
    StoresPin();
    Then(START, PIN_OFF_STORED, PushDone(Reply(A, 3)), PIN_OFF_SEEN);
  }

  /** All is quiet, and device and account hold opposite words on a pin. */
  ghost predicate SaysOpposite(w: World) {
    && Quiet(w) && A in w.devices && "p" in w.devices[A].record.pins && "p" in w.blob.payload.record.pins
    && w.devices[A].record.pins["p"].on != w.blob.payload.record.pins["p"].on
  }

  /** A pin set twice at one time, by a device or by two: a pull that brings the
   *  first word after the second has been pushed undoes it without news, and the
   *  device then takes its own blob, which says the opposite, for seen. No push
   *  is lost and none overtaken. */
  lemma TieLeavesDeviceAndAccountApart()
    ensures Initial(START) && exists w :: Reached(START, w) && SaysOpposite(w)
  {
    Asks();
    SeesPin();
    TieIsNoNews();
    assert SaysOpposite(PIN_OFF_SEEN);
  }
}
