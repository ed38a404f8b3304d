/** The media window cache: content blobs held as aligned windows. */
module WindowCache {
  // At most one fill runs per window; drops go key by key, with an await after
  // every unlink. Blob bytes are stood for by versions: version `v` of a key is
  // what its `v`-th overwrite left in the backing store.

  import opened Prelude
  import opened RecencyIndex

  type Key = string

  datatype Name = Window(key: Key, number: nat)

  const FILLS_MAX: nat := 3

  /** A fill of one window: its bytes are asked for, arrive, are renamed into
   *  place, and are indexed or, when a drop has passed them, taken away again. */
  datatype Fill =
    | Started(name: Name, epoch: nat)
    | Got(name: Name, epoch: nat, version: nat)
    | Placed(name: Name, epoch: nat, version: nat)
    | Unplacing(name: Name)

  /** A drop under way: the windows it has yet to forget, with their sizes, out
   *  of those indexed when it began, and the version the store held then. */
  datatype Dropping = Dropping(key: Key, remaining: seq<Entry<Name>>, version: nat)

  /** A window read that found its window here and has yet to open the file.
   *  `floor` is history: the version the key's finished drops answer for. */
  datatype Reading = Reading(name: Name, floor: nat)

  /** `base`, `floor` and `uses` are history: per key, the version when its last
   *  drop began, and the highest version a finished drop of it began at; and the
   *  windows in the order they were admitted or read from. */
  datatype Cache = Cache(
    index: seq<Entry<Name>>, total: int, epochs: map<Key, nat>, inflight: set<Name>, active: int,
    disk: map<Name, nat>, versions: map<Key, nat>,
    fills: set<Fill>, unlinks: multiset<Name>, drops: multiset<Dropping>, readings: multiset<Reading>,
    base: map<Key, nat>, floor: map<Key, nat>, uses: seq<Name>)

  datatype Step =
    | Want(name: Name)
    | Fetch(fill: Fill)
    | Place(fill: Fill)
    | Settle(fill: Fill, size: nat)
    | Unplace(fill: Fill)
    | Fail(fill: Fill)
    | Overwrite(key: Key)
    | BeginDrop(key: Key)
    | DropNext(drop: Dropping)
    | EndDrop(drop: Dropping)
    | Unlink(name: Name)
    | BeginRead(name: Name)
    | EndRead(reading: Reading)

  function At(m: map<Key, nat>, key: Key): nat {
    if key in m then m[key] else 0
  }

  /** The window is indexed and its file exists. */
  predicate Present(c: Cache, name: Name) {
    Has(c.index, name) && name in c.disk
  }

  predicate Current(c: Cache, fill: Fill)
    requires !fill.Unplacing?
  {
    fill.epoch == At(c.epochs, fill.name.key)
  }

  /** Those of the indexed windows that belong to the key. */
  function WindowsOf(index: seq<Entry<Name>>, key: Key): seq<Entry<Name>> {
    if index == [] then []
    else (if index[0].key.key == key then [index[0]] else []) + WindowsOf(index[1..], key)
  }

  /** What only drops and reads touch. */
  ghost predicate SamePast(c: Cache, c': Cache) {
    c'.floor == c.floor && c'.readings == c.readings && c'.drops == c.drops && c'.base == c.base
  }

  /** Asks for a fill. At the limit the fill is shed, and leaves its name
   *  among those in flight. */
  function OnWant(c: Cache, name: Name): (c': Cache)
    ensures SamePast(c, c')
  {
    if Present(c, name) || name in c.inflight then c
    else if c.active >= FILLS_MAX then c.(inflight := c.inflight + {name})
    else Begin(c, Started(name, At(c.epochs, name.key)))
  }

  function Begin(c: Cache, fill: Fill): (c': Cache)
    ensures SamePast(c, c')
  {
    c.(inflight := c.inflight + {fill.name}, active := c.active + 1, fills := c.fills + {fill})
  }

  function Finish(c: Cache, fill: Fill): (c': Cache)
    ensures SamePast(c, c')
  {
    c.(fills := c.fills - {fill}, inflight := c.inflight - {fill.name}, active := c.active - 1)
  }

  function Become(c: Cache, fill: Fill, next: Fill): (c': Cache)
    ensures SamePast(c, c')
  {
    c.(fills := c.fills - {fill} + {next})
  }

  function OnSettle(c: Cache, fill: Fill, size: nat, budget: nat): (c': Cache)
    requires fill.Placed?
    ensures SamePast(c, c')
  {
    if !Current(c, fill) then Become(c, fill, Unplacing(fill.name))
    else
      var books := Admission(c.index, c.total, fill.name, size, budget);
      Finish(c, fill).(index := books.index, total := books.total, unlinks := c.unlinks + multiset(books.gone),
                       uses := c.uses + [fill.name])
  }

  function OnBeginDrop(c: Cache, key: Key): Cache {
    var version := At(c.versions, key);
    c.(epochs := c.epochs[key := At(c.epochs, key) + 1],
       drops := c.drops + multiset{Dropping(key, WindowsOf(c.index, key), version)},
       base := c.base[key := version])
  }

  function OnDropNext(c: Cache, drop: Dropping): Cache
    requires drop.remaining != []
  {
    var name := drop.remaining[0].key;
    c.(index := Without(c.index, name), total := c.total - drop.remaining[0].size, unlinks := c.unlinks + multiset{name},
       drops := c.drops - multiset{drop} + multiset{drop.(remaining := drop.remaining[1..])})
  }

  predicate StepOfFill(step: Step) {
    step.Want? || step.Fetch? || step.Place? || step.Settle? || step.Unplace? || step.Fail?
  }

  predicate StepOfDrop(step: Step) {
    step.BeginDrop? || step.DropNext? || step.EndDrop?
  }

  function ApplyFill(c: Cache, step: Step, budget: nat): (c': Cache)
    requires StepOfFill(step)
    ensures SamePast(c, c')
  {
    match step
    case Want(name) => OnWant(c, name)
    case Fetch(fill) =>
      if fill in c.fills && fill.Started? then
        Become(c, fill, Got(fill.name, fill.epoch, At(c.versions, fill.name.key)))
      else c
    case Place(fill) =>
      if fill in c.fills && fill.Got? then
        Become(c, fill, Placed(fill.name, fill.epoch, fill.version)).(disk := c.disk[fill.name := fill.version])
      else c
    case Settle(fill, size) => if fill in c.fills && fill.Placed? then OnSettle(c, fill, size, budget) else c
    case Unplace(fill) =>
      if fill in c.fills && fill.Unplacing? then Finish(c, fill).(disk := c.disk - {fill.name}) else c
    case Fail(fill) => if fill in c.fills && (fill.Started? || fill.Got?) then Finish(c, fill) else c
  }

  function ApplyDrop(c: Cache, step: Step): (c': Cache)
    requires StepOfDrop(step)
    ensures c'.readings == c.readings
  {
    match step
    case BeginDrop(key) => OnBeginDrop(c, key)
    case DropNext(drop) => if drop in c.drops && drop.remaining != [] then OnDropNext(c, drop) else c
    case EndDrop(drop) =>
      if drop in c.drops && drop.remaining == [] then
        c.(drops := c.drops - multiset{drop},
           floor := c.floor[drop.key := Max(At(c.floor, drop.key), drop.version)])
      else c
  }

  function ApplyRead(c: Cache, step: Step): (c': Cache)
    requires !StepOfFill(step) && !StepOfDrop(step)
    ensures c'.floor == c.floor && c'.fills == c.fills && c'.inflight == c.inflight
    ensures !step.BeginRead? ==> c'.index == c.index
  {
    match step
    case Overwrite(key) => c.(versions := c.versions[key := At(c.versions, key) + 1])
    case Unlink(name) =>
      if name in c.unlinks then c.(unlinks := c.unlinks - multiset{name}, disk := c.disk - {name}) else c
    case BeginRead(name) =>
      if Present(c, name) then
        c.(index := Without(c.index, name) + [Entry(name, SizeOf(c.index, name))], uses := c.uses + [name],
           readings := c.readings + multiset{Reading(name, At(c.floor, name.key))})
      else c
    case EndRead(reading) => c.(readings := c.readings - multiset{reading})
  }

  function Apply(c: Cache, step: Step, budget: nat): Cache {
    if StepOfFill(step) then ApplyFill(c, step, budget)
    else if StepOfDrop(step) then ApplyDrop(c, step)
    else ApplyRead(c, step)
  }

  function Execute(c: Cache, steps: seq<Step>, budget: nat): Cache
    decreases |steps|
  {
    if steps == [] then c else Execute(Apply(c, steps[0], budget), steps[1..], budget)
  }

  const EMPTY := Cache([], 0, map[], {}, 0, map[], map[], {}, multiset{}, multiset{}, multiset{}, map[], map[], [])

  // ---- Invariant ----

  /** One fill per window, and no more than the limit. */
  ghost predicate Coalesced(c: Cache) {
    && Unique(c.index)
    && (forall f, g :: f in c.fills && g in c.fills && f.name == g.name ==> f == g)
    && (forall f :: f in c.fills ==> f.name in c.inflight)
    && c.active == |c.fills| <= FILLS_MAX
  }

  ghost predicate HistoryOk(c: Cache) {
    && (forall key {:trigger At(c.base, key)} :: At(c.floor, key) <= At(c.base, key) <= At(c.versions, key))
    && (forall d :: d in c.drops ==> d.version <= At(c.base, d.key) && forall i :: 0 <= i < |d.remaining| ==> d.remaining[i].key.key == d.key)
    && (forall r :: r in c.readings ==> r.floor <= At(c.floor, r.name.key))
  }

  /** A fill's bytes are no newer than the store's; those of a fill that no drop
   *  has passed are no older than the last drop; a file in place is its fill's. */
  ghost predicate FillsOk(c: Cache) {
    forall f :: f in c.fills && !f.Unplacing? ==>
      && f.epoch <= At(c.epochs, f.name.key)
      && (f.Got? || f.Placed? ==> f.version <= At(c.versions, f.name.key))
      && ((f.Got? || f.Placed?) && Current(c, f) ==> At(c.base, f.name.key) <= f.version)
      && (f.Placed? && f.name in c.disk ==> c.disk[f.name] == f.version)
  }

  /** Neither the window's file nor a fill of it is older than `version`. */
  ghost predicate Fresh(c: Cache, name: Name, version: nat) {
    && (name in c.disk ==> version <= c.disk[name])
    && (forall f :: f in c.fills && f.name == name && (f.Got? || f.Placed?) ==> version <= f.version)
  }

  ghost predicate IndexOk(c: Cache) {
    forall name :: Has(c.index, name) ==>
      && Fresh(c, name, At(c.floor, name.key))
      && forall d :: d in c.drops && d.key == name.key ==> Has(d.remaining, name) || Fresh(c, name, d.version)
  }

  ghost predicate ReadingsOk(c: Cache) {
    forall r :: r in c.readings ==> Fresh(c, r.name, r.floor)
  }

  ghost predicate Inv(c: Cache) {
    Coalesced(c) && HistoryOk(c) && FillsOk(c) && IndexOk(c) && ReadingsOk(c)
  }

  // ---- Every step keeps the invariant ----

  ghost predicate FreshnessKept(c: Cache, c': Cache) {
    forall n: Name, v: nat {:trigger Fresh(c', n, v)} :: v <= At(c.versions, n.key) && Fresh(c, n, v) ==> Fresh(c', n, v)
  }

  /** Files that only go, and no new bytes on their way: nothing grows staler. */
  lemma NothingNewIsFresh(c: Cache, c': Cache)
    requires forall n :: n in c'.disk ==> n in c.disk && c'.disk[n] == c.disk[n]
    requires forall f :: f in c'.fills && (f.Got? || f.Placed?) ==> f in c.fills
    ensures FreshnessKept(c, c')
  {
  }

  /** Windows that grow no staler, and no new ones, are still served rightly. */
  lemma ServingKept(c: Cache, c': Cache)
    requires HistoryOk(c) && IndexOk(c) && ReadingsOk(c) && FreshnessKept(c, c')
    requires forall n :: Has(c'.index, n) ==> Has(c.index, n)
    requires c'.drops == c.drops && c'.floor == c.floor && c'.readings == c.readings
    ensures IndexOk(c') && ReadingsOk(c')
  {
    forall n | Has(c'.index, n)
      ensures Fresh(c', n, At(c'.floor, n.key))
      ensures forall d :: d in c'.drops && d.key == n.key ==> Has(d.remaining, n) || Fresh(c', n, d.version)
    {
      assert At(c.floor, n.key) <= At(c.base, n.key) <= At(c.versions, n.key);
    }
    forall r | r in c'.readings ensures Fresh(c', r.name, r.floor) {
      assert At(c.floor, r.name.key) <= At(c.base, r.name.key) <= At(c.versions, r.name.key);
    }
  }

  lemma BeginFacts(c: Cache, fill: Fill)
    requires Coalesced(c) && fill.name !in c.inflight && c.active < FILLS_MAX
    ensures Coalesced(Begin(c, fill))
  {
    assert fill !in c.fills;
    assert |c.fills + {fill}| == |c.fills| + 1;
    forall f, g | f in c.fills + {fill} && g in c.fills + {fill} && f.name == g.name ensures f == g {
      assert f in c.fills ==> f.name in c.inflight;
      assert g in c.fills ==> g.name in c.inflight;
    }
  }

  lemma BeginKeeps(c: Cache, fill: Fill)
    requires Inv(c) && fill.name !in c.inflight && c.active < FILLS_MAX
    requires fill == Started(fill.name, At(c.epochs, fill.name.key))
    ensures Inv(Begin(c, fill))
  {
    BeginFacts(c, fill);
    NothingNewIsFresh(c, Begin(c, fill));
    ServingKept(c, Begin(c, fill));
  }

  lemma WantKeeps(c: Cache, name: Name)
    requires Inv(c)
    ensures Inv(OnWant(c, name))
  {
    if Present(c, name) || name in c.inflight {
    } else if c.active >= FILLS_MAX {
      var c' := c.(inflight := c.inflight + {name});
      NothingNewIsFresh(c, c');
      ServingKept(c, c');
    } else {
      BeginKeeps(c, Started(name, At(c.epochs, name.key)));
    }
  }

  lemma BecomeFacts(c: Cache, fill: Fill, next: Fill)
    requires Coalesced(c) && fill in c.fills && next.name == fill.name && next != fill
    ensures Coalesced(Become(c, fill, next))
    ensures forall f :: f in Become(c, fill, next).fills <==> f == next || (f in c.fills && f.name != fill.name)
  {
    assert next !in c.fills;
    assert |c.fills - {fill} + {next}| == |c.fills|;
  }

  lemma FetchFreshens(c: Cache, fill: Fill, budget: nat)
    requires Coalesced(c) && fill in c.fills && fill.Started?
    ensures FreshnessKept(c, Apply(c, Fetch(fill), budget))
  {
    BecomeFacts(c, fill, Got(fill.name, fill.epoch, At(c.versions, fill.name.key)));
  }

  lemma FetchFills(c: Cache, fill: Fill, budget: nat)
    requires Coalesced(c) && HistoryOk(c) && FillsOk(c) && fill in c.fills && fill.Started?
    ensures var c' := Apply(c, Fetch(fill), budget); Coalesced(c') && FillsOk(c')
  {
    BecomeFacts(c, fill, Got(fill.name, fill.epoch, At(c.versions, fill.name.key)));
    assert At(c.base, fill.name.key) <= At(c.versions, fill.name.key);
  }

  lemma FetchKeeps(c: Cache, fill: Fill, budget: nat)
    requires Inv(c) && fill in c.fills && fill.Started?
    ensures Inv(Apply(c, Fetch(fill), budget))
  {
    FetchFills(c, fill, budget);
    FetchFreshens(c, fill, budget);
    ServingKept(c, Apply(c, Fetch(fill), budget));
  }

  lemma PlaceFills(c: Cache, fill: Fill, budget: nat)
    requires Coalesced(c) && FillsOk(c) && fill in c.fills && fill.Got?
    ensures var c' := Apply(c, Place(fill), budget); Coalesced(c') && FillsOk(c')
  {
    var next := Placed(fill.name, fill.epoch, fill.version);
    BecomeFacts(c, fill, next);
    var c' := Apply(c, Place(fill), budget);
    assert c' == Become(c, fill, next).(disk := c'.disk);
    forall f | f in c'.fills && !f.Unplacing?
      ensures f.epoch <= At(c'.epochs, f.name.key)
      ensures f.Got? || f.Placed? ==> f.version <= At(c'.versions, f.name.key)
      ensures (f.Got? || f.Placed?) && Current(c', f) ==> At(c'.base, f.name.key) <= f.version
      ensures f.Placed? && f.name in c'.disk ==> c'.disk[f.name] == f.version
    {
      if f != next {
        assert f in c.fills && f.name != fill.name;
      }
    }
  }

  lemma PlaceFreshens(c: Cache, fill: Fill, budget: nat)
    requires Coalesced(c) && fill in c.fills && fill.Got?
    ensures FreshnessKept(c, Apply(c, Place(fill), budget))
  {
    BecomeFacts(c, fill, Placed(fill.name, fill.epoch, fill.version));
  }

  lemma PlaceKeeps(c: Cache, fill: Fill, budget: nat)
    requires Inv(c) && fill in c.fills && fill.Got?
    ensures Inv(Apply(c, Place(fill), budget))
  {
    var c' := Apply(c, Place(fill), budget);
    PlaceFills(c, fill, budget);
    PlaceFreshens(c, fill, budget);
    ServingKept(c, c');
  }

  lemma FinishFacts(c: Cache, fill: Fill)
    requires Coalesced(c) && fill in c.fills
    ensures Coalesced(Finish(c, fill))
    ensures forall f :: f in Finish(c, fill).fills <==> f in c.fills && f.name != fill.name
  {
  }

  lemma UnplaceKeeps(c: Cache, fill: Fill, budget: nat)
    requires Inv(c) && fill in c.fills && fill.Unplacing?
    ensures Inv(Apply(c, Unplace(fill), budget))
  {
    var c' := Apply(c, Unplace(fill), budget);
    FinishFacts(c, fill);
    NothingNewIsFresh(c, c');
    ServingKept(c, c');
  }

  lemma FailKeeps(c: Cache, fill: Fill)
    requires Inv(c) && fill in c.fills
    ensures Inv(Finish(c, fill))
  {
    var c' := Finish(c, fill);
    FinishFacts(c, fill);
    NothingNewIsFresh(c, c');
    ServingKept(c, c');
  }

  lemma SettleLateKeeps(c: Cache, fill: Fill)
    requires Inv(c) && fill in c.fills && fill.Placed?
    ensures Inv(Become(c, fill, Unplacing(fill.name)))
  {
    var c' := Become(c, fill, Unplacing(fill.name));
    BecomeFacts(c, fill, Unplacing(fill.name));
    NothingNewIsFresh(c, c');
    ServingKept(c, c');
  }

  lemma SettleKeeps(c: Cache, fill: Fill, size: nat, budget: nat)
    requires Inv(c) && fill in c.fills && fill.Placed?
    ensures Inv(OnSettle(c, fill, size, budget))
  {
    if !Current(c, fill) {
      SettleLateKeeps(c, fill);
    } else {
      AdmissionFacts(c.index, c.total, fill.name, size, budget);
      FailKeeps(c, fill);
      AdmitKeeps(Finish(c, fill), OnSettle(c, fill, size, budget), fill.name, At(c.base, fill.name.key));
    }
  }

  /** A window whose file is as new as every drop begun may join the index. */
  lemma AdmitKeeps(c: Cache, c': Cache, name: Name, version: nat)
    requires Inv(c) && c' == c.(index := c'.index, total := c'.total, unlinks := c'.unlinks, uses := c'.uses) && Unique(c'.index)
    requires forall n :: Has(c'.index, n) ==> n == name || Has(c.index, n)
    requires version == At(c.base, name.key) && Fresh(c, name, version)
    ensures Inv(c')
  {
    forall n | Has(c'.index, n)
      ensures Fresh(c', n, At(c'.floor, n.key))
      ensures forall d :: d in c'.drops && d.key == n.key ==> Has(d.remaining, n) || Fresh(c', n, d.version)
    {
      assert At(c.floor, n.key) <= At(c.base, n.key);
      if n == name {
        assert forall v: nat :: v <= version ==> Fresh(c', n, v);
      } else {
        assert forall v: nat :: Fresh(c, n, v) ==> Fresh(c', n, v);
      }
    }
    assert forall n: Name, v: nat :: Fresh(c, n, v) ==> Fresh(c', n, v);
  }

  lemma {:induction false} WindowsOfAll(index: seq<Entry<Name>>, key: Key)
    ensures forall n :: Has(WindowsOf(index, key), n) <==> Has(index, n) && n.key == key
  {
    if index != [] {
      WindowsOfAll(index[1..], key);
      forall n ensures Has(WindowsOf(index, key), n) <==> Has(index, n) && n.key == key {
        HasHead(index, n);
        if index[0].key.key == key {
          HasHead(WindowsOf(index, key), n);
          assert WindowsOf(index, key)[1..] == WindowsOf(index[1..], key);
        } else {
          assert WindowsOf(index, key) == WindowsOf(index[1..], key);
        }
      }
    }
  }

  lemma BeginDropHistory(c: Cache, key: Key)
    requires HistoryOk(c)
    ensures HistoryOk(OnBeginDrop(c, key))
  {
    var c' := OnBeginDrop(c, key);
    var begun := Dropping(key, WindowsOf(c.index, key), At(c.versions, key));
    WindowsOfAll(c.index, key);
    forall k ensures At(c'.floor, k) <= At(c'.base, k) <= At(c'.versions, k) {
      assert At(c.floor, k) <= At(c.base, k) <= At(c.versions, k);
    }
    forall d | d in c'.drops
      ensures d.version <= At(c'.base, d.key) && forall i :: 0 <= i < |d.remaining| ==> d.remaining[i].key.key == d.key
    {
      assert At(c.base, d.key) <= At(c.versions, d.key);
      if d != begun {
        assert d in c.drops;
      } else {
        forall i | 0 <= i < |d.remaining| ensures d.remaining[i].key.key == d.key {
          assert Has(d.remaining, d.remaining[i].key);
        }
      }
    }
  }

  lemma BeginDropServes(c: Cache, key: Key)
    requires IndexOk(c) && ReadingsOk(c)
    ensures IndexOk(OnBeginDrop(c, key)) && ReadingsOk(OnBeginDrop(c, key))
  {
    var c' := OnBeginDrop(c, key);
    WindowsOfAll(c.index, key);
    assert c'.disk == c.disk && c'.fills == c.fills;
    forall n, d | Has(c'.index, n) && d in c'.drops && d.key == n.key ensures Has(d.remaining, n) || Fresh(c', n, d.version) {
      if d != Dropping(key, WindowsOf(c.index, key), At(c.versions, key)) {
        assert d in c.drops;
        assert Has(d.remaining, n) || Fresh(c, n, d.version);
      }
    }
    forall n | Has(c'.index, n) ensures Fresh(c', n, At(c'.floor, n.key)) {
      assert Fresh(c, n, At(c.floor, n.key));
    }
    forall r | r in c'.readings ensures Fresh(c', r.name, r.floor) {
      assert Fresh(c, r.name, r.floor);
    }
  }

  lemma BeginDropKeeps(c: Cache, key: Key)
    requires Inv(c)
    ensures Inv(OnBeginDrop(c, key))
  {
    BeginDropHistory(c, key);
    BeginDropServes(c, key);
  }

  lemma DropNextServes(c: Cache, drop: Dropping)
    requires Unique(c.index) && IndexOk(c) && drop in c.drops && drop.remaining != []
    ensures IndexOk(OnDropNext(c, drop))
  {
    var c' := OnDropNext(c, drop);
    var name, rest := drop.remaining[0].key, drop.(remaining := drop.remaining[1..]);
    WithoutFacts(c.index, name);
    assert c'.disk == c.disk && c'.fills == c.fills;
    forall n | Has(c'.index, n) ensures Fresh(c', n, At(c'.floor, n.key)) {
      assert Fresh(c, n, At(c.floor, n.key));
    }
    forall n, d | Has(c'.index, n) && d in c'.drops && d.key == n.key ensures Has(d.remaining, n) || Fresh(c', n, d.version) {
      var was := if d == rest then drop else d;
      assert was in c.drops;
      assert Has(was.remaining, n) || Fresh(c, n, was.version);
      if d == rest && Has(drop.remaining, n) {
        var i :| 0 <= i < |drop.remaining| && drop.remaining[i].key == n;
        assert rest.remaining[i - 1].key == n;
      }
    }
  }

  lemma DropNextHistory(c: Cache, drop: Dropping)
    requires HistoryOk(c) && drop in c.drops && drop.remaining != []
    ensures HistoryOk(OnDropNext(c, drop))
  {
    var c' := OnDropNext(c, drop);
    var rest := drop.(remaining := drop.remaining[1..]);
    forall d | d in c'.drops
      ensures d.version <= At(c'.base, d.key) && forall i :: 0 <= i < |d.remaining| ==> d.remaining[i].key.key == d.key
    {
      assert d in c.drops || d == rest;
    }
  }

  lemma DropNextKeeps(c: Cache, drop: Dropping)
    requires Inv(c) && drop in c.drops && drop.remaining != []
    ensures Inv(OnDropNext(c, drop))
  {
    var c' := OnDropNext(c, drop);
    WithoutFacts(c.index, drop.remaining[0].key);
    DropNextServes(c, drop);
    DropNextHistory(c, drop);
    assert c'.disk == c.disk && c'.fills == c.fills;
    forall r | r in c'.readings ensures Fresh(c', r.name, r.floor) {
      assert Fresh(c, r.name, r.floor);
    }
  }

  lemma EndDropServes(c: Cache, drop: Dropping, budget: nat)
    requires IndexOk(c) && drop in c.drops && drop.remaining == []
    ensures IndexOk(Apply(c, EndDrop(drop), budget))
  {
    var c' := Apply(c, EndDrop(drop), budget);
    assert c'.disk == c.disk && c'.fills == c.fills;
    forall n | Has(c'.index, n) ensures Fresh(c', n, At(c'.floor, n.key)) {
      assert Fresh(c, n, At(c.floor, n.key));
      assert n.key == drop.key ==> Fresh(c, n, drop.version);
    }
    forall n, d | Has(c'.index, n) && d in c'.drops && d.key == n.key ensures Has(d.remaining, n) || Fresh(c', n, d.version) {
      assert d in c.drops;
      assert Has(d.remaining, n) || Fresh(c, n, d.version);
    }
  }

  lemma EndDropKeeps(c: Cache, drop: Dropping, budget: nat)
    requires Inv(c) && drop in c.drops && drop.remaining == []
    ensures Inv(Apply(c, EndDrop(drop), budget))
  {
    var c' := Apply(c, EndDrop(drop), budget);
    EndDropServes(c, drop, budget);
    assert c'.disk == c.disk && c'.fills == c.fills;
    forall k ensures At(c.floor, k) <= At(c'.floor, k) <= At(c'.base, k) <= At(c'.versions, k) {
      assert At(c.floor, k) <= At(c.base, k) <= At(c.versions, k);
    }
    forall r | r in c'.readings ensures r.floor <= At(c'.floor, r.name.key) && Fresh(c', r.name, r.floor) {
      assert r.floor <= At(c.floor, r.name.key) && Fresh(c, r.name, r.floor);
    }
  }

  lemma BeginReadKeeps(c: Cache, name: Name, budget: nat)
    requires Inv(c) && Present(c, name)
    ensures Inv(Apply(c, BeginRead(name), budget))
  {
    var c' := Apply(c, BeginRead(name), budget);
    var touched := c.(index := c'.index);
    WithoutFacts(c.index, name);
    AppendFacts(Without(c.index, name), name, SizeOf(c.index, name));
    NothingNewIsFresh(c, touched);
    ServingKept(c, touched);
    assert forall n: Name, v: nat :: Fresh(touched, n, v) ==> Fresh(c', n, v);
    assert Has(c.index, name);
  }

  lemma UnlinkKeeps(c: Cache, name: Name)
    requires Inv(c)
    ensures Inv(c.(unlinks := c.unlinks - multiset{name}, disk := c.disk - {name}))
  {
    var c' := c.(unlinks := c.unlinks - multiset{name}, disk := c.disk - {name});
    NothingNewIsFresh(c, c');
    ServingKept(c, c');
  }

  lemma OverwriteKeeps(c: Cache, key: Key, budget: nat)
    requires Inv(c)
    ensures Inv(Apply(c, Overwrite(key), budget))
  {
    var c' := Apply(c, Overwrite(key), budget);
    forall k ensures At(c'.floor, k) <= At(c'.base, k) <= At(c'.versions, k) {
      assert At(c.floor, k) <= At(c.base, k) <= At(c.versions, k);
    }
    NothingNewIsFresh(c, c');
    ServingKept(c, c');
  }

  lemma EndReadKeeps(c: Cache, reading: Reading, budget: nat)
    requires Inv(c)
    ensures Inv(Apply(c, EndRead(reading), budget))
  {
    var c' := Apply(c, EndRead(reading), budget);
    assert c'.readings <= c.readings;
    var same := c'.(readings := c.readings);
    NothingNewIsFresh(c, same);
    ServingKept(c, same);
    assert c'.disk == c.disk && c'.fills == c.fills;
    forall n, v: nat | Fresh(c, n, v) ensures Fresh(c', n, v) {
    }
  }

  lemma FillStep(c: Cache, step: Step, budget: nat)
    requires Inv(c) && StepOfFill(step)
    ensures Inv(Apply(c, step, budget))
  {
    match step
    case Want(name) => WantKeeps(c, name);
    case Fetch(fill) => if fill in c.fills && fill.Started? { FetchKeeps(c, fill, budget); }
    case Place(fill) => if fill in c.fills && fill.Got? { PlaceKeeps(c, fill, budget); }
    case Settle(fill, size) => if fill in c.fills && fill.Placed? { SettleKeeps(c, fill, size, budget); }
    case Unplace(fill) => if fill in c.fills && fill.Unplacing? { UnplaceKeeps(c, fill, budget); }
    case Fail(fill) => if fill in c.fills { FailKeeps(c, fill); }
  }

  lemma DropStep(c: Cache, step: Step, budget: nat)
    requires Inv(c) && StepOfDrop(step)
    ensures Inv(Apply(c, step, budget))
  {
    match step
    case BeginDrop(key) => BeginDropKeeps(c, key);
    case DropNext(drop) => if drop in c.drops && drop.remaining != [] { DropNextKeeps(c, drop); }
    case EndDrop(drop) => if drop in c.drops && drop.remaining == [] { EndDropKeeps(c, drop, budget); }
  }

  lemma ReadStep(c: Cache, step: Step, budget: nat)
    requires Inv(c) && !StepOfFill(step) && !StepOfDrop(step)
    ensures Inv(Apply(c, step, budget))
  {
    match step
    case BeginRead(name) => if Present(c, name) { BeginReadKeeps(c, name, budget); }
    case Unlink(name) => UnlinkKeeps(c, name);
    case Overwrite(key) => OverwriteKeeps(c, key, budget);
    case EndRead(reading) => EndReadKeeps(c, reading, budget);
  }

  lemma InvStep(c: Cache, step: Step, budget: nat)
    requires Inv(c)
    ensures Inv(Apply(c, step, budget))
  {
    if StepOfFill(step) {
      FillStep(c, step, budget);
    } else if StepOfDrop(step) {
      DropStep(c, step, budget);
    } else {
      ReadStep(c, step, budget);
    }
  }

  lemma {:induction false} InvRun(c: Cache, steps: seq<Step>, budget: nat)
    requires Inv(c)
    ensures Inv(Execute(c, steps, budget))
    decreases |steps|
  {
    if steps != [] {
      InvStep(c, steps[0], budget);
      InvRun(Apply(c, steps[0], budget), steps[1..], budget);
    }
  }

  // ---- Main results ----

  lemma {:induction false} FloorRises(c: Cache, steps: seq<Step>, budget: nat, key: Key)
    ensures At(c.floor, key) <= At(Execute(c, steps, budget).floor, key)
    decreases |steps|
  {
    if steps != [] {
      FloorRises(Apply(c, steps[0], budget), steps[1..], budget, key);
    }
  }

  /** A read under way stays under way until it is over. */
  ghost predicate NeverEnds(steps: seq<Step>, reading: Reading) {
    forall i :: 0 <= i < |steps| ==> steps[i] != EndRead(reading)
  }

  lemma {:induction false} ReadingStays(c: Cache, steps: seq<Step>, budget: nat, reading: Reading)
    requires reading in c.readings && NeverEnds(steps, reading)
    ensures reading in Execute(c, steps, budget).readings
    decreases |steps|
  {
    if steps != [] {
      ReadingStays(Apply(c, steps[0], budget), steps[1..], budget, reading);
    }
  }

  /** A read opens bytes no older than the drops finished when it began. */
  lemma OpensFresh(c: Cache, name: Name, after: seq<Step>, budget: nat)
    requires Inv(c) && Present(c, name) && NeverEnds(after, Reading(name, At(c.floor, name.key)))
    ensures Fresh(Execute(Apply(c, BeginRead(name), budget), after, budget), name, At(c.floor, name.key))
  {
    var reading, begun := Reading(name, At(c.floor, name.key)), Apply(c, BeginRead(name), budget);
    ReadStep(c, BeginRead(name), budget);
    assert reading in begun.readings;
    InvRun(begun, after, budget);
    ReadingStays(begun, after, budget, reading);
  }

  /**
   * A put or remove of the key has returned: its drop, begun at `drop.version`,
   * is over. A window read that begins later opens bytes at least that new,
   * whatever fills, evictions, drops and late unlinks run before, between and
   * after.
   */
  lemma ReadsAfterAPutAreNew(c: Cache, drop: Dropping, between: seq<Step>, name: Name, after: seq<Step>, budget: nat)
    requires Inv(c) && drop in c.drops && drop.remaining == [] && name.key == drop.key
    requires var c2 := Execute(Apply(c, EndDrop(drop), budget), between, budget);
      Present(c2, name) && NeverEnds(after, Reading(name, At(c2.floor, name.key)))
    ensures var c2 := Execute(Apply(c, EndDrop(drop), budget), between, budget);
      var c3 := Execute(Apply(c2, BeginRead(name), budget), after, budget);
      name in c3.disk ==> c3.disk[name] >= drop.version
  {
    var c1 := Apply(c, EndDrop(drop), budget);
    DropStep(c, EndDrop(drop), budget);
    assert At(c1.floor, drop.key) >= drop.version;
    InvRun(c1, between, budget);
    FloorRises(c1, between, budget, drop.key);
    OpensFresh(Execute(c1, between, budget), name, after, budget);
  }

  /** Every state a server can reach from an empty cache has the invariant. */
  lemma ReachableOk(steps: seq<Step>, budget: nat)
    ensures Inv(Execute(EMPTY, steps, budget))
  {
    assert Inv(EMPTY);
    InvRun(EMPTY, steps, budget);
  }

  /** No more than three fills run, one at most per window, and each that runs
   *  has its name among those in flight. */
  lemma FillsAreCoalesced(steps: seq<Step>, budget: nat)
    ensures var c := Execute(EMPTY, steps, budget);
      && |c.fills| == c.active <= FILLS_MAX
      && (forall f, g :: f in c.fills && g in c.fills && f.name == g.name ==> f == g)
      && forall f :: f in c.fills ==> f.name in c.inflight
  {
    ReachableOk(steps, budget);
  }

  /** Forgetting a window by the size it had when the drop began keeps the
   *  byte count exact just when the window still has that size. */
  lemma DropNextAccounts(c: Cache, drop: Dropping)
    requires Unique(c.index) && c.total == Total(c.index) && drop.remaining != []
    ensures var c' := OnDropNext(c, drop);
      c'.total == Total(c'.index) <==> SizeOf(c.index, drop.remaining[0].key) == drop.remaining[0].size
  {
    WithoutFacts(c.index, drop.remaining[0].key);
  }

  // ---- What an eviction takes ----

  lemma RecencyStep(c: Cache, step: Step, budget: nat)
    requires ByRecency(c.index, c.uses)
    ensures ByRecency(Apply(c, step, budget).index, Apply(c, step, budget).uses)
  {
    match step
    case Settle(fill, size) => if fill in c.fills && fill.Placed? { SettleByRecency(c, fill, size, budget); }
    case DropNext(drop) =>
      if drop in c.drops && drop.remaining != [] { WithoutKeepsRecency(c.index, drop.remaining[0].key, c.uses); }
    case BeginRead(name) =>
      if Present(c, name) { UseKeepsRecency(c.index, name, SizeOf(c.index, name), c.uses); }
    case _ => NothingIsUsed(c, step, budget);
  }

  lemma NothingIsUsed(c: Cache, step: Step, budget: nat)
    requires !step.Settle? && !step.DropNext? && !step.BeginRead?
    ensures var c' := Apply(c, step, budget); c'.index == c.index && c'.uses == c.uses
  {
  }

  lemma SettleByRecency(c: Cache, fill: Fill, size: nat, budget: nat)
    requires ByRecency(c.index, c.uses) && fill.Placed?
    ensures var c' := OnSettle(c, fill, size, budget); ByRecency(c'.index, c'.uses)
  {
    if Current(c, fill) {
      var full := Without(c.index, fill.name) + [Entry(fill.name, size)];
      UseKeepsRecency(c.index, fill.name, size, c.uses);
      TailByRecency(full, c.uses + [fill.name], Overrun(full, c.total - SizeOf(c.index, fill.name) + size, budget));
    }
  }

  lemma {:induction false} RecencyRun(c: Cache, steps: seq<Step>, budget: nat)
    requires ByRecency(c.index, c.uses)
    ensures var c' := Execute(c, steps, budget); ByRecency(c'.index, c'.uses)
    decreases |steps|
  {
    if steps != [] {
      RecencyStep(c, steps[0], budget);
      RecencyRun(Apply(c, steps[0], budget), steps[1..], budget);
    }
  }

  /** A settled fill's window is last in the order of use, and from the other end
   *  goes the least number of windows that brings the running total within
   *  budget, all of them when none does. What goes was used before what stays.
   *  Within budget nothing goes. */
  ghost predicate TakesLeast(c: Cache, c': Cache, name: Name, size: nat, budget: nat) {
    var full := Without(c.index, name) + [Entry(name, size)];
    var total := c.total - SizeOf(c.index, name) + size;
    var n := |full| - |c'.index|;
    && n >= 0 && c'.index == full[n..] && c'.total == total - Total(full[..n])
    && c'.unlinks == c.unlinks + multiset(Keys(full[..n]))
    && (c'.total <= budget || c'.index == [])
    && (forall m :: 0 <= m < n ==> total - Total(full[..m]) > budget)
    && (forall i, j :: 0 <= i < n <= j < |full| ==> LastUse(c'.uses, full[i].key) < LastUse(c'.uses, full[j].key))
    && (total <= budget ==> n == 0)
  }

  lemma SettleTakesLeast(c: Cache, fill: Fill, size: nat, budget: nat)
    requires ByRecency(c.index, c.uses) && fill in c.fills && fill.Placed? && Current(c, fill)
    ensures TakesLeast(c, Apply(c, Step.Settle(fill, size), budget), fill.name, size, budget)
  {
    var full := Without(c.index, fill.name) + [Entry(fill.name, size)];
    var total := c.total - SizeOf(c.index, fill.name) + size;
    UseKeepsRecency(c.index, fill.name, size, c.uses);
    OverrunIsLeast(full, total, budget);
    assert full[..0] == [];
  }

  /** Over every run a fill that settles with no drop past it takes the least there
   *  is to take. */
  lemma SettleEvictsLeast(steps: seq<Step>, fill: Fill, size: nat, budget: nat)
    requires var c := Execute(EMPTY, steps, budget); fill in c.fills && fill.Placed? && Current(c, fill)
    ensures var c := Execute(EMPTY, steps, budget);
      TakesLeast(c, Apply(c, Step.Settle(fill, size), budget), fill.name, size, budget)
  {
    assert ByRecency(EMPTY.index, EMPTY.uses);
    RecencyRun(EMPTY, steps, budget);
    SettleTakesLeast(Execute(EMPTY, steps, budget), fill, size, budget);
  }

  /** In every reachable state the windows are indexed in the order of their last
   *  use. */
  lemma IndexIsByRecency(steps: seq<Step>, budget: nat)
    ensures var c := Execute(EMPTY, steps, budget); ByRecency(c.index, c.uses)
  {
    assert ByRecency(EMPTY.index, EMPTY.uses);
    RecencyRun(EMPTY, steps, budget);
  }

  // ---- No file is left behind ----

  /** Somebody will deal with the window's file: it is indexed, it is going to be
   *  unlinked, or the fill that placed it has yet to settle it. */
  ghost predicate Accounted(c: Cache, name: Name) {
    || Has(c.index, name)
    || name in c.unlinks
    || exists f :: f in c.fills && f.name == name && (f.Placed? || f.Unplacing?)
  }

  ghost predicate NoOrphan(c: Cache, name: Name) {
    name in c.disk ==> Accounted(c, name)
  }

  lemma SettleLeavesNoOrphan(c: Cache, fill: Fill, size: nat, budget: nat, name: Name)
    requires Unique(c.index) && NoOrphan(c, name) && fill in c.fills && fill.Placed?
    ensures NoOrphan(OnSettle(c, fill, size, budget), name)
  {
    var c' := OnSettle(c, fill, size, budget);
    if name in c.disk {
      if !Current(c, fill) {
        if f :| f in c.fills && f.name == name && (f.Placed? || f.Unplacing?) {
          assert (if f == fill then Unplacing(name) else f) in c'.fills;
        }
      } else if name == fill.name || Has(c.index, name) {
        AdmissionSplits(c.index, c.total, fill.name, size, budget, name);
      }
    }
  }

  lemma FillLeavesNoOrphan(c: Cache, step: Step, budget: nat, name: Name)
    requires Coalesced(c) && NoOrphan(c, name) && StepOfFill(step)
    ensures NoOrphan(ApplyFill(c, step, budget), name)
  {
    match step
    case Settle(fill, size) => if fill in c.fills && fill.Placed? { SettleLeavesNoOrphan(c, fill, size, budget, name); }
    case Place(fill) => if fill in c.fills && fill.Got? { PlaceLeavesNoOrphan(c, fill, budget, name); }
    case Unplace(fill) =>
    case _ => FillsStay(c, step, budget);
  }

  /** Fills that have placed a file are not ended by wants, fetches and failures. */
  lemma FillsStay(c: Cache, step: Step, budget: nat)
    requires step.Want? || step.Fetch? || step.Fail?
    ensures var c' := ApplyFill(c, step, budget);
      && c'.index == c.index && c'.unlinks == c.unlinks && c'.disk == c.disk
      && forall f :: f in c.fills && (f.Placed? || f.Unplacing?) ==> f in c'.fills
  {
    match step
    case Want(name) => WantAdds(c, name);
    case Fetch(fill) =>
    case Fail(fill) =>
  }

  lemma WantAdds(c: Cache, name: Name)
    ensures var c' := OnWant(c, name);
      c'.index == c.index && c'.unlinks == c.unlinks && c'.disk == c.disk && c.fills <= c'.fills
  {
  }

  lemma PlaceLeavesNoOrphan(c: Cache, fill: Fill, budget: nat, name: Name)
    requires NoOrphan(c, name) && fill in c.fills && fill.Got?
    ensures NoOrphan(ApplyFill(c, Place(fill), budget), name)
  {
    assert Placed(fill.name, fill.epoch, fill.version) in ApplyFill(c, Place(fill), budget).fills;
  }

  lemma DropLeavesNoOrphan(c: Cache, drop: Dropping, name: Name)
    requires Unique(c.index) && NoOrphan(c, name) && drop.remaining != []
    ensures NoOrphan(OnDropNext(c, drop), name)
  {
    WithoutFacts(c.index, drop.remaining[0].key);
  }

  lemma ReadLeavesNoOrphan(c: Cache, step: Step, name: Name)
    requires Unique(c.index) && NoOrphan(c, name) && !StepOfFill(step) && !StepOfDrop(step)
    ensures NoOrphan(ApplyRead(c, step), name)
  {
    if step.BeginRead? && Present(c, step.name) {
      WithoutFacts(c.index, step.name);
      AppendFacts(Without(c.index, step.name), step.name, SizeOf(c.index, step.name));
    }
  }

  lemma OrphanStep(c: Cache, step: Step, budget: nat, name: Name)
    requires Coalesced(c) && NoOrphan(c, name)
    ensures NoOrphan(Apply(c, step, budget), name)
  {
    if StepOfFill(step) {
      FillLeavesNoOrphan(c, step, budget, name);
    } else if !StepOfDrop(step) {
      ReadLeavesNoOrphan(c, step, name);
    } else if step.DropNext? && step.drop.remaining != [] {
      DropLeavesNoOrphan(c, step.drop, name);
    }
  }

  lemma {:induction false} NoOrphanRun(c: Cache, steps: seq<Step>, budget: nat, name: Name)
    requires Inv(c) && NoOrphan(c, name)
    ensures NoOrphan(Execute(c, steps, budget), name)
    decreases |steps|
  {
    if steps != [] {
      OrphanStep(c, steps[0], budget, name);
      InvStep(c, steps[0], budget);
      NoOrphanRun(Apply(c, steps[0], budget), steps[1..], budget, name);
    }
  }

  /** Over every run no file is left behind: each is of an indexed window, or on
   *  its way to be unlinked, or in the hands of the fill that placed it. */
  lemma NoFileIsForgotten(steps: seq<Step>, budget: nat, name: Name)
    requires name in Execute(EMPTY, steps, budget).disk
    ensures var c := Execute(EMPTY, steps, budget);
      || Has(c.index, name)
      || name in c.unlinks
      || exists f :: f in c.fills && f.name == name && (f.Placed? || f.Unplacing?)
  {
    NoOrphanRun(EMPTY, steps, budget, name);
  }

  // ---- A drop by itself ----

  /** What a drop that is let run does: what it has yet to forget is forgotten and
   *  handed over for unlinking, nothing else is, and the key's reads answer for
   *  what the store held when it began. */
  ghost predicate RanOut(c: Cache, c': Cache, drop: Dropping) {
    && (forall n :: Has(c'.index, n) <==> Has(c.index, n) && !Has(drop.remaining, n))
    && (forall n :: Has(drop.remaining, n) ==> n in c'.unlinks) && c.unlinks <= c'.unlinks
    && c'.drops == c.drops - multiset{drop} && At(c'.floor, drop.key) >= drop.version
    && c'.disk == c.disk && c'.fills == c.fills && c'.inflight == c.inflight && c'.readings == c.readings
  }

  lemma EndRunsOut(c: Cache, drop: Dropping)
    requires drop in c.drops && drop.remaining == []
    ensures RanOut(c, ApplyDrop(c, EndDrop(drop)), drop)
  {
  }

  lemma NextRunsOut(c: Cache, drop: Dropping, c': Cache)
    requires Unique(c.index) && drop in c.drops && drop.remaining != []
    requires RanOut(OnDropNext(c, drop), c', drop.(remaining := drop.remaining[1..]))
    ensures RanOut(c, c', drop)
  {
    var next, name := drop.(remaining := drop.remaining[1..]), drop.remaining[0].key;
    WithoutFacts(c.index, name);
    assert OnDropNext(c, drop).drops - multiset{next} == c.drops - multiset{drop};
    assert name in c'.unlinks;
    forall n ensures Has(drop.remaining, n) <==> n == name || Has(next.remaining, n) {
      HasHead(drop.remaining, n);
    }
  }

  lemma FirstIsNext(c: Cache, drop: Dropping, rest: seq<Step>, budget: nat)
    requires drop in c.drops && drop.remaining != []
    ensures Execute(c, [Step.DropNext(drop)] + rest, budget) == Execute(OnDropNext(c, drop), rest, budget)
  {
    assert ([Step.DropNext(drop)] + rest)[1..] == rest;
  }

  lemma LastIsEnd(c: Cache, drop: Dropping, budget: nat)
    requires drop in c.drops && drop.remaining == []
    ensures Execute(c, [EndDrop(drop)], budget) == ApplyDrop(c, EndDrop(drop))
  {
    var c' := ApplyDrop(c, EndDrop(drop));
    assert [EndDrop(drop)][1..] == [] && Execute(c', [], budget) == c';
  }

  /** The drop's own steps, to its end. */
  ghost function Finished(c: Cache, drop: Dropping): Cache
    decreases |drop.remaining|
  {
    if drop.remaining == [] then ApplyDrop(c, EndDrop(drop))
    else Finished(OnDropNext(c, drop), drop.(remaining := drop.remaining[1..]))
  }

  lemma {:induction false} FinishedIsARun(c: Cache, drop: Dropping, budget: nat) returns (steps: seq<Step>)
    requires drop in c.drops
    ensures Execute(c, steps, budget) == Finished(c, drop)
    decreases |drop.remaining|
  {
    if drop.remaining == [] {
      steps := [EndDrop(drop)];
      LastIsEnd(c, drop, budget);
    } else {
      var rest := FinishedIsARun(OnDropNext(c, drop), drop.(remaining := drop.remaining[1..]), budget);
      steps := [Step.DropNext(drop)] + rest;
      FirstIsNext(c, drop, rest, budget);
    }
  }

  lemma NextIsOpen(c: Cache, drop: Dropping)
    requires Unique(c.index) && drop in c.drops && drop.remaining != []
    ensures Unique(OnDropNext(c, drop).index) && drop.(remaining := drop.remaining[1..]) in OnDropNext(c, drop).drops
  {
    WithoutFacts(c.index, drop.remaining[0].key);
  }

  lemma {:induction false} DropRunsOut(c: Cache, drop: Dropping)
    requires Unique(c.index) && drop in c.drops
    ensures RanOut(c, Finished(c, drop), drop)
    decreases |drop.remaining|
  {
    if drop.remaining == [] {
      EndRunsOut(c, drop);
    } else {
      var c1, next := OnDropNext(c, drop), drop.(remaining := drop.remaining[1..]);
      NextIsOpen(c, drop);
      DropRunsOut(c1, next);
      NextRunsOut(c, drop, Finished(c1, next));
    }
  }

  /** From any reachable state a drop of a key that is let run forgets exactly the
   *  key's windows, and hands over the files of all of them for unlinking. */
  lemma DropForgetsTheKey(before: seq<Step>, key: Key, budget: nat) returns (steps: seq<Step>)
    ensures var c := Execute(EMPTY, before, budget);
      var c' := Execute(Apply(c, Step.BeginDrop(key), budget), steps, budget);
      && (forall n :: Has(c'.index, n) <==> Has(c.index, n) && n.key != key)
      && (forall n :: Has(c.index, n) && n.key == key ==> n in c'.unlinks)
      && At(c'.floor, key) >= At(c.versions, key) && c'.drops == c.drops && c'.disk == c.disk && c'.fills == c.fills
  {
    InvRun(EMPTY, before, budget);
    var c := Execute(EMPTY, before, budget);
    WindowsOfAll(c.index, key);
    var drop := Dropping(key, WindowsOf(c.index, key), At(c.versions, key));
    var c1 := Apply(c, Step.BeginDrop(key), budget);
    assert drop in c1.drops && c1.drops - multiset{drop} == c.drops;
    DropRunsOut(c1, drop);
    steps := FinishedIsARun(c1, drop, budget);
  }

  // ---- A shed fill ----

  /** The name is in flight and nothing is flying. */
  ghost predicate Shed(c: Cache, name: Name) {
    name in c.inflight && !Present(c, name) && forall f :: f in c.fills ==> f.name != name
  }

  /** Shedding happens exactly when a window that is not here is wanted at the
   *  limit, whether it is not indexed or its file is gone. */
  lemma ShedIff(c: Cache, name: Name)
    requires Inv(c) && name !in c.inflight
    ensures Shed(OnWant(c, name), name) <==> !Present(c, name) && c.active >= FILLS_MAX
  {
    if c.active < FILLS_MAX && !Present(c, name) {
      assert Started(name, At(c.epochs, name.key)) in OnWant(c, name).fills;
    }
  }

  lemma ShedSettle(c: Cache, name: Name, fill: Fill, size: nat, budget: nat)
    requires Unique(c.index) && !Has(c.index, name) && fill.name != name && fill.Placed?
    ensures !Has(OnSettle(c, fill, size, budget).index, name)
  {
    if Current(c, fill) {
      AdmissionFacts(c.index, c.total, fill.name, size, budget);
    }
  }

  lemma ShedIndexStep(c: Cache, name: Name, step: Step, budget: nat)
    requires Unique(c.index) && !Has(c.index, name) && (step.DropNext? || step.BeginRead?)
    ensures !Has(Apply(c, step, budget).index, name)
  {
    match step
    case DropNext(drop) => if drop.remaining != [] { WithoutFacts(c.index, drop.remaining[0].key); }
    case BeginRead(other) =>
      if Present(c, other) {
        WithoutFacts(c.index, other);
        AppendFacts(Without(c.index, other), other, SizeOf(c.index, other));
        assert Has(c.index, other);
      }
  }

  /** Neither the index nor the disk gains a window that no fill is of. */
  lemma ColdStep(c: Cache, name: Name, step: Step, budget: nat)
    requires Unique(c.index) && forall f :: f in c.fills ==> f.name != name
    ensures !Has(c.index, name) ==> !Has(Apply(c, step, budget).index, name)
    ensures name !in c.disk ==> name !in Apply(c, step, budget).disk
  {
    if !Has(c.index, name) {
      UnindexedStep(c, name, step, budget);
    }
    if name !in c.disk {
      UnplacedStep(c, name, step, budget);
    }
  }

  lemma UnindexedStep(c: Cache, name: Name, step: Step, budget: nat)
    requires Unique(c.index) && !Has(c.index, name) && forall f :: f in c.fills ==> f.name != name
    ensures !Has(Apply(c, step, budget).index, name)
  {
    if step.Settle? {
      if step.fill in c.fills && step.fill.Placed? {
        ShedSettle(c, name, step.fill, step.size, budget);
      }
    } else if step.DropNext? || step.BeginRead? {
      ShedIndexStep(c, name, step, budget);
    }
  }

  lemma UnplacedStep(c: Cache, name: Name, step: Step, budget: nat)
    requires name !in c.disk && forall f :: f in c.fills ==> f.name != name
    ensures name !in Apply(c, step, budget).disk
  {
  }

  ghost predicate Stuck(c: Cache, name: Name) {
    name in c.inflight && forall f :: f in c.fills ==> f.name != name
  }

  lemma FinishStuck(c: Cache, name: Name, fill: Fill)
    requires Stuck(c, name) && fill in c.fills
    ensures Stuck(Finish(c, fill), name)
  {
  }

  lemma StuckStep(c: Cache, name: Name, step: Step, budget: nat)
    requires Stuck(c, name) && StepOfFill(step) && (step.Want? ==> step.name != name)
    ensures Stuck(ApplyFill(c, step, budget), name)
  {
    match step
    case Settle(fill, size) =>
      if fill in c.fills && fill.Placed? {
        FinishStuck(c, name, fill);
      }
    case _ =>
  }

  lemma ShedStep(c: Cache, name: Name, step: Step, budget: nat)
    requires Unique(c.index) && Shed(c, name)
    ensures Shed(Apply(c, step, budget), name)
  {
    ColdStep(c, name, step, budget);
    assert Stuck(c, name);
    assert Stuck(Apply(c, step, budget), name) by {
      if StepOfFill(step) && !(step.Want? && step.name == name) {
        StuckStep(c, name, step, budget);
      }
    }
  }

  /** A window whose fill was once shed is never filled again: every later
   *  claimant is told a fill is running. */
  lemma {:induction false} ShedForever(c: Cache, name: Name, steps: seq<Step>, budget: nat)
    requires Inv(c) && Shed(c, name)
    ensures Shed(Execute(c, steps, budget), name) && !Present(Execute(c, steps, budget), name)
    decreases |steps|
  {
    if steps != [] {
      InvStep(c, steps[0], budget);
      ShedStep(c, name, steps[0], budget);
      ShedForever(Apply(c, steps[0], budget), name, steps[1..], budget);
    }
  }
}
