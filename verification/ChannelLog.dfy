/** Delivery of a document channel's log across server instances. */
module ChannelLog {
  // The log of one document, every instance's room for it, and the bus between
  // them, stepped at the granularity of the awaits: allocating a position,
  // inserting its row and broadcasting it are three steps, a row read and the
  // sends that follow it are two, and notices wait in flight between publication
  // and handling. Documents share no state in the hub, so one suffices.

  import opened Prelude

  /** Connections and instances are told apart by opaque identifiers. */
  datatype ConnId = Conn(id: nat)
  datatype PodId = Instance(id: nat)

  // ---- What a synchronous stretch of the hub decides ----

  /** The rows above `after`, up to and including `upTo`. */
  datatype Span = Span(after: int, upTo: int)

  /** The watermark as written at once, the rows to read and send, and the
   *  watermark to write when those have been sent. */
  datatype Ruling = Ruling(watermark: Option<nat>, fill: Option<Span>, mark: Option<nat>)

  /** A notice for position `n` arrives (`deliverLog`). */
  function OnNotice(from: Option<nat>, occupied: bool, n: nat, own: bool): Ruling {
    if !occupied then
      Ruling(Some(Max(from.GetOr(0), n)), None, None)
    else if from.None? then
      Ruling(Some(n), if own then None else Some(Span(n - 1, n)), None)
    else
      var upTo := if own then n - 1 else n;
      if upTo > from.value then
        Ruling(from, Some(Span(from.value, upTo)), Some(Max(from.value, n)))
      else
        Ruling(Some(Max(from.value, n)), None, None)
  }

  /** A local post took position `n` and is broadcast here. */
  function OnPost(from: Option<nat>, occupied: bool, n: nat): Ruling {
    var gap := from.Some? && occupied && n - 1 > from.value;
    Ruling(Some(Max(from.GetOr(0), n)), if gap then Some(Span(from.value, n - 1)) else None, None)
  }

  /** A resync has read the log's head. */
  function OnHead(from: Option<nat>, occupied: bool, head: nat): Ruling {
    if occupied && from.Some? && head > from.value then
      Ruling(from, Some(Span(from.value, head)), Some(Max(from.value, head)))
    else
      Ruling(Some(Max(from.GetOr(0), head)), None, None)
  }

  /** The row is among those the ruling reads. */
  predicate Fetches(ruling: Ruling, p: nat) {
    ruling.fill.Some? && ruling.fill.value.after < p <= ruling.fill.value.upTo
  }

  /** Where the watermark is once the rows have been sent, and that it waits for
   *  them when it is to be written after them. */
  predicate EndsAt(ruling: Ruling, from: Option<nat>, mark: nat) {
    if ruling.mark.Some? then ruling.mark.value == mark && ruling.watermark == from else ruling.watermark == Some(mark)
  }

  /** A notice in an occupied room reads every row above the watermark up to its
   *  own, or its own alone when there is no watermark, but not a row that was
   *  posted here: that one was broadcast. */
  lemma NoticeFetches(from: Option<nat>, occupied: bool, n: nat, own: bool)
    ensures var r := OnNotice(from, occupied, n, own);
      && EndsAt(r, from, Max(from.GetOr(0), n)) && (r.fill.Some? ==> r.fill.value.after < r.fill.value.upTo)
      && forall p: nat :: Fetches(r, p) <==>
           (occupied && p <= n && !(own && p == n) && if from.Some? then p > from.value else p == n)
  {
  }

  /** A post reads the rows between the watermark and its own, and a resync those
   *  above it up to the head. */
  lemma PostAndHeadFetch(from: Option<nat>, occupied: bool, n: nat)
    ensures var r := OnPost(from, occupied, n);
      && r.mark.None? && r.watermark == Some(Max(from.GetOr(0), n)) && (r.fill.Some? ==> r.fill.value.after < r.fill.value.upTo)
      && forall p: nat :: Fetches(r, p) <==> (occupied && from.Some? && from.value < p < n)
    ensures var r := OnHead(from, occupied, n);
      && EndsAt(r, from, Max(from.GetOr(0), n)) && (r.fill.Some? ==> r.fill.value.after < r.fill.value.upTo)
      && forall p: nat :: Fetches(r, p) <==> (occupied && from.Some? && from.value < p <= n)
  {
  }

  // ---- State ----

  /** A socket here. `since` is the position its hello named, `seen` the rows
   *  that hello read, `got` the positions sent to it. */
  datatype Member = Member(since: Option<nat>, seen: set<nat>, got: set<nat>)

  /** What an instance is awaiting for the document. A delivery keeps the room
   *  object it was given, which is not the current one once everybody left. */
  datatype Task =
    | ReadRows(room: nat, span: Span, mark: Option<nat>)
    | SendRows(room: nat, rows: set<nat>, mark: Option<nat>)
    | SetMark(to: nat)
    | ReadBaseline
    | SetBaseline(head: nat)
    | ReadHead
    | GotHead(head: nat)
    | HelloTail(conn: ConnId, rows: set<nat>)

  datatype Notice = Notice(n: nat, own: bool)

  /** `heard` and `debt` are history: the highest position this instance has
   *  been told of, and the highest one whose notice it lost since its last
   *  resync began. The hub itself keeps neither. */
  datatype Pod = Pod(
    room: nat, members: map<ConnId, Member>, watermark: Option<nat>,
    tasks: multiset<Task>, queue: multiset<Notice>,
    up: bool, connects: nat, heard: nat, debt: nat)

  datatype Post = Allocated(pod: PodId, conn: ConnId, n: nat) | Inserted(pod: PodId, conn: ConnId, n: nat)

  datatype Envelope = Envelope(n: nat, origin: PodId)

  /** `rows` maps a position to the connection that posted it; `announced` is
   *  the history of positions whose broadcast has run. */
  datatype World = World(
    head: nat, rows: map<nat, ConnId>, posts: set<Post>,
    outbox: set<Envelope>, announced: set<nat>, pods: map<PodId, Pod>)

  datatype Step =
    | Join(p: PodId, c: ConnId)
    | Leave(p: PodId, c: ConnId)
    | Hello(p: PodId, c: ConnId, since: nat)
    | Allocate(p: PodId, c: ConnId)
    | Insert(post: Post)
    | Announce(post: Post)
    | Publish(env: Envelope, reached: set<PodId>)
    | Handle(p: PodId, notice: Notice)
    | Proceed(p: PodId, task: Task)
    | LoseListener(p: PodId)
    | Drop(p: PodId, notice: Notice)
    | Reconnect(p: PodId)

  const FRESH_POD := Pod(0, map[], None, multiset{}, multiset{}, false, 0, 0, 0)

  ghost predicate Initial(w: World) {
    && w.head == 0 && w.rows == map[] && w.posts == {} && w.outbox == {} && w.announced == {}
    && forall p :: p in w.pods ==> w.pods[p] == FRESH_POD
  }

  // ---- Steps ----

  function RowsIn(rows: map<nat, ConnId>, span: Span): set<nat> {
    set n | n in rows && span.after < n <= span.upTo
  }

  function Obey(pod: Pod, ruling: Ruling, n: nat): Pod {
    pod.(watermark := ruling.watermark,
         tasks := if ruling.fill.Some? then pod.tasks + multiset{ReadRows(pod.room, ruling.fill.value, ruling.mark)}
                  else pod.tasks,
         heard := Max(pod.heard, n))
  }

  /** Every member of the current room is sent `news`, except a row's sender. */
  function SendTo(pod: Pod, news: set<nat>, rows: map<nat, ConnId>): Pod {
    pod.(members := map c | c in pod.members ::
           pod.members[c].(got := pod.members[c].got + set n | n in news && !(n in rows && rows[n] == c)))
  }

  function OnJoin(pod: Pod, c: ConnId): Pod {
    if c in pod.members then pod else
    pod.(members := pod.members[c := Member(None, {}, {})],
         tasks := if pod.watermark.None? then pod.tasks + multiset{ReadBaseline} else pod.tasks)
  }

  /** The room object is forgotten with its last member. */
  function OnLeave(pod: Pod, c: ConnId): Pod {
    var left := pod.members - {c};
    pod.(members := left, room := if left == map[] then pod.room + 1 else pod.room)
  }

  function OnHello(pod: Pod, c: ConnId, since: nat, head: nat, rows: map<nat, ConnId>): Pod {
    if c !in pod.members then pod else
    var seen := RowsIn(rows, Span(since, head));
    pod.(members := pod.members[c := pod.members[c].(since := Some(since), seen := seen)],
         tasks := pod.tasks + multiset{HelloTail(c, seen)})
  }

  function OnAnnounce(pod: Pod, rows: map<nat, ConnId>, n: nat): Pod {
    Obey(SendTo(pod, {n}, rows), OnPost(pod.watermark, pod.members != map[], n), n)
  }

  function OnHandle(pod: Pod, notice: Notice): Pod {
    if !pod.up || notice !in pod.queue then pod else
    Dequeue(Obey(pod, OnNotice(pod.watermark, pod.members != map[], notice.n, notice.own), notice.n), notice)
  }

  function Dequeue(pod: Pod, notice: Notice): Pod {
    pod.(queue := pod.queue - multiset{notice})
  }

  /** A task gives way to what follows it. */
  function Swap(pod: Pod, task: Task, next: multiset<Task>): Pod {
    pod.(tasks := pod.tasks - multiset{task} + next)
  }

  function Give(pod: Pod, c: ConnId, news: set<nat>): Pod {
    if c in pod.members then
      pod.(members := pod.members[c := pod.members[c].(got := pod.members[c].got + news)])
    else pod
  }

  function OnBaseline(pod: Pod, base: nat): Pod {
    if pod.watermark.None? then pod.(watermark := Some(base), heard := Max(pod.heard, base)) else pod
  }

  function OnProceed(pod: Pod, task: Task, head: nat, rows: map<nat, ConnId>): Pod {
    if task !in pod.tasks then pod else
    match task
    case ReadRows(room, span, mark) => Swap(pod, task, multiset{SendRows(room, RowsIn(rows, span), mark)})
    case SendRows(room, news, mark) =>
      Swap(if room == pod.room then SendTo(pod, news, rows) else pod, task,
           if mark.Some? then multiset{SetMark(mark.value)} else multiset{})
    case SetMark(to) => Swap(pod.(watermark := Some(to)), task, multiset{})
    case ReadBaseline => Swap(pod, task, multiset{SetBaseline(head)})
    case SetBaseline(base) => Swap(OnBaseline(pod, base), task, multiset{})
    case ReadHead => Swap(pod, task, multiset{GotHead(head)})
    case GotHead(top) =>
      Swap(Obey(pod, OnHead(pod.watermark, pod.members != map[], top), top), task, multiset{})
    case HelloTail(c, tail) => Swap(Give(pod, c, tail), task, multiset{})
  }

  /** The notice of `env` is queued at an instance it reaches, and lost to one
   *  that is not listening or that it does not reach. */
  function OnPublish(pod: Pod, p: PodId, env: Envelope, reached: set<PodId>): Pod {
    if pod.up && p in reached then
      pod.(queue := pod.queue + multiset{Notice(env.n, p == env.origin)})
    else
      pod.(debt := Max(pod.debt, env.n))
  }

  /** Notices a dead connection carried are ignored one and all. */
  function OnDrop(pod: Pod, notice: Notice): Pod {
    if pod.up || notice !in pod.queue then pod else
    pod.(queue := pod.queue - multiset{notice}, debt := Max(pod.debt, notice.n))
  }

  /** The first connection resyncs nothing; a later one resyncs the document
   *  if anybody is here for it. */
  function OnReconnect(pod: Pod): Pod {
    if pod.up || pod.queue != multiset{} then pod
    else if pod.connects == 0 then pod.(up := true, connects := 1)
    else pod.(up := true, connects := pod.connects + 1, debt := 0,
              tasks := if pod.members == map[] then pod.tasks else pod.tasks + multiset{ReadHead})
  }

  function At(w: World, p: PodId, pod: Pod): World {
    w.(pods := w.pods[p := pod])
  }

  function Apply(w: World, step: Step): World {
    match step
    case Join(p, c) => if p in w.pods then At(w, p, OnJoin(w.pods[p], c)) else w
    case Leave(p, c) =>
      if p in w.pods && c in w.pods[p].members then At(w, p, OnLeave(w.pods[p], c)) else w
    case Hello(p, c, since) =>
      if p in w.pods then At(w, p, OnHello(w.pods[p], c, since, w.head, w.rows)) else w
    case Allocate(p, c) =>
      if p in w.pods && c in w.pods[p].members then
        w.(head := w.head + 1, posts := w.posts + {Allocated(p, c, w.head + 1)})
      else w
    case Insert(post) =>
      if post in w.posts && post.Allocated? then
        w.(rows := w.rows[post.n := post.conn],
           posts := w.posts - {post} + {Inserted(post.pod, post.conn, post.n)})
      else w
    case Announce(post) =>
      if post in w.posts && post.Inserted? && post.pod in w.pods then
        At(w, post.pod, OnAnnounce(w.pods[post.pod], w.rows, post.n))
          .(posts := w.posts - {post}, announced := w.announced + {post.n},
            outbox := w.outbox + {Envelope(post.n, post.pod)})
      else w
    case Publish(env, reached) =>
      if env in w.outbox then
        w.(outbox := w.outbox - {env},
           pods := map p | p in w.pods :: OnPublish(w.pods[p], p, env, reached))
      else w
    case Handle(p, notice) => if p in w.pods then At(w, p, OnHandle(w.pods[p], notice)) else w
    case Proceed(p, task) =>
      if p in w.pods then At(w, p, OnProceed(w.pods[p], task, w.head, w.rows)) else w
    case LoseListener(p) => if p in w.pods then At(w, p, w.pods[p].(up := false)) else w
    case Drop(p, notice) => if p in w.pods then At(w, p, OnDrop(w.pods[p], notice)) else w
    case Reconnect(p) => if p in w.pods then At(w, p, OnReconnect(w.pods[p])) else w
  }

  function Execute(w: World, steps: seq<Step>): World
    decreases |steps|
  {
    if steps == [] then w else Execute(Apply(w, steps[0]), steps[1..])
  }

  lemma {:induction false} ExecuteMore(w: World, steps: seq<Step>, step: Step)
    ensures Execute(w, steps + [step]) == Apply(Execute(w, steps), step)
    decreases |steps|
  {
    if steps == [] {
      assert [step][1..] == [];
      assert Execute(w, [step]) == Execute(Apply(w, step), []);
    } else {
      ExecuteMore(Apply(w, steps[0]), steps[1..], step);
      assert (steps + [step])[1..] == steps[1..] + [step];
    }
  }

  // ---- What a socket is owed ----

  /** The task will bring row `n` to connection `c`. */
  predicate Carries(t: Task, room: nat, c: ConnId, n: nat) {
    match t
    case ReadRows(r, span, _) => r == room && span.after < n <= span.upTo
    case SendRows(r, rows, _) => r == room && n in rows
    case HelloTail(d, rows) => d == c && n in rows
    case _ => false
  }

  ghost predicate Pending(tasks: multiset<Task>, room: nat, c: ConnId, n: nat) {
    exists t :: t in tasks && Carries(t, room, c, n)
  }

  ghost predicate Covered(rows: map<nat, ConnId>, pod: Pod, c: ConnId, n: nat)
    requires c in pod.members
  {
    n in pod.members[c].got || (n in rows && rows[n] == c) || Pending(pod.tasks, pod.room, c, n)
  }

  /** The instance takes row `n` for delivered to `c`: the socket's hello read
   *  it, or the instance has heard of it. No notice will bring it any more. */
  predicate Claimed(pod: Pod, c: ConnId, n: nat)
    requires c in pod.members
  {
    var m := pod.members[c];
    m.since.Some? && m.since.value < n && (n <= pod.heard || n in m.seen)
  }

  /** Row `n` is taken for delivered to `c` and neither there nor on its way. */
  ghost predicate Lacks(rows: map<nat, ConnId>, pod: Pod, c: ConnId, n: nat) {
    c in pod.members && Claimed(pod, c, n) && !Covered(rows, pod, c, n)
  }

  ghost predicate Owed(w: World, p: PodId, c: ConnId, n: nat) {
    p in w.pods && Lacks(w.rows, w.pods[p], c, n)
  }

  /** Word of position `n`, and whether it came with the row itself. */
  datatype News = News(n: nat, ruling: Ruling, sent: bool)

  /** What the step tells the instance about the log's end. */
  function Learnt(w: World, step: Step, p: PodId): Option<News>
    requires p in w.pods
  {
    var pod := w.pods[p];
    var occupied := pod.members != map[];
    match step
    case Announce(post) =>
      if post in w.posts && post.Inserted? && post.pod == p then
        Some(News(post.n, OnPost(pod.watermark, occupied, post.n), true))
      else None
    case Handle(q, notice) =>
      if q == p && pod.up && notice in pod.queue then
        Some(News(notice.n, OnNotice(pod.watermark, occupied, notice.n, notice.own), false))
      else None
    case Proceed(q, SetBaseline(base)) =>
      if q == p && SetBaseline(base) in pod.tasks && pod.watermark.None? then
        Some(News(base, Ruling(Some(base), None, None), false))
      else None
    case Proceed(q, GotHead(top)) =>
      if q == p && GotHead(top) in pod.tasks then Some(News(top, OnHead(pod.watermark, occupied, top), false)) else None
    case _ => None
  }

  predicate Fetched(ruling: Ruling, n: nat) {
    ruling.fill.Some? && ruling.fill.value.after < n <= ruling.fill.value.upTo
  }

  predicate Brings(news: News, n: nat) {
    Fetched(news.ruling, n) || (news.sent && n == news.n)
  }

  /** The step passes over row `n` for `c`. A read of the log, for a delivery or
   *  for a hello, runs before the row has landed and nothing else carries it;
   *  or the instance hears of a position past it while it has no watermark, and
   *  so fetches nothing. */
  ghost predicate Skips(w: World, step: Step, p: PodId, c: ConnId, n: nat) {
    && p in w.pods && c in w.pods[p].members
    && var pod := w.pods[p];
       match step
       case Hello(q, d, since) =>
         q == p && d == c && since < n <= pod.heard && n !in w.rows && !Pending(pod.tasks, pod.room, c, n)
       case Proceed(q, ReadRows(room, span, mark)) =>
         var task := ReadRows(room, span, mark);
         && q == p && task in pod.tasks && Claimed(pod, c, n)
         && Carries(task, pod.room, c, n) && n !in w.rows && !Pending(pod.tasks - multiset{task}, pod.room, c, n)
       case _ => Learnt(w, step, p).Some? && StepsOver(w.rows, pod, Learnt(w, step, p).value, c, n)
  }

  /** The instance has no watermark to fetch from when it hears of a position
   *  at or past row `n`. */
  ghost predicate StepsOver(rows: map<nat, ConnId>, pod: Pod, news: News, c: ConnId, n: nat)
    requires c in pod.members
  {
    && pod.watermark.None? && pod.members[c].since.Some? && pod.members[c].since.value < n <= news.n
    && !Brings(news, n) && !Covered(rows, pod, c, n)
  }

  /** The step makes up for row `n` having been passed over: a delivery is begun
   *  that carries it, the row itself is sent, it turns out to be the socket's
   *  own, or the socket leaves or says hello anew. */
  predicate Recovers(w: World, step: Step, p: PodId, c: ConnId, n: nat) {
    match step
    case Leave(q, d) => q == p && d == c
    case Hello(q, d, _) => q == p && d == c
    case Insert(post) => post in w.posts && post.Allocated? && post.n == n && post.conn == c
    case _ => p in w.pods && Learnt(w, step, p).Some? && Brings(Learnt(w, step, p).value, n)
  }

  // ---- What holds in every run ----

  predicate TaskOk(head: nat, rows: map<nat, ConnId>, heard: nat, t: Task) {
    match t
    case ReadRows(_, span, mark) => span.upTo <= heard && (mark.Some? ==> mark.value <= heard)
    case SendRows(_, news, mark) => news <= rows.Keys && (mark.Some? ==> mark.value <= heard)
    case SetMark(to) => to <= heard
    case SetBaseline(base) => base <= head
    case GotHead(top) => top <= head
    case HelloTail(_, news) => news <= rows.Keys
    case _ => true
  }

  ghost predicate Sane(head: nat, rows: map<nat, ConnId>, pod: Pod) {
    && pod.heard <= head
    && (pod.watermark.Some? ==> pod.watermark.value <= pod.heard)
    && (forall t :: t in pod.tasks ==> TaskOk(head, rows, pod.heard, t))
    && (forall x :: x in pod.queue ==> x.n <= head && (x.own ==> x.n <= pod.heard))
    && (forall c :: c in pod.members ==> pod.members[c].got + pod.members[c].seen <= rows.Keys)
  }

  /** Position `a`, announced somewhere, is or will be known here. */
  ghost predicate Known(outbox: set<Envelope>, pod: Pod, c: ConnId, a: nat)
    requires c in pod.members
  {
    || (pod.members[c].since.Some? && a <= pod.members[c].since.value)
    || a in pod.members[c].seen || a <= pod.heard || a <= pod.debt
    || (exists x :: x in pod.queue && x.n >= a)
    || (exists e :: e in outbox && e.n >= a)
    || HeadComing(pod.tasks, a)
  }

  /** A resync under way has read, or will read, a head at or past `a`. */
  ghost predicate HeadComing(tasks: multiset<Task>, a: nat) {
    ReadHead in tasks || exists h: nat :: GotHead(h) in tasks && h >= a
  }

  ghost predicate AllKnown(outbox: set<Envelope>, announced: set<nat>, pod: Pod) {
    forall c, a {:trigger Known(outbox, pod, c, a)} ::
      c in pod.members && pod.members[c].since.Some? && a in announced ==> Known(outbox, pod, c, a)
  }

  ghost predicate LogOk(w: World) {
    && (forall n :: n in w.rows ==> 1 <= n <= w.head)
    && (forall x :: x in w.posts ==> 1 <= x.n <= w.head)
    && (forall x, y :: x in w.posts && y in w.posts && x.n == y.n ==> x == y)
    && (forall x :: x in w.posts ==> if x.Inserted? then x.n in w.rows && w.rows[x.n] == x.conn else x.n !in w.rows)
    && (forall n :: n in w.rows ==> n in w.announced || exists x :: x in w.posts && x.Inserted? && x.n == n)
    && w.announced <= w.rows.Keys
    && (forall e :: e in w.outbox ==> e.n in w.announced && (e.origin in w.pods ==> e.n <= w.pods[e.origin].heard))
  }

  ghost predicate PodOk(w: World, pod: Pod) {
    Sane(w.head, w.rows, pod) && AllKnown(w.outbox, w.announced, pod)
  }

  ghost predicate Inv(w: World) {
    LogOk(w) && forall p :: p in w.pods ==> PodOk(w, w.pods[p])
  }

  // ---- Each step keeps the invariant ----

  /** A ruling on position `n` goes no further than the instance has heard. */
  predicate Modest(pod: Pod, ruling: Ruling, n: nat) {
    && ruling.watermark.Some? && ruling.watermark.value <= Max(pod.heard, n)
    && (ruling.fill.Some? ==> ruling.fill.value.upTo <= Max(pod.heard, n))
    && (ruling.mark.Some? ==> ruling.mark.value <= Max(pod.heard, n))
  }

  lemma ObeyKeeps(w: World, pod: Pod, ruling: Ruling, n: nat)
    requires PodOk(w, pod) && Modest(pod, ruling, n) && n <= w.head
    ensures PodOk(w, Obey(pod, ruling, n))
  {
    var pod' := Obey(pod, ruling, n);
    assert pod.tasks <= pod'.tasks;
    forall d, a | d in pod'.members && pod'.members[d].since.Some? && a in w.announced
      ensures Known(w.outbox, pod', d, a)
    {
      assert Known(w.outbox, pod, d, a);
    }
  }

  lemma JoinKeeps(w: World, pod: Pod, c: ConnId)
    requires PodOk(w, pod)
    ensures PodOk(w, OnJoin(pod, c))
  {
    var pod' := OnJoin(pod, c);
    forall d, a | d in pod'.members && pod'.members[d].since.Some? && a in w.announced
      ensures Known(w.outbox, pod', d, a)
    {
      assert Known(w.outbox, pod, d, a);
    }
  }

  lemma LeaveKeeps(w: World, pod: Pod, c: ConnId)
    requires PodOk(w, pod)
    ensures PodOk(w, OnLeave(pod, c))
  {
    var pod' := OnLeave(pod, c);
    forall d, a | d in pod'.members && pod'.members[d].since.Some? && a in w.announced
      ensures Known(w.outbox, pod', d, a)
    {
      assert Known(w.outbox, pod, d, a);
    }
  }

  lemma HelloKeeps(w: World, pod: Pod, c: ConnId, since: nat)
    requires LogOk(w) && PodOk(w, pod)
    ensures PodOk(w, OnHello(pod, c, since, w.head, w.rows))
  {
    var pod' := OnHello(pod, c, since, w.head, w.rows);
    forall d, a | d in pod'.members && pod'.members[d].since.Some? && a in w.announced
      ensures Known(w.outbox, pod', d, a)
    {
      if d != c {
        assert Known(w.outbox, pod, d, a);
      } else {
        assert a <= since || a in RowsIn(w.rows, Span(since, w.head));
      }
    }
  }

  lemma SendKeeps(w: World, pod: Pod, news: set<nat>)
    requires PodOk(w, pod) && news <= w.rows.Keys
    ensures PodOk(w, SendTo(pod, news, w.rows))
  {
    var pod' := SendTo(pod, news, w.rows);
    forall d, a | d in pod'.members && pod'.members[d].since.Some? && a in w.announced
      ensures Known(w.outbox, pod', d, a)
    {
      assert Known(w.outbox, pod, d, a);
    }
  }

  lemma AnnounceKeeps(w: World, pod: Pod, n: nat)
    requires LogOk(w) && PodOk(w, pod) && n in w.rows
    ensures PodOk(w, OnAnnounce(pod, w.rows, n)) && n <= OnAnnounce(pod, w.rows, n).heard
  {
    var sent := SendTo(pod, {n}, w.rows);
    SendKeeps(w, pod, {n});
    var ruling := OnPost(pod.watermark, pod.members != map[], n);
    ObeyKeeps(w, sent, ruling, n);
  }

  lemma HandleKeeps(w: World, pod: Pod, notice: Notice)
    requires PodOk(w, pod)
    ensures PodOk(w, OnHandle(pod, notice))
  {
    if notice in pod.queue && pod.up {
      var ruling := OnNotice(pod.watermark, pod.members != map[], notice.n, notice.own);
      ObeyKeeps(w, pod, ruling, notice.n);
      DequeueKeeps(w, Obey(pod, ruling, notice.n), notice);
    }
  }

  lemma DequeueKeeps(w: World, pod: Pod, notice: Notice)
    requires PodOk(w, pod) && (notice.n <= pod.heard || notice.n <= pod.debt)
    ensures PodOk(w, Dequeue(pod, notice))
  {
    var pod' := Dequeue(pod, notice);
    forall d, a | d in pod'.members && pod'.members[d].since.Some? && a in w.announced
      ensures Known(w.outbox, pod', d, a)
    {
      assert Known(w.outbox, pod, d, a);
      if x :| x in pod.queue && x.n >= a && x != notice {
        assert x in pod'.queue;
      }
    }
  }

  /** A task may give way to tasks that bring the word of a head it would. */
  lemma SwapKeeps(w: World, pod: Pod, task: Task, next: multiset<Task>)
    requires PodOk(w, pod)
    requires forall t :: t in next ==> TaskOk(w.head, w.rows, pod.heard, t)
    requires forall a :: a in w.announced && HeadComing(multiset{task}, a) ==> a <= pod.heard || HeadComing(next, a)
    ensures PodOk(w, Swap(pod, task, next))
  {
    var pod' := Swap(pod, task, next);
    assert next <= pod'.tasks;
    forall t | t in pod'.tasks ensures TaskOk(w.head, w.rows, pod'.heard, t) {
      assert t in pod.tasks || t in next;
    }
    forall d, a | d in pod'.members && pod'.members[d].since.Some? && a in w.announced
      ensures Known(w.outbox, pod', d, a)
    {
      assert Known(w.outbox, pod, d, a);
      SwapStillComing(pod, task, next, a);
    }
  }

  lemma SwapStillComing(pod: Pod, task: Task, next: multiset<Task>, a: nat)
    ensures HeadComing(pod.tasks, a) ==>
      HeadComing(multiset{task}, a) || HeadComing(Swap(pod, task, next).tasks, a)
    ensures HeadComing(next, a) ==> HeadComing(Swap(pod, task, next).tasks, a)
  {
    var tasks' := Swap(pod, task, next).tasks;
    forall t | (t in pod.tasks && t != task) || t in next ensures t in tasks' {
    }
    if h: nat :| GotHead(h) in pod.tasks && h >= a {
      assert GotHead(h) in multiset{task} || GotHead(h) in tasks';
    }
    if h: nat :| GotHead(h) in next && h >= a {
      assert GotHead(h) in tasks';
    }
  }

  lemma ReadRowsKeeps(w: World, pod: Pod, task: Task)
    requires PodOk(w, pod) && task in pod.tasks && task.ReadRows?
    ensures PodOk(w, OnProceed(pod, task, w.head, w.rows))
  {
    var next := SendRows(task.room, RowsIn(w.rows, task.span), task.mark);
    assert TaskOk(w.head, w.rows, pod.heard, task);
    SwapKeeps(w, pod, task, multiset{next});
  }

  lemma SendRowsKeeps(w: World, pod: Pod, task: Task)
    requires PodOk(w, pod) && task in pod.tasks && task.SendRows?
    ensures PodOk(w, OnProceed(pod, task, w.head, w.rows))
  {
    assert TaskOk(w.head, w.rows, pod.heard, task);
    var sent := if task.room == pod.room then SendTo(pod, task.rows, w.rows) else pod;
    if task.room == pod.room {
      SendKeeps(w, pod, task.rows);
    }
    SwapKeeps(w, sent, task, if task.mark.Some? then multiset{SetMark(task.mark.value)} else multiset{});
  }

  lemma BaselineKeeps(w: World, pod: Pod, task: Task)
    requires PodOk(w, pod) && task in pod.tasks && (task.SetBaseline? || task.SetMark?)
    ensures PodOk(w, OnProceed(pod, task, w.head, w.rows))
  {
    assert TaskOk(w.head, w.rows, pod.heard, task);
    var moved := if task.SetMark? then pod.(watermark := Some(task.to)) else OnBaseline(pod, task.head);
    forall d, a | d in moved.members && moved.members[d].since.Some? && a in w.announced
      ensures Known(w.outbox, moved, d, a)
    {
      assert Known(w.outbox, pod, d, a);
    }
    SwapKeeps(w, moved, task, multiset{});
  }

  lemma HelloTailKeeps(w: World, pod: Pod, task: Task)
    requires PodOk(w, pod) && task in pod.tasks && task.HelloTail?
    ensures PodOk(w, OnProceed(pod, task, w.head, w.rows))
  {
    assert TaskOk(w.head, w.rows, pod.heard, task);
    var given := Give(pod, task.conn, task.rows);
    forall d, a | d in given.members && given.members[d].since.Some? && a in w.announced
      ensures Known(w.outbox, given, d, a)
    {
      assert Known(w.outbox, pod, d, a);
    }
    SwapKeeps(w, given, task, multiset{});
  }

  lemma HeadKeeps(w: World, pod: Pod, task: Task)
    requires LogOk(w) && PodOk(w, pod) && task in pod.tasks && (task.ReadHead? || task.GotHead? || task.ReadBaseline?)
    ensures PodOk(w, OnProceed(pod, task, w.head, w.rows))
  {
    assert TaskOk(w.head, w.rows, pod.heard, task);
    if task.GotHead? {
      var ruling := OnHead(pod.watermark, pod.members != map[], task.head);
      ObeyKeeps(w, pod, ruling, task.head);
      SwapKeeps(w, Obey(pod, ruling, task.head), task, multiset{});
    } else if task.ReadHead? {
      assert GotHead(w.head) in multiset{GotHead(w.head)};
      SwapKeeps(w, pod, task, multiset{GotHead(w.head)});
    } else {
      SwapKeeps(w, pod, task, multiset{SetBaseline(w.head)});
    }
  }

  lemma ProceedKeeps(w: World, pod: Pod, task: Task)
    requires LogOk(w) && PodOk(w, pod)
    ensures PodOk(w, OnProceed(pod, task, w.head, w.rows))
    ensures OnProceed(pod, task, w.head, w.rows).heard >= pod.heard
  {
    if task in pod.tasks {
      match task
      case ReadRows(_, _, _) => ReadRowsKeeps(w, pod, task);
      case SendRows(_, _, _) => SendRowsKeeps(w, pod, task);
      case SetMark(_) => BaselineKeeps(w, pod, task);
      case SetBaseline(_) => BaselineKeeps(w, pod, task);
      case HelloTail(_, _) => HelloTailKeeps(w, pod, task);
      case _ => HeadKeeps(w, pod, task);
    }
  }

  lemma PublishKeeps(w: World, w': World, pod: Pod, p: PodId, env: Envelope, reached: set<PodId>)
    requires LogOk(w) && PodOk(w, pod) && env in w.outbox
    requires p == env.origin ==> env.n <= pod.heard
    requires w' == w.(outbox := w.outbox - {env}, pods := w'.pods)
    ensures PodOk(w', OnPublish(pod, p, env, reached))
  {
    var pod' := OnPublish(pod, p, env, reached);
    forall d, a | d in pod'.members && pod'.members[d].since.Some? && a in w'.announced
      ensures Known(w'.outbox, pod', d, a)
    {
      assert Known(w.outbox, pod, d, a);
      if e :| e in w.outbox && e.n >= a {
        if e != env {
          assert e in w'.outbox;
        } else if pod.up && p in reached {
          assert Notice(env.n, p == env.origin) in pod'.queue;
        }
      } else if x :| x in pod.queue && x.n >= a {
        assert x in pod'.queue;
      }
    }
  }

  lemma DropKeeps(w: World, pod: Pod, notice: Notice)
    requires PodOk(w, pod)
    ensures PodOk(w, OnDrop(pod, notice))
  {
    if !pod.up && notice in pod.queue {
      var owing := pod.(debt := Max(pod.debt, notice.n));
      forall c, a | c in pod.members && Known(w.outbox, pod, c, a) ensures Known(w.outbox, owing, c, a) {
      }
      DequeueKeeps(w, owing, notice);
      assert OnDrop(pod, notice) == Dequeue(owing, notice);
    }
  }

  lemma ReconnectKeeps(w: World, pod: Pod)
    requires LogOk(w) && PodOk(w, pod)
    ensures PodOk(w, OnReconnect(pod))
  {
    var pod' := OnReconnect(pod);
    forall d, a | d in pod'.members && pod'.members[d].since.Some? && a in w.announced
      ensures Known(w.outbox, pod', d, a)
    {
      assert Known(w.outbox, pod, d, a);
    }
  }

  /** An instance the step does not touch: the log grew around it. */
  lemma ElsewhereKeeps(w: World, w': World, pod: Pod)
    requires PodOk(w, pod) && w.head <= w'.head && w.outbox <= w'.outbox
    requires w.rows.Keys <= w'.rows.Keys && forall k :: k in w.rows ==> w'.rows[k] == w.rows[k]
    requires forall a :: a in w'.announced ==> a in w.announced || exists e :: e in w'.outbox && e.n == a
    ensures PodOk(w', pod)
  {
    forall d, a | d in pod.members && pod.members[d].since.Some? && a in w'.announced
      ensures Known(w'.outbox, pod, d, a)
    {
      if a in w.announced {
        assert Known(w.outbox, pod, d, a);
        if e :| e in w.outbox && e.n >= a {
          assert e in w'.outbox;
        }
      }
    }
  }

  lemma AllocateKeepsLog(w: World, p: PodId, c: ConnId)
    requires LogOk(w)
    ensures LogOk(Apply(w, Allocate(p, c)))
  {
    var w' := Apply(w, Allocate(p, c));
    forall n | n in w'.rows && n !in w'.announced
      ensures exists x :: x in w'.posts && x.Inserted? && x.n == n
    {
      var x :| x in w.posts && x.Inserted? && x.n == n;
      assert x in w'.posts;
    }
  }

  lemma InsertKeepsLog(w: World, post: Post)
    requires LogOk(w) && post in w.posts && post.Allocated?
    ensures LogOk(Apply(w, Insert(post)))
  {
    var w' := Apply(w, Insert(post));
    forall n | n in w'.rows && n !in w'.announced
      ensures exists x :: x in w'.posts && x.Inserted? && x.n == n
    {
      if n == post.n {
        assert Inserted(post.pod, post.conn, post.n) in w'.posts;
      } else {
        var x :| x in w.posts && x.Inserted? && x.n == n;
        assert x in w'.posts;
      }
    }
  }

  lemma AnnounceKeepsLog(w: World, post: Post)
    requires LogOk(w) && post in w.posts && post.Inserted? && post.pod in w.pods
    ensures LogOk(Apply(w, Announce(post)))
  {
    var w' := Apply(w, Announce(post));
    forall n | n in w'.rows && n !in w'.announced
      ensures exists x :: x in w'.posts && x.Inserted? && x.n == n
    {
      var x :| x in w.posts && x.Inserted? && x.n == n;
      assert x in w'.posts;
    }
  }

  // ---- Every step, every run ----

  lemma TouchKeeps(w: World, p: PodId, pod: Pod)
    requires Inv(w) && p in w.pods && PodOk(w, pod) && pod.heard >= w.pods[p].heard
    ensures Inv(At(w, p, pod))
  {
    var w' := At(w, p, pod);
    forall q | q in w'.pods ensures PodOk(w', w'.pods[q]) {
      ElsewhereKeeps(w, w', w'.pods[q]);
    }
  }

  lemma AnnounceStep(w: World, post: Post)
    requires Inv(w) && post in w.posts && post.Inserted? && post.pod in w.pods
    ensures Inv(Apply(w, Announce(post)))
  {
    var w' := Apply(w, Announce(post));
    AnnounceKeepsLog(w, post);
    AnnounceKeeps(w, w.pods[post.pod], post.n);
    assert Envelope(post.n, post.pod) in w'.outbox;
    forall q | q in w'.pods ensures PodOk(w', w'.pods[q]) {
      ElsewhereKeeps(w, w', w'.pods[q]);
    }
  }

  lemma PublishStep(w: World, env: Envelope, reached: set<PodId>)
    requires Inv(w) && env in w.outbox
    ensures Inv(Apply(w, Publish(env, reached)))
  {
    var w' := Apply(w, Publish(env, reached));
    forall q | q in w'.pods ensures PodOk(w', w'.pods[q]) && w'.pods[q].heard == w.pods[q].heard {
      PublishKeeps(w, w', w.pods[q], q, env, reached);
    }
  }

  lemma LogStep(w: World, step: Step)
    requires Inv(w) && (step.Allocate? || step.Insert?)
    ensures Inv(Apply(w, step))
  {
    var w' := Apply(w, step);
    if w' != w {
      if step.Allocate? {
        AllocateKeepsLog(w, step.p, step.c);
      } else {
        InsertKeepsLog(w, step.post);
      }
      forall q | q in w'.pods ensures PodOk(w', w'.pods[q]) {
        ElsewhereKeeps(w, w', w.pods[q]);
      }
    }
  }

  lemma InvStep(w: World, step: Step)
    requires Inv(w)
    ensures Inv(Apply(w, step))
  {
    match step
    case Join(p, c) => if p in w.pods { JoinKeeps(w, w.pods[p], c); TouchKeeps(w, p, OnJoin(w.pods[p], c)); }
    case Leave(p, c) => if p in w.pods { LeaveKeeps(w, w.pods[p], c); TouchKeeps(w, p, OnLeave(w.pods[p], c)); }
    case Hello(p, c, since) =>
      if p in w.pods {
        HelloKeeps(w, w.pods[p], c, since);
        TouchKeeps(w, p, OnHello(w.pods[p], c, since, w.head, w.rows));
      }
    case Allocate(p, c) => LogStep(w, step);
    case Insert(post) => LogStep(w, step);
    case Announce(post) => if Apply(w, step) != w { AnnounceStep(w, post); }
    case Publish(env, reached) => if env in w.outbox { PublishStep(w, env, reached); }
    case Handle(p, notice) =>
      if p in w.pods { HandleKeeps(w, w.pods[p], notice); TouchKeeps(w, p, OnHandle(w.pods[p], notice)); }
    case Proceed(p, task) =>
      if p in w.pods {
        ProceedKeeps(w, w.pods[p], task);
        TouchKeeps(w, p, OnProceed(w.pods[p], task, w.head, w.rows));
      }
    case LoseListener(p) =>
      if p in w.pods {
        var pod' := w.pods[p].(up := false);
        assert forall c, a :: c in pod'.members && Known(w.outbox, w.pods[p], c, a) ==> Known(w.outbox, pod', c, a);
        TouchKeeps(w, p, pod');
      }
    case Drop(p, notice) =>
      if p in w.pods { DropKeeps(w, w.pods[p], notice); TouchKeeps(w, p, OnDrop(w.pods[p], notice)); }
    case Reconnect(p) =>
      if p in w.pods { ReconnectKeeps(w, w.pods[p]); TouchKeeps(w, p, OnReconnect(w.pods[p])); }
  }

  lemma {:induction false} InvRun(w: World, steps: seq<Step>)
    requires Inv(w)
    ensures Inv(Execute(w, steps))
    decreases |steps|
  {
    if steps != [] {
      InvStep(w, steps[0]);
      InvRun(Apply(w, steps[0]), steps[1..]);
    }
  }

  // ---- The law of what is owed ----

  lemma MoreTasks(tasks: multiset<Task>, next: multiset<Task>, room: nat, c: ConnId, n: nat)
    ensures Pending(tasks + next, room, c, n) <==> Pending(tasks, room, c, n) || Pending(next, room, c, n)
  {
    if t :| t in tasks && Carries(t, room, c, n) {
      assert t in tasks + next;
    }
    if t :| t in next && Carries(t, room, c, n) {
      assert t in tasks + next;
    }
  }

  lemma OneTask(task: Task, room: nat, c: ConnId, n: nat)
    ensures Pending(multiset{task}, room, c, n) <==> Carries(task, room, c, n)
  {
    assert task in multiset{task};
  }

  lemma LessTask(tasks: multiset<Task>, task: Task, room: nat, c: ConnId, n: nat)
    requires task in tasks
    ensures Pending(tasks, room, c, n) <==> Carries(task, room, c, n) || Pending(tasks - multiset{task}, room, c, n)
  {
    var rest := tasks - multiset{task};
    assert tasks == rest + multiset{task};
    MoreTasks(rest, multiset{task}, room, c, n);
    OneTask(task, room, c, n);
  }

  /** What a task that gives way leaves on the way to `c`. */
  lemma SwapPending(pod: Pod, task: Task, next: multiset<Task>, c: ConnId, n: nat)
    requires task in pod.tasks
    ensures Pending(pod.tasks, pod.room, c, n) <==>
      Carries(task, pod.room, c, n) || Pending(pod.tasks - multiset{task}, pod.room, c, n)
    ensures Pending(Swap(pod, task, next).tasks, pod.room, c, n) <==>
      Pending(pod.tasks - multiset{task}, pod.room, c, n) || Pending(next, pod.room, c, n)
  {
    LessTask(pod.tasks, task, pod.room, c, n);
    MoreTasks(pod.tasks - multiset{task}, next, pod.room, c, n);
  }

  lemma SendCovers(pod: Pod, news: set<nat>, rows: map<nat, ConnId>, c: ConnId, n: nat)
    requires c in pod.members && news <= rows.Keys
    ensures Covered(rows, SendTo(pod, news, rows), c, n) <==> Covered(rows, pod, c, n) || n in news
    ensures Claimed(SendTo(pod, news, rows), c, n) <==> Claimed(pod, c, n)
  {
  }

  lemma ObeyCovers(rows: map<nat, ConnId>, pod: Pod, news: News, c: ConnId, n: nat)
    requires c in pod.members
    ensures var pod' := Obey(pod, news.ruling, news.n);
      && (Covered(rows, pod', c, n) <==> Covered(rows, pod, c, n) || Fetched(news.ruling, n))
      && (Claimed(pod', c, n) <==>
            Claimed(pod, c, n) || (pod.members[c].since.Some? && pod.members[c].since.value < n <= news.n))
  {
    if news.ruling.fill.Some? {
      var t := ReadRows(pod.room, news.ruling.fill.value, news.ruling.mark);
      MoreTasks(pod.tasks, multiset{t}, pod.room, c, n);
      OneTask(t, pod.room, c, n);
    }
  }

  /** The instance after it has been told. */
  function Told(rows: map<nat, ConnId>, pod: Pod, news: News): Pod {
    Obey(if news.sent then SendTo(pod, {news.n}, rows) else pod, news.ruling, news.n)
  }

  /** The law for an instance that is told of a position. */
  lemma ToldLacks(rows: map<nat, ConnId>, pod: Pod, news: News, c: ConnId, n: nat)
    requires c in pod.members && (news.sent ==> news.n in rows)
    requires pod.watermark.Some? && pod.heard < n <= news.n ==> Brings(news, n)
    ensures Lacks(rows, Told(rows, pod, news), c, n) <==>
      (Lacks(rows, pod, c, n) && !Brings(news, n)) || StepsOver(rows, pod, news, c, n)
  {
    if news.sent {
      SendCovers(pod, {news.n}, rows, c, n);
      ObeyCovers(rows, SendTo(pod, {news.n}, rows), news, c, n);
    } else {
      ObeyCovers(rows, pod, news, c, n);
    }
  }

  /** With a watermark, whatever an instance newly hears of is brought. */
  lemma HeardIsBrought(w: World, step: Step, p: PodId, n: nat)
    requires p in w.pods && PodOk(w, w.pods[p]) && w.pods[p].watermark.Some? && w.pods[p].members != map[]
    requires Learnt(w, step, p).Some? && w.pods[p].heard < n <= Learnt(w, step, p).value.n
    ensures Brings(Learnt(w, step, p).value, n)
  {
  }

  /** A task that carries nothing to `c` ends. */
  lemma EndLacks(rows: map<nat, ConnId>, pod: Pod, task: Task, next: multiset<Task>, c: ConnId, n: nat)
    requires task in pod.tasks && !Carries(task, pod.room, c, n) && !Pending(next, pod.room, c, n)
    ensures Lacks(rows, Swap(pod, task, next), c, n) <==> Lacks(rows, pod, c, n)
  {
    SwapPending(pod, task, next, c, n);
  }

  /** The instance after a step that tells it of a position. */
  lemma LearntIsTold(w: World, step: Step, p: PodId, c: ConnId, n: nat)
    requires Inv(w) && p in w.pods && Learnt(w, step, p).Some?
    ensures var w' := Apply(w, step);
      && p in w'.pods && w'.rows == w.rows
      && (Lacks(w.rows, w'.pods[p], c, n) <==> Lacks(w.rows, Told(w.rows, w.pods[p], Learnt(w, step, p).value), c, n))
  {
    match step
    case Announce(_) =>
    case Handle(_, notice) => DequeueLacks(w.rows, Told(w.rows, w.pods[p], Learnt(w, step, p).value), notice, c, n);
    case Proceed(_, task) => ReadIsTold(w, step, p, c, n);
  }

  lemma DequeueLacks(rows: map<nat, ConnId>, pod: Pod, notice: Notice, c: ConnId, n: nat)
    ensures Lacks(rows, Dequeue(pod, notice), c, n) <==> Lacks(rows, pod, c, n)
  {
  }

  lemma ReadIsTold(w: World, step: Step, p: PodId, c: ConnId, n: nat)
    requires Inv(w) && p in w.pods && Learnt(w, step, p).Some? && step.Proceed?
    ensures var w' := Apply(w, step);
      && p in w'.pods && w'.rows == w.rows
      && (Lacks(w.rows, w'.pods[p], c, n) <==> Lacks(w.rows, Told(w.rows, w.pods[p], Learnt(w, step, p).value), c, n))
  {
    var told := Told(w.rows, w.pods[p], Learnt(w, step, p).value);
    assert Apply(w, step).pods[p] == Swap(told, step.task, multiset{});
    assert step.task in told.tasks;
    EndLacks(w.rows, told, step.task, multiset{}, c, n);
  }

  lemma LearntOwes(w: World, step: Step, p: PodId, c: ConnId, n: nat)
    requires Inv(w) && p in w.pods && c in w.pods[p].members && Learnt(w, step, p).Some?
    ensures Owed(Apply(w, step), p, c, n) <==>
      (Owed(w, p, c, n) && !Brings(Learnt(w, step, p).value, n)) || StepsOver(w.rows, w.pods[p], Learnt(w, step, p).value, c, n)
  {
    LearntIsTold(w, step, p, c, n);
    LearntLacks(w, step, p, c, n);
  }

  lemma LearntLacks(w: World, step: Step, p: PodId, c: ConnId, n: nat)
    requires Inv(w) && p in w.pods && c in w.pods[p].members && Learnt(w, step, p).Some?
    ensures var pod, news := w.pods[p], Learnt(w, step, p).value;
      Lacks(w.rows, Told(w.rows, pod, news), c, n) <==>
        (Lacks(w.rows, pod, c, n) && !Brings(news, n)) || StepsOver(w.rows, pod, news, c, n)
  {
    var pod, news := w.pods[p], Learnt(w, step, p).value;
    assert PodOk(w, pod);
    if pod.watermark.Some? && pod.heard < n <= news.n {
      HeardIsBrought(w, step, p, n);
    }
    ToldLacks(w.rows, pod, news, c, n);
  }

  /** A delivery's read leaves a socket without a row it claims to bring exactly
   *  when the row has not landed and nothing else brings it. */
  lemma ReadLacks(rows: map<nat, ConnId>, head: nat, pod: Pod, task: Task, c: ConnId, n: nat)
    requires task in pod.tasks && task.ReadRows?
    ensures Lacks(rows, OnProceed(pod, task, head, rows), c, n) <==>
      || Lacks(rows, pod, c, n)
      || (&& c in pod.members && Claimed(pod, c, n) && Carries(task, pod.room, c, n) && n !in rows
          && n !in pod.members[c].got && !Pending(pod.tasks - multiset{task}, pod.room, c, n))
  {
    var next := SendRows(task.room, RowsIn(rows, task.span), task.mark);
    SwapPending(pod, task, multiset{next}, c, n);
    OneTask(next, pod.room, c, n);
  }

  lemma SendLacks(rows: map<nat, ConnId>, head: nat, pod: Pod, task: Task, c: ConnId, n: nat)
    requires task in pod.tasks && task.SendRows? && task.rows <= rows.Keys
    ensures Lacks(rows, OnProceed(pod, task, head, rows), c, n) <==> Lacks(rows, pod, c, n)
  {
    if c in pod.members {
      var sent := if task.room == pod.room then SendTo(pod, task.rows, rows) else pod;
      SendCovers(pod, task.rows, rows, c, n);
      if Carries(task, pod.room, c, n) {
        assert n in sent.members[c].got || rows[n] == c;
      } else {
        EndLacks(rows, sent, task, if task.mark.Some? then multiset{SetMark(task.mark.value)} else multiset{}, c, n);
      }
    }
  }

  lemma TailLacks(rows: map<nat, ConnId>, head: nat, pod: Pod, task: Task, c: ConnId, n: nat)
    requires task in pod.tasks && task.HelloTail?
    ensures Lacks(rows, OnProceed(pod, task, head, rows), c, n) <==> Lacks(rows, pod, c, n)
  {
    SwapPending(Give(pod, task.conn, task.rows), task, multiset{}, c, n);
  }

  /** Awaits that end without bringing rows. */
  lemma OtherLacks(rows: map<nat, ConnId>, head: nat, pod: Pod, task: Task, c: ConnId, n: nat)
    requires task in pod.tasks && (task.SetMark? || task.ReadBaseline? || task.ReadHead?)
    ensures Lacks(rows, OnProceed(pod, task, head, rows), c, n) <==> Lacks(rows, pod, c, n)
  {
    match task
    case ReadBaseline =>
      OneTask(SetBaseline(head), pod.room, c, n);
      EndLacks(rows, pod, task, multiset{SetBaseline(head)}, c, n);
    case ReadHead =>
      OneTask(GotHead(head), pod.room, c, n);
      EndLacks(rows, pod, task, multiset{GotHead(head)}, c, n);
    case SetMark(to) => MarkLacks(rows, pod, to, c, n);
  }

  lemma MarkLacks(rows: map<nat, ConnId>, pod: Pod, to: nat, c: ConnId, n: nat)
    requires SetMark(to) in pod.tasks
    ensures Lacks(rows, Swap(pod.(watermark := Some(to)), SetMark(to), multiset{}), c, n) <==> Lacks(rows, pod, c, n)
  {
    EndLacks(rows, pod.(watermark := Some(to)), SetMark(to), multiset{}, c, n);
  }

  /** The law for an await that ends without telling of a position. */
  lemma ProceedOwes(w: World, task: Task, p: PodId, c: ConnId, n: nat)
    requires Inv(w) && p in w.pods && c in w.pods[p].members && task in w.pods[p].tasks
    requires Learnt(w, Proceed(p, task), p).None?
    ensures Owed(Apply(w, Proceed(p, task)), p, c, n) <==> Owed(w, p, c, n) || Skips(w, Proceed(p, task), p, c, n)
  {
    var pod := w.pods[p];
    assert PodOk(w, pod);
    assert TaskOk(w.head, w.rows, pod.heard, task);
    assert Apply(w, Proceed(p, task)).pods[p] == OnProceed(pod, task, w.head, w.rows);
    match task
    case ReadRows(_, _, _) => ReadLacks(w.rows, w.head, pod, task, c, n);
    case SendRows(_, _, _) => SendLacks(w.rows, w.head, pod, task, c, n);
    case SetBaseline(_) => EndLacks(w.rows, pod, task, multiset{}, c, n);
    case HelloTail(_, _) => TailLacks(w.rows, w.head, pod, task, c, n);
    case _ => OtherLacks(w.rows, w.head, pod, task, c, n);
  }

  lemma HelloOwes(w: World, p: PodId, d: ConnId, since: nat, c: ConnId, n: nat)
    requires Inv(w) && p in w.pods && c in w.pods[p].members && d in w.pods[p].members
    ensures Owed(Apply(w, Hello(p, d, since)), p, c, n) <==>
      (Owed(w, p, c, n) && c != d) || Skips(w, Hello(p, d, since), p, c, n)
  {
    var pod := w.pods[p];
    assert PodOk(w, pod);
    var t := HelloTail(d, RowsIn(w.rows, Span(since, w.head)));
    MoreTasks(pod.tasks, multiset{t}, pod.room, c, n);
    OneTask(t, pod.room, c, n);
  }

  lemma JoinLacks(rows: map<nat, ConnId>, pod: Pod, d: ConnId, c: ConnId, n: nat)
    requires c in pod.members
    ensures Lacks(rows, OnJoin(pod, d), c, n) <==> Lacks(rows, pod, c, n)
    ensures Lacks(rows, OnReconnect(pod), c, n) <==> Lacks(rows, pod, c, n)
  {
    MoreTasks(pod.tasks, multiset{ReadBaseline}, pod.room, c, n);
    OneTask(ReadBaseline, pod.room, c, n);
    MoreTasks(pod.tasks, multiset{ReadHead}, pod.room, c, n);
    OneTask(ReadHead, pod.room, c, n);
  }

  /** The log's own steps: a row that lands is its poster's. */
  lemma InsertOwes(w: World, post: Post, p: PodId, c: ConnId, n: nat)
    requires Inv(w)
    ensures Owed(Apply(w, Insert(post)), p, c, n) <==> Owed(w, p, c, n) && !Recovers(w, Insert(post), p, c, n)
  {
  }

  lemma LeaveOwes(w: World, q: PodId, d: ConnId, p: PodId, c: ConnId, n: nat)
    ensures Owed(Apply(w, Leave(q, d)), p, c, n) <==> Owed(w, p, c, n) && !(q == p && d == c)
  {
    if q == p && p in w.pods && c in w.pods[p].members && c != d {
      assert c in OnLeave(w.pods[p], d).members && OnLeave(w.pods[p], d).room == w.pods[p].room;
    }
  }

  /** Steps of this instance that neither bring a row nor tell of one. */
  lemma QuietOwes(w: World, step: Step, p: PodId, c: ConnId, n: nat)
    requires Inv(w) && p in w.pods && c in w.pods[p].members
    requires step.Join? || step.LoseListener? || step.Drop? || step.Reconnect? || (step.Handle? && Learnt(w, step, p).None?)
    ensures Owed(Apply(w, step), p, c, n) <==> Owed(w, p, c, n)
  {
    if step.p == p {
      QuietHere(w, step, c, n);
    } else {
      QuietElsewhere(w, step, p, c, n);
    }
  }

  lemma QuietElsewhere(w: World, step: Step, p: PodId, c: ConnId, n: nat)
    requires p in w.pods && (step.Join? || step.LoseListener? || step.Drop? || step.Reconnect? || step.Handle?) && step.p != p
    ensures Owed(Apply(w, step), p, c, n) <==> Owed(w, p, c, n)
  {
  }

  lemma QuietHere(w: World, step: Step, c: ConnId, n: nat)
    requires step.Join? || step.LoseListener? || step.Drop? || step.Reconnect? || step.Handle?
    requires Inv(w) && step.p in w.pods && c in w.pods[step.p].members && (step.Handle? ==> Learnt(w, step, step.p).None?)
    ensures Owed(Apply(w, step), step.p, c, n) <==> Owed(w, step.p, c, n)
  {
    var pod := w.pods[step.p];
    match step
    case Join(_, d) => JoinLacks(w.rows, pod, d, c, n);
    case Reconnect(_) => JoinLacks(w.rows, pod, c, c, n);
    case Drop(_, notice) => UnheardLacks(w.rows, pod, notice, c, n);
    case Handle(_, notice) => UnheardLacks(w.rows, pod, notice, c, n);
    case LoseListener(_) =>
  }

  /** A notice that is dropped, or that is none of the queue. */
  lemma UnheardLacks(rows: map<nat, ConnId>, pod: Pod, notice: Notice, c: ConnId, n: nat)
    requires c in pod.members
    ensures Lacks(rows, OnDrop(pod, notice), c, n) <==> Lacks(rows, pod, c, n)
    ensures !(pod.up && notice in pod.queue) ==> OnHandle(pod, notice) == pod
  {
  }

  lemma PublishOwes(w: World, env: Envelope, reached: set<PodId>, p: PodId, c: ConnId, n: nat)
    ensures Owed(Apply(w, Publish(env, reached)), p, c, n) <==> Owed(w, p, c, n)
  {
  }

  lemma AnnounceOwes(w: World, post: Post, p: PodId, c: ConnId, n: nat)
    requires p in w.pods && Learnt(w, Announce(post), p).None?
    ensures Owed(Apply(w, Announce(post)), p, c, n) <==> Owed(w, p, c, n)
  {
  }

  /** A socket that is not here is owed nothing, and comes owed nothing. */
  lemma NewcomerOwes(w: World, step: Step, p: PodId, c: ConnId, n: nat)
    requires p !in w.pods || c !in w.pods[p].members
    ensures !Owed(Apply(w, step), p, c, n)
  {
    if p in w.pods {
      MembersStay(w, step, p, c);
    }
  }

  /** Only a join brings a member, who has not said hello yet. */
  lemma MembersStay(w: World, step: Step, p: PodId, c: ConnId)
    requires p in w.pods && c !in w.pods[p].members
    ensures var w' := Apply(w, step);
      p in w'.pods && (c in w'.pods[p].members ==> w'.pods[p].members[c].since.None?)
  {
    match step
    case Join(_, _) =>
    case Proceed(q, task) =>
      if q == p {
        assert c !in OnProceed(w.pods[p], task, w.head, w.rows).members;
      }
    case Announce(post) =>
      if post.pod == p {
        assert c !in OnAnnounce(w.pods[p], w.rows, post.n).members;
      }
    case _ =>
  }

  /** The law, for every step of every run: a row is owed after a step exactly
   *  when it was and the step did not make up for it, or the step passes over
   *  it. */
  lemma OwedAfterStep(w: World, step: Step, p: PodId, c: ConnId, n: nat)
    requires Inv(w)
    ensures Owed(Apply(w, step), p, c, n) <==>
      (Owed(w, p, c, n) && !Recovers(w, step, p, c, n)) || Skips(w, step, p, c, n)
  {
    if p !in w.pods || c !in w.pods[p].members {
      NewcomerOwes(w, step, p, c, n);
    } else if Learnt(w, step, p).Some? {
      LearntOwes(w, step, p, c, n);
    } else {
      UntoldOwes(w, step, p, c, n);
    }
  }

  lemma UntoldOwes(w: World, step: Step, p: PodId, c: ConnId, n: nat)
    requires Inv(w) && p in w.pods && c in w.pods[p].members && Learnt(w, step, p).None?
    ensures Owed(Apply(w, step), p, c, n) <==>
      (Owed(w, p, c, n) && !Recovers(w, step, p, c, n)) || Skips(w, step, p, c, n)
  {
    match step
    case Hello(q, d, since) => if q == p && d in w.pods[p].members { HelloOwes(w, p, d, since, c, n); }
    case Proceed(q, task) =>
      if q == p && task in w.pods[p].tasks { ProceedOwes(w, task, p, c, n); }
    case _ => BystanderOwes(w, step, p, c, n);
  }

  /** Steps that pass over nothing. */
  lemma BystanderOwes(w: World, step: Step, p: PodId, c: ConnId, n: nat)
    requires Inv(w) && p in w.pods && c in w.pods[p].members && Learnt(w, step, p).None? && !step.Hello? && !step.Proceed?
    ensures Owed(Apply(w, step), p, c, n) <==> Owed(w, p, c, n) && !Recovers(w, step, p, c, n)
    ensures !Skips(w, step, p, c, n)
  {
    match step
    case Insert(post) => InsertOwes(w, post, p, c, n);
    case Leave(q, d) => LeaveOwes(w, q, d, p, c, n);
    case Publish(env, reached) => PublishOwes(w, env, reached, p, c, n);
    case Announce(post) => AnnounceOwes(w, post, p, c, n);
    case Allocate(_, _) =>
    case _ => QuietOwes(w, step, p, c, n);
  }

  /** Of the steps that concern row `n` and socket `c`, the last one passed over
   *  it. */
  ghost predicate SkippedForGood(w: World, steps: seq<Step>, p: PodId, c: ConnId, n: nat) {
    exists i :: SkippedAt(w, steps, i, p, c, n)
  }

  ghost predicate SkippedAt(w: World, steps: seq<Step>, i: int, p: PodId, c: ConnId, n: nat) {
    && 0 <= i < |steps| && Skips(Execute(w, steps[..i]), steps[i], p, c, n)
    && forall j :: i < j < |steps| ==> !Recovers(Execute(w, steps[..j]), steps[j], p, c, n)
  }

  lemma SkippedMore(w: World, steps: seq<Step>, step: Step, p: PodId, c: ConnId, n: nat)
    ensures SkippedForGood(w, steps + [step], p, c, n) <==>
      || Skips(Execute(w, steps), step, p, c, n)
      || (SkippedForGood(w, steps, p, c, n) && !Recovers(Execute(w, steps), step, p, c, n))
  {
    var all, k := steps + [step], |steps|;
    assert all[..k] == steps && all[k] == step;
    assert forall j :: 0 <= j < k ==> all[..j] == steps[..j] && all[j] == steps[j];
    if Skips(Execute(w, steps), step, p, c, n) {
      assert SkippedAt(w, all, k, p, c, n);
    }
    if i :| SkippedAt(w, steps, i, p, c, n) && !Recovers(Execute(w, steps), step, p, c, n) {
      forall j | i < j < |all| ensures !Recovers(Execute(w, all[..j]), all[j], p, c, n) {
        if j < k {
          assert !Recovers(Execute(w, steps[..j]), steps[j], p, c, n);
        }
      }
      assert SkippedAt(w, all, i, p, c, n);
    }
    if i :| SkippedAt(w, all, i, p, c, n) && i < k {
      assert !Recovers(Execute(w, all[..k]), all[k], p, c, n);
      forall j | i < j < k ensures !Recovers(Execute(w, steps[..j]), steps[j], p, c, n) {
        assert !Recovers(Execute(w, all[..j]), all[j], p, c, n);
      }
      assert SkippedAt(w, steps, i, p, c, n);
    }
  }

  lemma {:induction false} OwedAfterRun(w0: World, steps: seq<Step>, p: PodId, c: ConnId, n: nat)
    requires Initial(w0)
    ensures Owed(Execute(w0, steps), p, c, n) <==> SkippedForGood(w0, steps, p, c, n)
    decreases |steps|
  {
    if steps != [] {
      var k := |steps| - 1;
      var before := steps[..k];
      assert steps == before + [steps[k]];
      OwedAfterRun(w0, before, p, c, n);
      StartsOk(w0);
      InvRun(w0, before);
      OwedAfterStep(Execute(w0, before), steps[k], p, c, n);
      ExecuteMore(w0, before, steps[k]);
      SkippedMore(w0, before, steps[k], p, c, n);
    }
  }

  // ---- Main results ----

  /** Nothing is being posted or announced, and `pod` has handled every notice
   *  and finished every read. */
  ghost predicate AtRest(w: World, pod: Pod) {
    w.posts == {} && w.outbox == {} && pod.tasks == multiset{} && pod.queue == multiset{}
  }

  lemma StartsOk(w: World)
    requires Initial(w)
    ensures Inv(w)
  {
  }

  /** An instance at rest that has been told of a position past what it lost,
   *  with a socket that said hello from below committed row `n`. */
  ghost predicate Settled(w: World, p: PodId, c: ConnId, n: nat) {
    && p in w.pods && AtRest(w, w.pods[p]) && w.pods[p].debt <= w.pods[p].heard
    && c in w.pods[p].members && w.pods[p].members[c].since.Some?
    && n in w.rows && n > w.pods[p].members[c].since.value
  }

  /** The socket has been sent the row, or posted it. */
  ghost predicate HasRow(w: World, p: PodId, c: ConnId, n: nat)
    requires p in w.pods && c in w.pods[p].members && n in w.rows
  {
    n in w.pods[p].members[c].got || w.rows[n] == c
  }

  /** When the log is delivered, over every run whatever: a socket at rest has a
   *  row exactly unless some step passed over it and none after made up for
   *  it. */
  lemma DeliveredIff(w0: World, steps: seq<Step>, p: PodId, c: ConnId, n: nat)
    requires Initial(w0) && Settled(Execute(w0, steps), p, c, n)
    ensures HasRow(Execute(w0, steps), p, c, n) <==> !SkippedForGood(w0, steps, p, c, n)
  {
    var w := Execute(w0, steps);
    StartsOk(w0);
    InvRun(w0, steps);
    OwedAfterRun(w0, steps, p, c, n);
    assert PodOk(w, w.pods[p]);
    assert Known(w.outbox, w.pods[p], c, n);
    assert Claimed(w.pods[p], c, n);
  }

  // ---- An assumption that is enough ----

  /** Every position in the span has its row. */
  ghost predicate Complete(rows: map<nat, ConnId>, span: Span) {
    forall n: nat :: span.after < n <= span.upTo ==> n in rows
  }

  /** A hello finds its document's watermark, and the rows the instance has
   *  heard of landed; a delivery's read finds the rows of its span landed. Posts
   *  may be under way above those. */
  ghost predicate Orderly(w: World, step: Step) {
    match step
    case Hello(p, c, since) =>
      p in w.pods ==> w.pods[p].watermark.Some? && Complete(w.rows, Span(since, w.pods[p].heard))
    case Proceed(p, ReadRows(_, span, _)) => Complete(w.rows, span)
    case _ => true
  }

  ghost predicate OrderlyRun(w: World, steps: seq<Step>)
    decreases |steps|
  {
    steps == [] || (Orderly(w, steps[0]) && OrderlyRun(Apply(w, steps[0]), steps[1..]))
  }

  /** Who has said hello has done so with a watermark in place. */
  ghost predicate Ordered(pod: Pod) {
    pod.watermark.None? ==> forall c :: c in pod.members ==> pod.members[c].since.None?
  }

  ghost predicate GreetedInOrder(w: World) {
    forall p :: p in w.pods ==> Ordered(w.pods[p])
  }

  lemma OrderlySkips(w: World, step: Step, p: PodId, c: ConnId, n: nat)
    requires GreetedInOrder(w) && Orderly(w, step)
    ensures !Skips(w, step, p, c, n)
  {
  }

  lemma OrderedStays(pod: Pod, task: Task, head: nat, rows: map<nat, ConnId>, n: nat, c: ConnId, since: nat)
    requires Ordered(pod)
    ensures Ordered(OnProceed(pod, task, head, rows))
    ensures Ordered(OnAnnounce(pod, rows, n))
    ensures pod.watermark.Some? ==> Ordered(OnHello(pod, c, since, head, rows))
  {
  }

  lemma ComingAndGoing(pod: Pod, c: ConnId)
    requires Ordered(pod)
    ensures Ordered(OnJoin(pod, c)) && (c in pod.members ==> Ordered(OnLeave(pod, c)))
  {
  }

  lemma HandleOrdered(pod: Pod, notice: Notice)
    requires Ordered(pod)
    ensures Ordered(OnHandle(pod, notice))
  {
  }

  lemma DropOrdered(pod: Pod, notice: Notice)
    requires Ordered(pod)
    ensures Ordered(OnDrop(pod, notice)) && Ordered(OnReconnect(pod))
  {
  }

  lemma AtGreets(w: World, p: PodId, pod: Pod)
    requires GreetedInOrder(w) && Ordered(pod)
    ensures GreetedInOrder(At(w, p, pod))
  {
  }

  lemma PublishGreets(w: World, step: Step)
    requires GreetedInOrder(w) && step.Publish?
    ensures GreetedInOrder(Apply(w, step))
  {
  }

  lemma OrderlyGreets(w: World, step: Step)
    requires GreetedInOrder(w) && Orderly(w, step)
    ensures GreetedInOrder(Apply(w, step))
  {
    match step
    case Announce(post) =>
      if post.pod in w.pods {
        var pod := w.pods[post.pod];
        OrderedStays(pod, ReadHead, w.head, w.rows, post.n, Conn(0), 0);
        AtGreets(w, post.pod, OnAnnounce(pod, w.rows, post.n));
      }
    case Publish(_, _) => PublishGreets(w, step);
    case Allocate(_, _) =>
    case Insert(_) =>
    case _ => OwnStepGreets(w, step);
  }

  lemma OwnStepGreets(w: World, step: Step)
    requires GreetedInOrder(w) && Orderly(w, step)
    requires !step.Announce? && !step.Publish? && !step.Allocate? && !step.Insert?
    ensures GreetedInOrder(Apply(w, step))
  {
    if step.p in w.pods {
      var pod := w.pods[step.p];
      assert Ordered(pod);
      match step
      case Proceed(_, task) => OrderedStays(pod, task, w.head, w.rows, 0, Conn(0), 0);
      case Hello(_, c, since) => OrderedStays(pod, ReadHead, w.head, w.rows, 0, c, since);
      case Join(_, c) => ComingAndGoing(pod, c);
      case Leave(_, c) => ComingAndGoing(pod, c);
      case Handle(_, notice) => HandleOrdered(pod, notice);
      case Drop(_, notice) => DropOrdered(pod, notice);
      case LoseListener(_) =>
      case Reconnect(_) => DropOrdered(pod, Notice(0, false));
    }
  }

  lemma {:induction false} OrderlySkipsNothing(w: World, steps: seq<Step>, p: PodId, c: ConnId, n: nat)
    requires GreetedInOrder(w) && OrderlyRun(w, steps)
    ensures !SkippedForGood(w, steps, p, c, n)
    decreases |steps|
  {
    if steps != [] {
      var rest, w1 := steps[1..], Apply(w, steps[0]);
      OrderlySkips(w, steps[0], p, c, n);
      OrderlyGreets(w, steps[0]);
      OrderlySkipsNothing(w1, rest, p, c, n);
      if i :| SkippedAt(w, steps, i, p, c, n) {
        assert steps[..0] == [];
        assert i > 0;
        forall j | 0 < j < |steps| ensures Execute(w, steps[..j]) == Execute(w1, rest[..j - 1]) && steps[j] == rest[j - 1] {
          assert steps[..j][1..] == rest[..j - 1];
        }
        forall j | i - 1 < j < |rest| ensures !Recovers(Execute(w1, rest[..j]), rest[j], p, c, n) {
          assert !Recovers(Execute(w, steps[..j + 1]), steps[j + 1], p, c, n);
        }
        assert SkippedAt(w1, rest, i - 1, p, c, n);
      }
    }
  }

  /** Whatever notices were lost, an instance at rest that has since been told
   *  of a position past them has sent each socket every committed row above the
   *  position its hello named, except the socket's own. */
  lemma DeliveredAtRest(w0: World, steps: seq<Step>, p: PodId, c: ConnId, n: nat)
    requires Initial(w0) && OrderlyRun(w0, steps) && Settled(Execute(w0, steps), p, c, n)
    ensures HasRow(Execute(w0, steps), p, c, n)
  {
    OrderlySkipsNothing(w0, steps, p, c, n);
    DeliveredIff(w0, steps, p, c, n);
  }

  /** The bus loses a notice only to an instance whose listener is down. */
  ghost predicate OnlyDownLoses(w: World, step: Step) {
    step.Publish? ==> forall p :: p in w.pods && w.pods[p].up ==> p in step.reached
  }

  ghost predicate OnlyDownLosesRun(w: World, steps: seq<Step>)
    decreases |steps|
  {
    steps == [] || (OnlyDownLoses(w, steps[0]) && OnlyDownLosesRun(Apply(w, steps[0]), steps[1..]))
  }

  predicate OwesNothing(pod: Pod) {
    pod.up && pod.connects >= 2 ==> pod.debt == 0
  }

  ghost predicate ReconnectedOwesNothing(w: World) {
    forall p :: p in w.pods ==> OwesNothing(w.pods[p])
  }

  lemma ProceedSameDebt(pod: Pod, task: Task, head: nat, rows: map<nat, ConnId>)
    requires OwesNothing(pod)
    ensures OwesNothing(OnProceed(pod, task, head, rows))
  {
  }

  lemma HandleSameDebt(pod: Pod, notice: Notice)
    requires OwesNothing(pod)
    ensures OwesNothing(OnHandle(pod, notice))
  {
  }

  lemma AnnounceSameDebt(pod: Pod, rows: map<nat, ConnId>, n: nat)
    requires OwesNothing(pod)
    ensures OwesNothing(OnAnnounce(pod, rows, n))
  {
  }

  lemma HelloSameDebt(pod: Pod, c: ConnId, since: nat, head: nat, rows: map<nat, ConnId>)
    requires OwesNothing(pod)
    ensures OwesNothing(OnHello(pod, c, since, head, rows))
  {
  }

  lemma ReconnectedOwesNothingStep(w: World, step: Step)
    requires ReconnectedOwesNothing(w) && OnlyDownLoses(w, step)
    ensures ReconnectedOwesNothing(Apply(w, step))
  {
    match step
    case Announce(post) =>
      if post.pod in w.pods {
        AnnounceSameDebt(w.pods[post.pod], w.rows, post.n);
      }
    case Publish(_, _) =>
    case Allocate(_, _) =>
    case Insert(_) =>
    case _ => OwnStepOwesNothing(w, step);
  }

  lemma OwnStepOwesNothing(w: World, step: Step)
    requires ReconnectedOwesNothing(w)
    requires !step.Announce? && !step.Publish? && !step.Allocate? && !step.Insert?
    ensures ReconnectedOwesNothing(Apply(w, step))
  {
    if step.p in w.pods {
      var pod := w.pods[step.p];
      assert OwesNothing(pod);
      match step
      case Proceed(_, task) => ProceedSameDebt(pod, task, w.head, w.rows);
      case Handle(_, notice) => HandleSameDebt(pod, notice);
      case Hello(_, c, since) => HelloSameDebt(pod, c, since, w.head, w.rows);
      case _ =>
    }
  }

  lemma {:induction false} ReconnectedOwesNothingRun(w: World, steps: seq<Step>)
    requires ReconnectedOwesNothing(w) && OnlyDownLosesRun(w, steps)
    ensures ReconnectedOwesNothing(Execute(w, steps))
    decreases |steps|
  {
    if steps != [] {
      ReconnectedOwesNothingStep(w, steps[0]);
      ReconnectedOwesNothingRun(Apply(w, steps[0]), steps[1..]);
    }
  }

  /** A listener that comes back, with the notices of the connection before all
   *  gone, begins reading the head exactly when it is not the instance's first and
   *  somebody is here for the document; nothing of another instance, and no
   *  member or watermark, changes. */
  lemma ReconnectResyncs(w: World, p: PodId)
    requires p in w.pods && !w.pods[p].up && w.pods[p].queue == multiset{}
    ensures var w' := Apply(w, Reconnect(p));
      var pod, pod' := w.pods[p], w'.pods[p];
      && pod'.up && pod'.connects == pod.connects + 1
      && pod'.tasks == pod.tasks + (if pod.connects > 0 && pod.members != map[] then multiset{ReadHead} else multiset{})
      && pod'.members == pod.members && pod'.watermark == pod.watermark
      && w' == w.(pods := w.pods[p := pod'])
  {
  }

  /** Once the listener is back and resynced, with every notice handled and
   *  every read finished, nothing the down time lost is missing: only what a
   *  step passed over is. */
  lemma DeliveredAfterReconnect(w0: World, steps: seq<Step>, p: PodId, c: ConnId, n: nat)
    requires Initial(w0) && OnlyDownLosesRun(w0, steps)
    requires var w := Execute(w0, steps);
      && p in w.pods && AtRest(w, w.pods[p]) && w.pods[p].up && w.pods[p].connects >= 2
      && c in w.pods[p].members && w.pods[p].members[c].since.Some?
      && n in w.rows && n > w.pods[p].members[c].since.value
    ensures HasRow(Execute(w0, steps), p, c, n) <==> !SkippedForGood(w0, steps, p, c, n)
    ensures OrderlyRun(w0, steps) ==> HasRow(Execute(w0, steps), p, c, n)
  {
    ReconnectedOwesNothingRun(w0, steps);
    DeliveredIff(w0, steps, p, c, n);
    if OrderlyRun(w0, steps) {
      OrderlySkipsNothing(w0, steps, p, c, n);
    }
  }

  /** A socket is never sent a position that has no committed row. */
  lemma OnlyCommittedRowsAreSent(w0: World, steps: seq<Step>, p: PodId, c: ConnId)
    requires Initial(w0)
    requires var w := Execute(w0, steps); p in w.pods && c in w.pods[p].members
    ensures var w := Execute(w0, steps); w.pods[p].members[c].got <= w.rows.Keys
  {
    StartsOk(w0);
    InvRun(w0, steps);
    assert PodOk(Execute(w0, steps), Execute(w0, steps).pods[p]);
  }
}
