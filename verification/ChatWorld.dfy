/** The whole chat service as one step system: requests that reserve a conversation and start its
    run, the runs' tasks, the database threads they await or abandon, subscribers that come and
    go, stops, and restarts, in any interleaving. */
module ChatWorld {
  import opened Text
  import opened ReplyRun

  type RequestId = nat
  type SubscriberId = nat

  /** A request that holds its conversation may already have added the assistant row. */
  datatype Request = Refused | Failed | Holding(conversation: ConversationId, row: Option<MessageId>) | Replying

  datatype Row = Row(conversation: ConversationId, role: Role, content: string, reasoning: Option<string>,
                     status: Status, error: Option<string>)

  datatype Verdict = Verdict(status: Status, error: Option<string>)

  /** A database thread's update of one row: the texts, and for the final save the outcome. */
  datatype Write = Write(conversation: ConversationId, message: MessageId, content: string,
                         reasoning: Option<string>, verdict: Option<Verdict>)

  /** The thread that a suspended task awaits is still running, or is over, well or badly. */
  datatype Awaited = Pending(write: Write) | Over(done: bool)

  /** `first` is what a reattaching client is shown before the queue; `put` is all its queue got. */
  datatype Subscriber = Subscriber(conversation: ConversationId, message: MessageId, from: nat,
                                   first: Option<Payload>, put: seq<Payload>, registered: bool)

  datatype Ended = Ended(run: Run, verdict: Verdict, saved: bool)

  datatype World = World(
    registry: map<ConversationId, Option<Run>>,
    requests: map<RequestId, Request>,
    rows: map<MessageId, Row>,
    awaited: map<ConversationId, Awaited>,
    late: set<Write>,
    subscribers: map<SubscriberId, Subscriber>,
    ended: map<MessageId, Ended>,
    used: set<MessageId>)

  const EMPTY: World := World(map[], map[], map[], map[], {}, map[], map[], {})

  // ---------- the parts of a step ----------

  function Apply(rows: map<MessageId, Row>, w: Write): map<MessageId, Row> {
    if w.message !in rows then rows
    else
      var row := rows[w.message].(content := w.content, reasoning := w.reasoning);
      rows[w.message := match w.verdict case None => row case Some(v) => row.(status := v.status, error := v.error)]
  }

  function FlushOf(c: ConversationId, r: Run): Write {
    Write(c, r.message, r.content, OrNone(r.reasoning), None)
  }

  function FinalOf(c: ConversationId, r: Run): Write
    requires r.phase.Saving?
  {
    Write(c, r.message, r.content, OrNone(r.reasoning), Some(Verdict(r.phase.status, r.phase.error)))
  }

  /** `publish`: the registered queues of this run get the events. */
  function Deliver(subscribers: map<SubscriberId, Subscriber>, c: ConversationId, m: MessageId, events: seq<Payload>):
    map<SubscriberId, Subscriber>
  {
    map s | s in subscribers ::
      var x := subscribers[s];
      if x.registered && x.conversation == c && x.message == m then x.(put := x.put + events) else x
  }

  predicate Runs(w: World, c: ConversationId) {
    c in w.registry && w.registry[c].Some?
  }

  function RunAt(w: World, c: ConversationId): Run
    requires Runs(w, c)
  {
    w.registry[c].value
  }

  /** `_get`: the owner's run. */
  predicate OwnedBy(w: World, owner: string, c: ConversationId) {
    Runs(w, c) && RunAt(w, c).owner == owner
  }

  predicate Live(w: World, c: ConversationId, m: MessageId) {
    Runs(w, c) && RunAt(w, c).message == m
  }

  /** The run at `c` goes on as `next`, which says what was published and what is awaited now.
      A flush that is still running when its task moves on to the final save is abandoned. */
  function Advance(w: World, c: ConversationId, next: Run): World
    requires Runs(w, c) && RunAt(w, c).hist <= next.hist
  {
    var r := RunAt(w, c);
    w.(registry := w.registry[c := Some(next)],
       subscribers := Deliver(w.subscribers, c, r.message, next.hist[|r.hist|..]),
       awaited :=
         if next.phase.Saving? then w.awaited[c := Pending(FinalOf(c, next))]
         else if next.phase.Flushing? then w.awaited[c := Pending(FlushOf(c, next))]
         else w.awaited - {c},
       late :=
         if next.phase.Saving? && c in w.awaited && w.awaited[c].Pending? then w.late + {w.awaited[c].write}
         else w.late)
  }

  /** `done` is published and the registry entry removed in one go. */
  function Finished(w: World, c: ConversationId): World
    requires Runs(w, c) && RunAt(w, c).phase.Saving? && c in w.awaited && w.awaited[c].Over?
  {
    var r := RunAt(w, c);
    w.(registry := w.registry - {c}, awaited := w.awaited - {c},
       subscribers := Deliver(w.subscribers, c, r.message, [Done(DoneMessage(r))]),
       ended := w.ended[r.message := Ended(Finish(r), Verdict(r.phase.status, r.phase.error), w.awaited[c].done)])
  }

  // ---------- actions ----------

  datatype Action =
    | Arrive(request: RequestId, conversation: ConversationId)
    | DeleteRows(request: RequestId, messages: set<MessageId>)
    | AddUser(request: RequestId, message: MessageId, text: string)
    | EditUser(request: RequestId, message: MessageId, text: string)
    | AddAssistant(request: RequestId, message: MessageId)
    | GiveUp(request: RequestId)
    | Launch(request: RequestId, owner: string, subscriber: SubscriberId)
    | Attach(subscriber: SubscriberId, owner: string, conversation: ConversationId)
    | Leave(subscriber: SubscriberId)
    | Stop(owner: string, conversation: ConversationId)
    | TaskBegins(conversation: ConversationId)
    | TaskProgress(conversation: ConversationId, processed: nat, total: nat)
    | TaskDelta(conversation: ConversationId, kind: Kind, text: string, flush: bool)
    | TaskResumes(conversation: ConversationId)
    | TaskStreamed(conversation: ConversationId)
    | TaskFails(conversation: ConversationId, reason: string)
    | TaskCancelled(conversation: ConversationId)
    | TaskFinishes(conversation: ConversationId)
    | AwaitedEnds(conversation: ConversationId, done: bool)
    | LateEnds(write: Write, done: bool)
    | Restart(swept: bool)

  predicate Holds(w: World, r: RequestId) {
    r in w.requests && w.requests[r].Holding?
  }

  predicate Idle(w: World, c: ConversationId, phase: Phase) {
    Runs(w, c) && RunAt(w, c).phase == phase && !RunAt(w, c).cancelling
  }

  predicate Enabled(w: World, a: Action) {
    match a
    case Arrive(r, c) => r !in w.requests
    case DeleteRows(r, ms) =>
      Holds(w, r) && w.requests[r].row.None?
      && forall m :: m in ms ==> m in w.rows && w.rows[m].conversation == w.requests[r].conversation
    case AddUser(r, m, _) => Holds(w, r) && w.requests[r].row.None? && m !in w.used
    case EditUser(r, m, _) =>
      Holds(w, r) && m in w.rows && w.rows[m].conversation == w.requests[r].conversation && w.rows[m].role == User
    case AddAssistant(r, m) => Holds(w, r) && w.requests[r].row.None? && m !in w.used
    case GiveUp(r) => Holds(w, r)
    case Launch(r, _, s) => Holds(w, r) && w.requests[r].row.Some? && s !in w.subscribers
    case Attach(s, _, _) => s !in w.subscribers
    case Leave(s) => s in w.subscribers
    case Stop(_, _) => true
    case TaskBegins(c) => Runs(w, c) && RunAt(w, c).phase.Created?
    case TaskProgress(c, _, _) => Idle(w, c, Streaming)
    case TaskDelta(c, _, _, _) => Idle(w, c, Streaming)
    case TaskResumes(c) => Idle(w, c, Flushing) && c in w.awaited && w.awaited[c].Over?
    case TaskStreamed(c) => Idle(w, c, Streaming)
    case TaskFails(c, _) => Idle(w, c, Streaming)
    case TaskCancelled(c) => Runs(w, c) && RunAt(w, c).cancelling
    case TaskFinishes(c) =>
      Runs(w, c) && RunAt(w, c).phase.Saving? && c in w.awaited && w.awaited[c].Over?
    case AwaitedEnds(c, _) => c in w.awaited && w.awaited[c].Pending?
    case LateEnds(x, _) => x in w.late
    case Restart(_) => true
  }

  // ---------- what each action does ----------

  predicate IsTask(a: Action) {
    a.TaskBegins? || a.TaskProgress? || a.TaskDelta? || a.TaskResumes?
        || a.TaskStreamed? || a.TaskFails? || a.TaskCancelled?
  }

  function Next(w: World, a: Action): Run
    requires IsTask(a) && Enabled(w, a)
  {
    var r := RunAt(w, a.conversation);
    match a
    case TaskBegins(_) => Begin(r)
    case TaskProgress(_, p, t) => OnProgress(r, p, t)
    case TaskDelta(_, kind, text, flush) => OnDelta(r, kind, text, flush)
    case TaskResumes(_) => FlushReturns(r)
    case TaskStreamed(_) => EndStream(r)
    case TaskFails(_, reason) => FailStream(r, reason)
    case TaskCancelled(_) => CancelArrives(r)
  }

  function Reserved(w: World, r: RequestId, c: ConversationId): World {
    if c in w.registry then w.(requests := w.requests[r := Refused])
    else w.(requests := w.requests[r := Holding(c, None)], registry := w.registry[c := None])
  }

  function WithAssistant(w: World, r: RequestId, m: MessageId): World
    requires Holds(w, r)
  {
    var c := w.requests[r].conversation;
    w.(rows := w.rows[m := Row(c, Assistant, "", None, InProgress, None)], used := w.used + {m},
       requests := w.requests[r := Holding(c, Some(m))])
  }

  function Released(w: World, r: RequestId): World
    requires Holds(w, r)
  {
    var c := w.requests[r].conversation;
    w.(requests := w.requests[r := Request.Failed],
       registry := if c in w.registry && w.registry[c] == None then w.registry - {c} else w.registry)
  }

  function Launched(w: World, r: RequestId, owner: string, s: SubscriberId): World
    requires Holds(w, r) && w.requests[r].row.Some?
  {
    var Holding(c, row) := w.requests[r];
    w.(requests := w.requests[r := Replying],
       registry := w.registry[c := Some(NewRun(owner, row.value))],
       subscribers := w.subscribers[s := Subscriber(c, row.value, 0, None, [], true)])
  }

  function Snapshotted(r: Run): Payload {
    Snapshot(r.reasoning, r.content)
  }

  function Attached(w: World, s: SubscriberId, c: ConversationId): World
    requires Runs(w, c)
  {
    var r := RunAt(w, c);
    w.(subscribers := w.subscribers[s := Subscriber(c, r.message, |r.hist|, Some(Snapshotted(r)), [], true)])
  }

  function Unregistered(w: World, s: SubscriberId): World
    requires s in w.subscribers
  {
    w.(subscribers := w.subscribers[s := w.subscribers[s].(registered := false)])
  }

  function Halted(w: World, c: ConversationId): World
    requires Runs(w, c)
  {
    w.(registry := w.registry[c := Some(StopRun(RunAt(w, c)))])
  }

  /** The awaited thread commits or fails. */
  function Awoken(w: World, c: ConversationId, done: bool): World
    requires c in w.awaited && w.awaited[c].Pending?
  {
    w.(rows := if done then Apply(w.rows, w.awaited[c].write) else w.rows, awaited := w.awaited[c := Over(done)])
  }

  /** An abandoned thread commits or fails. */
  function LateEnded(w: World, x: Write, done: bool): World {
    w.(rows := if done then Apply(w.rows, x) else w.rows, late := w.late - {x})
  }

  /** Tasks, threads and connections die with the process; the startup sweep then runs, or fails and is
      only logged. */
  function Restarted(w: World, swept: bool): World {
    w.(registry := map[], requests := map[], awaited := map[], late := {}, subscribers := map[],
       rows := map m | m in w.rows ::
         if swept && w.rows[m].status == InProgress then w.rows[m].(status := Stopped) else w.rows[m])
  }

  function Step(w: World, a: Action): World
    requires Enabled(w, a)
  {
    if IsTask(a) then Advance(w, a.conversation, Next(w, a))
    else match a
      case Arrive(r, c) => Reserved(w, r, c)
      case DeleteRows(r, ms) => w.(rows := w.rows - ms)
      case AddUser(r, m, text) =>
        w.(rows := w.rows[m := Row(w.requests[r].conversation, User, text, None, Complete, None)], used := w.used + {m})
      case EditUser(r, m, text) => w.(rows := w.rows[m := w.rows[m].(content := text)])
      case AddAssistant(r, m) => WithAssistant(w, r, m)
      case GiveUp(r) => Released(w, r)
      case Launch(r, owner, s) => Launched(w, r, owner, s)
      case Attach(s, owner, c) => if OwnedBy(w, owner, c) then Attached(w, s, c) else w
      case Leave(s) => Unregistered(w, s)
      case Stop(owner, c) => if OwnedBy(w, owner, c) then Halted(w, c) else w
      case TaskFinishes(c) => Finished(w, c)
      case AwaitedEnds(c, done) => Awoken(w, c, done)
      case LateEnds(x, done) => LateEnded(w, x, done)
      case Restart(swept) => Restarted(w, swept)
  }

  // ---------- the invariant ----------

  /** The row shows what the `done` message says. */
  predicate Shows(row: Row, r: Run, v: Verdict) {
    row.content == r.content && row.reasoning == OrNone(r.reasoning) && row.status == v.status && row.error == v.error
  }

  ghost predicate AwaitedOk(w: World, c: ConversationId)
    requires c in w.awaited
  {
    && Runs(w, c)
    && var r := RunAt(w, c);
       match r.phase
       case Flushing => w.awaited[c] == Pending(FlushOf(c, r)) || w.awaited[c].Over?
       case Saving(status, error) =>
         && (w.awaited[c] == Pending(FinalOf(c, r)) || w.awaited[c].Over?)
         && (w.awaited[c] == Over(true) && r.message in w.rows ==> Shows(w.rows[r.message], r, Verdict(status, error)))
       case _ => false
  }

  ghost predicate RunOk(w: World, c: ConversationId)
    requires Runs(w, c)
  {
    var r := RunAt(w, c);
    && Sound(r)
    && r.message in w.rows && r.message in w.used && r.message !in w.ended
    && w.rows[r.message].conversation == c && w.rows[r.message].role == Assistant
    && (c in w.awaited <==> r.phase.Flushing? || r.phase.Saving?)
  }

  /** An abandoned flush carries the texts that its run has kept since. */
  ghost predicate LateOk(w: World, x: Write) {
    && x.verdict.None?
    && if Live(w, x.conversation, x.message)
       then var r := RunAt(w, x.conversation);
            r.phase.Saving? && x.content == r.content && x.reasoning == OrNone(r.reasoning)
       else x.message in w.ended && x.content == w.ended[x.message].run.content
            && x.reasoning == OrNone(w.ended[x.message].run.reasoning)
  }

  /** Once the final save succeeded the row shows what `done` said, as long as it exists. */
  ghost predicate EndedOk(w: World, m: MessageId)
    requires m in w.ended
  {
    var Ended(r, v, saved) := w.ended[m];
    && r.message == m && m in w.used
    && EndedWell(r, v)
    && (m in w.rows ==> w.rows[m].role == Assistant && (saved ==> Shows(w.rows[m], r, v)))
  }

  /** What was published ends with one `done`, which carries the verdict. */
  ghost predicate EndedWell(r: Run, v: Verdict) {
    && r.phase == Saving(v.status, v.error)
    && r.hist != [] && r.hist[|r.hist| - 1] == Done(DoneMessage(r))
    && Sound(r.(hist := r.hist[..|r.hist| - 1]))
  }

  ghost predicate RequestOk(w: World, r: RequestId)
    requires r in w.requests
  {
    w.requests[r].Holding? ==>
      var Holding(c, row) := w.requests[r];
      && c in w.registry && w.registry[c].None?
      && (row.Some? ==>
            && row.value in w.rows && row.value in w.used && row.value !in w.ended
            && w.rows[row.value].conversation == c && w.rows[row.value].role == Assistant)
  }

  /** Everything a registered queue got is what was published since; a snapshot was exact. */
  ghost predicate SubscriberOk(w: World, s: SubscriberId)
    requires s in w.subscribers
  {
    var x := w.subscribers[s];
    && (Live(w, x.conversation, x.message) || x.message in w.ended)
    && var hist := HistoryOf(w, x);
       && x.from <= |hist|
       && (!Live(w, x.conversation, x.message) ==> x.from < |hist|)
       && x.put <= hist[x.from..]
       && (x.registered ==> x.put == hist[x.from..])
       && (x.first.None? ==> x.from == 0)
       && (x.first.Some? ==>
             x.first.value == Snapshot(TextOf(Reasoning, hist[..x.from]), TextOf(Content, hist[..x.from])))
  }

  function HistoryOf(w: World, x: Subscriber): seq<Payload>
    requires Live(w, x.conversation, x.message) || x.message in w.ended
  {
    if Live(w, x.conversation, x.message) then RunAt(w, x.conversation).hist else w.ended[x.message].run.hist
  }

  ghost predicate RunsInv(w: World) {
    && (forall c :: Runs(w, c) ==> RunOk(w, c))
    && (forall c :: c in w.awaited ==> AwaitedOk(w, c))
    && w.rows.Keys <= w.used
  }

  ghost predicate LateInv(w: World) {
    forall x :: x in w.late ==> LateOk(w, x)
  }

  ghost predicate EndedInv(w: World) {
    forall m :: m in w.ended ==> EndedOk(w, m)
  }

  /** A reserved conversation has exactly one request that holds it. */
  ghost predicate RequestsInv(w: World) {
    && (forall r :: r in w.requests ==> RequestOk(w, r))
    && (forall c :: c in w.registry && w.registry[c].None? ==> exists r :: HoldsFor(w, r, c))
    && (forall r, q, c :: HoldsFor(w, r, c) && HoldsFor(w, q, c) ==> r == q)
  }

  ghost predicate SubscribersInv(w: World) {
    forall s :: s in w.subscribers ==> SubscriberOk(w, s)
  }

  ghost predicate Inv(w: World) {
    RunsInv(w) && LateInv(w) && EndedInv(w) && RequestsInv(w) && SubscribersInv(w)
  }

  predicate HoldsFor(w: World, r: RequestId, c: ConversationId) {
    Holds(w, r) && w.requests[r].conversation == c
  }
}
