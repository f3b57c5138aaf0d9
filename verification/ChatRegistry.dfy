/** The registry class does what the step system says: after every action its entries are those of the
    world, and a subscriber's queue, from its registration on, gets what the subscriber is put. */
module ChatRegistry {
  import opened Text
  import opened ReplyRun
  import opened ChatWorld
  import opened ChatSafety
  import RunRegistry

  type Registry = RunRegistry.Runs

  ghost predicate Agrees(r: Registry, w: World)
    reads r, r.runs.Values, set c, q | c in r.runs && r.runs[c] != null && q in r.runs[c].queues :: q
  {
    r.Valid() && r.State() == w.registry
  }

  /** One step of a run: its entry, and what its queues are put. */
  method PerformTask(r: Registry, w: World, a: Action)
    requires Agrees(r, w)
    requires Enabled(w, a) && IsTask(a) && Sound(RunAt(w, a.conversation)) && r.Has(a.conversation)
    modifies r.runs[a.conversation], r.runs[a.conversation].queues
    ensures r.Stepped(a.conversation, Next(w, a))
  {
    hide Sound, Begin, OnProgress, OnDelta, FlushReturns, EndStream, FailStream, CancelArrives;
    hide RunRegistry.Runs.Stepped;
    var c := a.conversation;
    assert r.State()[c] == Some(r.runs[c].Value()) && w.registry[c] == Some(RunAt(w, c));
    match a {
      case TaskBegins(_) => r.BeginTask(c);
      case TaskProgress(_, p, t) => r.TakeProgress(c, p, t);
      case TaskDelta(_, kind, text, flush) => r.TakeDelta(c, kind, text, flush);
      case TaskResumes(_) => r.FlushReturnsTo(c);
      case TaskStreamed(_) => r.StreamEnds(c);
      case TaskFails(_, reason) => r.StreamFails(c, reason);
      case TaskCancelled(_) => r.CancelReaches(c);
    }
  }

  /** The world after it, and what each queue got. */
  method AdvanceTask(r: Registry, w: World, a: Action)
    requires Agrees(r, w)
    requires Enabled(w, a) && IsTask(a) && Sound(RunAt(w, a.conversation)) && r.Has(a.conversation)
    modifies r.runs[a.conversation], r.runs[a.conversation].queues
    ensures Agrees(r, Step(w, a)) && r.runs == old(r.runs)
    ensures forall d :: r.Has(d) ==> r.runs[d].queues == old(r.runs[d].queues)
    ensures RunAt(w, a.conversation).hist <= Next(w, a).hist
    ensures r.Delivered(a.conversation, Next(w, a).hist[|RunAt(w, a.conversation).hist|..])
  {
    hide Sound, Next, Enabled, Deliver, RunRegistry.Runs.Delivered;
    assert r.State()[a.conversation] == Some(r.runs[a.conversation].Value());
    assert w.registry[a.conversation] == Some(RunAt(w, a.conversation));
    PerformTask(r, w, a);
  }

  /** Everything but a step of a run: requests, subscribers, a stop, the end of a run. */
  method PerformOther(r: Registry, w: World, a: Action)
    requires Agrees(r, w) && Enabled(w, a) && !IsTask(a) && !a.Restart?
    modifies r, r.runs.Values, r.Queues()
    ensures Agrees(r, Step(w, a))
  {
    match a {
      case Arrive(_, c) =>
        var busy := r.Reserve(c);
      case GiveUp(q) => r.Release(w.requests[q].conversation);
      case Launch(q, owner, s) =>
        var Holding(c, row) := w.requests[q];
        r.Start(c, owner, row.value);
        var subscription := r.Subscribe(owner, c, false);
      case Attach(_, owner, c) =>
        var subscription := r.Subscribe(owner, c, true);
      case Stop(owner, c) =>
        var found := r.Stop(owner, c);
      case TaskFinishes(c) =>
        assert r.State()[c] == w.registry[c];
        r.FinishTask(c);
      case _ =>
    }
  }

  /** One action on a registry that agrees with the world; a restart is a new process with a new one. */
  method Perform(r: Registry, w: World, a: Action) returns (after: Registry)
    requires Agrees(r, w) && Enabled(w, a) && Inv(w)
    modifies r, r.runs.Values, r.Queues()
    ensures Agrees(after, Step(w, a))
    ensures after == r || fresh(after)
  {
    after := r;
    if IsTask(a) {
      RunIsThere(r, w, a);
      AdvanceTask(r, w, a);
    } else if a.Restart? {
      after := new RunRegistry.Runs();
    } else {
      PerformOther(r, w, a);
    }
  }

  lemma RunIsThere(r: Registry, w: World, a: Action)
    requires Agrees(r, w) && Enabled(w, a) && Inv(w) && IsTask(a)
    ensures r.Has(a.conversation) && Sound(RunAt(w, a.conversation))
  {
    hide Sound;
    assert Runs(w, a.conversation) && RunOk(w, a.conversation);
    assert r.State()[a.conversation] == w.registry[a.conversation];
  }

  // ---------- the queue of one subscriber ----------

  predicate Listens(w: World, x: Subscriber, c: ConversationId) {
    x.registered && x.conversation == c && Live(w, c, x.message)
  }

  /** This queue is the subscriber's: it got what the subscriber was put, and is registered with the run
      that the subscriber listens to. */
  ghost predicate Hears(r: Registry, w: World, q: RunRegistry.Queue, s: SubscriberId)
    reads r, r.runs.Values, q
  {
    && s in w.subscribers && q.items == w.subscribers[s].put
    && forall c :: r.Has(c) ==> (q in r.runs[c].queues <==> Listens(w, w.subscribers[s], c))
  }

  lemma ListensAsBefore(w: World, a: Action, x: Subscriber, y: Subscriber)
    requires Enabled(w, a) && IsTask(a)
    requires y.registered == x.registered && y.conversation == x.conversation && y.message == x.message
    ensures forall d :: Listens(Step(w, a), y, d) <==> Listens(w, x, d)
    ensures Listens(w, x, a.conversation)
            <==> x.registered && x.conversation == a.conversation && Live(w, a.conversation, x.message)
  {
    hide Enabled, Next, Step;
    TaskAdvances(w, a);
  }

  /** A step of a run: each queue of its subscribers gets what was published, and no other does. */
  method HearTask(r: Registry, w: World, a: Action, ghost q: RunRegistry.Queue, ghost s: SubscriberId)
    requires Agrees(r, w) && Hears(r, w, q, s)
    requires Enabled(w, a) && IsTask(a) && Sound(RunAt(w, a.conversation)) && r.Has(a.conversation)
    modifies r.runs[a.conversation], r.runs[a.conversation].queues
    ensures Agrees(r, Step(w, a)) && Hears(r, Step(w, a), q, s)
  {
    hide Sound, Next, Enabled, Listens, Agrees, Step, RunRegistry.Runs.Valid;
    var c := a.conversation;
    AdvanceTask(r, w, a);
    TaskDelivers(w, a, s);
    ListensAsBefore(w, a, w.subscribers[s], Step(w, a).subscribers[s]);
    assert w.subscribers[s].put + [] == w.subscribers[s].put;
    assert q in r.runs[c].queues <==> Listens(w, w.subscribers[s], c);
  }

  /** The end of a run: `done` reaches the queues of its subscribers, and no other. */
  method HearFinish(r: Registry, w: World, a: Action, ghost q: RunRegistry.Queue, ghost s: SubscriberId)
    requires Agrees(r, w) && Hears(r, w, q, s) && a.TaskFinishes? && Enabled(w, a) && r.Has(a.conversation)
    modifies r, r.runs[a.conversation], r.runs[a.conversation].queues
    ensures Agrees(r, Step(w, a)) && Hears(r, Step(w, a), q, s)
  {
    hide DoneMessage, Listens, Finished, Enabled, RunRegistry.Runs.Valid;
    var c := a.conversation;
    assert r.State()[c] == Some(r.runs[c].Value()) && w.registry[c] == Some(RunAt(w, c));
    FinishDelivers(w, a, s);
    r.FinishTask(c);
    assert w.subscribers[s].put + [] == w.subscribers[s].put;
  }

  lemma FinishDelivers(w: World, a: Action, s: SubscriberId)
    requires a.TaskFinishes? && Enabled(w, a) && s in w.subscribers
    ensures var c, x, v := a.conversation, w.subscribers[s], Step(w, a);
            && Runs(w, c) && RunAt(w, c).phase.Saving?
            && v.registry == w.registry - {c} && s in v.subscribers
            && v.subscribers[s]
               == x.(put := x.put + if Listens(w, x, c) then [Done(DoneMessage(RunAt(w, c)))] else [])
            && forall d :: d != c ==> (Listens(v, v.subscribers[s], d) <==> Listens(w, x, d))
  {
    hide DoneMessage, Finish;
    assert w.subscribers[s].put + [] == w.subscribers[s].put;
  }

  /** The request that starts a run subscribes to it in the same step. */
  method HearOwn(r: Registry, w: World, a: Action) returns (q: RunRegistry.Queue)
    requires Agrees(r, w) && a.Launch? && Enabled(w, a)
    modifies r
    ensures fresh(q) && Agrees(r, Step(w, a)) && Hears(r, Step(w, a), q, a.subscriber)
  {
    hide RunRegistry.Runs.Valid;
    var Holding(c, row) := w.requests[a.request];
    r.Start(c, a.owner, row.value);
    var subscription := r.Subscribe(a.owner, c, false);
    q := subscription.value.queue;
  }

  /** A later subscriber gets the texts of this moment, and then its queue. */
  method HearFromNow(r: Registry, w: World, a: Action) returns (subscription: RunRegistry.Subscription)
    requires Agrees(r, w) && a.Attach? && Enabled(w, a) && OwnedBy(w, a.owner, a.conversation)
    requires r.Has(a.conversation)
    modifies r.runs[a.conversation]
    ensures fresh(subscription.queue) && Agrees(r, Step(w, a))
    ensures Hears(r, Step(w, a), subscription.queue, a.subscriber)
    ensures subscription.first == Step(w, a).subscribers[a.subscriber].first
  {
    hide RunRegistry.Runs.Valid;
    var c := a.conversation;
    assert r.State()[c] == Some(r.runs[c].Value()) && w.registry[c] == Some(RunAt(w, c));
    var joined := r.Subscribe(a.owner, c, true);
    subscription := joined.value;
  }

  /** A client that leaves takes its own queue away. */
  method HearNoMore(r: Registry, w: World, a: Action, own: RunRegistry.Queue)
    requires Agrees(r, w) && a.Leave? && Enabled(w, a) && Hears(r, w, own, a.subscriber)
    modifies r.runs.Values
    ensures Agrees(r, Step(w, a)) && Hears(r, Step(w, a), own, a.subscriber)
  {
    var c := w.subscribers[a.subscriber].conversation;
    if c in r.runs && r.runs[c] != null {
      r.Unsubscribe(c, own);
    }
  }
}
