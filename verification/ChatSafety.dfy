/** Every step of the chat service keeps its invariant. */
module ChatSafety {
  import opened Text
  import opened ReplyRun
  import opened ChatWorld

  lemma EmptyInv()
    ensures Inv(EMPTY)
  {
  }

  // ---------- steps of one run's task ----------

  /** A task step before the final save: it publishes, keeps its row, and once it goes on to the
      final save its texts stand. */
  ghost predicate Goes(r: Run, next: Run) {
    && Sound(next) && BeforeEnd(r.phase)
    && next.message == r.message && next.owner == r.owner
    && r.hist <= next.hist
    && (next.phase.Saving? ==> next.content == r.content && next.reasoning == r.reasoning)
  }

  lemma AdvanceLookups(w: World, c: ConversationId, next: Run)
    requires Runs(w, c) && Goes(RunAt(w, c), next)
    ensures var v := Advance(w, c, next);
            && (forall d :: Runs(v, d) <==> Runs(w, d))
            && (forall d :: Runs(w, d) ==> RunAt(v, d) == if d == c then next else RunAt(w, d))
            && (forall d, m :: Live(v, d, m) <==> Live(w, d, m))
            && (forall d :: d in w.registry && w.registry[d].None? <==> d in v.registry && v.registry[d].None?)
  {
    hide Sound;
  }

  lemma AdvanceRuns(w: World, c: ConversationId, next: Run)
    requires Inv(w) && Runs(w, c) && Goes(RunAt(w, c), next)
    ensures var v := Advance(w, c, next);
            && (forall d :: Runs(v, d) ==> RunOk(v, d))
            && (forall d :: d in v.awaited ==> AwaitedOk(v, d))
  {
    hide Sound, Deliver;
    AdvanceLookups(w, c, next);
    var v := Advance(w, c, next);
    forall d | Runs(v, d) ensures RunOk(v, d) {
      assert RunOk(w, d);
    }
    forall d | d in v.awaited ensures AwaitedOk(v, d) {
      if d != c {
        assert AwaitedOk(w, d);
      }
    }
  }

  lemma AdvanceLate(w: World, c: ConversationId, next: Run)
    requires Inv(w) && Runs(w, c) && Goes(RunAt(w, c), next)
    ensures var v := Advance(w, c, next);
            forall x :: x in v.late ==> LateOk(v, x)
  {
    hide Sound, Deliver;
    AdvanceLookups(w, c, next);
    var v := Advance(w, c, next);
    forall x | x in v.late ensures LateOk(v, x) {
      if x in w.late {
        assert LateOk(w, x);
      } else {
        assert AwaitedOk(w, c);
        assert x == FlushOf(c, RunAt(w, c));
      }
    }
  }

  lemma AdvanceSubscribers(w: World, c: ConversationId, next: Run)
    requires Inv(w) && Runs(w, c) && Goes(RunAt(w, c), next)
    ensures var v := Advance(w, c, next);
            forall s :: s in v.subscribers ==> SubscriberOk(v, s)
  {
    hide Sound, TextOf;
    AdvanceLookups(w, c, next);
    var v := Advance(w, c, next);
    assert RunOk(w, c);
    hide RunsInv, LateInv, EndedInv, RequestsInv;
    forall s | s in v.subscribers ensures SubscriberOk(v, s) {
      assert SubscriberOk(w, s);
      AdvanceSubscriber(w, v, c, next, s);
    }
  }

  lemma AdvanceSubscriber(w: World, v: World, c: ConversationId, next: Run, s: SubscriberId)
    requires Runs(w, c) && RunAt(w, c).message == next.message && RunAt(w, c).hist <= next.hist
    requires s in w.subscribers && SubscriberOk(w, s)
    requires Runs(v, c) && RunAt(v, c) == next && v.ended == w.ended
    requires forall d, m :: Live(v, d, m) <==> Live(w, d, m)
    requires forall d :: Runs(w, d) && d != c ==> Runs(v, d) && RunAt(v, d) == RunAt(w, d)
    requires v.subscribers == Deliver(w.subscribers, c, next.message, next.hist[|RunAt(w, c).hist|..])
    ensures s in v.subscribers && SubscriberOk(v, s)
  {
    hide TextOf;
    var x := w.subscribers[s];
    if Live(w, x.conversation, x.message) && x.conversation == c {
      Extends(RunAt(w, c).hist, next.hist, x.from, x.put);
    }
  }

  lemma Extends(hist: seq<Payload>, next: seq<Payload>, from: nat, put: seq<Payload>)
    requires hist <= next && from <= |hist| && put <= hist[from..]
    ensures put <= next[from..] && next[..from] == hist[..from]
    ensures put == hist[from..] ==> put + next[|hist|..] == next[from..]
  {
  }

  lemma AdvanceRest(w: World, c: ConversationId, next: Run)
    requires Inv(w) && Runs(w, c) && Goes(RunAt(w, c), next)
    ensures EndedInv(Advance(w, c, next)) && RequestsInv(Advance(w, c, next))
  {
    hide RunsInv, LateInv, SubscribersInv, EndedInv;
    AdvanceLookups(w, c, next);
    RequestsKept(w, Advance(w, c, next));
    EndedKept(w, Advance(w, c, next));
  }

  /** The requests' side stands when reservations and held rows do. */
  lemma RequestsKept(w: World, v: World)
    requires RequestsInv(w) && v.requests == w.requests && v.ended == w.ended && v.used >= w.used
    requires forall d :: d in w.registry && w.registry[d].None? <==> d in v.registry && v.registry[d].None?
    requires forall r :: Holds(w, r) && w.requests[r].row.Some? && w.requests[r].row.value in w.rows ==>
               var m := w.requests[r].row.value;
               m in v.rows && v.rows[m].conversation == w.rows[m].conversation && v.rows[m].role == w.rows[m].role
    ensures RequestsInv(v)
  {
    forall r | r in v.requests ensures RequestOk(v, r) {
      assert RequestOk(w, r);
      assert Holds(v, r) ==> Holds(w, r);
    }
    forall d | d in v.registry && v.registry[d].None? ensures exists r :: HoldsFor(v, r, d) {
      var r :| HoldsFor(w, r, d);
      assert HoldsFor(v, r, d);
    }
    assert forall r, d :: HoldsFor(v, r, d) <==> HoldsFor(w, r, d);
  }

  lemma AdvanceInv(w: World, c: ConversationId, next: Run)
    requires Inv(w) && Runs(w, c) && Goes(RunAt(w, c), next)
    ensures Inv(Advance(w, c, next))
  {
    AdvanceRuns(w, c, next);
    AdvanceLate(w, c, next);
    AdvanceSubscribers(w, c, next);
    AdvanceRest(w, c, next);
    hide Sound, Deliver, SubscriberOk, LateOk, RunOk, AwaitedOk, EndedInv, RequestsInv;
  }

  lemma NextGoes(w: World, a: Action)
    requires IsTask(a) && Enabled(w, a) && Sound(RunAt(w, a.conversation))
    ensures Goes(RunAt(w, a.conversation), Next(w, a))
  {
    hide Sound, TextOf;
    var r := RunAt(w, a.conversation);
    QuietSound(r);
    match a
    case TaskBegins(_) => BeginSound(r);
    case TaskProgress(_, p, t) => PublishSound(r, Progress(p, t));
    case TaskDelta(_, kind, text, flush) => PublishSound(r, Delta(kind, text));
    case TaskFails(_, reason) => PublishSound(r, Payload.Failed(reason));
    case _ =>
  }

  /** What a step of a run's task leaves: its run goes on as the next one, under its message, and only its
      subscribers and its threads can be different. */
  lemma TaskAdvances(w: World, a: Action)
    requires IsTask(a) && Enabled(w, a)
    ensures var c, v := a.conversation, Step(w, a);
            && Runs(w, c) && v.registry == w.registry[c := Some(Next(w, a))]
            && Next(w, a).message == RunAt(w, c).message && RunAt(w, c).hist <= Next(w, a).hist
            && v.rows == w.rows && v.requests == w.requests && v.ended == w.ended && v.used == w.used
            && v.subscribers.Keys == w.subscribers.Keys
  {
    hide TextOf;
  }

  /** It delivers what it published to the registered subscribers of this run, and to no other. */
  lemma TaskDelivers(w: World, a: Action, s: SubscriberId)
    requires IsTask(a) && Enabled(w, a) && s in w.subscribers
    requires RunAt(w, a.conversation).hist <= Next(w, a).hist
    ensures var c, x, v := a.conversation, w.subscribers[s], Step(w, a);
            var heard := x.registered && x.conversation == c && Live(w, c, x.message);
            && s in v.subscribers
            && v.subscribers[s]
               == x.(put := x.put + if heard then Next(w, a).hist[|RunAt(w, c).hist|..] else [])
  {
    hide Enabled, TextOf, Next;
    TaskAdvances(w, a);
    assert w.subscribers[s].put + [] == w.subscribers[s].put;
  }

  lemma TaskInv(w: World, a: Action)
    requires Inv(w) && IsTask(a) && Enabled(w, a)
    ensures Inv(Step(w, a))
  {
    hide Inv, Advance, Next, Sound;
    InvRun(w, a.conversation);
    NextGoes(w, a);
    AdvanceInv(w, a.conversation, Next(w, a));
  }

  lemma InvRun(w: World, c: ConversationId)
    requires Inv(w) && Runs(w, c)
    ensures RunOk(w, c)
  {
  }

  // ---------- the end of a run ----------

  predicate Finishes(w: World, c: ConversationId) {
    Runs(w, c) && RunAt(w, c).phase.Saving? && c in w.awaited && w.awaited[c].Over?
  }

  lemma FinishLookups(w: World, c: ConversationId)
    requires Inv(w) && Finishes(w, c)
    ensures var v := Finished(w, c);
            var r := RunAt(w, c);
            && (forall d :: Runs(v, d) <==> Runs(w, d) && d != c)
            && (forall d :: Runs(v, d) ==> RunAt(v, d) == RunAt(w, d))
            && (forall d, m :: Live(v, d, m) <==> Live(w, d, m) && d != c)
            && (forall d :: Runs(v, d) ==> RunAt(w, d).message != r.message)
            && EndedWell(Finish(r), Verdict(r.phase.status, r.phase.error))
            && r.message !in w.ended
  {
    hide TextOf, Deliver;
    assert RunOk(w, c);
    var r := RunAt(w, c);
    forall d | Runs(w, d) && d != c ensures RunAt(w, d).message != r.message {
      assert RunOk(w, d);
    }
    assert Finish(r).hist[..|r.hist|] == r.hist;
    assert Finish(r).(hist := r.hist) == r;
    assert DoneMessage(Finish(r)) == DoneMessage(r);
  }

  lemma FinishRuns(w: World, c: ConversationId)
    requires Inv(w) && Finishes(w, c)
    ensures RunsInv(Finished(w, c))
  {
    FinishLookups(w, c);
    hide Sound, TextOf, EndedWell, LateInv, EndedInv, RequestsInv, SubscribersInv, Deliver;
    var v := Finished(w, c);
    forall d | Runs(v, d) ensures RunOk(v, d) {
      assert RunOk(w, d);
    }
    forall d | d in v.awaited ensures AwaitedOk(v, d) {
      assert AwaitedOk(w, d);
    }
  }

  lemma FinishLate(w: World, c: ConversationId)
    requires Inv(w) && Finishes(w, c)
    ensures LateInv(Finished(w, c))
  {
    FinishLookups(w, c);
    hide Sound, TextOf, EndedWell, RunsInv, EndedInv, RequestsInv, SubscribersInv, Deliver;
    forall x | x in Finished(w, c).late ensures LateOk(Finished(w, c), x) {
      assert LateOk(w, x);
      FinishLateOk(w, c, x);
    }
  }

  lemma FinishLateOk(w: World, c: ConversationId, x: Write)
    requires Finishes(w, c) && LateOk(w, x)
    requires RunAt(w, c).message !in w.ended
    requires forall d :: Runs(w, d) && d != c ==> RunAt(w, d).message != RunAt(w, c).message
    ensures LateOk(Finished(w, c), x)
  {
    hide Deliver;
  }

  lemma FinishEnded(w: World, c: ConversationId)
    requires Inv(w) && Finishes(w, c)
    ensures EndedInv(Finished(w, c))
  {
    FinishLookups(w, c);
    hide Sound, TextOf, EndedWell, LateInv, RequestsInv, SubscribersInv;
    var v := Finished(w, c);
    assert RunOk(w, c) && AwaitedOk(w, c);
    forall m | m in v.ended ensures EndedOk(v, m) {
      assert m != RunAt(w, c).message ==> EndedOk(w, m);
    }
  }

  lemma FinishRequests(w: World, c: ConversationId)
    requires Inv(w) && Finishes(w, c)
    ensures RequestsInv(Finished(w, c))
  {
    FinishLookups(w, c);
    hide Sound, TextOf, EndedWell, LateInv, SubscribersInv;
    var v := Finished(w, c);
    assert RunOk(w, c);
    RequestsKept(w, v.(ended := w.ended));
    forall q | q in v.requests ensures RequestOk(v, q) {
      assert RequestOk(v.(ended := w.ended), q);
    }
    assert forall q, d :: HoldsFor(v, q, d) <==> HoldsFor(v.(ended := w.ended), q, d);
  }

  lemma FinishSubscribers(w: World, c: ConversationId)
    requires Inv(w) && Finishes(w, c)
    ensures SubscribersInv(Finished(w, c))
  {
    FinishLookups(w, c);
    hide Sound, TextOf, EndedWell, RunsInv, LateInv, EndedInv, RequestsInv;
    var v := Finished(w, c);
    forall s | s in v.subscribers ensures SubscriberOk(v, s) {
      assert SubscriberOk(w, s);
      FinishSubscriber(w, v, c, s);
    }
  }

  lemma FinishInv(w: World, c: ConversationId)
    requires Inv(w) && Finishes(w, c)
    ensures Inv(Finished(w, c))
  {
    FinishRuns(w, c);
    FinishLate(w, c);
    FinishEnded(w, c);
    FinishRequests(w, c);
    FinishSubscribers(w, c);
    hide RunsInv, LateInv, EndedInv, RequestsInv, SubscribersInv, Finished;
  }

  lemma FinishSubscriber(w: World, v: World, c: ConversationId, s: SubscriberId)
    requires Runs(w, c) && RunAt(w, c).phase.Saving? && s in w.subscribers && SubscriberOk(w, s)
    requires var r := RunAt(w, c);
             && r.message !in w.ended
             && (forall d, m :: Live(v, d, m) <==> Live(w, d, m) && d != c)
             && (forall d :: Runs(v, d) ==>
                   Runs(w, d) && RunAt(v, d) == RunAt(w, d) && RunAt(w, d).message != r.message)
             && v.subscribers == Deliver(w.subscribers, c, r.message, [Done(DoneMessage(r))])
             && (forall m :: m in w.ended ==> m in v.ended && v.ended[m] == w.ended[m])
             && r.message in v.ended && v.ended[r.message].run == Finish(r)
    ensures s in v.subscribers && SubscriberOk(v, s)
  {
    hide Sound, TextOf;
    var r := RunAt(w, c);
    var x := w.subscribers[s];
    if Live(w, x.conversation, x.message) && x.conversation == c {
      Extends(r.hist, Finish(r).hist, x.from, x.put);
      assert Finish(r).hist[|r.hist|..] == [Done(DoneMessage(r))];
    }
  }

  // ---------- stops and subscribers ----------

  predicate SameTexts(r: Run, q: Run) {
    q.message == r.message && q.hist == r.hist && q.phase == r.phase
        && q.content == r.content && q.reasoning == r.reasoning
  }

  /** Runs keep what late writes and subscribers depend on; new runs are for unused messages. */
  ghost predicate RunsKept(w: World, v: World) {
    && v.ended == w.ended
    && (forall d :: Runs(w, d) ==> Runs(v, d) && SameTexts(RunAt(w, d), RunAt(v, d)))
    && (forall d :: Runs(v, d) && !Runs(w, d) ==> RunAt(v, d).message !in w.ended)
  }

  lemma LateKept(w: World, v: World)
    requires LateInv(w) && RunsKept(w, v) && v.late <= w.late
    ensures LateInv(v)
  {
    forall x | x in v.late ensures LateOk(v, x) {
      assert LateOk(w, x);
    }
  }

  lemma SubscribersKept(w: World, v: World)
    requires SubscribersInv(w) && RunsKept(w, v) && v.subscribers == w.subscribers
    ensures SubscribersInv(v)
  {
    hide TextOf;
    forall s | s in v.subscribers ensures SubscriberOk(v, s) {
      assert SubscriberOk(w, s);
    }
  }

  lemma EndedKept(w: World, v: World)
    requires EndedInv(w) && v.ended == w.ended && w.used <= v.used
    requires forall m :: m in w.ended && m in v.rows ==> m in w.rows && v.rows[m] == w.rows[m]
    ensures EndedInv(v)
  {
    hide EndedWell;
    forall m | m in v.ended ensures EndedOk(v, m) {
      assert EndedOk(w, m);
    }
  }

  lemma StopRuns(w: World, c: ConversationId)
    requires Inv(w) && Runs(w, c)
    ensures RunsInv(Halted(w, c)) && RequestsInv(Halted(w, c))
  {
    hide TextOf, LateInv, EndedInv, SubscribersInv;
    InvRun(w, c);
    StopSound(RunAt(w, c));
    hide Sound;
    var v := Halted(w, c);
    forall d | Runs(v, d) ensures RunOk(v, d) {
      assert RunOk(w, d);
    }
    forall d | d in v.awaited ensures AwaitedOk(v, d) {
      assert AwaitedOk(w, d);
    }
    RequestsKept(w, v);
  }

  lemma StopInv(w: World, c: ConversationId)
    requires Inv(w) && Runs(w, c)
    ensures Inv(Halted(w, c))
  {
    StopRuns(w, c);
    hide RunsInv, LateInv, EndedInv, RequestsInv, SubscribersInv;
    LateKept(w, Halted(w, c));
    SubscribersKept(w, Halted(w, c));
    EndedKept(w, Halted(w, c));
  }

  /** Only subscribers change. */
  lemma SubscribersInvOnly(w: World, subscribers: map<SubscriberId, Subscriber>)
    requires Inv(w)
    ensures var v := w.(subscribers := subscribers);
            SubscribersInv(v) ==> Inv(v)
  {
    hide Sound, TextOf, SubscribersInv;
    var v := w.(subscribers := subscribers);
    RequestsKept(w, v);
    hide RequestsInv, LateInv, EndedInv;
    LateKept(w, v);
    EndedKept(w, v);
    forall d | Runs(v, d) ensures RunOk(v, d) {
      assert RunOk(w, d);
    }
    forall d | d in v.awaited ensures AwaitedOk(v, d) {
      assert AwaitedOk(w, d);
    }
  }

  lemma AttachInv(w: World, s: SubscriberId, c: ConversationId)
    requires Inv(w) && s !in w.subscribers && Runs(w, c)
    ensures Inv(Attached(w, s, c))
  {
    hide TextOf;
    var r := RunAt(w, c);
    InvRun(w, c);
    var v := Attached(w, s, c);
    assert r.hist[..|r.hist|] == r.hist;
    assert Sound(r);
    hide Sound, RunsInv, LateInv, EndedInv, RequestsInv;
    forall t | t in v.subscribers ensures SubscriberOk(v, t) {
      assert t != s ==> SubscriberOk(w, t);
    }
    hide SubscriberOk;
    SubscribersInvOnly(w, v.subscribers);
  }

  lemma LeaveInv(w: World, s: SubscriberId)
    requires Inv(w) && s in w.subscribers
    ensures Inv(Unregistered(w, s))
  {
    hide Sound, TextOf, RunsInv, LateInv, EndedInv, RequestsInv;
    var v := Unregistered(w, s);
    forall t | t in v.subscribers ensures SubscriberOk(v, t) {
      assert SubscriberOk(w, t);
    }
    SubscribersInvOnly(w, v.subscribers);
  }
}
