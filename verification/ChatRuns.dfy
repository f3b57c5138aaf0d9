/** What every run of the chat service guarantees. */
module ChatRuns {
  import opened Text
  import opened ReplyRun
  import opened ChatWorld
  import opened ChatSafety
  import opened ChatRequests

  lemma StepInv(w: World, a: Action)
    requires Inv(w) && Enabled(w, a)
    ensures Inv(Step(w, a))
  {
    hide Inv, Sound, TextOf, Advance, Finished, Deliver, Apply;
    if IsTask(a) {
      TaskInv(w, a);
    } else {
      match a
      case TaskFinishes(c) => FinishInv(w, c);
      case AwaitedEnds(c, done) => AwaitedEndsInv(w, c, done);
      case LateEnds(x, done) => LateEndsInv(w, x, done);
      case Restart(swept) => RestartInv(w, swept);
      case Attach(s, owner, c) => if OwnedBy(w, owner, c) { AttachInv(w, s, c); }
      case Leave(s) => LeaveInv(w, s);
      case Stop(owner, c) => if OwnedBy(w, owner, c) { StopInv(w, c); }
      case _ => RequestStepInv(w, a);
    }
  }

  lemma RequestStepInv(w: World, a: Action)
    requires Inv(w) && Enabled(w, a)
    requires a.Arrive? || a.DeleteRows? || a.AddUser? || a.EditUser? || a.AddAssistant? || a.GiveUp? || a.Launch?
    ensures Inv(Step(w, a))
  {
    hide Inv, RowsStand, Advance, Finished, Next, Reserved, WithAssistant, Released, Launched, Attached;
    match a
    case Arrive(r, c) => ArriveInv(w, r, c);
    case AddAssistant(r, m) => AddAssistantInv(w, r, m);
    case GiveUp(r) => GiveUpInv(w, r);
    case Launch(r, owner, s) => LaunchInv(w, r, owner, s);
    case _ => RowStepInv(w, a);
  }

  lemma RowStepInv(w: World, a: Action)
    requires Inv(w) && Enabled(w, a) && (a.DeleteRows? || a.AddUser? || a.EditUser?)
    ensures Inv(Step(w, a))
  {
    UsedRows(w);
    hide Inv, RowsStand, Advance, Finished, Next, Reserved, WithAssistant, Released, Launched, Attached;
    match a
    case DeleteRows(r, ms) =>
      DeleteRowsStand(w, r, ms);
      RowsInv(w, w.rows - ms, w.used);
    case AddUser(r, m, text) =>
      var rows := w.rows[m := Row(w.requests[r].conversation, User, text, None, Complete, None)];
      KeptRowsStand(w, rows, w.used + {m});
      RowsInv(w, rows, w.used + {m});
    case EditUser(r, m, text) =>
      var rows := w.rows[m := w.rows[m].(content := text)];
      KeptRowsStand(w, rows, w.used);
      RowsInv(w, rows, w.used);
  }

  lemma UsedRows(w: World)
    requires Inv(w)
    ensures w.rows.Keys <= w.used
  {
  }

  // ---------- whole runs ----------

  predicate Possible(w: World, actions: seq<Action>)
    decreases |actions|
  {
    actions == [] || (Enabled(w, actions[0]) && Possible(Step(w, actions[0]), actions[1..]))
  }

  function Exec(w: World, actions: seq<Action>): World
    requires Possible(w, actions)
    decreases |actions|
  {
    if actions == [] then w else Exec(Step(w, actions[0]), actions[1..])
  }

  lemma {:induction false} ExecInv(w: World, actions: seq<Action>)
    requires Inv(w) && Possible(w, actions)
    ensures Inv(Exec(w, actions))
    decreases |actions|
  {
    hide Inv, Step, Enabled;
    if actions != [] {
      StepInv(w, actions[0]);
      ExecInv(Step(w, actions[0]), actions[1..]);
    }
  }

  lemma SoundHasNoDone(r: Run)
    requires Sound(r)
    ensures forall k :: 0 <= k < |r.hist| ==> !r.hist[k].Done?
  {
    forall k | 0 <= k < |r.hist| ensures !r.hist[k].Done? {
      assert r.hist[k] in r.hist;
    }
  }

  /** Once the final save succeeded, the stored reply is what `done` published, whatever else
      happens to the service, as long as the row is not deleted. */
  lemma SavedReplyStands(actions: seq<Action>, m: MessageId)
    requires Possible(EMPTY, actions)
    ensures var w := Exec(EMPTY, actions);
            m in w.ended && w.ended[m].saved && m in w.rows ==>
              var hist := w.ended[m].run.hist;
              && hist != [] && hist[|hist| - 1].Done?
              && var said := hist[|hist| - 1].message;
                 && said.id == m && w.rows[m].content == said.content && w.rows[m].reasoning == said.reasoning
                 && w.rows[m].status == said.status && w.rows[m].error == said.error
  {
    EmptyInv();
    ExecInv(EMPTY, actions);
    hide RunsInv, LateInv, RequestsInv, SubscribersInv, TextOf, Sound, Possible, Exec;
    var w := Exec(EMPTY, actions);
    if m in w.ended {
      assert EndedOk(w, m);
    }
  }

  /** `done` is the last thing that an ended run published, and the only one of its kind. */
  lemma DoneComesLast(w: World, m: MessageId)
    requires Inv(w) && m in w.ended
    ensures var hist := w.ended[m].run.hist;
            && hist != [] && hist[|hist| - 1] == Done(DoneMessage(w.ended[m].run))
            && forall k :: 0 <= k < |hist| - 1 ==> !hist[k].Done?
  {
    hide RunsInv, LateInv, RequestsInv, SubscribersInv, TextOf, Sound;
    assert EndedOk(w, m);
    var r := w.ended[m].run;
    var before := r.(hist := r.hist[..|r.hist| - 1]);
    SoundHasNoDone(before);
    assert forall k :: 0 <= k < |before.hist| ==> before.hist[k] == r.hist[k];
  }

  /** A registered queue of an ended run got every event since its subscription, `done` as the last
      and only one of its kind, after a first event that shows exactly the texts of that moment. */
  lemma EverySubscriberGetsDone(actions: seq<Action>, s: SubscriberId)
    requires Possible(EMPTY, actions)
    ensures var w := Exec(EMPTY, actions);
            s in w.subscribers && w.subscribers[s].registered
            && !Live(w, w.subscribers[s].conversation, w.subscribers[s].message) ==>
              var x := w.subscribers[s];
              && x.message in w.ended
              && GotAll(x, w.ended[x.message].run.hist)
  {
    EmptyInv();
    ExecInv(EMPTY, actions);
    hide Possible, Exec;
    var w := Exec(EMPTY, actions);
    if s in w.subscribers && w.subscribers[s].registered
        && !Live(w, w.subscribers[s].conversation, w.subscribers[s].message) {
      SubscriberGotAll(w, s);
    }
  }

  /** The whole history of a run reached this subscriber: what came before it as one exact snapshot, the
      rest event by event up to `done`. */
  ghost predicate GotAll(x: Subscriber, hist: seq<Payload>) {
    && x.from < |hist| && x.put == hist[x.from..]
    && x.put[|x.put| - 1].Done? && (forall k :: 0 <= k < |x.put| - 1 ==> !x.put[k].Done?)
    && (match x.first
        case None => x.from == 0
        case Some(e) => e == Snapshot(TextOf(Reasoning, hist[..x.from]), TextOf(Content, hist[..x.from])))
  }

  lemma SubscriberGotAll(w: World, s: SubscriberId)
    requires Inv(w) && s in w.subscribers && w.subscribers[s].registered
    requires !Live(w, w.subscribers[s].conversation, w.subscribers[s].message)
    ensures w.subscribers[s].message in w.ended
    ensures GotAll(w.subscribers[s], w.ended[w.subscribers[s].message].run.hist)
  {
    hide Inv, TextOf, DoneMessage;
    InvSubscriber(w, s);
    DoneComesLast(w, w.subscribers[s].message);
    HeardAll(w.subscribers[s], w.ended[w.subscribers[s].message].run.hist);
  }

  lemma InvSubscriber(w: World, s: SubscriberId)
    requires Inv(w) && s in w.subscribers
    ensures SubscriberOk(w, s)
  {
  }

  lemma HeardAll(x: Subscriber, hist: seq<Payload>)
    requires x.from < |hist| && x.put == hist[x.from..] && hist[|hist| - 1].Done?
    requires forall k :: 0 <= k < |hist| - 1 ==> !hist[k].Done?
    requires x.first.None? ==> x.from == 0
    requires x.first.Some? ==>
               x.first.value == Snapshot(TextOf(Reasoning, hist[..x.from]), TextOf(Content, hist[..x.from]))
    ensures GotAll(x, hist)
  {
    hide TextOf;
  }

  // ---------- stops ----------

  /** The run of message `m` at `c` is the same run before and after a step. */
  ghost predicate GoesOn(w: World, v: World, c: ConversationId) {
    Runs(w, c) && Runs(v, c) && RunAt(v, c).message == RunAt(w, c).message
  }

  /** Only a stop that finds the streaming not over makes a run end as stopped: the mark is set by
      exactly such a stop, never taken back, and decides the status of every run that ended. */
  lemma OnlyAStopStops(w: World, a: Action, c: ConversationId)
    requires Inv(w) && Enabled(w, a) && GoesOn(w, Step(w, a), c)
    ensures var r, next := RunAt(w, c), RunAt(Step(w, a), c);
            next.early == (r.early || (a == Stop(r.owner, c) && BeforeEnd(r.phase)))
  {
    hide Inv, RunOk, Sound, RunsInv, RequestsInv, Step;
    InvRun(w, c);
    if !OwnStep(a, c) && !a.Stop? && !a.Restart? {
      InvRequests(w);
      Untouched(w, a, c);
    } else {
      OwnStepsMark(w, a, c);
    }
  }

  lemma InvRequests(w: World)
    requires Inv(w)
    ensures RequestsInv(w)
  {
  }

  lemma OwnStepsMark(w: World, a: Action, c: ConversationId)
    requires Runs(w, c) && RunOk(w, c) && Enabled(w, a) && GoesOn(w, Step(w, a), c)
    requires OwnStep(a, c) || a.Stop? || a.Restart?
    ensures var r, next := RunAt(w, c), RunAt(Step(w, a), c);
            next.early == (r.early || (a == Stop(r.owner, c) && BeforeEnd(r.phase)))
  {
    hide Deliver, Apply, TextOf;
    if IsTask(a) {
      TaskStepsMark(w, a);
    }
    hide Next;
  }

  lemma TaskStepsMark(w: World, a: Action)
    requires IsTask(a) && Enabled(w, a)
    ensures Next(w, a).early == RunAt(w, a.conversation).early
  {
    hide TextOf;
  }

  lemma EndedAsItWasStopped(actions: seq<Action>, m: MessageId)
    requires Possible(EMPTY, actions) && m in Exec(EMPTY, actions).ended
    ensures var e := Exec(EMPTY, actions).ended[m];
            && (e.verdict.status == Stopped <==> e.run.early)
            && (e.verdict.status == Error <==> e.verdict.error.Some?)
            && e.verdict.status != InProgress
  {
    EmptyInv();
    ExecInv(EMPTY, actions);
    hide RunsInv, LateInv, RequestsInv, SubscribersInv, TextOf, Possible, Exec;
    assert EndedOk(Exec(EMPTY, actions), m);
  }

  /** The steps of a run's own task, and of the thread that it awaits. */
  predicate OwnStep(a: Action, c: ConversationId) {
    (IsTask(a) || a.TaskFinishes? || a.AwaitedEnds?) && a.conversation == c
  }

  /** Nothing else touches the run, but for a stop or the end of the process. */
  lemma Untouched(w: World, a: Action, c: ConversationId)
    requires RequestsInv(w) && Enabled(w, a) && Runs(w, c)
    requires !OwnStep(a, c) && !a.Stop? && !a.Restart?
    ensures var v := Step(w, a);
            && Runs(v, c) && RunAt(v, c) == RunAt(w, c)
            && (c in v.awaited <==> c in w.awaited) && (c in w.awaited ==> v.awaited[c] == w.awaited[c])
  {
    hide Step, RequestsInv;
    if a.Launch? || a.GiveUp? {
      RequestLeaves(w, a, c);
    } else if IsTask(a) || a.TaskFinishes? || a.AwaitedEnds? {
      OtherRunLeaves(w, a, c);
    } else {
      RestLeaves(w, a, c);
    }
  }

  lemma RequestLeaves(w: World, a: Action, c: ConversationId)
    requires RequestsInv(w) && Enabled(w, a) && Runs(w, c) && (a.Launch? || a.GiveUp?)
    ensures var v := Step(w, a); Runs(v, c) && RunAt(v, c) == RunAt(w, c) && v.awaited == w.awaited
  {
    assert RequestOk(w, a.request);
  }

  lemma OtherRunLeaves(w: World, a: Action, c: ConversationId)
    requires Enabled(w, a) && Runs(w, c) && (IsTask(a) || a.TaskFinishes? || a.AwaitedEnds?) && a.conversation != c
    ensures var v := Step(w, a);
            && Runs(v, c) && RunAt(v, c) == RunAt(w, c)
            && (c in v.awaited <==> c in w.awaited) && (c in w.awaited ==> v.awaited[c] == w.awaited[c])
  {
    hide Deliver, Apply, OnDelta, EndStream, FailStream, CancelArrives, StopRun, Finish, DoneMessage;
  }

  lemma RestLeaves(w: World, a: Action, c: ConversationId)
    requires Enabled(w, a) && Runs(w, c) && !a.Launch? && !a.GiveUp? && !IsTask(a)
    requires !a.TaskFinishes? && !a.AwaitedEnds? && !a.Stop? && !a.Restart?
    ensures var v := Step(w, a); Runs(v, c) && RunAt(v, c) == RunAt(w, c) && v.awaited == w.awaited
  {
    hide Deliver, Apply, OnDelta, EndStream, FailStream, CancelArrives, StopRun, Finish, DoneMessage;
  }

  /** The final save is attempted once: a saving run keeps texts, status and error until it ends,
      and ends only by publishing them, or dies with the process. */
  lemma SavingIsFinal(w: World, a: Action, c: ConversationId)
    requires Inv(w) && Enabled(w, a) && Runs(w, c) && RunAt(w, c).phase.Saving?
    ensures var r, v := RunAt(w, c), Step(w, a);
            || a.Restart?
            || (a == TaskFinishes(c) && c !in v.registry && r.message in v.ended
                && v.ended[r.message].run.hist == r.hist + [Done(DoneMessage(r))])
            || (GoesOn(w, v, c) && RunAt(v, c).phase == r.phase && RunAt(v, c).hist == r.hist
                && DoneMessage(RunAt(v, c)) == DoneMessage(r)
                && c in w.awaited && c in v.awaited
                && (v.awaited[c] == w.awaited[c] || (w.awaited[c].Pending? && a.AwaitedEnds?)))
  {
    InvRun(w, c);
    hide Inv, RunOk, Step, DoneMessage;
    if !OwnStep(a, c) && !a.Stop? && !a.Restart? {
      UntouchedInv(w, a, c);
    } else {
      SavingSteps(w, a, c);
    }
  }

  lemma UntouchedInv(w: World, a: Action, c: ConversationId)
    requires Inv(w) && Enabled(w, a) && Runs(w, c) && RunAt(w, c).phase.Saving?
    requires !OwnStep(a, c) && !a.Stop? && !a.Restart?
    ensures var v := Step(w, a);
            && Runs(v, c) && RunAt(v, c) == RunAt(w, c)
                && c in w.awaited && c in v.awaited && v.awaited[c] == w.awaited[c]
  {
    InvRun(w, c);
    hide RunsInv, LateInv, EndedInv, SubscribersInv;
    Untouched(w, a, c);
  }

  lemma SavingSteps(w: World, a: Action, c: ConversationId)
    requires Runs(w, c) && RunOk(w, c) && Enabled(w, a) && RunAt(w, c).phase.Saving?
    requires OwnStep(a, c) || a.Stop? || a.Restart?
    ensures var r, v := RunAt(w, c), Step(w, a);
            || a.Restart?
            || (a == TaskFinishes(c) && c !in v.registry && r.message in v.ended
                && v.ended[r.message].run.hist == r.hist + [Done(DoneMessage(r))])
            || (GoesOn(w, v, c) && RunAt(v, c).phase == r.phase && RunAt(v, c).hist == r.hist
                && DoneMessage(RunAt(v, c)) == DoneMessage(r)
                && c in w.awaited && c in v.awaited
                && (v.awaited[c] == w.awaited[c] || (w.awaited[c].Pending? && a.AwaitedEnds?)))
  {
    NoTaskStep(w, a, c);
    hide Deliver, Apply, TextOf, Sound, Next, Advance;
  }

  lemma NoTaskStep(w: World, a: Action, c: ConversationId)
    requires Runs(w, c) && RunOk(w, c) && Enabled(w, a) && RunAt(w, c).phase.Saving?
    ensures IsTask(a) ==> a.conversation != c
  {
    hide TextOf;
  }

  /** How many of its own steps a run has left once it was stopped. */
  function StepsLeft(w: World, c: ConversationId): nat {
    if !Runs(w, c) then 0
    else
      match RunAt(w, c).phase
      case Created => 3
      case Streaming => 3
      case Flushing => if c in w.awaited && w.awaited[c].Pending? then 4 else 3
      case Saving(_, _) => if c in w.awaited && w.awaited[c].Pending? then 2 else 1
  }

  /** A stopped run can always go on ... */
  lemma StoppedGoesOn(w: World, c: ConversationId)
    requires Inv(w) && Runs(w, c) && RunAt(w, c).stopped
    ensures exists a :: OwnStep(a, c) && Enabled(w, a)
  {
    hide LateInv, EndedInv, RequestsInv, SubscribersInv, TextOf;
    assert RunOk(w, c);
    var r := RunAt(w, c);
    var a :=
      if r.phase.Created? then TaskBegins(c)
      else if InStream(r.phase) then TaskCancelled(c)
      else if w.awaited[c].Pending? then AwaitedEnds(c, true)
      else TaskFinishes(c);
    assert OwnStep(a, c) && Enabled(w, a);
  }

  /** ... and every own step brings its end nearer, which is at most four of them away. */
  lemma StopIsBounded(w: World, c: ConversationId, a: Action)
    requires Inv(w) && Runs(w, c) && RunAt(w, c).stopped
    requires OwnStep(a, c) && Enabled(w, a)
    ensures StepsLeft(Step(w, a), c) < StepsLeft(w, c) <= 4
  {
    InvRun(w, c);
    hide Inv, Step;
    OwnStepCounts(w, c, a);
  }

  lemma OwnStepCounts(w: World, c: ConversationId, a: Action)
    requires Runs(w, c) && RunOk(w, c) && RunAt(w, c).stopped
    requires OwnStep(a, c) && Enabled(w, a)
    ensures StepsLeft(Step(w, a), c) < StepsLeft(w, c) <= 4
  {
    hide Deliver, Apply, TextOf, Advance;
    if IsTask(a) {
      TaskStepCounts(w, c, a);
    }
  }

  lemma TaskStepCounts(w: World, c: ConversationId, a: Action)
    requires Runs(w, c) && RunOk(w, c) && RunAt(w, c).stopped
    requires IsTask(a) && a.conversation == c && Enabled(w, a)
    ensures StepsLeft(Step(w, a), c) < StepsLeft(w, c) <= 4
  {
    hide Deliver, Apply, TextOf;
    assert Step(w, a) == Advance(w, c, Next(w, a));
    hide Step;
    assert a.TaskBegins? || a.TaskCancelled?;
  }

  // ---------- reservations ----------

  /** While a request holds a conversation or a run lives there, no other request gets it. */
  lemma OneHolder(actions: seq<Action>, r: RequestId, c: ConversationId)
    requires Possible(EMPTY, actions)
    requires var w := Exec(EMPTY, actions); Enabled(w, Arrive(r, c))
    ensures var w := Exec(EMPTY, actions);
            Step(w, Arrive(r, c)).requests[r] == Refused
            <==> Runs(w, c) || exists q :: HoldsFor(w, q, c)
    ensures var w := Exec(EMPTY, actions);
            forall p, q :: HoldsFor(w, p, c) && HoldsFor(w, q, c) ==> p == q && !Runs(w, c)
  {
    EmptyInv();
    ExecInv(EMPTY, actions);
    hide RunsInv, LateInv, EndedInv, SubscribersInv, TextOf, Possible, Exec;
    var w := Exec(EMPTY, actions);
    assert forall q :: HoldsFor(w, q, c) ==> RequestOk(w, q);
  }

  /** No step of anyone else frees a held conversation or ends the hold. */
  lemma HoldIsKept(w: World, a: Action, r: RequestId, c: ConversationId)
    requires Inv(w) && Enabled(w, a) && HoldsFor(w, r, c)
    ensures HoldsFor(Step(w, a), r, c) || a == GiveUp(r) || (a.Launch? && a.request == r) || a.Restart?
    ensures HoldsFor(Step(w, a), r, c) ==> c in Step(w, a).registry && Step(w, a).registry[c].None?
  {
    hide Inv, RunsInv, LateInv, EndedInv, SubscribersInv, RequestsInv, Step, HoldsFor;
    StepInv(w, a);
    HolderGoesOn(w, a, r, c);
    if HoldsFor(Step(w, a), r, c) {
      HeldIsReserved(Step(w, a), r, c);
    }
  }

  lemma HolderGoesOn(w: World, a: Action, r: RequestId, c: ConversationId)
    requires Enabled(w, a) && HoldsFor(w, r, c)
    ensures HoldsFor(Step(w, a), r, c) || a == GiveUp(r) || (a.Launch? && a.request == r) || a.Restart?
  {
    hide TextOf, Deliver, Apply;
  }

  lemma HeldIsReserved(w: World, r: RequestId, c: ConversationId)
    requires Inv(w) && HoldsFor(w, r, c)
    ensures c in w.registry && w.registry[c].None?
  {
    hide RunsInv, LateInv, EndedInv, SubscribersInv;
    assert RequestOk(w, r);
  }
}
