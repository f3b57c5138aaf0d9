/** What each step of the service does, field by field: to the stored messages, to requests, runs and
    subscribers; and when it may happen. */
module ChatSteps {
  import opened Text
  import opened ReplyRun
  import opened ChatWorld
  import opened ChatSafety
  import opened ChatRuns

  /** A thread that commits writes its texts, and with the final save its outcome, into the row of its message
      as long as that is there; one that fails writes nothing. No other row changes. */
  ghost predicate Stores(before: map<MessageId, Row>, after: map<MessageId, Row>, x: Write, done: bool) {
    && after.Keys == before.Keys
    && (forall m :: m in before && (m != x.message || !done) ==> after[m] == before[m])
    && (done && x.message in before ==>
          var was, row := before[x.message], after[x.message];
          && row.content == x.content && row.reasoning == x.reasoning
          && row.conversation == was.conversation && row.role == was.role
          && row.status == (if x.verdict.Some? then x.verdict.value.status else was.status)
          && row.error == (if x.verdict.Some? then x.verdict.value.error else was.error))
  }

  lemma ThreadStores(w: World, a: Action)
    requires Enabled(w, a) && (a.AwaitedEnds? || a.LateEnds?)
    ensures var v := Step(w, a);
      && (a.AwaitedEnds? ==>
            Stores(w.rows, v.rows, w.awaited[a.conversation].write, a.done)
            && v.awaited == w.awaited[a.conversation := Over(a.done)] && v.late == w.late)
      && (a.LateEnds? ==>
            Stores(w.rows, v.rows, a.write, a.done) && v.late == w.late - {a.write} && v.awaited == w.awaited)
      && v.registry == w.registry && v.subscribers == w.subscribers && v.requests == w.requests
      && v.ended == w.ended && v.used == w.used
  {
  }

  /** A periodic flush stores exactly the texts of the run at that moment, and leaves its status alone. */
  lemma FlushStoresTexts(w: World, c: ConversationId)
    requires Inv(w) && Runs(w, c) && RunAt(w, c).phase.Flushing? && c in w.awaited && w.awaited[c].Pending?
    ensures var r := RunAt(w, c);
            var rows := Step(w, AwaitedEnds(c, true)).rows;
            && r.message in w.rows && r.message in rows
            && rows[r.message].content == r.content
            && rows[r.message].reasoning == (if r.reasoning == "" then None else Some(r.reasoning))
            && rows[r.message].status == w.rows[r.message].status && rows[r.message].error == w.rows[r.message].error
  {
    hide Sound, LateInv, EndedInv, RequestsInv, SubscribersInv;
    assert RunOk(w, c) && AwaitedOk(w, c);
  }

  /** The final save stores the texts and the outcome that the run ends with. */
  lemma SaveStoresOutcome(w: World, c: ConversationId)
    requires Inv(w) && Runs(w, c) && RunAt(w, c).phase.Saving? && c in w.awaited && w.awaited[c].Pending?
    ensures var r := RunAt(w, c);
            var rows := Step(w, AwaitedEnds(c, true)).rows;
            && r.message in w.rows && r.message in rows
            && rows[r.message].content == r.content
            && rows[r.message].reasoning == (if r.reasoning == "" then None else Some(r.reasoning))
            && rows[r.message].status == r.phase.status && rows[r.message].error == r.phase.error
  {
    hide Sound, LateInv, EndedInv, RequestsInv, SubscribersInv;
    assert RunOk(w, c) && AwaitedOk(w, c);
  }

  /** What the requests write: rows deleted, a question added or edited, a blank reply added. */
  lemma RequestWrites(w: World, a: Action)
    requires Enabled(w, a) && (a.DeleteRows? || a.AddUser? || a.EditUser? || a.AddAssistant?)
    ensures var v := Step(w, a);
      && (a.DeleteRows? ==>
            && (forall m :: m in v.rows <==> m in w.rows && m !in a.messages)
            && (forall m :: m in v.rows ==> v.rows[m] == w.rows[m]))
      && (!a.DeleteRows? ==>
            && v.rows.Keys == w.rows.Keys + {a.message}
            && (forall m :: m in w.rows && m != a.message ==> v.rows[m] == w.rows[m]))
      && (a.AddUser? ==>
            v.rows[a.message] == Row(w.requests[a.request].conversation, User, a.text, None, Complete, None))
      && (a.EditUser? ==> v.rows[a.message] == w.rows[a.message].(content := a.text))
      && (a.AddAssistant? ==>
            && v.rows[a.message] == Row(w.requests[a.request].conversation, Assistant, "", None, InProgress, None)
            && v.requests[a.request] == Holding(w.requests[a.request].conversation, Some(a.message)))
      && v.registry == w.registry && v.subscribers == w.subscribers && v.ended == w.ended
  {
  }

  /** A restart leaves nothing running; its sweep, unless it fails, marks what was in progress as stopped and
      touches nothing else. */
  lemma RestartIsExact(w: World, swept: bool)
    ensures var v := Step(w, Restart(swept));
      && v.registry == map[] && v.requests == map[] && v.awaited == map[] && v.late == {} && v.subscribers == map[]
      && v.ended == w.ended && v.used == w.used && v.rows.Keys == w.rows.Keys
      && forall m :: m in w.rows ==>
           && v.rows[m].conversation == w.rows[m].conversation && v.rows[m].role == w.rows[m].role
           && v.rows[m].content == w.rows[m].content && v.rows[m].reasoning == w.rows[m].reasoning
           && v.rows[m].error == w.rows[m].error
           && v.rows[m].status == if swept && w.rows[m].status == InProgress then Stopped else w.rows[m].status
  {
  }

  /** No other step writes a row. */
  lemma OthersWriteNothing(w: World, a: Action)
    requires Enabled(w, a) && !a.AwaitedEnds? && !a.LateEnds? && !a.Restart?
    requires !a.DeleteRows? && !a.AddUser? && !a.EditUser? && !a.AddAssistant?
    ensures Step(w, a).rows == w.rows
  {
    hide Next, Deliver, Finish, DoneMessage, StopRun;
    if IsTask(a) {
      TaskAdvances(w, a);
    }
  }

  // ---------- steps of a run ----------

  /** Where the task is after a step of it, what its texts are then, and what it published. */
  lemma TaskGoesTo(w: World, a: Action)
    requires Enabled(w, a) && IsTask(a)
    ensures Step(w, a).registry == w.registry[a.conversation := Some(Next(w, a))]
    ensures var r, next := RunAt(w, a.conversation), Next(w, a);
      && next.owner == r.owner && next.message == r.message && next.stopped == r.stopped
      && next.phase == (match a
                        case TaskBegins(_) => if r.stopped then Saving(Stopped, None) else Streaming
                        case TaskProgress(_, _, _) => Streaming
                        case TaskDelta(_, _, _, flush) => if flush then Flushing else Streaming
                        case TaskResumes(_) => Streaming
                        case TaskStreamed(_) => Saving(Complete, None)
                        case TaskFails(_, reason) => Saving(Error, Some(reason))
                        case TaskCancelled(_) => Saving(Stopped, None))
      && next.content == r.content + (if a.TaskDelta? && a.kind == Content then a.text else "")
      && next.reasoning == r.reasoning + (if a.TaskDelta? && a.kind == Reasoning then a.text else "")
      && next.hist == r.hist + (match a
                                case TaskProgress(_, processed, total) => [Progress(processed, total)]
                                case TaskDelta(_, kind, text, _) => [Delta(kind, text)]
                                case TaskFails(_, reason) => if reason == "" then [] else [Payload.Failed(reason)]
                                case _ => [])
  {
    hide TextOf;
    TaskAdvances(w, a);
    var r := RunAt(w, a.conversation);
    assert r.content + "" == r.content && r.reasoning + "" == r.reasoning && r.hist + [] == r.hist;
  }

  /** Which thread is awaited then: that of a flush with the texts, or that of the final save with the outcome too; a
      flush whose thread is still running when the task goes on to the save is left to itself. */
  lemma TaskAwaits(w: World, a: Action)
    requires Enabled(w, a) && IsTask(a)
    ensures var c, v := a.conversation, Step(w, a);
      var next := RunAt(v, c);
      var thought := if next.reasoning == "" then None else Some(next.reasoning);
      && v.awaited == (match next.phase
                       case Flushing => w.awaited[c := Pending(Write(c, next.message, next.content, thought, None))]
                       case Saving(status, error) =>
                         w.awaited[c := Pending(Write(c, next.message, next.content, thought,
                                                      Some(Verdict(status, error))))]
                       case _ => w.awaited - {c})
      && v.late == (if next.phase.Saving? && c in w.awaited && w.awaited[c].Pending?
                    then w.late + {w.awaited[c].write} else w.late)
  {
    hide TextOf, Deliver, Next;
    TaskAdvances(w, a);
  }

  // ---------- requests, runs and subscribers ----------

  /** A request holds the conversation that it found free, or is refused; it notes its blank reply; and it ends
      by giving up or by starting the run. */
  lemma RequestsAfter(w: World, a: Action)
    requires Enabled(w, a)
    ensures var before, after := w.requests, Step(w, a).requests;
      if a.Arrive? then
        after == before[a.request := if a.conversation in w.registry then Refused else Holding(a.conversation, None)]
      else if a.AddAssistant? then
        after == before[a.request := Holding(before[a.request].conversation, Some(a.message))]
      else if a.GiveUp? then after == before[a.request := Request.Failed]
      else if a.Launch? then after == before[a.request := Replying]
      else if a.Restart? then after == map[]
      else after == before
  {
    hide Next, Advance, Deliver, Apply, Finish, DoneMessage, StopRun;
    if IsTask(a) {
      TaskAdvances(w, a);
    }
  }

  /** What is registered: a reservation by its request, until that gives up or starts the run, which is a new one
      without a text. */
  lemma RequestsRegister(w: World, a: Action)
    requires Enabled(w, a) && (a.Arrive? || a.GiveUp? || a.Launch?)
    ensures var before, after := w.registry, Step(w, a).registry;
      if a.Arrive? then
        after == if a.conversation in before then before else before[a.conversation := None]
      else if a.GiveUp? then
        var c := w.requests[a.request].conversation;
        after == if c in before && before[c] == None then before - {c} else before
      else
        var Holding(c, row) := w.requests[a.request];
        after == before[c := Some(Run(a.owner, row.value, "", "", false, false, Created, false, false, []))]
  {
  }

  /** A stop by its owner marks a run, and cancels a stream; its end takes it out, and a restart all of them; no
      other step but its own changes what is registered. */
  lemma RegistryAfter(w: World, a: Action)
    requires Enabled(w, a) && !IsTask(a) && !a.Arrive? && !a.GiveUp? && !a.Launch?
    ensures var before, after := w.registry, Step(w, a).registry;
      if a.Stop? then
        var c := a.conversation;
        if Runs(w, c) && RunAt(w, c).owner == a.owner && !RunAt(w, c).stopped then
          var r := RunAt(w, c);
          after == before[c := Some(r.(stopped := true, cancelling := r.cancelling || r.cancellable,
                                       early := !r.phase.Saving?))]
        else after == before
      else if a.TaskFinishes? then after == before - {a.conversation}
      else if a.Restart? then after == map[]
      else after == before
  {
    hide Apply, Deliver, DoneMessage;
  }

  /** A subscriber comes with the run it starts, or later with the texts of that moment as its first event; `done`
      goes to the registered ones of its run; and leaving only ends that. */
  lemma SubscribersAfter(w: World, a: Action, s: SubscriberId)
    requires Enabled(w, a) && !IsTask(a)
    ensures var before, after := w.subscribers, Step(w, a).subscribers;
      if s in before then
        var x := before[s];
        var done := a.TaskFinishes? && x.registered && x.conversation == a.conversation
                    && Live(w, a.conversation, x.message);
        && (s in after <==> !a.Restart?)
        && (s in after ==>
              after[s] == if done then x.(put := x.put + [Done(DoneMessage(RunAt(w, a.conversation)))])
                          else if a.Leave? && a.subscriber == s then x.(registered := false) else x)
      else if a.Launch? && a.subscriber == s then
        var Holding(c, row) := w.requests[a.request];
        s in after && after[s] == Subscriber(c, row.value, 0, None, [], true)
      else if a.Attach? && a.subscriber == s && Runs(w, a.conversation)
              && RunAt(w, a.conversation).owner == a.owner then
        var r := RunAt(w, a.conversation);
        s in after && after[s] == Subscriber(a.conversation, r.message, |r.hist|,
                                             Some(Snapshot(r.reasoning, r.content)), [], true)
      else s !in after
  {
    hide Apply, DoneMessage;
  }

  // ---------- when it may happen ----------

  /** A request writes while it holds its conversation: rows of that one, before it has added its reply; and it
      starts the run once it has. Subscribers come and go, and stops and restarts come, at any time. */
  lemma RequestsMay(w: World, r: RequestId, c: ConversationId, m: MessageId, ms: set<MessageId>, text: string,
                    owner: string, s: SubscriberId)
    ensures var holds := r in w.requests && w.requests[r].Holding?;
            var early := holds && w.requests[r].row.None?;
            && (Enabled(w, Arrive(r, c)) <==> r !in w.requests)
            && (Enabled(w, DeleteRows(r, ms)) <==>
                  early && forall x :: x in ms ==>
                    x in w.rows && w.rows[x].conversation == w.requests[r].conversation)
            && (Enabled(w, AddUser(r, m, text)) <==> early && m !in w.used)
            && (Enabled(w, AddAssistant(r, m)) <==> early && m !in w.used)
            && (Enabled(w, EditUser(r, m, text)) <==>
                  holds && m in w.rows && w.rows[m].conversation == w.requests[r].conversation
                  && w.rows[m].role == User)
            && (Enabled(w, GiveUp(r)) <==> holds)
            && (Enabled(w, Launch(r, owner, s)) <==> holds && w.requests[r].row.Some? && s !in w.subscribers)
            && (Enabled(w, Attach(s, owner, c)) <==> s !in w.subscribers)
            && (Enabled(w, Leave(s)) <==> s in w.subscribers)
            && Enabled(w, Stop(owner, c)) && forall swept :: Enabled(w, Restart(swept))
  {
  }

  /** A task takes from its stream while it is there and no cancel is on its way. */
  lemma StreamMay(w: World, c: ConversationId, p: nat, t: nat, kind: Kind, text: string, flush: bool)
    ensures var streams := c in w.registry && w.registry[c].Some?
                           && w.registry[c].value.phase.Streaming? && !w.registry[c].value.cancelling;
            && (Enabled(w, TaskProgress(c, p, t)) <==> streams)
            && (Enabled(w, TaskDelta(c, kind, text, flush)) <==> streams)
            && (Enabled(w, TaskStreamed(c)) <==> streams)
            && (Enabled(w, TaskFails(c, text)) <==> streams)
  {
  }

  /** It begins once; a cancel on its way reaches it; after a flush it goes on when that thread is over, and it ends
      when that of the final save is. */
  lemma TaskMay(w: World, c: ConversationId, done: bool)
    ensures var runs := c in w.registry && w.registry[c].Some?;
            var over := c in w.awaited && w.awaited[c].Over?;
            && (Enabled(w, TaskBegins(c)) <==> runs && w.registry[c].value.phase.Created?)
            && (Enabled(w, TaskResumes(c)) <==>
                  runs && w.registry[c].value.phase.Flushing? && !w.registry[c].value.cancelling && over)
            && (Enabled(w, TaskCancelled(c)) <==> runs && w.registry[c].value.cancelling)
            && (Enabled(w, TaskFinishes(c)) <==> runs && w.registry[c].value.phase.Saving? && over)
            && (Enabled(w, AwaitedEnds(c, done)) <==> c in w.awaited && w.awaited[c].Pending?)
            && forall x :: Enabled(w, LateEnds(x, done)) <==> x in w.late
  {
  }
}
