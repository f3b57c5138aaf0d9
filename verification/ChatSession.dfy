/** The page under all orders of user actions, stream events and late answers: what fences off
    everything that an earlier action began, and the one gap in that fence. */
module ChatSession {
  import opened Text
  import opened ReplyRun
  import opened ChatView
  import opened ChatStore

  type TaskId = nat

  /** What a followed stream belongs to. */
  datatype Purpose = Reattach(id: ConversationId, openSeq: nat) | Reply(to: Option<ConversationId>)

  datatype Fetch = ForOpen | ForReattach | ForResync

  /** A suspended async function: awaiting the next event of a stream (`count` were applied), about
      to resume after `follow` returned, or awaiting a conversation fetch. `action` numbers the user
      action that it serves. */
  datatype Task =
    | Following(action: nat, mine: nat, count: nat, purpose: Purpose)
    | Returned(action: nat, mine: nat, count: nat, purpose: Purpose)
    | Fetching(action: nat, id: ConversationId, openSeq: nat, kind: Fetch)
    | Over(action: nat)

  /** `latest` is the number of the last user action, `nextCtrl` the next controller. */
  datatype Session = Session(store: Store, tasks: map<TaskId, Task>, latest: nat, nextCtrl: nat)

  datatype Step =
    | Open(task: TaskId, id: Option<ConversationId>)
    | Send(task: TaskId, replaceFrom: Option<MessageId>)
    | Regenerate(task: TaskId)
    | Leave
    | Event(task: TaskId, event: Payload)
    | StreamOver(task: TaskId, failure: Option<string>)
    | Resume(task: TaskId)
    | Lands(task: TaskId, answer: Conversation, next: TaskId)
    | FetchFails(task: TaskId, reason: string)

  predicate Enabled(s: Session, x: Step) {
    match x
    case Open(t, _) => t !in s.tasks
    case Send(t, _) => t !in s.tasks
    case Regenerate(t) => t !in s.tasks && s.store.current.Some?
    case Leave => true
    case Event(t, _) => t in s.tasks && s.tasks[t].Following?
    case StreamOver(t, _) => t in s.tasks && s.tasks[t].Following?
    case Resume(t) => t in s.tasks && s.tasks[t].Returned?
    case Lands(t, c, n) => t in s.tasks && s.tasks[t].Fetching? && c.id == s.tasks[t].id && n !in s.tasks
    case FetchFails(t, _) => t in s.tasks && s.tasks[t].Fetching?
  }

  predicate UserAction(x: Step) {
    x.Open? || x.Send? || x.Regenerate? || x.Leave?
  }

  /** Resuming after `follow`: whether to match the server again, and under which sequence number. */
  function AfterFollow(s: Session, t: Task): Task
    requires t.Returned?
  {
    match t.purpose
    case Reattach(id, openSeq) =>
      if t.count == 0 && openSeq == s.store.openSeq && s.store.ctrl.None? && s.store.error.None?
      then Fetching(t.action, id, openSeq, ForReattach) else Over(t.action)
    case Reply(id) =>
      if id.None? || t.count > 0 || t.mine in s.store.aborted || s.store.ctrl.Some? then Over(t.action)
      else Fetching(t.action, id.value, s.store.openSeq, ForResync)
  }

  function Landed(s: Session, t: TaskId, answer: Conversation, next: TaskId): Session
    requires t in s.tasks && s.tasks[t].Fetching?
  {
    var task := s.tasks[t];
    var opening := task.kind == ForOpen;
    var store := Landing(s.store, task.openSeq, answer, opening, s.nextCtrl);
    var done := s.(store := store, tasks := s.tasks[t := Over(task.action)]);
    if task.openSeq == s.store.openSeq && opening && answer.streaming then
      done.(nextCtrl := s.nextCtrl + 1,
            tasks := done.tasks[next := Following(task.action, s.nextCtrl, 0, Reattach(answer.id, store.openSeq))])
    else done
  }

  function Run(s: Session, x: Step): Session
    requires Enabled(s, x)
  {
    var n := s.latest + 1;
    match x
    case Open(t, id) =>
      var store := Opened(s.store, id);
      s.(store := store, latest := n,
         tasks := s.tasks[t := if id.None? then Over(n) else Fetching(n, id.value, store.openSeq, ForOpen)])
    case Send(t, replaceFrom) =>
      var begun := Begun(s.store, s.nextCtrl);
      var store := if begun.current.Some? && replaceFrom.Some?
                   then begun.(current := Some(TrimFrom(begun.current.value, replaceFrom.value))) else begun;
      var id := if begun.current.Some? then Some(begun.current.value.id) else None;
      s.(store := store, latest := n, nextCtrl := s.nextCtrl + 1,
         tasks := s.tasks[t := Following(n, s.nextCtrl, 0, Reply(id))])
    case Regenerate(t) =>
      var c := s.store.current.value;
      s.(store := Begun(s.store, s.nextCtrl).(current := Some(TrimLast(c))), latest := n, nextCtrl := s.nextCtrl + 1,
         tasks := s.tasks[t := Following(n, s.nextCtrl, 0, Reply(Some(c.id)))])
    case Leave => s.(store := Aborted(s.store), latest := n)
    case Event(t, ev) =>
      var f := s.tasks[t];
      if s.store.ctrl != Some(f.mine) then s.(tasks := s.tasks[t := Returned(f.action, f.mine, f.count, f.purpose)])
      else s.(store := Show(s.store, ev), tasks := s.tasks[t := Following(f.action, f.mine, f.count + 1, f.purpose)])
    case StreamOver(t, failure) =>
      var f := s.tasks[t];
      s.(store := FollowDone(s.store, f.mine, failure),
         tasks := s.tasks[t := Returned(f.action, f.mine, f.count, f.purpose)])
    case Resume(t) => s.(tasks := s.tasks[t := AfterFollow(s, s.tasks[t])])
    case Lands(t, answer, next) => Landed(s, t, answer, next)
    case FetchFails(t, failure) =>
      var f := s.tasks[t];
      var mine := f.openSeq == s.store.openSeq;
      s.(store := if mine && f.kind != ForResync
                  then s.store.(error := Some(failure), loading := if f.kind == ForOpen then false else s.store.loading)
                  else s.store,
         tasks := s.tasks[t := Over(f.action)])
  }

  const START: Session := Session(Store(None, false, None, false, None, None, 0, {}), map[], 0, 0)

  // ---------- the fence ----------

  /** The guard by which `resync` lets an outdated conversation through: another action has been
      taken, but this reply's request was never aborted and no stream is being followed. */
  predicate Gap(s: Session, x: Step) {
    x.Resume? && x.task in s.tasks && s.tasks[x.task].Returned?
    && var t := s.tasks[x.task];
       && t.action < s.latest && t.purpose.Reply? && t.purpose.to.Some?
       && t.count == 0 && t.mine !in s.store.aborted && s.store.ctrl.None?
  }

  /** A step of something that an earlier action began. */
  predicate Stale(s: Session, x: Step) {
    !UserAction(x) && x.task in s.tasks && s.tasks[x.task].action < s.latest
  }

  ghost predicate TaskOk(s: Session, t: Task) {
    && t.action <= s.latest
    && (Follows(t) ==> t.mine < s.nextCtrl)
    && (t.Following? && s.store.ctrl == Some(t.mine) ==> t.action == s.latest)
    && (t.Fetching? ==>
          && t.openSeq <= s.store.openSeq
          && (t.kind != ForResync && t.action < s.latest ==> t.openSeq < s.store.openSeq))
    && (Follows(t) && t.purpose.Reattach? ==>
          t.purpose.openSeq <= s.store.openSeq && (t.action < s.latest ==> t.purpose.openSeq < s.store.openSeq))
  }

  /** Holds in every session: `streaming` shows a live controller, and neither an event, nor the end of
      a stream, nor a fetch that opened a conversation matches after a later action. */
  ghost predicate Sane(s: Session) {
    && (s.store.streaming ==> s.store.ctrl.Some?)
    && (s.store.ctrl.Some? ==> s.store.ctrl.value !in s.store.aborted && s.store.ctrl.value < s.nextCtrl)
    && (forall a :: a in s.store.aborted ==> a < s.nextCtrl)
    && (forall t :: t in s.tasks ==> TaskOk(s, s.tasks[t]))
    && (forall t, u :: t in s.tasks && u in s.tasks && t != u && Follows(s.tasks[t]) && Follows(s.tasks[u]) ==>
          s.tasks[t].mine != s.tasks[u].mine)
  }

  /** And no fetch that `resync` began for an earlier action matches either. */
  ghost predicate Fenced(s: Session) {
    Sane(s) && forall t :: t in s.tasks ==> ResyncOk(s, s.tasks[t])
  }

  predicate ResyncOk(s: Session, t: Task) {
    t.Fetching? && t.kind == ForResync && t.action < s.latest ==> t.openSeq < s.store.openSeq
  }

  predicate Follows(t: Task) {
    t.Following? || t.Returned?
  }

  lemma StartFenced()
    ensures Fenced(START)
  {
  }

  // ---------- what every step keeps ----------

  lemma RunSane(s: Session, x: Step)
    requires Sane(s) && Enabled(s, x)
    ensures Sane(Run(s, x))
  {
    if UserAction(x) {
      ActionSane(s, x);
    } else if x.Lands? {
      LandingSane(s, x);
    } else {
      TaskSane(s, x);
    }
  }

  lemma ActionSane(s: Session, x: Step)
    requires Sane(s) && Enabled(s, x) && UserAction(x)
    ensures Sane(Run(s, x))
  {
    hide FindFrom;
    var v := Run(s, x);
    forall t | t in v.tasks ensures TaskOk(v, v.tasks[t]) {
      assert t in s.tasks ==> TaskOk(s, s.tasks[t]);
    }
    hide TaskOk;
  }

  lemma LandingSane(s: Session, x: Step)
    requires Sane(s) && Enabled(s, x) && x.Lands?
    ensures Sane(Run(s, x))
  {
    var v := Landed(s, x.task, x.answer, x.next);
    assert Run(s, x) == v;
    hide Run;
    assert TaskOk(s, s.tasks[x.task]);
    forall t | t in v.tasks ensures TaskOk(v, v.tasks[t]) {
      assert t in s.tasks ==> TaskOk(s, s.tasks[t]);
    }
    hide TaskOk;
  }

  lemma TaskSane(s: Session, x: Step)
    requires Sane(s) && Enabled(s, x) && !UserAction(x) && !x.Lands?
    ensures Sane(Run(s, x))
  {
    hide Show;
    var v := Run(s, x);
    ShowKeeps(s.store, if x.Event? then x.event else Progress(0, 0));
    forall t | t in v.tasks ensures TaskOk(v, v.tasks[t]) {
      assert TaskOk(s, s.tasks[t]);
    }
    hide TaskOk;
  }

  /** The sequence number never goes down, and every action of the user makes it go up. */
  lemma SequenceGrows(s: Session, x: Step)
    requires Enabled(s, x)
    ensures s.store.openSeq <= Run(s, x).store.openSeq && s.latest <= Run(s, x).latest
    ensures UserAction(x) ==> s.store.openSeq < Run(s, x).store.openSeq && s.latest < Run(s, x).latest
  {
    hide FindFrom;
    ShowKeeps(s.store, if x.Event? then x.event else Progress(0, 0));
    hide Show;
  }

  lemma RunFenced(s: Session, x: Step)
    requires Fenced(s) && Enabled(s, x) && !Gap(s, x)
    ensures Fenced(Run(s, x))
  {
    RunSane(s, x);
    SequenceGrows(s, x);
    var v := Run(s, x);
    forall t | t in v.tasks ensures ResyncOk(v, v.tasks[t]) {
      if t in s.tasks {
        assert ResyncOk(s, s.tasks[t]) && TaskOk(s, s.tasks[t]);
        FetchesGoOn(s, x, t);
        if x.Resume? && x.task == t {
          ResumesFenced(s, x);
        }
      } else {
        NewTasks(s, x, t);
      }
    }
  }

  /** A fetch goes on as it is until it is over, and only a resuming task begins one to match again. */
  lemma FetchesGoOn(s: Session, x: Step, t: TaskId)
    requires Enabled(s, x) && t in s.tasks
    ensures t in Run(s, x).tasks && Run(s, x).tasks[t].action == s.tasks[t].action
    ensures Run(s, x).tasks[t].Fetching? && !(x.Resume? && x.task == t) ==> Run(s, x).tasks[t] == s.tasks[t]
    ensures s.tasks[t].Fetching? ==> Run(s, x).tasks[t] == s.tasks[t] || Run(s, x).tasks[t].Over?
    ensures s.tasks[t].Over? ==> Run(s, x).tasks[t].Over?
  {
    hide Show, FindFrom;
  }

  lemma NewTasks(s: Session, x: Step, t: TaskId)
    requires Enabled(s, x) && t in Run(s, x).tasks && t !in s.tasks
    ensures Run(s, x).tasks[t].Fetching? ==> Run(s, x).tasks[t].kind == ForOpen
  {
    hide Show, FindFrom;
  }

  lemma ResumesFenced(s: Session, x: Step)
    requires Sane(s) && Enabled(s, x) && x.Resume? && !Gap(s, x)
    ensures ResyncOk(Run(s, x), Run(s, x).tasks[x.task])
    ensures Stale(s, x) ==> Run(s, x).tasks[x.task].Over?
  {
    assert TaskOk(s, s.tasks[x.task]);
  }

  /** Showing an event touches neither controllers nor the sequence number, and never starts streaming. */
  lemma ShowKeeps(s: Store, e: Payload)
    ensures var t := Show(s, e);
            t.ctrl == s.ctrl && t.aborted == s.aborted && t.openSeq == s.openSeq && (t.streaming ==> s.streaming)
  {
  }

  /** In every session an event or the end of an earlier stream leaves the page as it is. */
  lemma EarlierStreamIsSilent(s: Session, x: Step)
    requires Sane(s) && Enabled(s, x) && Stale(s, x) && (x.Event? || x.StreamOver?)
    ensures Run(s, x).store == s.store
  {
    assert TaskOk(s, s.tasks[x.task]);
  }

  /** In a fenced one nothing that an earlier action began changes the page. */
  lemma StaleIsSilent(s: Session, x: Step)
    requires Fenced(s) && Enabled(s, x) && Stale(s, x)
    ensures Run(s, x).store == s.store
  {
    assert TaskOk(s, s.tasks[x.task]) && ResyncOk(s, s.tasks[x.task]);
  }

  // ---------- whole sessions ----------

  predicate Possible(s: Session, steps: seq<Step>)
    decreases |steps|
  {
    steps == [] || (Enabled(s, steps[0]) && Possible(Run(s, steps[0]), steps[1..]))
  }

  function Exec(s: Session, steps: seq<Step>): Session
    requires Possible(s, steps)
    decreases |steps|
  {
    if steps == [] then s else Exec(Run(s, steps[0]), steps[1..])
  }

  lemma {:induction false} ExecSane(s: Session, steps: seq<Step>)
    requires Sane(s) && Possible(s, steps)
    ensures Sane(Exec(s, steps))
    decreases |steps|
  {
    hide Sane, Run, Enabled;
    if steps != [] {
      RunSane(s, steps[0]);
      ExecSane(Run(s, steps[0]), steps[1..]);
    }
  }

  /** After every session whatsoever: `streaming` implies a live controller, and no event of an earlier
      stream, nor its end, changes the page. */
  lemma EverySessionIsSane(steps: seq<Step>, x: Step)
    requires Possible(START, steps) && Enabled(Exec(START, steps), x)
    ensures var s := Exec(START, steps);
            && (s.store.streaming ==> s.store.ctrl.Some? && s.store.ctrl.value !in s.store.aborted)
            && (Stale(s, x) && (x.Event? || x.StreamOver?) ==> Run(s, x).store == s.store)
  {
    StartFenced();
    hide Run, Enabled, Possible, Exec, Stale;
    ExecSane(START, steps);
    var s := Exec(START, steps);
    if Stale(s, x) && (x.Event? || x.StreamOver?) {
      EarlierStreamIsSilent(s, x);
    }
  }

  /** The answer to this fetch is out of date. */
  predicate Behind(s: Session, t: TaskId) {
    t in s.tasks && (s.tasks[t].Over? || (s.tasks[t].Fetching? && s.tasks[t].openSeq < s.store.openSeq))
  }

  lemma {:induction false} StaysBehind(s: Session, steps: seq<Step>, t: TaskId)
    requires Possible(s, steps) && Behind(s, t)
    ensures Behind(Exec(s, steps), t)
    decreases |steps|
  {
    if steps != [] {
      FetchesGoOn(s, steps[0], t);
      SequenceGrows(s, steps[0]);
      hide Enabled, Run;
      StaysBehind(Run(s, steps[0]), steps[1..], t);
    }
  }

  /** In every session, from any action of the user on: a fetch that was under way changes nothing,
      whenever after it and however it ends. */
  lemma EarlierFetchIsSilent(before: seq<Step>, action: Step, t: TaskId, later: seq<Step>, x: Step)
    requires Possible(START, before) && Enabled(Exec(START, before), action) && UserAction(action)
    requires t in Exec(START, before).tasks && Exec(START, before).tasks[t].Fetching?
    requires Possible(Run(Exec(START, before), action), later)
    requires Enabled(Exec(Run(Exec(START, before), action), later), x) && (x.Lands? || x.FetchFails?) && x.task == t
    ensures var s := Exec(Run(Exec(START, before), action), later); Run(s, x).store == s.store
  {
    StartFenced();
    var s0 := Exec(START, before);
    var s1 := Run(s0, action);
    ExecSane(START, before);
    assert TaskOk(s0, s0.tasks[t]);
    SequenceGrows(s0, action);
    FetchesGoOn(s0, action, t);
    StaysBehind(s1, later, t);
  }

  /** No task falls into the gap. */
  predicate NoGap(s: Session, steps: seq<Step>)
    requires Possible(s, steps)
    decreases |steps|
  {
    steps == [] || (!Gap(s, steps[0]) && NoGap(Run(s, steps[0]), steps[1..]))
  }

  /** The page only changes by the doing of the latest action. */
  predicate StaleSilent(s: Session, steps: seq<Step>)
    requires Possible(s, steps)
    decreases |steps|
  {
    steps == []
    || ((Stale(s, steps[0]) ==> Run(s, steps[0]).store == s.store) && StaleSilent(Run(s, steps[0]), steps[1..]))
  }

  lemma {:induction false} SessionFenced(s: Session, steps: seq<Step>)
    requires Fenced(s) && Possible(s, steps) && NoGap(s, steps)
    ensures Fenced(Exec(s, steps)) && StaleSilent(s, steps)
    decreases |steps|
  {
    if steps != [] {
      hide Fenced, Run, Enabled;
      RunFenced(s, steps[0]);
      if Stale(s, steps[0]) {
        StaleIsSilent(s, steps[0]);
      }
      SessionFenced(Run(s, steps[0]), steps[1..]);
    }
  }

  // ---------- sessions without an action between the end of `follow` and its caller ----------

  /** The user acts only when no `follow` has returned to a caller that has not resumed yet. */
  predicate Prompt(s: Session, steps: seq<Step>)
    requires Possible(s, steps)
    decreases |steps|
  {
    steps == []
    || ((UserAction(steps[0]) ==> forall t :: t in s.tasks ==> !s.tasks[t].Returned?)
        && Prompt(Run(s, steps[0]), steps[1..]))
  }

  /** A stream is the live one or aborted; so is one that has ended, unless it is of the latest action. */
  ghost predicate AbortedOrLatest(s: Session) {
    forall t :: t in s.tasks && Follows(s.tasks[t]) ==> EndOk(s, s.tasks[t])
  }

  predicate EndOk(s: Session, t: Task)
    requires Follows(t)
  {
    t.mine in s.store.aborted || (if t.Following? then s.store.ctrl == Some(t.mine) else t.action == s.latest)
  }

  lemma PromptKeeps(s: Session, x: Step)
    requires Sane(s) && AbortedOrLatest(s) && Enabled(s, x)
    requires UserAction(x) ==> forall t :: t in s.tasks ==> !s.tasks[t].Returned?
    ensures AbortedOrLatest(Run(s, x)) && !Gap(s, x)
  {
    hide Show, FindFrom;
    var v := Run(s, x);
    ShowKeeps(s.store, if x.Event? then x.event else Progress(0, 0));
    forall t | t in v.tasks && Follows(v.tasks[t]) ensures EndOk(v, v.tasks[t]) {
      if t in s.tasks {
        assert TaskOk(s, s.tasks[t]) && (Follows(s.tasks[t]) ==> EndOk(s, s.tasks[t]));
      }
    }
  }

  lemma {:induction false} PromptHasNoGap(s: Session, steps: seq<Step>)
    requires Sane(s) && AbortedOrLatest(s) && Possible(s, steps) && Prompt(s, steps)
    ensures NoGap(s, steps)
    decreases |steps|
  {
    hide Sane, AbortedOrLatest, Run, Enabled, Gap;
    if steps != [] {
      PromptKeeps(s, steps[0]);
      RunSane(s, steps[0]);
      PromptHasNoGap(Run(s, steps[0]), steps[1..]);
    }
  }

  /** In every such session nothing at all that an earlier action began changes the page. */
  lemma PromptSessionIsFenced(steps: seq<Step>)
    requires Possible(START, steps) && Prompt(START, steps)
    ensures Fenced(Exec(START, steps)) && StaleSilent(START, steps)
  {
    StartFenced();
    PromptHasNoGap(START, steps);
    SessionFenced(START, steps);
  }

  // ---------- the gap ----------

  lemma GapShowsOldAnswer(s: Session, x: Step, answer: Conversation, next: TaskId)
    requires Fenced(s) && Enabled(s, x) && Gap(s, x) && next !in s.tasks
    requires answer.id == s.tasks[x.task].purpose.to.value
    ensures var v := Run(s, x);
            var lands := Lands(x.task, answer, next);
            Enabled(v, lands) && Stale(v, lands) && Run(v, lands).store == v.store.(current := Some(answer))
  {
  }

  /** Two answers to one fetch: at least one differs from what is shown. */
  function OtherAnswer(s: Store, id: ConversationId): Conversation {
    if s.current == Some(Conversation(id, false, [])) then Conversation(id, true, []) else Conversation(id, false, [])
  }

  lemma FreshTask(tasks: map<TaskId, Task>)
    ensures exists n: TaskId :: n !in tasks
  {
    var n := Above(tasks.Keys);
    assert n !in tasks;
  }

  ghost function Above(ids: set<nat>): (n: nat)
    ensures forall i :: i in ids ==> i < n
  {
    if ids == {} then 0
    else
      var i :| i in ids;
      var m := Above(ids - {i});
      assert forall j :: j in ids ==> j == i || j in ids - {i};
      if i < m then m else i + 1
  }

  predicate ShowsThrough(s: Session, x: Step, lands: Step)
    requires Enabled(s, x) && x.Resume?
  {
    lands.Lands? && lands.task == x.task && Possible(s, [x, lands]) && !StaleSilent(s, [x, lands])
  }

  lemma TwoSteps(s: Session, x: Step, y: Step)
    requires Enabled(s, x)
    ensures Possible(s, [x, y]) <==> Enabled(Run(s, x), y)
    ensures Enabled(Run(s, x), y) ==>
              (StaleSilent(s, [x, y]) <==>
                 (Stale(s, x) ==> Run(s, x).store == s.store)
                 && (Stale(Run(s, x), y) ==> Run(Run(s, x), y).store == Run(s, x).store))
  {
    hide Enabled, Run, Stale;
    assert [x, y][1..] == [y] && [y][1..] == [];
    var v := Run(s, x);
    assert Possible(v, [y]) <==> Enabled(v, y);
    if Enabled(v, y) {
      assert StaleSilent(v, [y]) <==> (Stale(v, y) ==> Run(v, y).store == v.store);
    }
  }

  /** A task that resumes after its stream can let an outdated conversation through to the page
      exactly when it falls into the gap. */
  lemma GapIff(s: Session, x: Step)
    requires Fenced(s) && Enabled(s, x) && x.Resume? && s.tasks[x.task].action < s.latest
    ensures Gap(s, x) <==> exists lands: Step :: ShowsThrough(s, x, lands)
  {
    if Gap(s, x) {
      FreshTask(s.tasks);
      var next :| next !in s.tasks;
      var v := Run(s, x);
      var answer := OtherAnswer(v.store, s.tasks[x.task].purpose.to.value);
      GapShowsOldAnswer(s, x, answer, next);
      TwoSteps(s, x, Lands(x.task, answer, next));
      assert ShowsThrough(s, x, Lands(x.task, answer, next));
    } else {
      RunFenced(s, x);
      forall lands: Step | lands.Lands? && lands.task == x.task && Possible(s, [x, lands])
          ensures !ShowsThrough(s, x, lands) {
        TwoSteps(s, x, lands);
        hide Fenced;
        StaleIsSilent(s, x);
        if Stale(Run(s, x), lands) {
          StaleIsSilent(Run(s, x), lands);
        }
      }
    }
  }

  /** A send that fails before its first event, and another conversation opened before it resumes:
      the page ends up showing the conversation that was left. */
  lemma GapExample(left: Conversation, wanted: Conversation)
    requires left.id != wanted.id && !left.streaming && !wanted.streaming
    ensures var s0 := START;
            var s1 := Run(s0, Open(0, Some(left.id)));
            var s2 := Run(s1, Lands(0, left, 9));
            var s3 := Run(s2, Send(1, None));
            var s4 := Run(s3, StreamOver(1, Some("failed")));
            var s5 := Run(s4, Open(2, Some(wanted.id)));
            var s6 := Run(s5, Resume(1));
            var s7 := Run(s6, Lands(2, wanted, 9));
            var s8 := Run(s7, Lands(1, left, 9));
            Gap(s5, Resume(1)) && s7.store.current == Some(wanted) && s8.store.current == Some(left)
  {
  }
}
