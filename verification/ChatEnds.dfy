/** What a reply says and how it ends is decided by what happened to it, in every run of the service:
    its history is what its stream brought, and its verdict is that of the one action that ended it. */
module ChatEnds {
  import opened Text
  import opened ReplyRun
  import opened ChatWorld
  import opened ChatSafety
  import opened ChatRuns
  import opened ChatStops

  // ---------- what happens to a reply ----------

  /** An action of the task of the run of `m`. */
  predicate Acts(w: World, a: Action, m: MessageId) {
    IsTask(a) && Live(w, a.conversation, m)
  }

  /** The stream of `m` breaks with this error. */
  predicate Breaks(w: World, a: Action, m: MessageId, reason: string) {
    Acts(w, a, m) && a.TaskFails? && a.reason == reason
  }

  /** The stream of `m` comes to its end. */
  predicate Completes(w: World, a: Action, m: MessageId) {
    Acts(w, a, m) && a.TaskStreamed?
  }

  /** The cancel reaches the task of `m`, or its first step finds it stopped. */
  predicate Halts(w: World, a: Action, m: MessageId) {
    Acts(w, a, m) && (a.TaskCancelled? || (a.TaskBegins? && RunAt(w, a.conversation).stopped))
  }

  /** Some action of a run of the service, at the world that it finds, is such a one. */
  predicate Sometime(w: World, actions: seq<Action>, happens: (World, Action) -> bool)
    requires Possible(w, actions)
    decreases |actions|
  {
    actions != [] && (happens(w, actions[0]) || Sometime(Step(w, actions[0]), actions[1..], happens))
  }

  /** What one action of the stream of `m` has to say to its subscribers. */
  function Brought(w: World, a: Action, m: MessageId): seq<Payload> {
    if !Acts(w, a, m) then []
    else match a
      case TaskProgress(_, processed, total) => [Progress(processed, total)]
      case TaskDelta(_, kind, text, _) => [Delta(kind, text)]
      case TaskFails(_, reason) => if reason == "" then [] else [Payload.Failed(reason)]
      case _ => []
  }

  function AllBrought(w: World, actions: seq<Action>, m: MessageId): seq<Payload>
    requires Possible(w, actions)
    decreases |actions|
  {
    if actions == [] then []
    else Brought(w, actions[0], m) + AllBrought(Step(w, actions[0]), actions[1..], m)
  }

  // ---------- the trace of a reply ----------

  /** What it has said so far, and how it is to end, once that is decided. */
  datatype Trace = Trace(said: seq<Payload>, verdict: Option<Verdict>)

  const UNTOLD := Trace([], None)

  /** The verdict that an action decides on. */
  function Decision(w: World, a: Action, m: MessageId): Option<Verdict> {
    if Acts(w, a, m) && a.TaskFails? then Some(Verdict(Error, Some(a.reason)))
    else if Completes(w, a, m) then Some(Verdict(Complete, None))
    else if Halts(w, a, m) then Some(Verdict(Stopped, None))
    else None
  }

  function Traced(w: World, a: Action, m: MessageId, t: Trace): Trace {
    Trace(t.said + Brought(w, a, m), if Decision(w, a, m).Some? then Decision(w, a, m) else t.verdict)
  }

  function TraceOf(w: World, actions: seq<Action>, m: MessageId, t: Trace): Trace
    requires Possible(w, actions)
    decreases |actions|
  {
    if actions == [] then t
    else TraceOf(Step(w, actions[0]), actions[1..], m, Traced(w, actions[0], m, t))
  }

  /** The run of `m` has this trace, while it lives and after it ended; until it starts there is none. */
  ghost predicate TraceOk(w: World, m: MessageId, t: Trace) {
    && (forall c :: Live(w, c, m) ==> RunTraced(RunAt(w, c), t))
    && (m in w.ended ==> EndTraced(w.ended[m], t))
    && (t != UNTOLD ==> m in w.used && forall r :: !HoldsRow(w, r, m))
  }

  predicate RunTraced(r: Run, t: Trace) {
    r.hist == t.said && t.verdict == if r.phase.Saving? then Some(Verdict(r.phase.status, r.phase.error)) else None
  }

  predicate EndTraced(e: Ended, t: Trace) {
    && e.run.phase.Saving? && t.verdict == Some(e.verdict)
    && e.run.hist == t.said + [Done(DoneMessage(e.run))]
  }

  // ---------- every step keeps it ----------

  lemma TaskTraced(w: World, a: Action, m: MessageId, t: Trace)
    requires Enabled(w, a) && Acts(w, a, m) && Sound(RunAt(w, a.conversation))
    requires RunTraced(RunAt(w, a.conversation), t)
    ensures RunTraced(Next(w, a), Traced(w, a, m, t)) && (t.verdict.Some? ==> Traced(w, a, m, t) == t)
  {
    hide TextOf;
    assert t.said + [] == t.said;
  }

  lemma QuietTrace(w: World, a: Action, m: MessageId, t: Trace)
    requires !Acts(w, a, m)
    ensures Traced(w, a, m, t) == t
  {
    assert t.said + [] == t.said;
  }

  lemma ActsHere(w: World, a: Action, c: ConversationId, m: MessageId)
    requires Inv(w) && Live(w, c, m)
    ensures Acts(w, a, m) <==> IsTask(a) && a.conversation == c
    ensures Sound(RunAt(w, c))
  {
    hide Sound, LateInv, EndedInv, RequestsInv, SubscribersInv;
    assert RunOk(w, c);
    if IsTask(a) && Live(w, a.conversation, m) {
      assert RunOk(w, a.conversation);
    }
  }

  lemma OthersDoNothing(w: World, a: Action, c: ConversationId)
    requires Inv(w) && Enabled(w, a) && Runs(w, c) && Runs(Step(w, a), c) && !(IsTask(a) && a.conversation == c)
    ensures var r, next := RunAt(w, c), RunAt(Step(w, a), c); next.hist == r.hist && next.phase == r.phase
  {
    hide Inv, Enabled, Step, RequestsInv;
    if !OwnStep(a, c) && !a.Stop? && !a.Restart? {
      InvRequests(w);
      Untouched(w, a, c);
    } else {
      StopsDoNothing(w, a, c);
    }
  }

  lemma StopsDoNothing(w: World, a: Action, c: ConversationId)
    requires Enabled(w, a) && Runs(w, c) && Runs(Step(w, a), c)
    requires a.Stop? || a.Restart? || ((a.TaskFinishes? || a.AwaitedEnds?) && a.conversation == c)
    ensures var r, next := RunAt(w, c), RunAt(Step(w, a), c); next.hist == r.hist && next.phase == r.phase
  {
    hide Apply, Deliver, DoneMessage, Finish;
  }

  lemma OwnRunTraced(w: World, a: Action, c: ConversationId, m: MessageId, t: Trace)
    requires Inv(w) && Enabled(w, a) && Live(w, c, m) && RunTraced(RunAt(w, c), t) && Live(Step(w, a), c, m)
    ensures RunTraced(RunAt(Step(w, a), c), Traced(w, a, m, t))
  {
    hide Inv, Enabled, Sound, Step, TextOf, Traced;
    ActsHere(w, a, c, m);
    if Acts(w, a, m) {
      TaskTraced(w, a, m, t);
      TaskAdvances(w, a);
    } else {
      OthersDoNothing(w, a, c);
      QuietTrace(w, a, m, t);
    }
  }

  lemma NewRunTraced(w: World, a: Action, c: ConversationId, m: MessageId, t: Trace)
    requires Inv(w) && Enabled(w, a) && !Live(w, c, m) && Live(Step(w, a), c, m) && TraceOk(w, m, t)
    ensures RunTraced(RunAt(Step(w, a), c), Traced(w, a, m, t))
  {
    hide Inv, Enabled, Step, Traced;
    OnlyLaunchStarts(w, a, c, m);
    NewRunIsBlank(w, a, c, m);
    QuietTrace(w, a, m, t);
  }

  lemma NewRunIsBlank(w: World, a: Action, c: ConversationId, m: MessageId)
    requires Enabled(w, a) && a.Launch? && !Live(w, c, m) && Live(Step(w, a), c, m)
    ensures RunAt(Step(w, a), c).hist == [] && RunAt(Step(w, a), c).phase.Created?
  {
  }

  lemma EndIsTraced(w: World, a: Action, m: MessageId, t: Trace)
    requires Inv(w) && Enabled(w, a) && TraceOk(w, m, t) && m in Step(w, a).ended
    ensures EndTraced(Step(w, a).ended[m], Traced(w, a, m, t))
  {
    hide Inv, Enabled, Step, Traced, EndTraced, RunTraced;
    if a.TaskFinishes? && Live(w, a.conversation, m) {
      FinishIsTraced(w, a, m, t);
      QuietTrace(w, a, m, t);
    } else {
      OnlyFinishEnds(w, a, m);
      EndedIsNotLive(w, m);
      QuietTrace(w, a, m, t);
    }
  }

  lemma EndedIsNotLive(w: World, m: MessageId)
    requires Inv(w) && m in w.ended
    ensures forall c :: !Live(w, c, m)
  {
    hide Sound, LateInv, EndedInv, RequestsInv, SubscribersInv;
    forall c ensures !Live(w, c, m) {
      assert Runs(w, c) ==> RunOk(w, c);
    }
  }

  lemma FinishIsTraced(w: World, a: Action, m: MessageId, t: Trace)
    requires Enabled(w, a) && a.TaskFinishes? && Live(w, a.conversation, m) && RunTraced(RunAt(w, a.conversation), t)
    ensures m in Step(w, a).ended && EndTraced(Step(w, a).ended[m], t)
  {
    hide Deliver;
  }

  lemma TraceStep(w: World, a: Action, m: MessageId, t: Trace)
    requires Inv(w) && Enabled(w, a) && TraceOk(w, m, t)
    ensures TraceOk(Step(w, a), m, Traced(w, a, m, t))
  {
    hide Inv, Enabled, Step, Traced, EndTraced, RunTraced;
    var v, next := Step(w, a), Traced(w, a, m, t);
    forall c | Live(v, c, m) ensures RunTraced(RunAt(v, c), next) {
      if Live(w, c, m) {
        OwnRunTraced(w, a, c, m, t);
      } else {
        NewRunTraced(w, a, c, m, t);
      }
    }
    if m in v.ended {
      EndIsTraced(w, a, m, t);
    }
    if next != UNTOLD {
      if t == UNTOLD {
        ToldIsLive(w, a, m);
        LiveIsNotHeld(w, a.conversation, m);
      }
      HeldNoMore(w, a, m);
    }
  }

  lemma ToldIsLive(w: World, a: Action, m: MessageId)
    requires Traced(w, a, m, UNTOLD) != UNTOLD
    ensures IsTask(a) && Live(w, a.conversation, m)
  {
  }

  // ---------- whole runs ----------

  lemma EmptyTraceOk(m: MessageId)
    ensures TraceOk(EMPTY, m, UNTOLD)
  {
  }

  lemma {:induction false} TraceExec(w: World, actions: seq<Action>, m: MessageId, t: Trace)
    requires Inv(w) && Possible(w, actions) && TraceOk(w, m, t)
    ensures TraceOk(Exec(w, actions), m, TraceOf(w, actions, m, t))
    decreases |actions|
  {
    hide Inv, Enabled, Step, TraceOk, Traced;
    if actions != [] {
      StepInv(w, actions[0]);
      TraceStep(w, actions[0], m, t);
      TraceExec(Step(w, actions[0]), actions[1..], m, Traced(w, actions[0], m, t));
    }
  }

  lemma {:induction false} TraceSays(w: World, actions: seq<Action>, m: MessageId, t: Trace)
    requires Possible(w, actions)
    ensures TraceOf(w, actions, m, t).said == t.said + AllBrought(w, actions, m)
    decreases |actions|
  {
    hide Enabled, Step, Brought;
    if actions == [] {
      assert t.said + [] == t.said;
    } else {
      var rest := AllBrought(Step(w, actions[0]), actions[1..], m);
      TraceSays(Step(w, actions[0]), actions[1..], m, Traced(w, actions[0], m, t));
      assert t.said + Brought(w, actions[0], m) + rest == t.said + (Brought(w, actions[0], m) + rest);
    }
  }

  /** Once it is decided how a reply ends, its task does nothing more. */
  lemma DecidedIsOver(w: World, a: Action, m: MessageId, t: Trace)
    requires Inv(w) && Enabled(w, a) && TraceOk(w, m, t) && t.verdict.Some?
    ensures !Acts(w, a, m)
  {
    hide Inv, TextOf;
    if Acts(w, a, m) {
      ActsHere(w, a, a.conversation, m);
      assert false;
    }
  }

  /** A verdict is reached if and only if some action decides on it. */
  lemma {:induction false} DecidedIff(w: World, actions: seq<Action>, m: MessageId, t: Trace, v: Verdict)
    requires Inv(w) && Possible(w, actions) && TraceOk(w, m, t)
    ensures var happens := (x: World, a: Action) => Decision(x, a, m) == Some(v);
            TraceOf(w, actions, m, t).verdict == Some(v)
            <==> if t.verdict.Some? then t.verdict == Some(v) else Sometime(w, actions, happens)
    ensures t.verdict.Some? ==> !Sometime(w, actions, (x: World, a: Action) => Decision(x, a, m) == Some(v))
    decreases |actions|
  {
    hide Inv, Enabled, Step, TraceOk, Acts, Completes, Halts, Brought;
    if actions != [] {
      var next := Traced(w, actions[0], m, t);
      StepInv(w, actions[0]);
      TraceStep(w, actions[0], m, t);
      DecidedIff(Step(w, actions[0]), actions[1..], m, next, v);
      if t.verdict.Some? {
        DecidedIsOver(w, actions[0], m, t);
        NoDecision(w, actions[0], m);
      }
    }
  }

  lemma NoDecision(w: World, a: Action, m: MessageId)
    requires !Acts(w, a, m)
    ensures Decision(w, a, m).None?
  {
  }

  lemma {:induction false} SameTimes(w: World, actions: seq<Action>, p: (World, Action) -> bool,
                                     q: (World, Action) -> bool)
    requires Possible(w, actions) && forall x: World, a: Action :: p(x, a) == q(x, a)
    ensures Sometime(w, actions, p) == Sometime(w, actions, q)
    decreases |actions|
  {
    hide Enabled, Step;
    if actions != [] {
      SameTimes(Step(w, actions[0]), actions[1..], p, q);
    }
  }

  lemma VerdictIsDecided(actions: seq<Action>, m: MessageId, v: Verdict, happens: (World, Action) -> bool)
    requires Possible(EMPTY, actions) && m in Exec(EMPTY, actions).ended
    requires forall x: World, a: Action :: happens(x, a) == (Decision(x, a, m) == Some(v))
    ensures Exec(EMPTY, actions).ended[m].verdict == v <==> Sometime(EMPTY, actions, happens)
  {
    hide Possible, Exec, Sometime, TraceOf, Decision, Inv;
    EmptyInv();
    EmptyTraceOk(m);
    TraceExec(EMPTY, actions, m, UNTOLD);
    DecidedIff(EMPTY, actions, m, UNTOLD, v);
    SameTimes(EMPTY, actions, happens, (x: World, a: Action) => Decision(x, a, m) == Some(v));
  }

  /** A reply ends with an error if and only if its stream broke with that error, as complete if and only
      if its stream came to its end, and as stopped if and only if its task was halted; nothing else. */
  lemma EndsAsItHappened(actions: seq<Action>, m: MessageId, reason: string)
    requires Possible(EMPTY, actions) && m in Exec(EMPTY, actions).ended
    ensures var v := Exec(EMPTY, actions).ended[m].verdict;
            && (v == Verdict(Error, Some(reason))
                <==> Sometime(EMPTY, actions, (x: World, a: Action) => Breaks(x, a, m, reason)))
            && (v == Verdict(Complete, None)
                <==> Sometime(EMPTY, actions, (x: World, a: Action) => Completes(x, a, m)))
            && (v == Verdict(Stopped, None)
                <==> Sometime(EMPTY, actions, (x: World, a: Action) => Halts(x, a, m)))
            && (v.error.Some? <==> v.status == Error) && v.status != InProgress
  {
    hide Possible, Exec, Sometime;
    EndedAsItWasStopped(actions, m);
    VerdictIsDecided(actions, m, Verdict(Error, Some(reason)), (x: World, a: Action) => Breaks(x, a, m, reason));
    VerdictIsDecided(actions, m, Verdict(Complete, None), (x: World, a: Action) => Completes(x, a, m));
    VerdictIsDecided(actions, m, Verdict(Stopped, None), (x: World, a: Action) => Halts(x, a, m));
  }

  /** At any moment a reply has published exactly what its stream brought; when it has ended, `done`
      comes behind it, with the texts that the deltas add up to and the verdict. */
  lemma HistoryIsWhatCame(actions: seq<Action>, m: MessageId)
    requires Possible(EMPTY, actions)
    ensures var w, came := Exec(EMPTY, actions), AllBrought(EMPTY, actions, m);
            && (forall c :: Live(w, c, m) ==>
                  && RunAt(w, c).hist == came
                  && RunAt(w, c).content == TextOf(Content, came) && RunAt(w, c).reasoning == TextOf(Reasoning, came))
            && (m in w.ended ==>
                  var v := w.ended[m].verdict;
                  var thought := TextOf(Reasoning, came);
                  w.ended[m].run.hist
                  == came + [Done(Message(m, Assistant, TextOf(Content, came),
                                          if thought == "" then None else Some(thought), v.status, v.error))])
  {
    hide Possible, Exec, TraceOf, AllBrought, Inv;
    EmptyInv();
    ExecInv(EMPTY, actions);
    EmptyTraceOk(m);
    TraceExec(EMPTY, actions, m, UNTOLD);
    TraceSays(EMPTY, actions, m, UNTOLD);
    assert [] + AllBrought(EMPTY, actions, m) == AllBrought(EMPTY, actions, m);
    LiveTexts(Exec(EMPTY, actions), m);
    EndedTexts(Exec(EMPTY, actions), m);
  }

  lemma LiveTexts(w: World, m: MessageId)
    requires Inv(w)
    ensures forall c :: Live(w, c, m) ==>
              var r := RunAt(w, c); r.content == TextOf(Content, r.hist) && r.reasoning == TextOf(Reasoning, r.hist)
  {
    hide TextOf, LateInv, EndedInv, RequestsInv, SubscribersInv;
    forall c | Live(w, c, m)
      ensures var r := RunAt(w, c); r.content == TextOf(Content, r.hist) && r.reasoning == TextOf(Reasoning, r.hist)
    {
      assert RunOk(w, c);
    }
  }

  lemma EndedTexts(w: World, m: MessageId)
    requires Inv(w)
    ensures m in w.ended ==>
              var Ended(r, v, _) := w.ended[m];
              && r.message == m && r.phase == Saving(v.status, v.error) && |r.hist| > 0
              && r.content == TextOf(Content, r.hist[..|r.hist| - 1])
              && r.reasoning == TextOf(Reasoning, r.hist[..|r.hist| - 1])
  {
    hide TextOf, RunsInv, LateInv, RequestsInv, SubscribersInv;
    if m in w.ended {
      assert EndedOk(w, m);
    }
  }

  /** An error text is published exactly when the stream broke with it, unless it is empty. */
  lemma ErrorIsPublished(actions: seq<Action>, m: MessageId, reason: string)
    requires Possible(EMPTY, actions) && m in Exec(EMPTY, actions).ended
    ensures Payload.Failed(reason) in Exec(EMPTY, actions).ended[m].run.hist
            <==> reason != "" && Sometime(EMPTY, actions, (x: World, a: Action) => Breaks(x, a, m, reason))
  {
    hide Possible, Exec, Sometime, Inv;
    EndsAsItHappened(actions, m, reason);
    EmptyInv();
    ExecInv(EMPTY, actions);
    EndedErrors(Exec(EMPTY, actions), m, reason);
  }

  lemma EndedErrors(w: World, m: MessageId, reason: string)
    requires Inv(w) && m in w.ended
    ensures Payload.Failed(reason) in w.ended[m].run.hist
            <==> reason != "" && w.ended[m].verdict == Verdict(Error, Some(reason))
  {
    hide TextOf, RunsInv, LateInv, RequestsInv, SubscribersInv;
    assert EndedOk(w, m);
    var hist := w.ended[m].run.hist;
    assert hist == hist[..|hist| - 1] + [hist[|hist| - 1]];
  }
}
