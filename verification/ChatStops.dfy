/** A reply ends as stopped exactly when its owner stopped it in time, in every run of the service. */
module ChatStops {
  import opened Text
  import opened ReplyRun
  import opened ChatWorld
  import opened ChatSafety
  import opened ChatRuns

  /** A stop by its owner that finds the run of `m` before its save. */
  predicate StopsInTime(w: World, a: Action, m: MessageId) {
    && a.Stop? && OwnedBy(w, a.owner, a.conversation) && Live(w, a.conversation, m)
    && BeforeEnd(RunAt(w, a.conversation).phase)
  }

  /** Some action of this run of the service is one. */
  predicate StoppedDuring(w: World, actions: seq<Action>, m: MessageId)
    requires Possible(w, actions)
    decreases |actions|
  {
    actions != [] && (StopsInTime(w, actions[0], m) || StoppedDuring(Step(w, actions[0]), actions[1..], m))
  }

  /** `marked` says whether such a stop has come; afterwards no request can start `m` again. */
  ghost predicate MarkOk(w: World, m: MessageId, marked: bool) {
    && (forall c :: Live(w, c, m) ==> RunAt(w, c).early == marked)
    && (m in w.ended ==> w.ended[m].run.early == marked)
    && (marked ==> m in w.used && forall r :: !HoldsRow(w, r, m))
  }

  predicate HoldsRow(w: World, r: RequestId, m: MessageId) {
    Holds(w, r) && w.requests[r].row == Some(m)
  }

  lemma MarkStep(w: World, a: Action, m: MessageId, marked: bool)
    requires Inv(w) && Enabled(w, a) && MarkOk(w, m, marked)
    ensures MarkOk(Step(w, a), m, marked || StopsInTime(w, a, m))
  {
    hide Inv, Step, Enabled;
    var v := Step(w, a);
    forall c | Live(v, c, m) ensures RunAt(v, c).early == (marked || StopsInTime(w, a, m)) {
      if Live(w, c, m) {
        LiveOnce(w, a, c, m);
        OnlyAStopStops(w, a, c);
      } else {
        OnlyLaunchStarts(w, a, c, m);
      }
    }
    if StopsInTime(w, a, m) {
      LiveIsNotHeld(w, a.conversation, m);
    }
    if m in v.ended {
      OnlyFinishEnds(w, a, m);
    }
    if marked || StopsInTime(w, a, m) {
      HeldNoMore(w, a, m);
    }
  }

  lemma LiveOnce(w: World, a: Action, c: ConversationId, m: MessageId)
    requires Inv(w) && Live(w, c, m)
    ensures StopsInTime(w, a, m) <==> a == Stop(RunAt(w, c).owner, c) && BeforeEnd(RunAt(w, c).phase)
  {
    InvRun(w, c);
    if a.Stop? && Live(w, a.conversation, m) {
      InvRun(w, a.conversation);
    }
  }

  lemma OnlyLaunchStarts(w: World, a: Action, c: ConversationId, m: MessageId)
    requires Inv(w) && Enabled(w, a) && Live(Step(w, a), c, m) && !Live(w, c, m)
    ensures a.Launch? && HoldsRow(w, a.request, m) && !RunAt(Step(w, a), c).early
  {
    hide Inv, Step, Enabled;
    if Runs(w, c) && !OwnStep(a, c) && !a.Stop? && !a.Restart? {
      InvRequests(w);
      Untouched(w, a, c);
    } else if Runs(w, c) {
      OwnStepKeepsMessage(w, a, c);
    } else {
      NewRunIsLaunched(w, a, c);
    }
  }

  lemma OwnStepKeepsMessage(w: World, a: Action, c: ConversationId)
    requires Enabled(w, a) && Runs(w, c) && Runs(Step(w, a), c) && (OwnStep(a, c) || a.Stop? || a.Restart?)
    ensures RunAt(Step(w, a), c).message == RunAt(w, c).message
  {
    hide Apply, TextOf, Deliver;
    if IsTask(a) {
      TaskAdvances(w, a);
    }
    hide Next;
  }

  lemma NewRunIsLaunched(w: World, a: Action, c: ConversationId)
    requires Enabled(w, a) && Runs(Step(w, a), c) && !Runs(w, c)
    ensures a.Launch? && HoldsRow(w, a.request, RunAt(Step(w, a), c).message) && !RunAt(Step(w, a), c).early
  {
    hide Apply, TextOf, Deliver, Next, Finish, StopRun, DoneMessage, FinalOf, FlushOf, Advance;
    if IsTask(a) {
      TaskAdvances(w, a);
    }
  }

  lemma OnlyFinishEnds(w: World, a: Action, m: MessageId)
    requires Enabled(w, a) && m in Step(w, a).ended
    ensures !(a.Stop? && m !in w.ended)
    ensures if a.TaskFinishes? && Live(w, a.conversation, m) then
        Step(w, a).ended[m].run.early == RunAt(w, a.conversation).early
            else m in w.ended && Step(w, a).ended[m] == w.ended[m]
  {
    hide Apply, TextOf, Deliver;
  }

  lemma HeldNoMore(w: World, a: Action, m: MessageId)
    requires Enabled(w, a) && m in w.used && forall r :: !HoldsRow(w, r, m)
    ensures m in Step(w, a).used && forall r :: !HoldsRow(Step(w, a), r, m)
  {
    hide Enabled, Step, HoldsRow;
    forall r ensures !HoldsRow(Step(w, a), r, m) {
      if HoldsRow(Step(w, a), r, m) {
        OnlyNewRowsAreHeld(w, a, r, m);
      }
    }
    UsedStays(w, a);
  }

  lemma UsedStays(w: World, a: Action)
    requires Enabled(w, a)
    ensures w.used <= Step(w, a).used
  {
    hide Apply, TextOf, Deliver, Next;
  }

  lemma OnlyNewRowsAreHeld(w: World, a: Action, r: RequestId, m: MessageId)
    requires Enabled(w, a) && m in w.used && HoldsRow(Step(w, a), r, m)
    ensures HoldsRow(w, r, m)
  {
    hide Apply, TextOf, Deliver, Next;
  }

  lemma LiveIsNotHeld(w: World, c: ConversationId, m: MessageId)
    requires Inv(w) && Live(w, c, m)
    ensures m in w.used && m !in w.ended && forall r :: !HoldsRow(w, r, m)
  {
    InvRun(w, c);
    hide RunsInv, LateInv, EndedInv, SubscribersInv, Sound;
    forall r | Holds(w, r) ensures w.requests[r].row != Some(m) {
      assert RequestOk(w, r);
    }
  }

  lemma {:induction false} MarkExec(w: World, actions: seq<Action>, m: MessageId, marked: bool)
    requires Inv(w) && Possible(w, actions) && MarkOk(w, m, marked)
    ensures MarkOk(Exec(w, actions), m, marked || StoppedDuring(w, actions, m))
    decreases |actions|
  {
    hide Inv, Enabled, Step, MarkOk, StopsInTime;
    if actions != [] {
      StepInv(w, actions[0]);
      MarkStep(w, actions[0], m, marked);
      MarkExec(Step(w, actions[0]), actions[1..], m, marked || StopsInTime(w, actions[0], m));
    }
  }

  lemma EmptyMarkOk(m: MessageId)
    ensures MarkOk(EMPTY, m, false)
  {
  }

  /** Over every run of the service: a reply ends as stopped if and only if its owner stopped it at some
      moment before its final save. */
  lemma StoppedIffStoppedInTime(actions: seq<Action>, m: MessageId)
    requires Possible(EMPTY, actions) && m in Exec(EMPTY, actions).ended
    ensures Exec(EMPTY, actions).ended[m].verdict.status == Stopped <==> StoppedDuring(EMPTY, actions, m)
  {
    hide Possible, Exec, StoppedDuring;
    EmptyInv();
    EmptyMarkOk(m);
    MarkExec(EMPTY, actions, m, false);
    EndedAsItWasStopped(actions, m);
  }
}
