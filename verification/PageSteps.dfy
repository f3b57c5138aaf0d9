/** What each stretch of the page's code does, field by field: to the store, to the suspended functions and to the
    numbers that fence them off; and when it may run. */
module PageSteps {
  import opened Text
  import opened ReplyRun
  import opened ChatView
  import opened ChatStore
  import opened ChatSession

  /** The old controller, if there is one, is aborted. */
  function AbortedThen(s: Store): set<nat> {
    s.aborted + (if s.ctrl.Some? then {s.ctrl.value} else {})
  }

  /** Opening ends what is followed, empties the error and, without an id, the page; with one it awaits the answer
      under the new sequence number. */
  lemma OpenDoes(s: Session, t: TaskId, id: Option<ConversationId>)
    requires Enabled(s, Open(t, id))
    ensures var v, n := ChatSession.Run(s, Open(t, id)), s.latest + 1;
      && v.store == Store(if id.Some? then s.store.current else None, false, None, id.Some?, None, None,
                          s.store.openSeq + 2, AbortedThen(s.store))
      && v.latest == n && v.nextCtrl == s.nextCtrl
      && v.tasks == s.tasks[t := if id.None? then Over(n) else Fetching(n, id.value, s.store.openSeq + 2, ForOpen)]
  {
  }

  /** Leaving the page only ends what is followed. */
  lemma LeaveDoes(s: Session)
    ensures var v := ChatSession.Run(s, Leave);
      && v.store == Store(s.store.current, false, None, false, s.store.error, None, s.store.openSeq + 1,
                          AbortedThen(s.store))
      && v.latest == s.latest + 1 && v.nextCtrl == s.nextCtrl && v.tasks == s.tasks
  {
  }

  /** Sending and regenerating drop the messages that are to be replaced, and follow a new stream with a new
      controller, for the conversation that is shown. */
  lemma RequestDoes(s: Session, x: Step)
    requires Enabled(s, x) && (x.Send? || x.Regenerate?)
    ensures var v, n := ChatSession.Run(s, x), s.latest + 1;
      var shown := if s.store.current.Some? then Some(s.store.current.value.id) else None;
      && v.store == Store(v.store.current, true, None, false, None, Some(s.nextCtrl), s.store.openSeq + 1,
                          AbortedThen(s.store))
      && v.latest == n && v.nextCtrl == s.nextCtrl + 1
      && v.tasks == s.tasks[x.task := Following(n, s.nextCtrl, 0, Reply(shown))]
  {
    hide FindFrom;
  }

  /** What they leave of the conversation. */
  lemma RequestTrims(s: Session, x: Step)
    requires Enabled(s, x) && (x.Send? || x.Regenerate?)
    ensures var v := ChatSession.Run(s, x);
      && v.store.current.Some? == s.store.current.Some?
      && (s.store.current.Some? ==>
            var before, after := s.store.current.value, v.store.current.value;
            var n := |before.messages|;
            && after.id == before.id && after.streaming == before.streaming
            && (x.Regenerate? ==>
                  after.messages == if n > 0 && before.messages[n - 1].role == Assistant
                                    then before.messages[..n - 1] else before.messages)
            && (x.Send? && x.replaceFrom.None? ==> after.messages == before.messages)
            && (x.Send? && x.replaceFrom.Some? ==>
                  && after.messages <= before.messages
                  && (forall m :: m in after.messages ==> m.id != x.replaceFrom.value)
                  && (|after.messages| < n ==> before.messages[|after.messages|].id == x.replaceFrom.value)))
  {
  }

  /** An event of the stream that is followed is shown and counted; one of another stream ends the following. The
      end of a stream lets go of the page if it is the one that is followed, and leaves its error. */
  lemma StreamDoes(s: Session, x: Step)
    requires Enabled(s, x) && (x.Event? || x.StreamOver?)
    ensures var v, f := ChatSession.Run(s, x), s.tasks[x.task];
      var live := s.store.ctrl == Some(f.mine);
      && v.latest == s.latest && v.nextCtrl == s.nextCtrl
      && v.tasks == s.tasks[x.task := if x.Event? && live then Following(f.action, f.mine, f.count + 1, f.purpose)
                                      else Returned(f.action, f.mine, f.count, f.purpose)]
      && v.store == (if !live then s.store
                     else if x.Event? then Show(s.store, x.event)
                     else s.store.(ctrl := None, streaming := false, progress := None,
                                   error := if x.failure.Some? then x.failure else s.store.error))
  {
    hide Show;
  }

  /** What is done behind `follow`: after a reattachment without an event, under its own sequence number, and after a
      reply without one, under the number of this moment, the conversation is fetched again, unless a stream is
      followed, and for a reattachment unless there is an error, for a reply unless it was aborted. */
  lemma ResumeDoes(s: Session, t: TaskId)
    requires Enabled(s, Resume(t))
    ensures var v, f := ChatSession.Run(s, Resume(t)), s.tasks[t];
      && v.store == s.store && v.latest == s.latest && v.nextCtrl == s.nextCtrl
      && v.tasks == s.tasks[t :=
           if f.count > 0 || s.store.ctrl.Some? then Over(f.action)
           else match f.purpose
                case Reattach(id, openSeq) =>
                  if openSeq == s.store.openSeq && s.store.error.None? then Fetching(f.action, id, openSeq, ForReattach)
                  else Over(f.action)
                case Reply(to) =>
                  if to.Some? && f.mine !in s.store.aborted
                  then Fetching(f.action, to.value, s.store.openSeq, ForResync) else Over(f.action)]
  {
  }

  /** An answer is shown under its own sequence number only; one that opens a conversation whose reply is running goes
      on to follow it with a new controller, and otherwise ends the loading. */
  lemma LandingDoes(s: Session, t: TaskId, answer: Conversation, next: TaskId)
    requires Enabled(s, Lands(t, answer, next))
    ensures var v, f := ChatSession.Run(s, Lands(t, answer, next)), s.tasks[t];
      && v.latest == s.latest
      && if f.openSeq == s.store.openSeq && f.kind == ForOpen && answer.streaming then
           && v.store == Store(Some(answer), true, None, false, None, Some(s.nextCtrl), s.store.openSeq + 1,
                               AbortedThen(s.store))
           && v.nextCtrl == s.nextCtrl + 1
           && v.tasks == s.tasks[t := Over(f.action)]
                                [next := Following(f.action, s.nextCtrl, 0, Reattach(answer.id, s.store.openSeq + 1))]
         else
           && v.nextCtrl == s.nextCtrl && v.tasks == s.tasks[t := Over(f.action)]
           && v.store == if f.openSeq != s.store.openSeq then s.store
                         else s.store.(current := Some(answer), loading := s.store.loading && f.kind != ForOpen)
  {
  }

  /** A failed fetch is reported under its own sequence number, but for one that was to match the server again. */
  lemma FailureDoes(s: Session, t: TaskId, reason: string)
    requires Enabled(s, FetchFails(t, reason))
    ensures var v, f := ChatSession.Run(s, FetchFails(t, reason)), s.tasks[t];
      && v.latest == s.latest && v.nextCtrl == s.nextCtrl && v.tasks == s.tasks[t := Over(f.action)]
      && v.store == if f.openSeq != s.store.openSeq || f.kind == ForResync then s.store
                    else s.store.(error := Some(reason), loading := s.store.loading && f.kind != ForOpen)
  {
  }

  /** Every suspended function goes on from where it is, the page's actions come at any time, and regenerating
      needs a conversation. */
  lemma MayRun(s: Session, t: TaskId, id: Option<ConversationId>, m: Option<MessageId>, e: Payload,
               failure: Option<string>, reason: string, answer: Conversation, next: TaskId)
    ensures (Enabled(s, Open(t, id)) <==> t !in s.tasks) && (Enabled(s, Send(t, m)) <==> t !in s.tasks)
    ensures (Enabled(s, Regenerate(t)) <==> t !in s.tasks && s.store.current.Some?) && Enabled(s, Leave)
    ensures Enabled(s, Event(t, e)) <==> t in s.tasks && s.tasks[t].Following?
    ensures Enabled(s, StreamOver(t, failure)) <==> t in s.tasks && s.tasks[t].Following?
    ensures Enabled(s, Resume(t)) <==> t in s.tasks && s.tasks[t].Returned?
    ensures Enabled(s, Lands(t, answer, next)) <==>
              t in s.tasks && s.tasks[t].Fetching? && answer.id == s.tasks[t].id && next !in s.tasks
    ensures Enabled(s, FetchFails(t, reason)) <==> t in s.tasks && s.tasks[t].Fetching?
  {
  }
}
