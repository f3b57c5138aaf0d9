/** The registry of reply runs as the event loop sees it: mutable runs, their subscribers' queues,
    and one method per stretch of code without an await. */
module RunRegistry {
  import opened Text
  import opened ReplyRun

  class Queue {
    /** Everything ever put; a subscriber takes from the front, one after the other. */
    var items: seq<Payload>

    constructor ()
      ensures items == []
    {
      items := [];
    }
  }

  class LiveRun {
    const owner: string
    const message: MessageId
    var queues: set<Queue>
    var content: string
    var reasoning: string
    var stopped: bool
    var cancellable: bool
    /** Where its task is suspended, and whether a cancel awaits it there. */
    var phase: Phase
    var cancelling: bool
    ghost var early: bool
    ghost var hist: seq<Payload>

    constructor (owner: string, message: MessageId)
      ensures queues == {} && Value() == NewRun(owner, message)
    {
      this.owner, this.message := owner, message;
      queues, content, reasoning := {}, "", "";
      stopped, cancellable, cancelling, phase := false, false, false, Created;
      early, hist := false, [];
    }

    ghost function Value(): Run
      reads this
    {
      Run(owner, message, content, reasoning, stopped, cancellable, phase, cancelling, early, hist)
    }

    /** Every registered queue gets the event, and nothing else changes. */
    method Publish(event: Payload)
      modifies this`hist, queues
      ensures Value() == old(Value()).(hist := old(hist) + [event])
      ensures forall q :: q in queues ==> q.items == old(q.items) + [event]
    {
      var rest := queues;
      while rest != {}
        invariant rest <= queues
        invariant forall q :: q in queues ==> q.items == if q in rest then old(q.items) else old(q.items) + [event]
        modifies queues
        decreases |rest|
      {
        var q :| q in rest;
        q.items := q.items + [event];
        rest := rest - {q};
      }
      hist := hist + [event];
    }
  }

  /** A subscriber's stream: an optional first event, then the queue. */
  datatype Subscription = Subscription(first: Option<Payload>, queue: Queue)

  class Runs {
    /** null marks a reservation that is not started yet. */
    var runs: map<ConversationId, LiveRun?>

    /** Different conversations share neither their run nor a queue. */
    ghost predicate Valid()
      reads this, runs.Values, set c, q | c in runs && runs[c] != null && q in runs[c].queues :: q
    {
      forall c, d :: c in runs && d in runs && c != d && runs[c] != null && runs[d] != null ==>
        runs[c] != runs[d] && runs[c].queues !! runs[d].queues
    }

    ghost function State(): map<ConversationId, Option<Run>>
      reads this, runs.Values
    {
      map c | c in runs :: if runs[c] == null then None else Some(runs[c].Value())
    }

    /** Every queue registered now. */
    ghost function Queues(): set<Queue>
      reads this, runs.Values
    {
      set c, q | c in runs && runs[c] != null && q in runs[c].queues :: q
    }

    constructor ()
      ensures Valid() && State() == map[]
    {
      runs := map[];
    }

    method Reserve(c: ConversationId) returns (busy: bool)
      requires Valid()
      modifies this
      ensures Valid()
      ensures busy == (c in old(State()))
      ensures State() == if busy then old(State()) else old(State())[c := None]
    {
      busy := c in runs;
      if !busy {
        runs := runs[c := null];
      }
    }

    method Release(c: ConversationId)
      requires Valid()
      modifies this
      ensures Valid()
      ensures State() == if c in old(State()) && old(State())[c] == None then old(State()) - {c} else old(State())
    {
      if c in runs && runs[c] == null {
        runs := runs - {c};
      }
    }

    method Start(c: ConversationId, owner: string, message: MessageId)
      requires Valid()
      modifies this
      ensures Valid()
      ensures State() == old(State())[c := Some(NewRun(owner, message))]
      ensures c in runs && fresh(runs[c]) && runs[c].queues == {} && runs == old(runs)[c := runs[c]]
    {
      var run := new LiveRun(owner, message);
      runs := runs[c := run];
    }

    method Running(owner: string) returns (found: set<ConversationId>)
      ensures found == set c | c in State() && State()[c].Some? && State()[c].value.owner == owner
    {
      found := set c | c in runs && runs[c] != null && runs[c].owner == owner;
    }

    /** A later subscriber gets every later event and, if wanted, the texts so far. */
    method Subscribe(owner: string, c: ConversationId, snapshot: bool) returns (s: Option<Subscription>)
      requires Valid()
      modifies if c in runs && runs[c] != null then {runs[c]} else {}
      ensures Valid() && State() == old(State())
      ensures s.Some? <==> c in State() && State()[c].Some? && State()[c].value.owner == owner
      ensures s.Some? ==>
                && s.value.queue in runs[c].queues && fresh(s.value.queue) && s.value.queue.items == []
                && runs[c].queues == old(runs[c].queues) + {s.value.queue}
                && s.value.first == (if snapshot then Some(Snapshot(runs[c].reasoning, runs[c].content)) else None)
      ensures s.None? ==> Queues() == old(Queues())
    {
      if c !in runs || runs[c] == null || runs[c].owner != owner {
        return None;
      }
      var run := runs[c];
      var queue := new Queue();
      run.queues := run.queues + {queue};
      var first := if snapshot then Some(Snapshot(run.reasoning, run.content)) else None;
      s := Some(Subscription(first, queue));
      assert runs[c].Value() == old(runs[c].Value());
    }

    /** A client that leaves only unsubscribes; the run goes on. */
    method Unsubscribe(c: ConversationId, queue: Queue)
      requires Valid() && c in runs && runs[c] != null
      modifies runs[c]
      ensures Valid() && State() == old(State())
      ensures runs[c].queues == old(runs[c].queues) - {queue}
    {
      runs[c].queues := runs[c].queues - {queue};
    }

    method Stop(owner: string, c: ConversationId) returns (found: bool)
      requires Valid()
      modifies if c in runs && runs[c] != null then {runs[c]} else {}
      ensures Valid()
      ensures found == (c in old(State()) && old(State())[c].Some? && old(State())[c].value.owner == owner)
      ensures State() == if found then old(State())[c := Some(StopRun(old(State())[c].value))] else old(State())
      ensures Queues() == old(Queues()) && forall q :: q in Queues() ==> q.items == old(q.items)
      ensures forall d :: d in runs && runs[d] != null ==> runs[d].queues == old(runs[d].queues)
    {
      if c !in runs || runs[c] == null || runs[c].owner != owner {
        return false;
      }
      var run := runs[c];
      if !run.stopped {
        run.stopped := true;
        run.early := BeforeEnd(run.phase);
        if run.cancellable {
          run.cancelling := true;
        }
      }
      OnlyRun(c);
      return true;
    }

    /** A step on one run leaves every other entry as it was. */
    twostate lemma OnlyRun(c: ConversationId)
      requires old(Valid()) && runs == old(runs) && c in runs && runs[c] != null
      requires forall d :: d in runs && d != c && runs[d] != null ==> unchanged(runs[d])
      requires runs[c].queues == old(runs[c].queues)
      ensures Valid() && Queues() == old(Queues())
      ensures State() == old(State())[c := Some(runs[c].Value())]
    {
      assert forall d :: d in runs && runs[d] != null ==> runs[d].queues == old(runs[d].queues);
      forall d | d in runs && d != c && runs[d] != null ensures runs[d].Value() == old(runs[d].Value()) {
        assert unchanged(runs[d]);
      }
    }

    // ---------- one run, from one await to the next ----------

    ghost predicate Has(c: ConversationId)
      reads this
    {
      c in runs && runs[c] != null
    }

    /** A step turned the run into `next` and delivered what it published to exactly its queues. */
    twostate predicate Stepped(c: ConversationId, next: Run)
      requires old(Has(c))
      reads *
    {
      && Valid() && runs == old(runs) && Queues() == old(Queues()) && runs[c].queues == old(runs[c].queues)
      && State() == old(State())[c := Some(next)]
      && old(runs[c].hist) <= next.hist
      && Delivered(c, next.hist[|old(runs[c].hist)|..])
    }

    twostate predicate Delivered(c: ConversationId, published: seq<Payload>)
      requires old(Has(c))
      reads *
    {
      forall q :: q in old(Queues()) ==>
        q.items == old(q.items) + if q in old(runs[c].queues) then published else []
    }

    /** The first step of a run. */
    method BeginTask(c: ConversationId)
      requires Valid() && Has(c) && runs[c].phase.Created?
      modifies runs[c]
      ensures Stepped(c, Begin(old(runs[c].Value())))
    {
      var run := runs[c];
      if !run.stopped {
        run.cancellable := true;
        run.phase := Streaming;
      } else {
        run.phase := Saving(Stopped, None);
      }
      OnlyRun(c);
    }

    method TakeProgress(c: ConversationId, processed: nat, total: nat)
      requires Valid() && Has(c) && runs[c].phase.Streaming? && !runs[c].cancelling
      modifies runs[c], runs[c].queues
      ensures Stepped(c, OnProgress(old(runs[c].Value()), processed, total))
    {
      runs[c].Publish(Progress(processed, total));
      OnlyRun(c);
    }

    /** Adds a delta to its text, publishes it, and starts a flush when one is due. */
    method TakeDelta(c: ConversationId, kind: Kind, text: string, flushDue: bool)
      requires Valid() && Has(c) && runs[c].phase.Streaming? && !runs[c].cancelling
      modifies runs[c], runs[c].queues
      ensures Stepped(c, OnDelta(old(runs[c].Value()), kind, text, flushDue))
    {
      var run := runs[c];
      if kind == Content {
        run.content := run.content + text;
      } else {
        run.reasoning := run.reasoning + text;
      }
      run.Publish(Delta(kind, text));
      if flushDue {
        run.phase := Flushing;
      }
      assert run.Value() == OnDelta(old(runs[c].Value()), kind, text, flushDue);
      OnlyRun(c);
    }

    method FlushReturnsTo(c: ConversationId)
      requires Valid() && Has(c) && runs[c].phase.Flushing? && !runs[c].cancelling
      modifies runs[c]
      ensures Stepped(c, FlushReturns(old(runs[c].Value())))
    {
      runs[c].phase := Streaming;
      OnlyRun(c);
    }

    /** The stream is over, and the final save starts. */
    method StreamEnds(c: ConversationId)
      requires Valid() && Has(c) && runs[c].phase.Streaming? && !runs[c].cancelling
      modifies runs[c]
      ensures Stepped(c, EndStream(old(runs[c].Value())))
    {
      runs[c].cancellable := false;
      runs[c].phase := Saving(Complete, None);
      OnlyRun(c);
    }

    method StreamFails(c: ConversationId, reason: string)
      requires Valid() && Has(c) && runs[c].phase.Streaming? && !runs[c].cancelling
      modifies runs[c], runs[c].queues
      ensures Stepped(c, FailStream(old(runs[c].Value()), reason))
    {
      var run := runs[c];
      run.cancellable := false;
      run.phase := Saving(Error, Some(reason));
      if reason != "" {
        run.Publish(Failed(reason));
      }
      OnlyRun(c);
    }

    /** The cancel is raised at the await in the stream or in the flush, and swallowed. */
    method CancelReaches(c: ConversationId)
      requires Valid() && Has(c) && runs[c].cancelling
      modifies runs[c]
      ensures Stepped(c, CancelArrives(old(runs[c].Value())))
    {
      var run := runs[c];
      run.cancelling := false;
      run.cancellable := false;
      run.phase := Saving(Stopped, None);
      OnlyRun(c);
    }

    /** The final save is over, well or badly: no await between `done` and the removal. */
    method FinishTask(c: ConversationId)
      requires Valid() && Has(c) && runs[c].phase.Saving?
      modifies this, runs[c], runs[c].queues
      ensures Valid() && State() == old(State()) - {c}
      ensures Delivered(c, [Done(DoneMessage(old(runs[c].Value())))])
      ensures runs == old(runs) - {c} && forall d :: Has(d) ==> runs[d].queues == old(runs[d].queues)
    {
      var run := runs[c];
      var message := Message(run.message, Assistant, run.content, OrNone(run.reasoning),
                             run.phase.status, run.phase.error);
      assert message == DoneMessage(run.Value());
      hide DoneMessage;
      run.Publish(Done(message));
      OnlyRun(c);
      Remove(c);
    }

    method Remove(c: ConversationId)
      requires Valid()
      modifies this
      ensures Valid() && State() == old(State()) - {c} && runs == old(runs) - {c}
    {
      runs := runs - {c};
    }
  }
}
