/** One reply run: the state of its task between two awaits, and what each step does to it. */
module ReplyRun {
  import opened Text

  type ConversationId = nat
  type MessageId = nat

  datatype Status = InProgress | Complete | Stopped | Error

  datatype Role = User | Assistant

  datatype Message = Message(id: MessageId, role: Role, content: string, reasoning: Option<string>,
                             status: Status, error: Option<string>)

  datatype Kind = Reasoning | Content

  datatype Payload =
    | Started(conversation: ConversationId, user: Option<Message>, assistant: MessageId)
    | Snapshot(reasoning: string, content: string)
    | Progress(processed: nat, total: nat)
    | Delta(kind: Kind, text: string)
    | Failed(reason: string)
    | Done(message: Message)

  /** Where its task is suspended: before its first step, in the model's stream, in the thread of a
      periodic flush, or in the thread of the final save. */
  datatype Phase = Created | Streaming | Flushing | Saving(status: Status, error: Option<string>)

  /** `cancelling`: a cancel is to be raised at the await where its task is suspended. `early`
      records that a stop came before the streaming ended; `hist` is everything published. */
  datatype Run = Run(owner: string, message: MessageId, content: string, reasoning: string,
                     stopped: bool, cancellable: bool, phase: Phase,
                     cancelling: bool, early: bool, hist: seq<Payload>)

  function NewRun(owner: string, message: MessageId): Run {
    Run(owner, message, "", "", false, false, Created, false, false, [])
  }

  /** Python's `text or None`. */
  function OrNone(text: string): Option<string> {
    if text == "" then None else Some(text)
  }

  predicate BeforeEnd(phase: Phase) {
    !phase.Saving?
  }

  predicate InStream(phase: Phase) {
    phase.Streaming? || phase.Flushing?
  }

  // ---------- the steps ----------

  function StopRun(r: Run): Run {
    if r.stopped then r
    else r.(stopped := true, cancelling := r.cancelling || r.cancellable, early := BeforeEnd(r.phase))
  }

  /** The task's first step. */
  function Begin(r: Run): Run
    requires r.phase.Created?
  {
    if r.stopped then r.(phase := Saving(Stopped, None)) else r.(cancellable := true, phase := Streaming)
  }

  function OnProgress(r: Run, processed: nat, total: nat): Run {
    r.(hist := r.hist + [Progress(processed, total)])
  }

  /** A delta is added and published, and then perhaps flushed. */
  function OnDelta(r: Run, kind: Kind, text: string, flush: bool): Run {
    r.(content := if kind == Content then r.content + text else r.content,
       reasoning := if kind == Reasoning then r.reasoning + text else r.reasoning,
       hist := r.hist + [Delta(kind, text)],
       phase := if flush then Flushing else Streaming)
  }

  function FlushReturns(r: Run): Run {
    r.(phase := Streaming)
  }

  function EndStream(r: Run): Run {
    r.(cancellable := false, phase := Saving(Complete, None))
  }

  /** An empty error text is not published, as `if error` is false for it. */
  function FailStream(r: Run, reason: string): Run {
    r.(cancellable := false, phase := Saving(Error, Some(reason)),
       hist := if reason == "" then r.hist else r.hist + [Failed(reason)])
  }

  /** The cancel is swallowed: the run ends as stopped. */
  function CancelArrives(r: Run): Run {
    r.(cancellable := false, cancelling := false, phase := Saving(Stopped, None))
  }

  function DoneMessage(r: Run): Message
    requires r.phase.Saving?
  {
    Message(r.message, Assistant, r.content, OrNone(r.reasoning), r.phase.status, r.phase.error)
  }

  function Finish(r: Run): Run
    requires r.phase.Saving?
  {
    r.(hist := r.hist + [Done(DoneMessage(r))])
  }

  // ---------- what the published events say ----------

  function TextOf(kind: Kind, hist: seq<Payload>): string {
    if hist == [] then ""
    else
      var e := hist[|hist| - 1];
      TextOf(kind, hist[..|hist| - 1]) + (if e.Delta? && e.kind == kind then e.text else "")
  }

  lemma TextOfSnoc(kind: Kind, hist: seq<Payload>, e: Payload)
    ensures TextOf(kind, hist + [e]) == TextOf(kind, hist) + (if e.Delta? && e.kind == kind then e.text else "")
  {
    assert (hist + [e])[..|hist|] == hist;
  }

  /** A run is always consistent: what it published adds up to its texts, it is cancellable
      exactly while streaming, and a stop that finds it streaming is on its way to it. */
  ghost predicate Sound(r: Run) {
    && r.content == TextOf(Content, r.hist)
    && r.reasoning == TextOf(Reasoning, r.hist)
    && (forall e :: e in r.hist ==> e.Progress? || e.Delta? || e.Failed?)
    && r.cancellable == InStream(r.phase)
    && r.cancelling == (r.stopped && InStream(r.phase))
    && (r.early ==> r.stopped)
    && (BeforeEnd(r.phase) ==> r.early == r.stopped && !exists reason :: Failed(reason) in r.hist)
    && (r.phase.Created? ==> r.hist == [])
    && (r.phase.Saving? ==>
          && (r.phase.status == Stopped <==> r.early)
          && r.phase.status != InProgress
          && (r.phase.error.Some? <==> r.phase.status == Error)
          && (forall reason :: Failed(reason) in r.hist <==> r.phase.error == Some(reason) && reason != ""))
  }

  lemma NewRunSound(owner: string, message: MessageId)
    ensures Sound(NewRun(owner, message))
  {
  }

  lemma StopSound(r: Run)
    requires Sound(r)
    ensures Sound(StopRun(r))
  {
  }

  lemma BeginSound(r: Run)
    requires Sound(r) && r.phase.Created?
    ensures Sound(Begin(r))
  {
  }

  lemma PublishSound(r: Run, e: Payload)
    requires Sound(r) && r.phase.Streaming? && !r.cancelling
    ensures e.Progress? ==> Sound(OnProgress(r, e.processed, e.total))
    ensures forall flush :: e.Delta? ==> Sound(OnDelta(r, e.kind, e.text, flush))
    ensures e.Failed? ==> Sound(FailStream(r, e.reason))
  {
    TextOfSnoc(Content, r.hist, e);
    TextOfSnoc(Reasoning, r.hist, e);
    hide TextOf;
    assert r.content + "" == r.content && r.reasoning + "" == r.reasoning;
    assert forall x :: x in r.hist + [e] <==> x in r.hist || x == e;
  }

  lemma QuietSound(r: Run)
    requires Sound(r)
    ensures r.phase.Flushing? && !r.cancelling ==> Sound(FlushReturns(r))
    ensures r.phase.Streaming? && !r.cancelling ==> Sound(EndStream(r))
    ensures r.cancelling ==> InStream(r.phase) && Sound(CancelArrives(r))
  {
  }
}
