/** What the chat page shows, and how one event of the stream changes it. */
module ChatView {
  import opened Text
  import opened ReplyRun

  datatype Conversation = Conversation(id: ConversationId, streaming: bool, messages: seq<Message>)

  /** The store's refs and variables. `ctrl` is the controller of the stream being followed. */
  datatype Store = Store(current: Option<Conversation>, streaming: bool, progress: Option<(nat, nat)>,
                         loading: bool, error: Option<string>, ctrl: Option<nat>, openSeq: nat, aborted: set<nat>)

  /** `msgs.findIndex(m => m.id === id)`, from `from` on. */
  function FindFrom(messages: seq<Message>, id: MessageId, from: nat): (i: int)
    ensures i == -1 || (from <= i < |messages| && messages[i].id == id)
    ensures forall k :: from <= k < |messages| && (i < 0 || k < i) ==> messages[k].id != id
    decreases |messages| - from
  {
    if from >= |messages| then -1 else if messages[from].id == id then from else FindFrom(messages, id, from + 1)
  }

  /** Deltas go to the last message, if it is an assistant's. */
  predicate EndsWithAssistant(c: Option<Conversation>) {
    c.Some? && c.value.messages != [] && c.value.messages[|c.value.messages| - 1].role == Assistant
  }

  function WithLast(c: Conversation, m: Message): Conversation
    requires c.messages != []
  {
    c.(messages := c.messages[|c.messages| - 1 := m])
  }

  function OnLast(s: Store, f: Message -> Message): Store {
    if EndsWithAssistant(s.current)
    then s.(current := Some(WithLast(s.current.value, f(s.current.value.messages[|s.current.value.messages| - 1]))))
    else s
  }

  function OrEmpty(text: Option<string>): string {
    match text case None => "" case Some(t) => t
  }

  /** `apply(ev)`. */
  function Show(s: Store, e: Payload): Store {
    match e
    case Started(id, user, assistant) =>
      var c := if s.current.Some? && s.current.value.id == id then s.current.value else Conversation(id, true, []);
      var asked := match user case None => [] case Some(m) => [m];
      var blank := Message(assistant, Assistant, "", None, InProgress, None);
      s.(current := Some(c.(messages := c.messages + asked + [blank])))
    case Snapshot(reasoning, content) =>
      OnLast(s, (m: Message) => m.(content := content, reasoning := OrNone(reasoning)))
    case Progress(processed, total) => s.(progress := Some((processed, total)))
    case Delta(kind, text) =>
      if kind == Reasoning
      then OnLast(s, (m: Message) => m.(reasoning := Some(OrEmpty(m.reasoning) + text)))
      else OnLast(s, (m: Message) => m.(content := m.content + text))
    case Failed(reason) =>
      OnLast(s, (m: Message) => m.(status := Error, error := Some(reason))).(streaming := false)
    case Done(message) =>
      var shown :=
        match s.current
        case None => None
        case Some(c) =>
          var i := FindFrom(c.messages, message.id, 0);
          Some(c.(messages := if i >= 0 then c.messages[i := message] else c.messages + [message]));
      s.(current := shown, streaming := false, progress := None)
  }

  function ShowAll(s: Store, events: seq<Payload>): Store {
    if events == [] then s else Show(ShowAll(s, events[..|events| - 1]), events[|events| - 1])
  }

  lemma {:induction false} ShowAllConcat(s: Store, a: seq<Payload>, b: seq<Payload>)
    ensures ShowAll(s, a + b) == ShowAll(ShowAll(s, a), b)
  {
    hide Show;
    if b == [] {
      assert a + b == a;
    } else {
      assert (a + b)[..|a + b| - 1] == a + b[..|b| - 1];
      ShowAllConcat(s, a, b[..|b| - 1]);
    }
  }

  /** The page's last message is the assistant message `m`, which it shows only there. */
  predicate EndsWith(s: Store, m: MessageId) {
    && EndsWithAssistant(s.current)
    && var messages := s.current.value.messages;
       messages[|messages| - 1].id == m && forall k :: 0 <= k < |messages| - 1 ==> messages[k].id != m
  }

  /** It does, and with exactly these texts (null read as empty). */
  predicate Tracks(s: Store, m: MessageId, reasoning: string, content: string) {
    && EndsWith(s, m)
    && var last := s.current.value.messages[|s.current.value.messages| - 1];
       last.content == content && OrEmpty(last.reasoning) == reasoning
  }

  lemma ShowTracks(s: Store, m: MessageId, hist: seq<Payload>, e: Payload)
    requires Tracks(s, m, TextOf(Reasoning, hist), TextOf(Content, hist))
    requires e.Progress? || e.Delta? || e.Failed?
    ensures Tracks(Show(s, e), m, TextOf(Reasoning, hist + [e]), TextOf(Content, hist + [e]))
  {
    TextOfSnoc(Reasoning, hist, e);
    TextOfSnoc(Content, hist, e);
    hide TextOf;
    var r, c := TextOf(Reasoning, hist), TextOf(Content, hist);
    assert r + "" == r && c + "" == c;
  }

  /** Following the published events from any moment on keeps the page exact after each of them. */
  lemma {:induction false} ShowAllTracks(s: Store, m: MessageId, before: seq<Payload>, events: seq<Payload>)
    requires Tracks(s, m, TextOf(Reasoning, before), TextOf(Content, before))
    requires forall e :: e in events ==> e.Progress? || e.Delta? || e.Failed?
    ensures Tracks(ShowAll(s, events), m, TextOf(Reasoning, before + events), TextOf(Content, before + events))
  {
    hide TextOf, Tracks, Show;
    if events == [] {
      assert before + events == before;
    } else {
      var n := |events| - 1;
      assert events[n] in events;
      ShowAllTracks(s, m, before, events[..n]);
      ShowTracks(ShowAll(s, events[..n]), m, before + events[..n], events[n]);
      assert before + events[..n] + [events[n]] == before + events;
    }
  }

  /** A reattaching page becomes exact with the snapshot, whatever texts it had fetched. */
  lemma SnapshotTracks(s: Store, m: MessageId, reasoning: string, content: string)
    requires EndsWith(s, m)
    ensures Tracks(Show(s, Snapshot(reasoning, content)), m, reasoning, content)
  {
  }

  predicate HasNo(s: Store, id: ConversationId, m: MessageId) {
    s.current.Some? && s.current.value.id == id ==> forall x :: x in s.current.value.messages ==> x.id != m
  }

  /** The page that asked shows what it showed of this conversation, then the question, then an empty reply. */
  lemma StartTracks(s: Store, id: ConversationId, user: Option<Message>, m: MessageId)
    requires HasNo(s, id, m) && (user.Some? ==> user.value.id != m)
    ensures Tracks(Show(s, Started(id, user, m)), m, "", "")
    ensures var shown := if s.current.Some? && s.current.value.id == id then s.current.value.messages else [];
            var asked := if user.Some? then [user.value] else [];
            var t := Show(s, Started(id, user, m)).current.value;
            t.id == id && |t.messages| == |shown| + |asked| + 1 && shown + asked <= t.messages
  {
    var t := Show(s, Started(id, user, m));
    var messages := t.current.value.messages;
    forall k | 0 <= k < |messages| - 1 ensures messages[k].id != m {
      assert s.current.Some? && s.current.value.id == id && k < |s.current.value.messages| ==>
          messages[k] == s.current.value.messages[k] && messages[k] in s.current.value.messages;
    }
  }

  /** `done` puts the published message in place of the streamed one. */
  lemma DoneShows(s: Store, m: MessageId, reasoning: string, content: string, message: Message)
    requires Tracks(s, m, reasoning, content) && message.id == m
    ensures var t := Show(s, Done(message));
            && t.current == Some(WithLast(s.current.value, message))
            && !t.streaming && t.progress == None
  {
    var messages := s.current.value.messages;
    assert messages[|messages| - 1].id == m;
    assert FindFrom(messages, m, 0) == |messages| - 1;
  }

  // ---------- one event, field by field ----------

  /** The page's refs other than the conversation. */
  predicate SameRest(s: Store, t: Store) {
    t.loading == s.loading && t.error == s.error && t.ctrl == s.ctrl && t.openSeq == s.openSeq && t.aborted == s.aborted
  }

  /** A snapshot, a delta or an error goes into the last message alone, and only if it is an assistant's: a
      snapshot replaces both texts, a delta is put behind one of them, an error marks it and ends the streaming. */
  lemma LastMessageAfter(s: Store, e: Payload)
    requires e.Snapshot? || e.Delta? || e.Failed?
    ensures var t := Show(s, e);
      && SameRest(s, t) && t.progress == s.progress && t.streaming == (s.streaming && !e.Failed?)
      && (!EndsWithAssistant(s.current) ==> t.current == s.current)
      && (s.current.Some? && s.current.value.messages != []
          && s.current.value.messages[|s.current.value.messages| - 1].role == Assistant ==>
            var c, n := s.current.value, |s.current.value.messages| - 1;
            && t.current.Some? && t.current.value.id == c.id && t.current.value.streaming == c.streaming
            && |t.current.value.messages| == n + 1 && t.current.value.messages[..n] == c.messages[..n]
            && var was, last := c.messages[n], t.current.value.messages[n];
            && last.id == was.id && last.role == Assistant
            && last.content == (if e.Snapshot? then e.content
                                else if e.Delta? && e.kind == Content then was.content + e.text else was.content)
            && last.status == (if e.Failed? then Error else was.status)
            && last.error == (if e.Failed? then Some(e.reason) else was.error)
            && (e.Snapshot? ==> last.reasoning == if e.reasoning == "" then None else Some(e.reasoning))
            && (e.Delta? && e.kind == Reasoning ==>
                  last.reasoning == Some((if was.reasoning.Some? then was.reasoning.value else "") + e.text))
            && (e.Failed? || (e.Delta? && e.kind == Content) ==> last.reasoning == was.reasoning))
  {
  }

  /** Progress is shown beside the conversation; `done` replaces the message of its id, the first there is, or
      comes behind the others, and ends streaming and progress. */
  lemma OtherEvents(s: Store, e: Payload)
    requires e.Progress? || e.Done?
    ensures var t := Show(s, e);
      && SameRest(s, t)
      && (e.Progress? ==>
            t.current == s.current && t.streaming == s.streaming && t.progress == Some((e.processed, e.total)))
      && (e.Done? ==>
            && !t.streaming && t.progress == None && t.current.Some? == s.current.Some?
            && (s.current.Some? ==>
                  var before, after := s.current.value.messages, t.current.value.messages;
                  && t.current.value.id == s.current.value.id
                  && t.current.value.streaming == s.current.value.streaming
                  && ((forall k :: 0 <= k < |before| ==> before[k].id != e.message.id) ==>
                        after == before + [e.message])
                  && (forall i :: 0 <= i < |before| && before[i].id == e.message.id
                                  && (forall k :: 0 <= k < i ==> before[k].id != e.message.id) ==>
                        after == before[i := e.message])))
  {
  }

  /** `start` leaves the other refs, and begins a conversation that streams unless it is shown already. */
  lemma StartLeaves(s: Store, id: ConversationId, user: Option<Message>, m: MessageId)
    ensures var t := Show(s, Started(id, user, m));
      && SameRest(s, t) && t.streaming == s.streaming && t.progress == s.progress && t.current.Some?
      && t.current.value.streaming
         == (if s.current.Some? && s.current.value.id == id then s.current.value.streaming else true)
      && var messages := t.current.value.messages;
         messages != [] && messages[|messages| - 1] == Message(m, Assistant, "", None, InProgress, None)
  {
  }
}
