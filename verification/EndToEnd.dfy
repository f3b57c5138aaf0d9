/** From the server's run to the reader's page: every event, in any chunks, joining at any moment. */
module EndToEnd {
  import opened Text
  import EventStream
  import EventWire
  import opened ReplyRun
  import opened ChatWorld
  import ChatSafety
  import ChatRuns
  import opened ChatView
  import ChatStore

  // ---------- one subscriber's stream ----------

  /** What a subscriber's response carries, up to `k` events from its queue: the one who asked gets
      `start` first, one who reattaches the snapshot. */
  function Stream(x: Subscriber, user: Option<Message>, k: nat): seq<Payload>
    requires k <= |x.put|
  {
    [match x.first case Some(e) => e case None => Started(x.conversation, user, x.message)] + x.put[..k]
  }

  /** The page that asks does not know the new reply yet; one that reattaches ends with it. */
  predicate Ready(page: Store, x: Subscriber, user: Option<Message>) {
    if x.first.Some? then EndsWith(page, x.message)
    else HasNo(page, x.conversation, x.message) && (user.Some? ==> user.value.id != x.message)
  }

  /** What one run publishes: deltas and notices, and perhaps at last a `done` that repeats the texts. */
  ghost predicate Published(hist: seq<Payload>, m: MessageId) {
    forall i :: 0 <= i < |hist| ==>
      || hist[i].Progress? || hist[i].Delta? || hist[i].Failed?
      || (hist[i].Done? && i == |hist| - 1 && hist[i].message.id == m && hist[i].message.role == Assistant
          && hist[i].message.content == TextOf(Content, hist)
          && hist[i].message.reasoning == OrNone(TextOf(Reasoning, hist)))
  }

  /** What a subscriber has got of it. */
  ghost predicate Hears(x: Subscriber, hist: seq<Payload>) {
    && x.from <= |hist| && x.put <= hist[x.from..]
    && (x.first.None? ==> x.from == 0)
    && (x.first.Some? ==>
          x.first.value == Snapshot(TextOf(Reasoning, hist[..x.from]), TextOf(Content, hist[..x.from])))
  }

  /** Every subscriber of the service hears the history of the run it subscribed to. */
  lemma SubscriberHears(w: World, s: SubscriberId)
    requires Inv(w) && s in w.subscribers
    ensures var x := w.subscribers[s];
            && (Live(w, x.conversation, x.message) || x.message in w.ended)
            && Hears(x, HistoryOf(w, x)) && Published(HistoryOf(w, x), x.message)
  {
    hide LateInv, RequestsInv, TextOf;
    assert SubscriberOk(w, s);
    hide SubscribersInv;
    var x := w.subscribers[s];
    if Live(w, x.conversation, x.message) {
      assert RunOk(w, x.conversation);
      hide Inv, RunsInv, EndedInv;
      SoundPublished(RunAt(w, x.conversation));
    } else {
      assert EndedOk(w, x.message);
      hide Inv, RunsInv, EndedInv;
      EndedPublished(w.ended[x.message].run, w.ended[x.message].verdict);
    }
  }

  lemma SoundPublished(r: Run)
    requires Sound(r)
    ensures Published(r.hist, r.message)
  {
    assert forall i :: 0 <= i < |r.hist| ==> r.hist[i] in r.hist;
  }

  lemma EndedPublished(r: Run, v: Verdict)
    requires EndedWell(r, v)
    ensures Published(r.hist, r.message)
  {
    var n := |r.hist| - 1;
    var before := r.hist[..n];
    assert forall i :: 0 <= i < n ==> before[i] in before && before[i] == r.hist[i];
    assert r.hist == before + [r.hist[n]];
    TextOfSnoc(Content, before, r.hist[n]);
    TextOfSnoc(Reasoning, before, r.hist[n]);
    assert r.content + "" == r.content && r.reasoning + "" == r.reasoning;
  }

  // ---------- the page behind the stream ----------

  lemma FirstTracks(page: Store, x: Subscriber, user: Option<Message>, hist: seq<Payload>)
    requires Ready(page, x, user) && Hears(x, hist)
    ensures Tracks(ShowAll(page, Stream(x, user, 0)),
                   x.message, TextOf(Reasoning, hist[..x.from]), TextOf(Content, hist[..x.from]))
  {
    var s := Stream(x, user, 0);
    assert s == [s[0]] && s[..0] == [];
    assert ShowAll(page, s) == Show(page, s[0]);
    if x.first.Some? {
      hide TextOf;
      SnapshotTracks(page, x.message, x.first.value.reasoning, x.first.value.content);
    } else {
      assert hist[..0] == [];
      StartTracks(page, x.conversation, user, x.message);
    }
  }

  /** After each event the page shows exactly the server's texts as of that event. */
  lemma PageFollows(x: Subscriber, hist: seq<Payload>, page: Store, user: Option<Message>, k: nat)
    requires Hears(x, hist) && Published(hist, x.message) && Ready(page, x, user)
    requires k <= |x.put| && (k > 0 ==> !x.put[k - 1].Done?)
    ensures x.from + k <= |hist|
    ensures var seen := hist[..x.from + k];
            Tracks(ShowAll(page, Stream(x, user, k)), x.message, TextOf(Reasoning, seen), TextOf(Content, seen))
  {
    hide TextOf, Tracks, Ready, Show, ShowAll;
    FirstTracks(page, x, user, hist);
    var before := hist[..x.from];
    var events := x.put[..k];
    assert before + events == hist[..x.from + k];
    forall e | e in events ensures e.Progress? || e.Delta? || e.Failed? {
      var i :| 0 <= i < k && events[i] == e;
      assert e == hist[x.from + i];
      assert i < k - 1 ==> x.from + i < |hist| - 1;
    }
    ShowAllTracks(ShowAll(page, Stream(x, user, 0)), x.message, before, events);
    assert Stream(x, user, k) == Stream(x, user, 0) + events;
    ShowAllConcat(page, Stream(x, user, 0), events);
  }

  /** With `done` the page shows exactly the message that the run published, which repeats the texts. */
  lemma PageShowsDone(x: Subscriber, hist: seq<Payload>, page: Store, user: Option<Message>)
    requires Hears(x, hist) && Published(hist, x.message) && Ready(page, x, user)
    requires x.put != [] && x.put[|x.put| - 1].Done?
    ensures var t := ShowAll(page, Stream(x, user, |x.put|));
            && EndsWithAssistant(t.current)
            && t.current.value.messages[|t.current.value.messages| - 1] == x.put[|x.put| - 1].message
            && x.put[|x.put| - 1].message.content == TextOf(Content, hist)
            && x.put[|x.put| - 1].message.reasoning == OrNone(TextOf(Reasoning, hist))
            && !t.streaming && t.progress == None
  {
    hide TextOf, Ready, Published, Hears, ShowAll, Stream, EndsWithAssistant, Tracks, Show;
    var k := |x.put| - 1;
    var e := x.put[k];
    DoneIsLast(x, hist);
    PageFollows(x, hist, page, user, k);
    LastShown(page, Stream(x, user, k), e);
    StreamGrows(x, user, k);
    var seen := hist[..x.from + k];
    DoneTracks(ShowAll(page, Stream(x, user, k)), x.message, TextOf(Reasoning, seen), TextOf(Content, seen), e.message);
  }

  lemma DoneTracks(s: Store, m: MessageId, reasoning: string, content: string, message: Message)
    requires Tracks(s, m, reasoning, content) && message.id == m && message.role == Assistant
    ensures var t := Show(s, Done(message));
            && EndsWithAssistant(t.current) && t.current.value.messages[|t.current.value.messages| - 1] == message
            && !t.streaming && t.progress == None
  {
    DoneShows(s, m, reasoning, content, message);
  }

  lemma StreamGrows(x: Subscriber, user: Option<Message>, k: nat)
    requires k < |x.put|
    ensures Stream(x, user, k + 1) == Stream(x, user, k) + [x.put[k]]
  {
    assert x.put[..k + 1] == x.put[..k] + [x.put[k]];
  }

  lemma DoneIsLast(x: Subscriber, hist: seq<Payload>)
    requires Hears(x, hist) && Published(hist, x.message)
    requires x.put != [] && x.put[|x.put| - 1].Done?
    ensures var k := |x.put| - 1;
            var said := x.put[k].message;
            && (k > 0 ==> !x.put[k - 1].Done?)
            && said.id == x.message && said.role == Assistant
            && said.content == TextOf(Content, hist) && said.reasoning == OrNone(TextOf(Reasoning, hist))
  {
    hide TextOf;
    var k := |x.put| - 1;
    assert x.put[k] == hist[x.from + k];
    assert k > 0 ==> x.put[k - 1] == hist[x.from + k - 1];
  }

  lemma LastShown(page: Store, events: seq<Payload>, e: Payload)
    ensures ShowAll(page, events + [e]) == Show(ShowAll(page, events), e)
  {
    hide Show;
    assert (events + [e])[..|events|] == events;
  }

  /** After `k` events of its queue the page shows the texts as of the last of them, or, when that
      is `done`, the message it carries, which repeats them. */
  ghost predicate Mirrors(x: Subscriber, hist: seq<Payload>, page: Store, user: Option<Message>, k: nat)
    requires k <= |x.put|
  {
    && x.from + k <= |hist|
    && var seen := hist[..x.from + k];
       var t := ShowAll(page, Stream(x, user, k));
       if k == 0 || !x.put[k - 1].Done?
       then Tracks(t, x.message, TextOf(Reasoning, seen), TextOf(Content, seen))
       else k == |x.put| && EndsWithAssistant(t.current)
            && t.current.value.messages[|t.current.value.messages| - 1] == x.put[k - 1].message
            && x.put[k - 1].message.content == TextOf(Content, seen)
            && x.put[k - 1].message.reasoning == OrNone(TextOf(Reasoning, seen))
  }

  /** Over every run of the service, for every subscriber, whenever it joined. */
  lemma EveryPageFollows(actions: seq<Action>, s: SubscriberId, page: Store, user: Option<Message>, k: nat)
    requires ChatRuns.Possible(EMPTY, actions)
    requires var w := ChatRuns.Exec(EMPTY, actions);
             s in w.subscribers && k <= |w.subscribers[s].put| && Ready(page, w.subscribers[s], user)
    ensures var w := ChatRuns.Exec(EMPTY, actions);
            var x := w.subscribers[s];
            && (Live(w, x.conversation, x.message) || x.message in w.ended)
            && Mirrors(x, HistoryOf(w, x), page, user, k)
  {
    hide *;
    ChatSafety.EmptyInv();
    ChatRuns.ExecInv(EMPTY, actions);
    var w := ChatRuns.Exec(EMPTY, actions);
    var x := w.subscribers[s];
    SubscriberHears(w, s);
    PageMirrors(x, HistoryOf(w, x), page, user, k);
  }

  lemma PageMirrors(x: Subscriber, hist: seq<Payload>, page: Store, user: Option<Message>, k: nat)
    requires Hears(x, hist) && Published(hist, x.message) && Ready(page, x, user) && k <= |x.put|
    ensures Mirrors(x, hist, page, user, k)
  {
    if k == 0 || !x.put[k - 1].Done? {
      PageFollows(x, hist, page, user, k);
    } else {
      assert x.put[k - 1] == hist[x.from + k - 1];
      assert hist[..|hist|] == hist;
      PageShowsDone(x, hist, page, user);
    }
  }

  // ---------- over the network ----------

  /** The printed events, in order. */
  function Printed(toEvent: Payload -> EventStream.Event, stream: seq<Payload>): (events: seq<EventStream.Event>)
    ensures |events| == |stream| && forall i :: 0 <= i < |stream| ==> events[i] == toEvent(stream[i])
  {
    seq(|stream|, i requires 0 <= i < |stream| => toEvent(stream[i]))
  }

  /** At any moment the client has read a prefix of what the server sent. */
  lemma ReadSoFar(chunks: seq<string>, n: nat, events: seq<EventStream.Event>)
    requires n <= |chunks| && EventWire.AllSendable(events) && Join(chunks) == EventWire.Wire(events)
    ensures EventStream.EventsOf(EventStream.Init(
        EventStream.Split(EventStream.BlankLine, Join(chunks[..n])))) <= events
    ensures EventStream.EventsOf(EventStream.Split(EventStream.BlankLine, Join(chunks))) == events
  {
    EventWire.ClientReadsBack(events);
    hide *;
    JoinPrefix(chunks, n);
    var received := Join(chunks[..n]);
    var rest := Join(chunks)[|received|..];
    assert received + rest == Join(chunks);
    EventStream.ResumeAll(received, rest);
    var pieces := EventStream.Split(EventStream.BlankLine, received);
    var later := EventStream.Split(EventStream.BlankLine, EventStream.Last(pieces) + rest);
    EventStream.EventsConcat(EventStream.Init(pieces), later);
  }

  /** Applies the events found in one chunk. */
  method ApplyFound(page: ChatStore.Page, mine: nat, found: seq<EventStream.Event>,
                    fromEvent: EventStream.Event -> Payload, ghost shown: seq<Payload>)
    requires |shown| == |found| && forall i :: 0 <= i < |found| ==> fromEvent(found[i]) == shown[i]
    requires page.ctrl == Some(mine)
    modifies page
    ensures page.ctrl == Some(mine) && page.Value() == ShowAll(old(page.Value()), shown)
  {
    hide Show;
    assert shown[..0] == [];
    for i := 0 to |found|
      invariant page.ctrl == Some(mine) && page.Value() == ShowAll(old(page.Value()), shown[..i])
    {
      LastShown(old(page.Value()), shown[..i], shown[i]);
      assert shown[..i] + [shown[i]] == shown[..i + 1];
      KeepsCtrl(page.Value(), shown[i]);
      var still := page.FollowOne(mine, fromEvent(found[i]));
    }
    assert shown[..|found|] == shown;
  }

  lemma KeepsCtrl(s: Store, e: Payload)
    ensures Show(s, e).ctrl == s.ctrl
  {
  }

  /** All events of what was received so far, the last unfinished frame included when it is over. */
  function EventsSoFar(received: string, done: bool): seq<EventStream.Event> {
    var pieces := EventStream.Split(EventStream.BlankLine, received);
    EventStream.EventsOf(if done then pieces else EventStream.Init(pieces))
  }

  ghost predicate Undone(stream: seq<Payload>, events: seq<EventStream.Event>,
                         fromEvent: EventStream.Event -> Payload) {
    |events| == |stream| && forall i :: 0 <= i < |stream| ==> fromEvent(events[i]) == stream[i]
  }

  /** One chunk: its events are read and applied. */
  method FollowChunk(page: ChatStore.Page, mine: nat, reader: EventStream.Reader, chunk: string, done: bool,
                     fromEvent: EventStream.Event -> Payload, ghost stream: seq<Payload>,
                     ghost events: seq<EventStream.Event>)
    requires reader.Valid() && page.ctrl == Some(mine) && Undone(stream, events, fromEvent)
    requires reader.yielded <= events && EventsSoFar(reader.received + chunk, done) <= events
    modifies page, reader
    ensures reader.received == old(reader.received) + chunk && (!done ==> reader.Valid())
    ensures reader.yielded == EventsSoFar(reader.received, done)
    ensures |old(reader.yielded)| <= |reader.yielded| && page.ctrl == Some(mine)
    ensures page.Value() == ShowAll(old(page.Value()), stream[|old(reader.yielded)|..|reader.yielded|])
  {
    hide EventStream.EventsOf, EventStream.Split, Show, ShowAll;
    ghost var n := |reader.yielded|;
    var found := reader.Read(chunk, done);
    assert forall i :: 0 <= i < |found| ==> found[i] == events[n + i];
    ApplyFound(page, mine, found, fromEvent, stream[n..n + |found|]);
  }

  /** Payloads that the printer makes sendable and the parser turns back. */
  ghost predicate Printable(stream: seq<Payload>, toEvent: Payload -> EventStream.Event,
                            fromEvent: EventStream.Event -> Payload)
  {
    forall e :: e in stream ==> EventWire.Sendable(toEvent(e)) && fromEvent(toEvent(e)) == e
  }

  lemma PrintedIsUndone(stream: seq<Payload>, toEvent: Payload -> EventStream.Event,
                        fromEvent: EventStream.Event -> Payload)
    requires Printable(stream, toEvent, fromEvent)
    ensures EventWire.AllSendable(Printed(toEvent, stream)) && Undone(stream, Printed(toEvent, stream), fromEvent)
  {
    assert forall i :: 0 <= i < |stream| ==> stream[i] in stream;
  }

  /** The first `n` chunks of a response, in any cutting: the page shows the events that are complete. */
  method FollowChunks(page: ChatStore.Page, mine: nat, reader: EventStream.Reader, chunks: seq<string>, n: nat,
                      fromEvent: EventStream.Event -> Payload, ghost stream: seq<Payload>,
                      ghost events: seq<EventStream.Event>)
    requires n <= |chunks| && EventWire.AllSendable(events) && Undone(stream, events, fromEvent)
    requires Join(chunks) == EventWire.Wire(events)
    requires page.ctrl == Some(mine) && reader.Valid() && reader.received == "" && reader.yielded == []
    modifies page, reader
    ensures reader.Valid() && reader.received == Join(chunks[..n]) && reader.yielded <= events
    ensures page.ctrl == Some(mine) && |reader.yielded| <= |stream|
    ensures page.Value() == ShowAll(old(page.Value()), stream[..|reader.yielded|])
    ensures n == |chunks| ==> reader.yielded == events
  {
    ShowNone(page.Value(), stream);
    hide EventStream.EventsOf, EventStream.Split, EventWire.AllSendable, EventWire.Wire, ShowAll;
    assert chunks[..0] == [];
    for i := 0 to n
      invariant reader.Valid() && reader.received == Join(chunks[..i])
      invariant reader.yielded <= events
      invariant page.ctrl == Some(mine) && page.Value() == ShowAll(old(page.Value()), stream[..|reader.yielded|])
    {
      assert chunks[..i] + [chunks[i]] == chunks[..i + 1];
      JoinSnoc(chunks[..i], chunks[i]);
      ReadSoFar(chunks, i + 1, events);
      ghost var before := |reader.yielded|;
      FollowChunk(page, mine, reader, chunks[i], false, fromEvent, stream, events);
      ShowMore(old(page.Value()), stream, before, |reader.yielded|);
    }
    if n == |chunks| {
      assert chunks[..n] == chunks;
      AllIsRead(events);
    }
  }

  /** What is printed ends with a blank line, so every event is complete before the response ends. */
  lemma AllIsRead(events: seq<EventStream.Event>)
    requires EventWire.AllSendable(events)
    ensures EventsSoFar(EventWire.Wire(events), false) == events
  {
    EventWire.ClientReadsBack(events);
    EventWire.LastPieceIsEmpty(events);
    hide EventStream.FrameEvents, EventStream.Split;
    var pieces := EventStream.Split(EventStream.BlankLine, EventWire.Wire(events));
    EventWire.EmptyFrameIsNone();
    assert EventStream.EventsOf(pieces) == EventStream.EventsOf(EventStream.Init(pieces)) + [];
  }

  /** A whole response, in any chunks, applied to the page event by event, by a printer and a parser
      of payloads that undo each other: the page shows the stream, then lets go of it. */
  method FollowResponse(page: ChatStore.Page, mine: nat, chunks: seq<string>, ghost stream: seq<Payload>,
                        ghost toEvent: Payload -> EventStream.Event, fromEvent: EventStream.Event -> Payload)
    requires Printable(stream, toEvent, fromEvent) && Join(chunks) == EventWire.Wire(Printed(toEvent, stream))
    requires page.ctrl == Some(mine)
    modifies page
    ensures page.Value() == ChatStore.FollowDone(ShowAll(old(page.Value()), stream), mine, None)
  {
    PrintedIsUndone(stream, toEvent, fromEvent);
    hide EventStream.EventsOf, EventStream.Split, EventWire.AllSendable, EventWire.Wire, ShowAll, Undone;
    ghost var events := Printed(toEvent, stream);
    var reader := new EventStream.Reader();
    FollowChunks(page, mine, reader, chunks, |chunks|, fromEvent, stream, events);
    assert chunks[..|chunks|] == chunks && Join(chunks) + "" == Join(chunks) && stream[..|stream|] == stream;
    ReadSoFar(chunks, |chunks|, events);
    FollowChunk(page, mine, reader, "", true, fromEvent, stream, events);
    ShowMore(old(page.Value()), stream, |stream|, |stream|);
    page.FollowEnds(mine, None);
  }

  /** The complete events in the first `n` chunks. */
  function ReadIn(chunks: seq<string>, n: nat): seq<EventStream.Event>
    requires n <= |chunks|
  {
    EventsSoFar(Join(chunks[..n]), false)
  }

  /** The chunks cut the printed stream of this subscriber, as far as it has been sent. */
  ghost predicate Cuts(chunks: seq<string>, x: Subscriber, user: Option<Message>,
                       toEvent: Payload -> EventStream.Event, fromEvent: EventStream.Event -> Payload)
  {
    var sent := Stream(x, user, |x.put|);
    Printable(sent, toEvent, fromEvent) && Join(chunks) == EventWire.Wire(Printed(toEvent, sent))
  }

  /** From the service to the page: for every run of the service, every subscriber, whenever it joined,
      and the first chunks of what it has been sent so far, however it is cut. The complete events are the
      first ones sent, all of them when every chunk has come; and a page that has been shown them shows
      exactly the server's texts as of the last one, or, when that is `done`, the published message. */
  lemma EveryChunkIsFollowed(actions: seq<Action>, s: SubscriberId, page: Store, user: Option<Message>,
                             toEvent: Payload -> EventStream.Event, fromEvent: EventStream.Event -> Payload,
                             chunks: seq<string>, n: nat)
    requires ChatRuns.Possible(EMPTY, actions) && s in ChatRuns.Exec(EMPTY, actions).subscribers
    requires var x := ChatRuns.Exec(EMPTY, actions).subscribers[s];
             Ready(page, x, user) && Cuts(chunks, x, user, toEvent, fromEvent)
    requires n <= |chunks|
    ensures var w := ChatRuns.Exec(EMPTY, actions);
            var x := w.subscribers[s];
            var read := |ReadIn(chunks, n)|;
            && read <= |x.put| + 1 && (n == |chunks| ==> read == |x.put| + 1)
            && (forall i :: 0 <= i < read ==> fromEvent(ReadIn(chunks, n)[i]) == Stream(x, user, |x.put|)[i])
            && (read > 0 ==>
                  && Stream(x, user, |x.put|)[..read] == Stream(x, user, read - 1)
                  && (Live(w, x.conversation, x.message) || x.message in w.ended)
                  && Mirrors(x, HistoryOf(w, x), page, user, read - 1))
  {
    hide *;
    var x := ChatRuns.Exec(EMPTY, actions).subscribers[s];
    var sent := Stream(x, user, |x.put|);
    CutsAreRead(chunks, n, x, user, toEvent, fromEvent);
    StreamPrefix(x, user, 0);
    var read := |ReadIn(chunks, n)|;
    if read > 0 {
      StreamPrefix(x, user, read - 1);
      EveryPageFollows(actions, s, page, user, read - 1);
    }
  }

  lemma CutsAreRead(chunks: seq<string>, n: nat, x: Subscriber, user: Option<Message>,
                    toEvent: Payload -> EventStream.Event, fromEvent: EventStream.Event -> Payload)
    requires n <= |chunks| && Cuts(chunks, x, user, toEvent, fromEvent)
    ensures var sent := Stream(x, user, |x.put|);
            && |ReadIn(chunks, n)| <= |sent| && (n == |chunks| ==> |ReadIn(chunks, n)| == |sent|)
            && forall i :: 0 <= i < |ReadIn(chunks, n)| ==> fromEvent(ReadIn(chunks, n)[i]) == sent[i]
  {
    var sent := Stream(x, user, |x.put|);
    PrintedIsUndone(sent, toEvent, fromEvent);
    hide EventStream.EventsOf, EventStream.Split, EventWire.AllSendable, EventWire.Wire, Stream;
    ReadSoFar(chunks, n, Printed(toEvent, sent));
    if n == |chunks| {
      assert chunks[..n] == chunks;
      AllIsRead(Printed(toEvent, sent));
    }
  }

  /** And the client does show them. */
  method FollowSubscriber(page: ChatStore.Page, mine: nat, chunks: seq<string>, n: nat,
                          ghost x: Subscriber, ghost user: Option<Message>,
                          ghost toEvent: Payload -> EventStream.Event, fromEvent: EventStream.Event -> Payload)
    requires Cuts(chunks, x, user, toEvent, fromEvent) && n <= |chunks| && page.ctrl == Some(mine)
    modifies page
    ensures |ReadIn(chunks, n)| <= |Stream(x, user, |x.put|)|
    ensures page.Value() == ShowAll(old(page.Value()), Stream(x, user, |x.put|)[..|ReadIn(chunks, n)|])
  {
    hide EventStream.EventsOf, EventStream.Split, EventWire.Wire, EventWire.AllSendable, Stream, ShowAll, Printable;
    ghost var sent := Stream(x, user, |x.put|);
    PrintedIsUndone(sent, toEvent, fromEvent);
    var reader := NewReader();
    FollowChunks(page, mine, reader, chunks, n, fromEvent, sent, Printed(toEvent, sent));
  }

  method NewReader() returns (reader: EventStream.Reader)
    ensures fresh(reader) && reader.Valid() && reader.received == "" && reader.yielded == []
  {
    reader := new EventStream.Reader();
  }

  lemma StreamPrefix(x: Subscriber, user: Option<Message>, k: nat)
    requires k <= |x.put|
    ensures |Stream(x, user, |x.put|)| == |x.put| + 1 && Stream(x, user, |x.put|)[..k + 1] == Stream(x, user, k)
  {
  }

  lemma ShowNone(s: Store, stream: seq<Payload>)
    ensures ShowAll(s, stream[..0]) == s
  {
  }

  lemma ShowMore(s: Store, stream: seq<Payload>, from: nat, to: nat)
    requires from <= to <= |stream|
    ensures ShowAll(s, stream[..to]) == ShowAll(ShowAll(s, stream[..from]), stream[from..to])
  {
    assert stream[..to] == stream[..from] + stream[from..to];
    ShowAllConcat(s, stream[..from], stream[from..to]);
  }
}
