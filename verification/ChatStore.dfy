/** The chat page's store: refs that its functions reassign, one method per stretch of code
    without an await. */
module ChatStore {
  import opened Text
  import opened ReplyRun
  import opened ChatView

  // ---------- what each stretch does ----------

  /** `abortStream()`: later answers to anything begun earlier no longer match. */
  function Aborted(s: Store): Store {
    s.(openSeq := s.openSeq + 1, loading := false, streaming := false, progress := None, ctrl := None,
       aborted := if s.ctrl.Some? then s.aborted + {s.ctrl.value} else s.aborted)
  }

  /** `begin()` with a new controller. */
  function Begun(s: Store, mine: nat): Store {
    Aborted(s).(error := None, streaming := true, ctrl := Some(mine))
  }

  /** The synchronous part of `open(id)`; opening nothing leaves an empty page. */
  function Opened(s: Store, id: Option<ConversationId>): Store {
    var t := Aborted(s);
    var u := t.(error := None, openSeq := t.openSeq + 1);
    if id.None? then u.(current := None) else u.(loading := true)
  }

  /** `follow`'s `finally`, with the error of a stream that failed other than by an abort. */
  function FollowDone(s: Store, mine: nat, error: Option<string>): Store {
    if s.ctrl != Some(mine) then s
    else s.(error := if error.Some? then error else s.error, ctrl := None, streaming := false, progress := None)
  }

  /** `send` drops the messages from the replaced one on; `regenerate` a last assistant message. */
  function TrimFrom(c: Conversation, id: MessageId): Conversation {
    var i := FindFrom(c.messages, id, 0);
    if i >= 0 then c.(messages := c.messages[..i]) else c
  }

  function TrimLast(c: Conversation): Conversation {
    if EndsWithAssistant(Some(c)) then c.(messages := c.messages[..|c.messages| - 1]) else c
  }

  /** A fetched conversation arrives; opening one whose reply is running goes on to follow it. */
  function Landing(s: Store, openSeq: nat, answer: Conversation, opening: bool, mine: nat): Store {
    if openSeq != s.openSeq then s
    else
      var shown := s.(current := Some(answer));
      if opening && answer.streaming then Begun(shown, mine)
      else if opening then shown.(loading := false)
      else shown
  }

  class Page {
    var current: Option<Conversation>
    var streaming: bool
    var progress: Option<(nat, nat)>
    var loading: bool
    var error: Option<string>
    var ctrl: Option<nat>
    var openSeq: nat
    /** The controllers whose signal is aborted, and the next one to be created. */
    var aborted: set<nat>
    var nextCtrl: nat

    function Value(): Store
      reads this
    {
      Store(current, streaming, progress, loading, error, ctrl, openSeq, aborted)
    }

    constructor ()
      ensures Value() == Store(None, false, None, false, None, None, 0, {}) && nextCtrl == 0
    {
      current, streaming, progress, loading, error, ctrl := None, false, None, false, None, None;
      openSeq, aborted, nextCtrl := 0, {}, 0;
    }

    method AbortStream()
      modifies this
      ensures Value() == Aborted(old(Value())) && nextCtrl == old(nextCtrl)
      ensures ctrl == None && !streaming && !loading && progress == None && openSeq == old(openSeq) + 1
      ensures aborted == old(aborted) + if old(ctrl).Some? then {old(ctrl).value} else {}
      ensures current == old(current) && error == old(error)
    {
      openSeq := openSeq + 1;
      loading := false;
      if ctrl.Some? {
        aborted := aborted + {ctrl.value};
      }
      ctrl := None;
      streaming := false;
      progress := None;
    }

    method Begin() returns (mine: nat)
      modifies this
      ensures mine == old(nextCtrl) && nextCtrl == mine + 1
      ensures Value() == Begun(old(Value()), mine)
      ensures ctrl == Some(mine) && streaming && !loading && progress == None && error == None
      ensures openSeq == old(openSeq) + 1 && current == old(current)
      ensures aborted == old(aborted) + if old(ctrl).Some? then {old(ctrl).value} else {}
    {
      AbortStream();
      error := None;
      streaming := true;
      mine := nextCtrl;
      nextCtrl := nextCtrl + 1;
      ctrl := Some(mine);
    }

    method OpenStarts(id: Option<ConversationId>) returns (seqNo: nat)
      modifies this
      ensures Value() == Opened(old(Value()), id) && seqNo == openSeq && nextCtrl == old(nextCtrl)
      ensures ctrl == None && !streaming && progress == None && error == None && openSeq == old(openSeq) + 2
      ensures loading == id.Some? && current == if id.Some? then old(current) else None
      ensures aborted == old(aborted) + if old(ctrl).Some? then {old(ctrl).value} else {}
    {
      AbortStream();
      error := None;
      openSeq := openSeq + 1;
      seqNo := openSeq;
      if id.None? {
        current := None;
        return;
      }
      loading := true;
    }

    method Apply(ev: Payload)
      modifies this
      ensures Value() == Show(old(Value()), ev) && nextCtrl == old(nextCtrl)
    {
      match ev
      case Started(id, user, assistant) =>
        if current.None? || current.value.id != id {
          current := Some(Conversation(id, true, []));
        }
        var messages := current.value.messages;
        assert messages + [] == messages;
        if user.Some? {
          messages := messages + [user.value];
        }
        messages := messages + [Message(assistant, Assistant, "", None, InProgress, None)];
        current := Some(current.value.(messages := messages));
      case Snapshot(reasoning, content) =>
        if EndsWithAssistant(current) {
          var m := current.value.messages[|current.value.messages| - 1];
          current := Some(WithLast(current.value, m.(content := content, reasoning := OrNone(reasoning))));
        }
      case Progress(processed, total) =>
        progress := Some((processed, total));
      case Delta(kind, text) =>
        if EndsWithAssistant(current) {
          var m := current.value.messages[|current.value.messages| - 1];
          if kind == Reasoning {
            m := m.(reasoning := Some(OrEmpty(m.reasoning) + text));
          } else {
            m := m.(content := m.content + text);
          }
          current := Some(WithLast(current.value, m));
        }
      case Failed(reason) =>
        if EndsWithAssistant(current) {
          var m := current.value.messages[|current.value.messages| - 1];
          current := Some(WithLast(current.value, m.(status := Error, error := Some(reason))));
        }
        streaming := false;
      case Done(message) =>
        if current.Some? {
          var messages := current.value.messages;
          var i := FindFrom(messages, message.id, 0);
          if i >= 0 {
            messages := messages[i := message];
          } else {
            messages := messages + [message];
          }
          current := Some(current.value.(messages := messages));
        }
        streaming := false;
        progress := None;
    }

    method FetchLands(seqNo: nat, answer: Conversation, opening: bool) returns (followed: Option<nat>)
      modifies this
      ensures Value() == Landing(old(Value()), seqNo, answer, opening, old(nextCtrl))
      ensures followed.Some? <==> seqNo == old(openSeq) && opening && answer.streaming
      ensures followed.Some? ==> followed.value == old(nextCtrl)
      ensures seqNo != old(openSeq) ==> Value() == old(Value())
      ensures seqNo == old(openSeq) ==>
                && current == Some(answer)
                && (followed.Some? ==>
                      ctrl == followed && streaming && error == None && !loading && openSeq == seqNo + 1)
                && (followed.None? ==>
                      && ctrl == old(ctrl) && streaming == old(streaming) && error == old(error)
                      && openSeq == seqNo && aborted == old(aborted) && progress == old(progress)
                      && loading == (!opening && old(loading)))
    {
      if seqNo != openSeq {
        return None;
      }
      current := Some(answer);
      if opening && answer.streaming {
        var mine := Begin();
        return Some(mine);
      }
      if opening {
        loading := false;
      }
      return None;
    }

    /** One turn of `follow`'s loop: an event of a superseded stream is dropped. */
    method FollowOne(mine: nat, ev: Payload) returns (mineStill: bool)
      modifies this
      ensures mineStill == (old(ctrl) == Some(mine)) && nextCtrl == old(nextCtrl)
      ensures Value() == if mineStill then Show(old(Value()), ev) else old(Value())
    {
      if ctrl != Some(mine) {
        return false;
      }
      Apply(ev);
      return true;
    }

    method FollowEnds(mine: nat, failure: Option<string>)
      modifies this
      ensures Value() == FollowDone(old(Value()), mine, failure) && nextCtrl == old(nextCtrl)
      ensures old(ctrl) != Some(mine) ==> Value() == old(Value())
      ensures old(ctrl) == Some(mine) ==>
                && ctrl == None && !streaming && progress == None
                && error == (if failure.Some? then failure else old(error))
                && current == old(current) && loading == old(loading) && openSeq == old(openSeq)
                && aborted == old(aborted)
    {
      if failure.Some? && ctrl == Some(mine) {
        error := failure;
      }
      if ctrl == Some(mine) {
        ctrl := None;
        streaming := false;
        progress := None;
      }
    }

    /** The synchronous parts of `send` and `regenerate`. */
    method SendStarts(replaceFrom: Option<MessageId>) returns (mine: nat)
      modifies this
      ensures mine == old(nextCtrl) && nextCtrl == mine + 1
      ensures var s := Begun(old(Value()), mine);
              Value() == if s.current.Some? && replaceFrom.Some?
                         then s.(current := Some(TrimFrom(s.current.value, replaceFrom.value))) else s
      ensures ctrl == Some(mine) && streaming && error == None
      ensures current.Some? == old(current).Some?
      ensures current.Some? ==>
                var before, after := old(current).value, current.value;
                && after.id == before.id && after.streaming == before.streaming
                && after.messages <= before.messages
                && (if replaceFrom.Some? && exists m :: m in before.messages && m.id == replaceFrom.value
                    then (forall m :: m in after.messages ==> m.id != replaceFrom.value)
                         && |after.messages| < |before.messages|
                         && before.messages[|after.messages|].id == replaceFrom.value
                    else after == before)
    {
      mine := Begin();
      if current.Some? && replaceFrom.Some? {
        var i := FindFrom(current.value.messages, replaceFrom.value, 0);
        if i >= 0 {
          current := Some(current.value.(messages := current.value.messages[..i]));
        }
      }
    }

    /** Nothing happens on a page without a conversation. */
    method RegenerateStarts() returns (mine: Option<nat>)
      modifies this
      ensures mine.Some? <==> old(current).Some?
      ensures mine.None? ==> Value() == old(Value()) && nextCtrl == old(nextCtrl)
      ensures mine.Some? ==>
                && mine.value == old(nextCtrl) && nextCtrl == mine.value + 1
                && Value() == Begun(old(Value()), mine.value).(current := Some(TrimLast(old(current.value))))
      ensures mine.Some? ==>
                && ctrl == mine && streaming && error == None
                && var before, after := old(current).value, current.value;
                && after.id == before.id && after.streaming == before.streaming
                && after.messages == if EndsWithAssistant(old(current))
                                     then before.messages[..|before.messages| - 1] else before.messages
    {
      if current.None? {
        return None;
      }
      var started := Begin();
      if EndsWithAssistant(current) {
        current := Some(current.value.(messages := current.value.messages[..|current.value.messages| - 1]));
      }
      mine := Some(started);
    }
  }
}
