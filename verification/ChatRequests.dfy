/** The steps of requests, database threads and restarts keep the invariant too, so every run of
    the service does. */
module ChatRequests {
  import opened Text
  import opened ReplyRun
  import opened ChatWorld
  import opened ChatSafety

  // ---------- reservations ----------

  /** Both worlds have the same runs; they differ at most in requests and reservations. */
  ghost predicate SameRuns(w: World, v: World) {
    && v == w.(registry := v.registry, requests := v.requests)
    && forall d :: Runs(v, d) == Runs(w, d) && (Runs(w, d) ==> RunAt(v, d) == RunAt(w, d))
  }

  lemma ReservationInv(w: World, v: World)
    requires Inv(w) && SameRuns(w, v)
    ensures RequestsInv(v) ==> Inv(v)
  {
    ReservationRuns(w, v);
    hide RunsInv, LateInv, EndedInv, RequestsInv, SubscribersInv;
    LateKept(w, v);
    SubscribersKept(w, v);
    EndedKept(w, v);
  }

  lemma ReservationRuns(w: World, v: World)
    requires RunsInv(w) && SameRuns(w, v)
    ensures RunsInv(v)
  {
    hide Sound;
    forall d | Runs(v, d) ensures RunOk(v, d) {
      assert RunOk(w, d);
    }
    forall d | d in v.awaited ensures AwaitedOk(v, d) {
      assert AwaitedOk(w, d);
    }
  }

  lemma ArriveInv(w: World, r: RequestId, c: ConversationId)
    requires Inv(w) && r !in w.requests
    ensures Inv(Reserved(w, r, c))
  {
    hide RunsInv, LateInv, EndedInv, SubscribersInv;
    ReservedRequests(w, r, c);
    hide RequestsInv;
    ReservationInv(w, Reserved(w, r, c));
  }

  lemma ReservedHolders(w: World, r: RequestId, c: ConversationId)
    requires RequestsInv(w) && r !in w.requests
    ensures forall q :: q in Reserved(w, r, c).requests ==> RequestOk(Reserved(w, r, c), q)
    ensures forall q, d :: HoldsFor(w, q, d) ==> d in w.registry
  {
    var v := Reserved(w, r, c);
    forall q, d | HoldsFor(w, q, d) ensures d in w.registry {
      assert RequestOk(w, q);
    }
    forall q | q in v.requests ensures RequestOk(v, q) {
      if q != r {
        assert RequestOk(w, q);
        OthersStay(w, r, c, q);
      }
    }
  }

  lemma OthersStay(w: World, r: RequestId, c: ConversationId, q: RequestId)
    requires q in w.requests && q != r && RequestOk(w, q)
    ensures q in Reserved(w, r, c).requests && RequestOk(Reserved(w, r, c), q)
  {
  }

  lemma NewHolds(w: World, r: RequestId, c: ConversationId)
    requires r !in w.requests
    ensures forall q, d :: HoldsFor(Reserved(w, r, c), q, d)
                           <==> HoldsFor(w, q, d) || (q == r && d == c && c !in w.registry)
  {
  }

  lemma ReservedRequests(w: World, r: RequestId, c: ConversationId)
    requires RequestsInv(w) && r !in w.requests
    ensures RequestsInv(Reserved(w, r, c))
  {
    var v := Reserved(w, r, c);
    ReservedHolders(w, r, c);
    NewHolds(w, r, c);
    hide RequestOk, Holds;
    forall d | d in v.registry && v.registry[d].None? ensures exists q :: HoldsFor(v, q, d) {
      if d in w.registry {
        var q :| HoldsFor(w, q, d);
        assert HoldsFor(v, q, d);
      } else {
        assert HoldsFor(v, r, d);
      }
    }
  }

  /** A failing request frees its own reservation, and no other request's. */
  lemma GiveUpInv(w: World, r: RequestId)
    requires Inv(w) && Holds(w, r)
    ensures Inv(Released(w, r))
    ensures w.requests[r].conversation !in Released(w, r).registry
    ensures forall q :: q != r && Holds(w, q) ==>
              Holds(Released(w, r), q) && w.requests[q].conversation in Released(w, r).registry
  {
    var v := Released(w, r);
    var c := w.requests[r].conversation;
    hide RunsInv, LateInv, EndedInv, SubscribersInv;
    assert RequestOk(w, r);
    assert SameRuns(w, v);
    assert HoldsFor(w, r, c);
    forall q | q in v.requests && v.requests[q].Holding? ensures RequestOk(v, q) && v.requests[q].conversation != c {
      assert RequestOk(w, q);
      assert HoldsFor(w, q, w.requests[q].conversation);
    }
    forall q | q in v.requests && !v.requests[q].Holding? ensures RequestOk(v, q) {
    }
    assert forall q, d :: HoldsFor(v, q, d) ==> HoldsFor(w, q, d);
    forall d | d in v.registry && v.registry[d].None? ensures exists q :: HoldsFor(v, q, d) {
      var q :| HoldsFor(w, q, d);
      assert HoldsFor(v, q, d);
    }
    forall q | q != r && Holds(w, q) ensures Holds(v, q) && w.requests[q].conversation in v.registry {
      assert RequestOk(w, q);
      assert v.requests[q] == w.requests[q] && v.requests[q].Holding?;
    }
    ReservationInv(w, v);
  }

  // ---------- the start of a run ----------

  lemma LaunchRuns(w: World, r: RequestId, owner: string, s: SubscriberId)
    requires Inv(w) && Holds(w, r) && w.requests[r].row.Some?
    ensures RunsInv(Launched(w, r, owner, s))
  {
    hide LateInv, EndedInv, SubscribersInv;
    var v := Launched(w, r, owner, s);
    assert RequestOk(w, r);
    NewRunSound(owner, w.requests[r].row.value);
    hide Sound, RequestsInv;
    forall d | Runs(v, d) ensures RunOk(v, d) {
      assert d != w.requests[r].conversation ==> RunOk(w, d);
      assert d in w.awaited ==> AwaitedOk(w, d);
    }
    forall d | d in v.awaited ensures AwaitedOk(v, d) {
      assert AwaitedOk(w, d);
    }
  }

  lemma HeldOk(w: World, r: RequestId)
    requires RequestsInv(w) && Holds(w, r)
    ensures RequestOk(w, r)
  {
  }

  lemma LaunchKeeps(w: World, r: RequestId, owner: string, s: SubscriberId)
    requires Holds(w, r) && w.requests[r].row.Some? && RequestOk(w, r)
    ensures RunsKept(w, Launched(w, r, owner, s))
  {
  }

  lemma LaunchRest(w: World, r: RequestId, owner: string, s: SubscriberId)
    requires Inv(w) && Holds(w, r) && w.requests[r].row.Some? && s !in w.subscribers
    ensures LateInv(Launched(w, r, owner, s))
        && EndedInv(Launched(w, r, owner, s)) && SubscribersInv(Launched(w, r, owner, s))
  {
    HeldOk(w, r);
    hide Sound, TextOf, RunsInv, RequestsInv, LateInv, EndedInv, SubscribersInv;
    var v := Launched(w, r, owner, s);
    LaunchKeeps(w, r, owner, s);
    LateKept(w, v);
    EndedKept(w, v);
    LaunchSubscribers(w, r, owner, s);
  }

  lemma LaunchSubscribers(w: World, r: RequestId, owner: string, s: SubscriberId)
    requires SubscribersInv(w) && Holds(w, r) && w.requests[r].row.Some? && s !in w.subscribers && RequestOk(w, r)
    ensures SubscribersInv(Launched(w, r, owner, s))
  {
    hide Sound, TextOf;
    var v := Launched(w, r, owner, s);
    var u := v.(subscribers := w.subscribers);
    LaunchKeeps(w, r, owner, s);
    SubscribersKept(w, u);
    forall t | t in v.subscribers ensures SubscriberOk(v, t) {
      assert t != s ==> SubscriberOk(u, t);
    }
  }

  lemma LaunchInv(w: World, r: RequestId, owner: string, s: SubscriberId)
    requires Inv(w) && Holds(w, r) && w.requests[r].row.Some? && s !in w.subscribers
    ensures Inv(Launched(w, r, owner, s))
  {
    LaunchRuns(w, r, owner, s);
    LaunchRest(w, r, owner, s);
    hide RunsInv, LateInv, EndedInv, SubscribersInv;
    var v := Launched(w, r, owner, s);
    var c := w.requests[r].conversation;
    assert RequestOk(w, r) && HoldsFor(w, r, c);
    assert forall q, d :: HoldsFor(v, q, d) <==> HoldsFor(w, q, d) && q != r;
    forall q | q in v.requests ensures RequestOk(v, q) {
      assert q != r ==> RequestOk(w, q);
      assert Holds(v, q) ==> HoldsFor(w, q, w.requests[q].conversation);
    }
    forall d | d in v.registry && v.registry[d].None? ensures exists q :: HoldsFor(v, q, d) {
      var q :| HoldsFor(w, q, d);
      assert HoldsFor(v, q, d);
    }
  }

  // ---------- rows ----------

  /** Requests edit user rows only. */
  predicate Edited(before: Row, after: Row) {
    && after.conversation == before.conversation && after.role == before.role
    && (after.role == Assistant ==> after == before)
  }

  /** Rows that a run or a starting request relies on stand; others may go, come, or be edited. */
  ghost predicate RowsStand(w: World, rows: map<MessageId, Row>, used: set<MessageId>) {
    && w.used <= used && rows.Keys <= used
    && (forall m :: m in rows && m in w.used ==> m in w.rows && Edited(w.rows[m], rows[m]))
    && (forall d :: Runs(w, d) ==> RunAt(w, d).message in rows)
    && (forall r :: Holds(w, r) && w.requests[r].row.Some? ==> w.requests[r].row.value in rows)
  }

  lemma RowsInv(w: World, rows: map<MessageId, Row>, used: set<MessageId>)
    requires Inv(w) && RowsStand(w, rows, used)
    ensures Inv(w.(rows := rows, used := used))
  {
    var v := w.(rows := rows, used := used);
    RowsRuns(w, rows, used);
    RowsRest(w, rows, used);
    RowsRequests(w, rows, used);
    hide RunsInv, LateInv, EndedInv, RequestsInv, SubscribersInv;
  }

  lemma RowsRuns(w: World, rows: map<MessageId, Row>, used: set<MessageId>)
    requires Inv(w) && RowsStand(w, rows, used)
    ensures RunsInv(w.(rows := rows, used := used))
  {
    hide Sound, LateInv, EndedInv, RequestsInv, SubscribersInv;
    var v := w.(rows := rows, used := used);
    forall d | Runs(v, d) ensures RunOk(v, d) {
      assert RunOk(w, d);
    }
    forall d | d in v.awaited ensures AwaitedOk(v, d) {
      assert AwaitedOk(w, d) && RunOk(w, d);
    }
  }

  lemma RowsRest(w: World, rows: map<MessageId, Row>, used: set<MessageId>)
    requires Inv(w) && RowsStand(w, rows, used)
    ensures var v := w.(rows := rows, used := used); LateInv(v) && EndedInv(v) && SubscribersInv(v)
  {
    hide EndedWell, RunsInv, RequestsInv, LateInv, SubscribersInv;
    var v := w.(rows := rows, used := used);
    LateKept(w, v);
    SubscribersKept(w, v);
    forall m | m in v.ended ensures EndedOk(v, m) {
      assert EndedOk(w, m);
    }
  }

  lemma RowsRequests(w: World, rows: map<MessageId, Row>, used: set<MessageId>)
    requires Inv(w) && RowsStand(w, rows, used)
    ensures RequestsInv(w.(rows := rows, used := used))
  {
    hide RunsInv, LateInv, EndedInv, SubscribersInv;
    assert forall r :: Holds(w, r) ==> RequestOk(w, r);
    RequestsKept(w, w.(rows := rows, used := used));
  }

  lemma DeleteRowsStand(w: World, r: RequestId, ms: set<MessageId>)
    requires Inv(w) && Enabled(w, DeleteRows(r, ms))
    ensures RowsStand(w, w.rows - ms, w.used)
  {
    hide LateInv, EndedInv, SubscribersInv, Sound;
    var c := w.requests[r].conversation;
    assert RequestOk(w, r) && HoldsFor(w, r, c);
    forall d | Runs(w, d) ensures RunAt(w, d).message in w.rows - ms {
      assert RunOk(w, d);
    }
    forall q | Holds(w, q) && w.requests[q].row.Some? ensures w.requests[q].row.value in w.rows - ms {
      assert RequestOk(w, q) && HoldsFor(w, q, w.requests[q].conversation);
    }
  }

  lemma KeptRowsStand(w: World, rows: map<MessageId, Row>, used: set<MessageId>)
    requires Inv(w) && w.used <= used && rows.Keys <= used && w.rows.Keys <= rows.Keys
    requires forall m :: m in rows && m in w.used ==> m in w.rows && Edited(w.rows[m], rows[m])
    ensures RowsStand(w, rows, used)
  {
    hide LateInv, EndedInv, SubscribersInv, Sound;
    forall d | Runs(w, d) ensures RunAt(w, d).message in rows {
      assert RunOk(w, d);
    }
    forall q | Holds(w, q) && w.requests[q].row.Some? ensures w.requests[q].row.value in rows {
      assert RequestOk(w, q);
    }
  }

  /** The assistant row is there before the run starts. */
  lemma AddAssistantInv(w: World, r: RequestId, m: MessageId)
    requires Inv(w) && Holds(w, r) && w.requests[r].row.None? && m !in w.used
    ensures Inv(WithAssistant(w, r, m))
  {
    var c := w.requests[r].conversation;
    var rows := w.rows[m := Row(c, Assistant, "", None, InProgress, None)];
    KeptRowsStand(w, rows, w.used + {m});
    RowsInv(w, rows, w.used + {m});
    var u := w.(rows := rows, used := w.used + {m});
    var v := u.(requests := u.requests[r := Holding(c, Some(m))]);
    hide RunsInv, LateInv, SubscribersInv;
    assert m in w.ended ==> EndedOk(w, m);
    RowIsHeld(u, r, m);
    hide RequestsInv, EndedInv;
    ReservationInv(u, v);
  }

  /** A request that holds a conversation may note the assistant row it has added there. */
  lemma RowIsHeld(u: World, r: RequestId, m: MessageId)
    requires RequestsInv(u) && Holds(u, r) && m in u.rows && m in u.used && m !in u.ended
    requires u.rows[m].conversation == u.requests[r].conversation && u.rows[m].role == Assistant
    ensures RequestsInv(u.(requests := u.requests[r := Holding(u.requests[r].conversation, Some(m))]))
  {
    var v := u.(requests := u.requests[r := Holding(u.requests[r].conversation, Some(m))]);
    assert RequestOk(u, r);
    forall q | q in v.requests ensures RequestOk(v, q) {
      assert RequestOk(u, q);
    }
    hide RequestOk;
    assert forall q, d :: HoldsFor(v, q, d) <==> HoldsFor(u, q, d);
    forall d | d in v.registry && v.registry[d].None? ensures exists q :: HoldsFor(v, q, d) {
      var q :| HoldsFor(u, q, d);
      assert HoldsFor(v, q, d);
    }
  }

  // ---------- database threads ----------

  lemma AwaitedEndsInv(w: World, c: ConversationId, done: bool)
    requires Inv(w) && c in w.awaited && w.awaited[c].Pending?
    ensures Inv(Awoken(w, c, done))
  {
    hide RequestsInv, LateInv, SubscribersInv, EndedInv;
    AwaitedEndsRuns(w, c, done);
    AwaitedWrite(w, c);
    hide RunsInv;
    AwokenKeeps(w, Awoken(w, c, done), w.awaited[c].write);
  }

  /** A thread's write touches one row only, and neither its conversation nor its role. */
  lemma AwokenKeeps(w: World, v: World, x: Write)
    requires LateInv(w) && RequestsInv(w) && SubscribersInv(w)
    requires v.rows == w.rows || v.rows == Apply(w.rows, x)
    requires v == w.(rows := v.rows, awaited := v.awaited, late := v.late) && v.late <= w.late
    ensures LateInv(v) && RequestsInv(v) && SubscribersInv(v)
    ensures EndedInv(w) && x.message !in w.ended ==> EndedInv(v)
  {
    hide RequestsInv, LateInv, SubscribersInv, EndedInv;
    assert RunsKept(w, v);
    LateKept(w, v);
    SubscribersKept(w, v);
    RequestsKept(w, v);
    if EndedInv(w) && x.message !in w.ended {
      EndedKept(w, v);
    }
  }

  lemma AwaitedWrite(w: World, c: ConversationId)
    requires RunsInv(w) && c in w.awaited && w.awaited[c].Pending?
    ensures w.awaited[c].write.message !in w.ended
  {
    hide Sound;
    assert AwaitedOk(w, c) && RunOk(w, c);
  }

  lemma AwaitedEndsRuns(w: World, c: ConversationId, done: bool)
    requires RunsInv(w) && c in w.awaited && w.awaited[c].Pending?
    ensures RunsInv(Awoken(w, c, done))
  {
    hide Sound;
    var v := Awoken(w, c, done);
    assert AwaitedOk(w, c) && RunOk(w, c);
    forall d | Runs(v, d) ensures RunOk(v, d) {
      assert RunOk(w, d);
    }
    forall d | d in v.awaited ensures AwaitedOk(v, d) {
      assert AwaitedOk(w, d) && RunOk(w, d);
    }
  }

  /** An abandoned flush that commits after everything else writes what is there already. */
  lemma LateEndsInv(w: World, x: Write, done: bool)
    requires Inv(w) && x in w.late
    ensures Inv(LateEnded(w, x, done))
  {
    var v := LateEnded(w, x, done);
    hide RunsInv, RequestsInv, SubscribersInv, EndedInv;
    assert LateOk(w, x);
    hide LateInv, LateOk;
    LateEndsRuns(w, x, done);
    LateEndsEnded(w, x, done);
    AwokenKeeps(w, v, x);
  }

  lemma LateEndsRuns(w: World, x: Write, done: bool)
    requires RunsInv(w) && LateOk(w, x)
    ensures RunsInv(LateEnded(w, x, done))
  {
    hide Sound;
    var v := LateEnded(w, x, done);
    forall d | Runs(v, d) ensures RunOk(v, d) {
      assert RunOk(w, d);
    }
    forall d | d in v.awaited ensures AwaitedOk(v, d) {
      assert AwaitedOk(w, d) && RunOk(w, d);
      assert Live(w, x.conversation, x.message) ==> RunOk(w, x.conversation);
    }
  }

  lemma LateEndsEnded(w: World, x: Write, done: bool)
    requires RunsInv(w) && EndedInv(w) && LateOk(w, x)
    ensures EndedInv(LateEnded(w, x, done))
  {
    hide Sound;
    var v := LateEnded(w, x, done);
    assert Live(w, x.conversation, x.message) ==> RunOk(w, x.conversation);
    hide EndedWell;
    forall m | m in v.ended ensures EndedOk(v, m) {
      assert EndedOk(w, m);
    }
  }

  // ---------- restarts ----------

  /** Saved replies stand, and after a sweep that succeeds nothing is left in progress. */
  lemma RestartInv(w: World, swept: bool)
    requires Inv(w)
    ensures Inv(Restarted(w, swept))
    ensures swept ==> forall m :: m in Restarted(w, swept).rows ==> Restarted(w, swept).rows[m].status != InProgress
  {
    hide TextOf;
    var v := Restarted(w, swept);
    forall m | m in v.ended ensures EndedOk(v, m) {
      assert EndedOk(w, m);
    }
  }
}
