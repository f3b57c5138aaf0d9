/** Invoices under the reading jobs, the people and the restarts, in any interleaving of their
    statements: what was checked by one statement may have changed when the next one writes. */
module InvoiceRuns {
  import opened InvoiceTable
  import opened Text

  type JobId = nat
  type RequestId = nat

  /** A reading job has been added, has loaded its invoice, or has set it to extracting. */
  datatype Job = Added(invoice: InvoiceId) | Loaded(invoice: InvoiceId, row: Invoice) | Reading(invoice: InvoiceId)

  /** A request that passed its check and has not written yet, with what it loaded. */
  datatype Request =
    | Validating(invoice: InvoiceId, loaded: Invoice, body: Confirmed)
    | Paying(invoice: InvoiceId, loaded: Invoice, date: Option<Date>)

  datatype World = World(rows: Table, jobs: map<JobId, Job>, requests: map<RequestId, Request>, used: set<InvoiceId>)

  const EMPTY: World := World(map[], map[], map[], {})

  datatype Action =
    | Upload(id: InvoiceId, service: Option<ServiceId>, reader: Option<JobId>)
    | CreateManual(id: InvoiceId, body: Confirmed)
    | JobLoads(job: JobId)
    | JobStarts(job: JobId)
    | JobFinishes(job: JobId, outcome: InvoiceTable.Reading, again: bool)
    | CheckValidate(request: RequestId, id: InvoiceId, body: Confirmed)
    | CheckPaid(request: RequestId, id: InvoiceId, date: Option<Date>)
    | Write(request: RequestId)
    | GiveUp(request: RequestId)
    | Delete(id: InvoiceId)
    | Crash
    | Sweep

  /** What the routes refuse changes nothing, so only what they let through is a step. */
  predicate Enabled(w: World, a: Action) {
    match a
    case Upload(id, _, reader) => id !in w.used && (reader.Some? ==> reader.value !in w.jobs)
    case CreateManual(id, _) => id !in w.used
    case JobLoads(j) => j in w.jobs && w.jobs[j].Added?
    case JobStarts(j) => j in w.jobs && w.jobs[j].Loaded?
    case JobFinishes(j, _, _) => j in w.jobs && w.jobs[j].Reading?
    case CheckValidate(r, id, _) =>
      r !in w.requests && id in w.rows && (w.rows[id].status.ToValidate? || w.rows[id].status.Failed?)
    case CheckPaid(r, id, _) => r !in w.requests && id in w.rows && w.rows[id].status.Validated?
    case Write(r) => r in w.requests
    case GiveUp(r) => r in w.requests
    case Delete(id) => id in w.rows
    case Crash => true
    case Sweep => true
  }

  function Written(rows: Table, q: Request): Table {
    if q.invoice !in rows then rows
    else match q
      case Validating(i, loaded, body) => rows[i := Validate(rows[i], loaded, body)]
      case Paying(i, loaded, date) => if loaded.paidAt == date then rows else rows[i := rows[i].(paidAt := date)]
  }

  function Started(rows: Table, job: Job): Table
    requires job.Loaded?
  {
    if job.row.status == Extracting || job.invoice !in rows then rows
    else rows[job.invoice := rows[job.invoice].(status := Extracting)]
  }

  /** A job whose invoice is gone, at loading or at the update of its status, just ends. */
  function Step(w: World, a: Action): World
    requires Enabled(w, a)
  {
    match a
    case Upload(id, service, reader) =>
      w.(rows := w.rows[id := Uploaded(service, reader.Some?)], used := w.used + {id},
         jobs := if reader.Some? then w.jobs[reader.value := Added(id)] else w.jobs)
    case CreateManual(id, body) => w.(rows := w.rows[id := Manual(body)], used := w.used + {id})
    case JobLoads(j) =>
      var i := w.jobs[j].invoice;
      w.(jobs := if i in w.rows then w.jobs[j := Loaded(i, w.rows[i])] else w.jobs - {j})
    case JobStarts(j) =>
      var i := w.jobs[j].invoice;
      w.(rows := Started(w.rows, w.jobs[j]),
         jobs := if i in w.rows then w.jobs[j := Job.Reading(i)] else w.jobs - {j})
    case JobFinishes(j, outcome, again) =>
      var i := w.jobs[j].invoice;
      w.(rows := if i in w.rows then w.rows[i := Finish(w.rows[i], outcome)] else w.rows,
         jobs := if again then w.jobs else w.jobs - {j})
    case CheckValidate(r, id, body) => w.(requests := w.requests[r := Validating(id, w.rows[id], body)])
    case CheckPaid(r, id, date) => w.(requests := w.requests[r := Paying(id, w.rows[id], date)])
    case Write(r) => w.(rows := Written(w.rows, w.requests[r]), requests := w.requests - {r})
    case GiveUp(r) => w.(requests := w.requests - {r})
    case Delete(id) => w.(rows := w.rows - {id})
    case Crash => w.(jobs := map[], requests := map[])
    case Sweep => w.(rows := ResetAll(w.rows))
  }

  // ---------- the invariant ----------

  predicate Unstarted(w: World, j: JobId) {
    j in w.jobs && !w.jobs[j].Reading?
  }

  /** A job that has not set its invoice to extracting yet: the invoice is still queued. */
  predicate JobOk(w: World, j: JobId) {
    j in w.jobs && w.jobs[j].invoice in w.used
    && (w.jobs[j].Loaded? ==> w.jobs[j].row.status.Queued?)
    && (!w.jobs[j].Reading? && w.jobs[j].invoice in w.rows ==> w.rows[w.jobs[j].invoice].status.Queued?)
  }

  predicate Complete(row: Invoice) {
    row.service.Some? && row.fields.total.Some? && row.fields.dueOn.Some?
  }

  /** A validated invoice has all that reminders and charts need; only such a one is paid. */
  predicate RowOk(row: Invoice) {
    (row.status.Validated? ==> Complete(row)) && (row.paidAt.Some? ==> row.status.Validated?)
  }

  /** What the column had when it was loaded, it still has in some form. */
  predicate NoLoss(loaded: Invoice, row: Invoice) {
    && (loaded.service.Some? ==> row.service.Some?)
    && (loaded.fields.total.Some? ==> row.fields.total.Some?)
    && (loaded.fields.dueOn.Some? ==> row.fields.dueOn.Some?)
  }

  predicate RequestOk(w: World, q: Request) {
    q.invoice in w.used
    && (q.invoice in w.rows ==>
          var row := w.rows[q.invoice];
          NoLoss(q.loaded, row) && !Waiting(row.status)
          && (q.Paying? ==> row.status.Validated?) && (q.Validating? ==> !q.loaded.status.Validated?))
  }

  ghost predicate JobsInv(w: World) {
    && (forall j :: j in w.jobs ==> JobOk(w, j))
    && (forall j, k :: j in w.jobs && k in w.jobs && w.jobs[j].invoice == w.jobs[k].invoice ==> j == k)
  }

  ghost predicate RequestsInv(w: World) {
    forall r :: r in w.requests ==> RequestOk(w, w.requests[r])
  }

  ghost predicate RowsInv(w: World) {
    w.rows.Keys <= w.used && forall i :: i in w.rows ==> RowOk(w.rows[i])
  }

  ghost predicate Inv(w: World) {
    JobsInv(w) && RequestsInv(w) && RowsInv(w)
  }

  /** The sweep of a starting process finds no job of another one that has yet to start on its invoice. */
  ghost predicate Clear(w: World) {
    forall j :: Unstarted(w, j) ==> w.jobs[j].invoice !in w.rows
  }

  ghost predicate InOrder(w: World, a: Action) {
    a.Sweep? ==> Clear(w)
  }

  // ---------- every step keeps it ----------

  lemma StepJobs(w: World, a: Action)
    requires Inv(w) && Enabled(w, a) && InOrder(w, a)
    ensures JobsInv(Step(w, a))
  {
    hide RowOk, NoLoss, Complete;
    var w' := Step(w, a);
    forall j | j in w'.jobs ensures JobOk(w', j) {
      if j in w.jobs {
        JobStays(w, a, j);
      }
    }
  }

  lemma JobStays(w: World, a: Action, j: JobId)
    requires Inv(w) && Enabled(w, a) && InOrder(w, a) && j in w.jobs && j in Step(w, a).jobs
    ensures JobOk(Step(w, a), j)
  {
    hide RowsInv, RowOk, NoLoss, Complete;
    assert JobOk(w, j);
    if a.Sweep? {
      assert Unstarted(w, j) ==> w.jobs[j].invoice !in w.rows;
    }
    if a.Write? {
      assert RequestOk(w, w.requests[a.request]);
    }
  }

  lemma StepRequests(w: World, a: Action)
    requires Inv(w) && Enabled(w, a) && InOrder(w, a)
    ensures RequestsInv(Step(w, a))
  {
    hide Complete;
    var w' := Step(w, a);
    forall r | r in w'.requests ensures RequestOk(w', w'.requests[r]) {
      if r in w.requests {
        assert RequestOk(w, w.requests[r]);
        if a.JobStarts? {
          assert JobOk(w, a.job);
        }
        if a.Write? {
          assert RequestOk(w, w.requests[a.request]);
        }
      } else {
        assert RowOk(w.rows[a.id]);
      }
    }
  }

  lemma StepRows(w: World, a: Action)
    requires Inv(w) && Enabled(w, a) && InOrder(w, a)
    ensures RowsInv(Step(w, a))
  {
    var w' := Step(w, a);
    forall i | i in w'.rows ensures RowOk(w'.rows[i]) {
      if i in w.rows {
        assert RowOk(w.rows[i]);
        if a.JobStarts? {
          assert JobOk(w, a.job);
        }
        if a.Write? {
          assert RequestOk(w, w.requests[a.request]);
        }
      }
    }
  }

  lemma StepInv(w: World, a: Action)
    requires Inv(w) && Enabled(w, a) && InOrder(w, a)
    ensures Inv(Step(w, a))
  {
    StepJobs(w, a);
    StepRequests(w, a);
    StepRows(w, a);
  }

  // ---------- validated is for good ----------

  /** No step but its deletion takes a validated invoice away or makes it anything else; its fields
      change only when another person's validation, checked before, lands too; and its payment only
      by the paid route. In particular no reading, however late, touches it. */
  lemma ValidatedStays(w: World, a: Action, i: InvoiceId)
    requires Inv(w) && Enabled(w, a) && InOrder(w, a)
    requires i in w.rows && w.rows[i].status.Validated?
    ensures i in Step(w, a).rows <==> a != Delete(i)
    ensures a != Delete(i) ==>
              var after := Step(w, a).rows[i];
              && after.status.Validated? && Complete(after)
              && (after == w.rows[i] || (a.Write? && w.requests[a.request].invoice == i))
              && (after.paidAt != w.rows[i].paidAt ==>
                    w.requests[a.request].Paying? && after == w.rows[i].(paidAt := w.requests[a.request].date))
  {
    hide JobsInv, RequestsInv, RowsInv, Complete, NoLoss;
    RowsAreOk(w, i);
    if a.JobStarts? {
      JobsAreOk(w, a.job);
    }
    if a.Write? && w.requests[a.request].invoice == i {
      StepInv(w, a);
      RowsAreOk(Step(w, a), i);
    }
  }

  lemma RowsAreOk(w: World, i: InvoiceId)
    requires RowsInv(w) && i in w.rows
    ensures RowOk(w.rows[i]) && i in w.used
  {
  }

  lemma JobsAreOk(w: World, j: JobId)
    requires JobsInv(w) && j in w.jobs
    ensures JobOk(w, j)
  {
  }

  /** Only a person makes an invoice validated: no reading and no restart does. */
  lemma OnlyPeopleValidate(w: World, a: Action, i: InvoiceId)
    requires Enabled(w, a) && i in Step(w, a).rows && Step(w, a).rows[i].status.Validated?
    requires i in w.rows ==> !w.rows[i].status.Validated?
    ensures a.CreateManual? || (a.Write? && w.requests[a.request].Validating?)
    ensures a.CreateManual? ==> a.id == i && Step(w, a).rows[i].fields == FieldsOf(a.body)
    ensures a.Write? ==> w.requests[a.request].invoice == i
  {
  }

  // ---------- runs ----------

  ghost predicate Possible(w: World, run: seq<Action>)
    decreases |run|, 0
  {
    run == [] || (Possible(w, run[..|run| - 1]) && Enabled(Exec(w, run[..|run| - 1]), run[|run| - 1]))
  }

  ghost function Exec(w: World, run: seq<Action>): World
    requires Possible(w, run)
    decreases |run|, 1
  {
    if run == [] then w else Step(Exec(w, run[..|run| - 1]), run[|run| - 1])
  }

  /** Every sweep of the run found no unstarted job of another process. */
  ghost predicate Ordered(w: World, run: seq<Action>)
    requires Possible(w, run)
    decreases |run|
  {
    run == [] || (Ordered(w, run[..|run| - 1]) && InOrder(Exec(w, run[..|run| - 1]), run[|run| - 1]))
  }

  lemma {:induction false} ExecInv(w: World, run: seq<Action>)
    requires Inv(w) && Possible(w, run) && Ordered(w, run)
    ensures Inv(Exec(w, run))
    decreases |run|
  {
    hide Inv, Enabled, InOrder;
    if run != [] {
      ExecInv(w, run[..|run| - 1]);
      StepInv(Exec(w, run[..|run| - 1]), run[|run| - 1]);
    }
  }

  /** A process that starts after the other one is dead is always in order: nothing is left to start. */
  lemma CrashThenSweep(w: World)
    ensures Enabled(w, Crash) && Clear(Step(w, Crash))
  {
  }

  /** In every run in order: a validated invoice has its service, total and due date, and only
      validated invoices have a payment date. */
  lemma ValidatedIsComplete(run: seq<Action>, i: InvoiceId)
    requires Possible(EMPTY, run) && Ordered(EMPTY, run) && i in Exec(EMPTY, run).rows
    ensures var row := Exec(EMPTY, run).rows[i];
      && (row.status.Validated? ==> row.service.Some? && row.fields.total.Some? && row.fields.dueOn.Some?)
      && (row.paidAt.Some? ==> row.status.Validated?)
  {
    hide JobsInv, RequestsInv, Exec, Possible, Ordered;
    EmptyInv();
    ExecInv(EMPTY, run);
    assert RowOk(Exec(EMPTY, run).rows[i]);
  }

  lemma EmptyInv()
    ensures Inv(EMPTY)
  {
  }

  /** Once validated, validated to the end of the run, unless it is deleted. */
  lemma {:induction false} ValidatedToTheEnd(w: World, run: seq<Action>, i: InvoiceId)
    requires Inv(w) && Possible(w, run) && Ordered(w, run)
    requires i in w.rows && w.rows[i].status.Validated? && forall k :: 0 <= k < |run| ==> run[k] != Delete(i)
    ensures i in Exec(w, run).rows && Exec(w, run).rows[i].status.Validated?
    ensures (forall k :: 0 <= k < |run| ==> !run[k].Write?) ==> Exec(w, run).rows[i] == w.rows[i]
    decreases |run|
  {
    hide Inv, Enabled, InOrder, Step, Complete;
    if run != [] {
      var n := |run| - 1;
      ValidatedToTheEnd(w, run[..n], i);
      ExecInv(w, run[..n]);
      ValidatedStays(Exec(w, run[..n]), run[n], i);
    }
  }

  // ---------- processes that follow each other ----------

  /** Every sweep is that of a process that starts right after the old one died. */
  ghost predicate OneProcess(run: seq<Action>) {
    forall k :: 0 <= k < |run| && run[k].Sweep? ==> k > 0 && run[k - 1].Crash?
  }

  lemma {:induction false} OneProcessIsOrdered(w: World, run: seq<Action>)
    requires Possible(w, run) && OneProcess(run)
    ensures Ordered(w, run)
    decreases |run|
  {
    hide Enabled, Step, Clear;
    if run != [] {
      var n := |run| - 1;
      var before := run[..n];
      OneProcessIsOrdered(w, before);
      if run[n].Sweep? {
        assert before[n - 1].Crash? && Exec(w, before) == Step(Exec(w, before[..n - 1]), Crash);
        CrashThenSweep(Exec(w, before[..n - 1]));
      }
    }
  }

  /** In every run of processes that follow each other: a validated invoice has its service, total and
      due date, and only validated invoices have a payment date. */
  lemma CompleteInOneProcess(run: seq<Action>, i: InvoiceId)
    requires Possible(EMPTY, run) && OneProcess(run) && i in Exec(EMPTY, run).rows
    ensures var row := Exec(EMPTY, run).rows[i];
      && (row.status.Validated? ==> row.service.Some? && row.fields.total.Some? && row.fields.dueOn.Some?)
      && (row.paidAt.Some? ==> row.status.Validated?)
  {
    hide Possible, Exec, Ordered, OneProcess;
    OneProcessIsOrdered(EMPTY, run);
    ValidatedIsComplete(run, i);
  }

  /** And from any moment of such a run on, a validated invoice stays validated until it is deleted, and
      as it is until a person writes. */
  lemma StaysInOneProcess(before: seq<Action>, run: seq<Action>, i: InvoiceId)
    requires Possible(EMPTY, before) && OneProcess(before)
    requires Possible(Exec(EMPTY, before), run) && OneProcess(run)
    requires i in Exec(EMPTY, before).rows && Exec(EMPTY, before).rows[i].status.Validated?
    requires forall k :: 0 <= k < |run| ==> run[k] != Delete(i)
    ensures var w, v := Exec(EMPTY, before), Exec(Exec(EMPTY, before), run);
      && i in v.rows && v.rows[i].status.Validated?
      && ((forall k :: 0 <= k < |run| ==> !run[k].Write?) ==> v.rows[i] == w.rows[i])
  {
    hide Possible, Exec, Ordered, OneProcess, Inv;
    EmptyInv();
    OneProcessIsOrdered(EMPTY, before);
    ExecInv(EMPTY, before);
    OneProcessIsOrdered(Exec(EMPTY, before), run);
    ValidatedToTheEnd(Exec(EMPTY, before), run, i);
  }

  // ---------- the condition is exact ----------

  /** Whenever a sweep finds a job that has yet to start on an existing invoice, there is a run that
      goes on from there in which a person validates the invoice and the job sets it back: the sweep
      is the cause, the unconditional `set_status` the means. */
  lemma UnclearSweepUndoes(w: World, j: JobId, r: RequestId, body: Confirmed)
    requires Inv(w) && Unstarted(w, j) && w.jobs[j].invoice in w.rows && r !in w.requests
    ensures var i := w.jobs[j].invoice;
      var swept := Step(w, Sweep);
      && Enabled(swept, CheckValidate(r, i, body))
      && var validated := Step(Step(swept, CheckValidate(r, i, body)), Write(r));
      && validated.rows[i].status.Validated? && Complete(validated.rows[i])
      && var ready := if w.jobs[j].Added? then Step(validated, JobLoads(j)) else validated;
      && Enabled(ready, JobStarts(j)) && Step(ready, JobStarts(j)).rows[i].status == Extracting
  {
    hide Complete, RequestsInv, RowsInv;
    assert JobOk(w, j);
    var i := w.jobs[j].invoice;
    var swept := Step(w, Sweep);
    assert swept.rows[i].status == Failed;
    var checked := Step(swept, CheckValidate(r, i, body));
    ValidationCompletes(swept.rows[i], body);
    assert checked.rows[i] == checked.requests[r].loaded;
  }

  /** A validation that nothing came between records exactly what the person confirmed. */
  lemma ValidationCompletes(row: Invoice, body: Confirmed)
    ensures var after := Validate(row, row, body);
      after == row.(status := Validated, service := Some(body.service),
                    fields := FieldsOf(body), taxes := body.taxes, error := None)
      && Complete(after)
  {
  }

  // ---------- what each step writes ----------

  /** A reading writes what it found into the columns of its own invoice, as long as that is waiting. */
  lemma ReadingRecords(w: World, j: JobId, outcome: InvoiceTable.Reading, again: bool)
    requires Enabled(w, JobFinishes(j, outcome, again))
    ensures var v, i := Step(w, JobFinishes(j, outcome, again)), w.jobs[j].invoice;
      && OnlyRow(w.rows, v.rows, i) && (i in w.rows ==> Records(w.rows[i], v.rows[i], outcome))
      && v.jobs == (if again then w.jobs else w.jobs - {j}) && v.requests == w.requests && v.used == w.used
  {
  }

  /** A new invoice: queued for its reader or to be validated by hand, or entered complete by a person. */
  lemma NewInvoiceColumns(w: World, a: Action)
    requires Enabled(w, a) && (a.Upload? || a.CreateManual?)
    ensures var v := Step(w, a);
      && v.rows.Keys == w.rows.Keys + {a.id} && v.used == w.used + {a.id}
      && (forall i :: i in w.rows && i != a.id ==> v.rows[i] == w.rows[i])
      && var row := v.rows[a.id];
      && row.paidAt == None && row.error == None
      && (a.Upload? ==>
            && row.status == (if a.reader.Some? then Queued else ToValidate) && row.service == a.service
            && row.fields == Fields(None, None, None, None) && row.taxes == []
            && v.jobs == (if a.reader.Some? then w.jobs[a.reader.value := Added(a.id)] else w.jobs))
      && (a.CreateManual? ==>
            && row.status == Validated && row.service == Some(a.body.service) && row.taxes == a.body.taxes
            && row.fields == Fields(Some(a.body.total), Some(a.body.dueOn), a.body.issuedOn, a.body.number)
            && v.jobs == w.jobs)
  {
  }

  /** A start writes the status alone, a payment its date alone, and a sweep fails what waits; a step that
      is none of these, and no reading, validation or new invoice, leaves every row as it is. */
  lemma OtherColumns(w: World, a: Action, i: InvoiceId)
    requires Enabled(w, a) && i in w.rows && i in Step(w, a).rows
    requires !a.JobFinishes? && !a.Upload? && !a.CreateManual? && !(a.Write? && w.requests[a.request].Validating?)
    ensures var before, after := w.rows[i], Step(w, a).rows[i];
      if a.JobStarts? && w.jobs[a.job].invoice == i && w.jobs[a.job].row.status != Extracting
      then after == before.(status := Extracting)
      else if a.Write? && w.requests[a.request].invoice == i
              && w.requests[a.request].loaded.paidAt != w.requests[a.request].date
      then after == before.(paidAt := w.requests[a.request].date)
      else if a.Sweep? && (before.status == Queued || before.status == Extracting)
      then after == before.(status := Failed, error := Some("Interrupted by a restart"))
      else after == before
  {
  }

  /** A job loads its invoice and starts on it, or ends when it is gone; it ends with its outcome, unless it has
      another one to record; only a crash ends the others. */
  lemma JobsAfter(w: World, a: Action)
    requires Enabled(w, a) && !a.Upload? && !a.JobFinishes?
    ensures var v := Step(w, a);
      && v.used == (if a.CreateManual? then w.used + {a.id} else w.used)
      && (a.Crash? ==> v.jobs == map[] && v.requests == map[] && v.rows == w.rows)
      && (a.JobLoads? ==>
            var i := w.jobs[a.job].invoice;
            v.jobs == if i in w.rows then w.jobs[a.job := Loaded(i, w.rows[i])] else w.jobs - {a.job})
      && (a.JobStarts? ==>
            var i := w.jobs[a.job].invoice;
            v.jobs == if i in w.rows then w.jobs[a.job := Job.Reading(i)] else w.jobs - {a.job})
      && (!a.Crash? && !a.JobLoads? && !a.JobStarts? ==> v.jobs == w.jobs)
  {
  }

  /** A check keeps what it loaded for the write, which ends the request; a deletion takes its row alone. */
  lemma RequestsAfter(w: World, a: Action)
    requires Enabled(w, a)
    ensures var v := Step(w, a);
      && (a.CheckValidate? ==> v.requests == w.requests[a.request := Validating(a.id, w.rows[a.id], a.body)])
      && (a.CheckPaid? ==> v.requests == w.requests[a.request := Paying(a.id, w.rows[a.id], a.date)])
      && (a.Write? || a.GiveUp? ==> v.requests == w.requests - {a.request})
      && (!a.CheckValidate? && !a.CheckPaid? && !a.Write? && !a.GiveUp? && !a.Crash? ==> v.requests == w.requests)
      && (a.Delete? ==> v.rows == w.rows - {a.id})
      && (!a.Delete? ==> w.rows.Keys <= v.rows.Keys)
      && (!a.Upload? && !a.CreateManual? ==> v.rows.Keys <= w.rows.Keys)
  {
  }

  /** A validation writes what the check had loaded against what is stored now. */
  lemma WriteValidates(w: World, r: RequestId)
    requires Enabled(w, Write(r)) && w.requests[r].Validating?
    ensures var v, Validating(i, loaded, body) := Step(w, Write(r)), w.requests[r];
      && OnlyRow(w.rows, v.rows, i) && (i in w.rows ==> v.rows[i] == Validate(w.rows[i], loaded, body))
  {
  }

  /** What the routes let through: a validation of an invoice to validate or failed, a payment of a validated
      one; anything may be deleted, and any request given up. */
  lemma LetThrough(w: World, r: RequestId, i: InvoiceId, body: Confirmed, date: Option<Date>,
                   service: Option<ServiceId>, j: JobId)
    ensures Enabled(w, CheckValidate(r, i, body)) <==>
              r !in w.requests && i in w.rows && (w.rows[i].status == ToValidate || w.rows[i].status == Failed)
    ensures Enabled(w, CheckPaid(r, i, date)) <==> r !in w.requests && i in w.rows && w.rows[i].status == Validated
    ensures Enabled(w, Write(r)) <==> r in w.requests
    ensures Enabled(w, Delete(i)) <==> i in w.rows
    ensures Enabled(w, CreateManual(i, body)) <==> i !in w.used
    ensures Enabled(w, Upload(i, service, None)) <==> i !in w.used
    ensures Enabled(w, Upload(i, service, Some(j))) <==> i !in w.used && j !in w.jobs
    ensures Enabled(w, GiveUp(r)) <==> r in w.requests
    ensures Enabled(w, Crash) && Enabled(w, Sweep)
  {
  }

  // ---------- the repository ----------

  /** The repository's methods are the writes of these steps. */
  method Serve(repo: InvoiceRepository, w: World, a: Action)
    requires Inv(w) && repo.rows == w.rows && Enabled(w, a)
    modifies repo
    ensures repo.rows == Step(w, a).rows
  {
    hide JobsInv, RequestsInv;
    match a {
      case Upload(id, service, reader) => repo.Create(id, Uploaded(service, reader.Some?));
      case CreateManual(id, body) => repo.Create(id, Manual(body));
      case JobStarts(j) =>
        var _ := repo.SetStatus(w.jobs[j].invoice, w.jobs[j].row, Extracting);
      case JobFinishes(j, outcome, _) =>
        var _ := repo.FinishReading(w.jobs[j].invoice, outcome);
      case Write(r) => ServeWrite(repo, w.requests[r]);
      case Delete(id) => repo.Delete(id);
      case Sweep =>
        var _ := repo.ResetStuck();
      case _ =>
    }
  }

  method ServeWrite(repo: InvoiceRepository, q: Request)
    modifies repo
    ensures repo.rows == Written(old(repo.rows), q)
  {
    match q {
      case Validating(i, loaded, body) =>
        var _ := repo.ValidateInvoice(i, loaded, body);
      case Paying(i, loaded, date) =>
        var _ := repo.SetPaid(i, loaded, date);
    }
  }
}
