/** The invoices table, and the statements that the routes and the background reader run on it. */
module InvoiceTable {
  import opened Text

  type InvoiceId = nat
  type ServiceId = nat
  type Cents = nat
  type Date = nat

  datatype Status = Queued | Extracting | ToValidate | Validated | Failed

  datatype Tax = Tax(name: string, amount: Cents)

  /** What a reading may fill in and a person confirms. */
  datatype Fields = Fields(total: Option<Cents>, dueOn: Option<Date>, issuedOn: Option<Date>, number: Option<string>)

  datatype Invoice = Invoice(status: Status, service: Option<ServiceId>, fields: Fields, taxes: seq<Tax>,
                             paidAt: Option<Date>, error: Option<string>)

  /** The body of a validation or of a manual invoice: service, total and due date are required. */
  datatype Confirmed = Confirmed(service: ServiceId, total: Cents, dueOn: Date, issuedOn: Option<Date>,
                                 number: Option<string>, taxes: seq<Tax>)

  /** What the reader comes back with: cleaned fields, or why it failed. */
  datatype Reading = Read(fields: Fields) | Unreadable(reason: string)

  type Table = map<InvoiceId, Invoice>

  const NOTHING := Fields(None, None, None, None)

  const INTERRUPTED := "Interrupted by a restart"

  predicate Waiting(status: Status) {
    status.Queued? || status.Extracting?
  }

  function FieldsOf(body: Confirmed): Fields {
    Fields(Some(body.total), Some(body.dueOn), body.issuedOn, body.number)
  }

  /** A session writes the columns that differ from what it loaded, and only those. */
  function Dirty<T(==)>(loaded: T, wanted: T, stored: T): T {
    if wanted == loaded then stored else wanted
  }

  function DirtyFields(l: Fields, w: Fields, s: Fields): Fields {
    Fields(Dirty(l.total, w.total, s.total), Dirty(l.dueOn, w.dueOn, s.dueOn),
           Dirty(l.issuedOn, w.issuedOn, s.issuedOn), Dirty(l.number, w.number, s.number))
  }

  function Validate(row: Invoice, loaded: Invoice, body: Confirmed): Invoice {
    Invoice(Dirty(loaded.status, Validated, row.status),
            Dirty(loaded.service, Some(body.service), row.service),
            DirtyFields(loaded.fields, FieldsOf(body), row.fields),
            body.taxes, row.paidAt, Dirty(loaded.error, None, row.error))
  }

  function Either<T>(found: Option<T>, stored: Option<T>): Option<T> {
    if found.Some? then found else stored
  }

  /** `finish` is one conditional UPDATE. */
  function Finish(row: Invoice, reading: Reading): Invoice {
    if !Waiting(row.status) then row
    else match reading
      case Read(f) =>
        row.(status := ToValidate, error := None,
             fields := Fields(Either(f.total, row.fields.total), Either(f.dueOn, row.fields.dueOn),
                              Either(f.issuedOn, row.fields.issuedOn), Either(f.number, row.fields.number)))
      case Unreadable(reason) => row.(status := Failed, error := Some(reason))
  }

  function Reset(row: Invoice): Invoice {
    if Waiting(row.status) then row.(status := Failed, error := Some(INTERRUPTED)) else row
  }

  function ResetAll(rows: Table): Table {
    map i | i in rows :: Reset(rows[i])
  }

  function Changed(before: Table, after: Table): set<InvoiceId> {
    set i | i in before && i in after && after[i] != before[i]
  }

  function Uploaded(service: Option<ServiceId>, useAi: bool): Invoice {
    Invoice(if useAi then Queued else ToValidate, service, NOTHING, [], None, None)
  }

  function Manual(body: Confirmed): Invoice {
    Invoice(Validated, Some(body.service), FieldsOf(body), body.taxes, None, None)
  }

  /** Every other row is as it was. */
  predicate OnlyRow(before: Table, after: Table, id: InvoiceId) {
    after.Keys == before.Keys && forall i :: i in before && i != id ==> after[i] == before[i]
  }

  /** What a reading leaves of a row, column by column. */
  predicate Records(before: Invoice, after: Invoice, reading: Reading) {
    if before.status != Queued && before.status != Extracting then after == before
    else
      && after.service == before.service && after.taxes == before.taxes && after.paidAt == before.paidAt
      && match reading
         case Read(f) =>
           && after.status == ToValidate && after.error == None
           && after.fields.total == (if f.total.Some? then f.total else before.fields.total)
           && after.fields.dueOn == (if f.dueOn.Some? then f.dueOn else before.fields.dueOn)
           && after.fields.issuedOn == (if f.issuedOn.Some? then f.issuedOn else before.fields.issuedOn)
           && after.fields.number == (if f.number.Some? then f.number else before.fields.number)
         case Unreadable(reason) =>
           after.status == Failed && after.error == Some(reason) && after.fields == before.fields
  }

  class InvoiceRepository {
    var rows: Table

    constructor ()
      ensures rows == map[]
    {
      rows := map[];
    }

    method Create(id: InvoiceId, row: Invoice)
      requires id !in rows
      modifies this
      ensures rows == old(rows)[id := row]
    {
      rows := rows[id := row];
    }

    /** False when the row was deleted meanwhile: the session's update finds nothing and fails. */
    method ValidateInvoice(id: InvoiceId, loaded: Invoice, body: Confirmed) returns (ok: bool)
      modifies this
      ensures ok == (id in old(rows))
      ensures rows == if ok then old(rows)[id := Validate(old(rows)[id], loaded, body)] else old(rows)
    {
      if id !in rows {
        return false;
      }
      var wanted, l, f := FieldsOf(body), loaded.fields, rows[id].fields;
      if wanted.total != l.total {
        f := f.(total := wanted.total);
      }
      if wanted.dueOn != l.dueOn {
        f := f.(dueOn := wanted.dueOn);
      }
      if wanted.issuedOn != l.issuedOn {
        f := f.(issuedOn := wanted.issuedOn);
      }
      if wanted.number != l.number {
        f := f.(number := wanted.number);
      }
      assert f == DirtyFields(l, wanted, rows[id].fields);
      var row := rows[id];
      var status := if loaded.status != Validated then Validated else row.status;
      var service := if loaded.service != Some(body.service) then Some(body.service) else row.service;
      var error := if loaded.error != None then None else row.error;
      row := Invoice(status, service, f, body.taxes, row.paidAt, error);
      rows := rows[id := row];
      ok := true;
    }

    method SetPaid(id: InvoiceId, loaded: Invoice, paidAt: Option<Date>) returns (ok: bool)
      modifies this
      ensures ok == (loaded.paidAt == paidAt || id in old(rows))
      ensures rows == if loaded.paidAt != paidAt && id in old(rows)
                      then old(rows)[id := old(rows)[id].(paidAt := paidAt)] else old(rows)
    {
      if loaded.paidAt == paidAt {
        return true;
      }
      ok := id in rows;
      if ok {
        rows := rows[id := rows[id].(paidAt := paidAt)];
      }
    }

    /** No condition on the stored status. */
    method SetStatus(id: InvoiceId, loaded: Invoice, status: Status) returns (ok: bool)
      modifies this
      ensures ok == (loaded.status == status || id in old(rows))
      ensures rows == if loaded.status != status && id in old(rows)
                      then old(rows)[id := old(rows)[id].(status := status)] else old(rows)
    {
      if loaded.status == status {
        return true;
      }
      ok := id in rows;
      if ok {
        rows := rows[id := rows[id].(status := status)];
      }
    }

    /** True when the outcome was recorded: the invoice was still waiting for it. */
    method FinishReading(id: InvoiceId, reading: Reading) returns (applied: bool)
      modifies this
      ensures applied == (id in old(rows) && Waiting(old(rows)[id].status))
      ensures rows == if id in old(rows) then old(rows)[id := Finish(old(rows)[id], reading)] else old(rows)
      ensures OnlyRow(old(rows), rows, id)
      ensures applied <==> id in old(rows) && (old(rows)[id].status == Queued || old(rows)[id].status == Extracting)
      ensures id in rows ==> Records(old(rows)[id], rows[id], reading)
    {
      if id !in rows {
        return false;
      }
      if !Waiting(rows[id].status) {
        assert rows == rows[id := rows[id]];
        return false;
      }
      var row := rows[id];
      match reading {
        case Read(f) =>
          var fields := row.fields;
          if f.total.Some? {
            fields := fields.(total := f.total);
          }
          if f.dueOn.Some? {
            fields := fields.(dueOn := f.dueOn);
          }
          if f.issuedOn.Some? {
            fields := fields.(issuedOn := f.issuedOn);
          }
          if f.number.Some? {
            fields := fields.(number := f.number);
          }
          row := row.(fields := fields, status := ToValidate, error := None);
        case Unreadable(reason) =>
          row := row.(status := Failed, error := Some(reason));
      }
      rows := rows[id := row];
      applied := true;
    }

    method Delete(id: InvoiceId)
      modifies this
      ensures rows == old(rows) - {id}
    {
      rows := rows - {id};
    }

    /** The reported count is the number of rows that are different now. */
    method ResetStuck() returns (count: nat)
      modifies this
      ensures rows == ResetAll(old(rows))
      ensures rows.Keys == old(rows).Keys
      ensures forall i :: i in rows ==>
                if old(rows)[i].status == Queued || old(rows)[i].status == Extracting
                then rows[i] == old(rows)[i].(status := Failed, error := Some("Interrupted by a restart"))
                else rows[i] == old(rows)[i]
      ensures count == |Changed(old(rows), rows)|
    {
      ghost var before := rows;
      var stuck := set i | i in rows && Waiting(rows[i].status);
      rows := map i | i in rows ::
          if i in stuck then rows[i].(status := Failed, error := Some(INTERRUPTED)) else rows[i];
      count := |stuck|;
      assert rows == ResetAll(before);
      assert Changed(before, rows) == stuck;
    }
  }

  /** A validation writes each column that it wants different from what it had loaded, and no other. */
  lemma ValidateColumns(before: Invoice, loaded: Invoice, body: Confirmed)
    ensures var after := Validate(before, loaded, body);
      && after.status == (if loaded.status == Validated then before.status else Validated)
      && after.service == (if loaded.service == Some(body.service) then before.service else Some(body.service))
      && after.error == (if loaded.error == None then before.error else None)
      && after.taxes == body.taxes && after.paidAt == before.paidAt
      && var l, b, f := loaded.fields, before.fields, after.fields;
      && f.total == (if l.total == Some(body.total) then b.total else Some(body.total))
      && f.dueOn == (if l.dueOn == Some(body.dueOn) then b.dueOn else Some(body.dueOn))
      && f.issuedOn == (if l.issuedOn == body.issuedOn then b.issuedOn else body.issuedOn)
      && f.number == (if l.number == body.number then b.number else body.number)
  {
  }

  /** What a sweep changes, and so counts, is what was queued or being read. */
  lemma WaitingRowsChange(before: Table)
    ensures Changed(before, ResetAll(before))
            == set i | i in before && (before[i].status == Queued || before[i].status == Extracting)
  {
  }
}
