/**
 The durable rows of runs and the audit events written together with them (`SQLiteRunStore.create`, `save`,
 `append_audit`). Event ids are unique over all tenants; the hash chain over the events is the subject of
 `AuditStore` and plays no part here. Every operation is one transaction.
 */
module RunStore {
  import opened Prelude
  import opened Models
  import opened Campaign
  import opened Runs

  datatype Key = Key(tenant: string, runId: string)

  /** A command's receipt carries the response of the command. */
  datatype Record = Receipt(operation: string, fingerprint: string, response: Run) | Note(action: string)

  datatype AuditEntry = AuditEntry(tenant: string, record: Record)

  datatype Store = Store(runs: map<Key, Run>, audit: map<string, AuditEntry>)

  datatype StoreError = RowExists | EventConflict | RowMissing | StateConflict | EventIdTaken

  function Find(store: Store, tenant: string, eventId: string): Option<Record> {
    if eventId in store.audit && store.audit[eventId].tenant == tenant then Some(store.audit[eventId].record) else None
  }

  /** How a violated unique key is reported: an event id known to the tenant is a conflict of receipts. */
  function Clash(store: Store, tenant: string, eventId: string, otherwise: StoreError): StoreError {
    if Find(store, tenant, eventId).Some? then EventConflict else otherwise
  }

  function Append(store: Store, tenant: string, eventId: string, record: Record): Result<Store, StoreError> {
    if eventId in store.audit then Err(EventIdTaken)
    else Ok(store.(audit := store.audit[eventId := AuditEntry(tenant, record)]))
  }

  function CreateRow(store: Store, tenant: string, run: Run, eventId: string, record: Record)
    : Result<Store, StoreError>
  {
    var key := Key(tenant, run.runId);
    if key in store.runs || eventId in store.audit then Err(Clash(store, tenant, eventId, RowExists))
    else Ok(Store(store.runs[key := run], store.audit[eventId := AuditEntry(tenant, record)]))
  }

  /** Replaces a row whose status is the expected one, together with an event if there is one. */
  function SaveRow(store: Store, tenant: string, run: Run, expected: RunStatus, eventId: Option<string>, record: Record)
    : Result<Store, StoreError>
  {
    var key := Key(tenant, run.runId);
    if key !in store.runs then Err(RowMissing)
    else if store.runs[key].status != expected then Err(StateConflict)
    else
      match eventId
      case None => Ok(store.(runs := store.runs[key := run]))
      case Some(id) =>
        if id in store.audit then Err(Clash(store, tenant, id, EventIdTaken))
        else Ok(Store(store.runs[key := run], store.audit[id := AuditEntry(tenant, record)]))
  }

  class SQLiteRunStore {
    var runs: map<Key, Run>
    var audit: map<string, AuditEntry>

    function Contents(): Store
      reads this
    {
      Store(runs, audit)
    }

    constructor ()
      ensures Contents() == Store(map[], map[])
    {
      runs, audit := map[], map[];
    }

    method AppendAudit(tenant: string, eventId: string, record: Record) returns (error: Option<StoreError>)
      modifies this
      ensures match Append(old(Contents()), tenant, eventId, record)
              case Ok(next) => error == None && Contents() == next
              case Err(e) => error == Some(e) && Contents() == old(Contents())
    {
      if eventId in audit {
        return Some(EventIdTaken);
      }
      audit := audit[eventId := AuditEntry(tenant, record)];
      error := None;
    }

    /** Inserts the row first; when the event cannot be inserted, the row goes again. */
    method Create(tenant: string, run: Run, eventId: string, record: Record) returns (error: Option<StoreError>)
      modifies this
      ensures match CreateRow(old(Contents()), tenant, run, eventId, record)
              case Ok(next) => error == None && Contents() == next
              case Err(e) => error == Some(e) && Contents() == old(Contents())
    {
      var key, before := Key(tenant, run.runId), runs;
      if key in runs {
        return Some(Clash(Contents(), tenant, eventId, RowExists));
      }
      runs := runs[key := run];
      error := AppendAudit(tenant, eventId, record);
      if error != None {
        runs := before;
        error := Some(Clash(Contents(), tenant, eventId, RowExists));
      }
    }

    method Save(tenant: string, run: Run, expected: RunStatus, eventId: Option<string>, record: Record)
      returns (error: Option<StoreError>)
      modifies this
      ensures match SaveRow(old(Contents()), tenant, run, expected, eventId, record)
              case Ok(next) => error == None && Contents() == next
              case Err(e) => error == Some(e) && Contents() == old(Contents())
    {
      var key, before := Key(tenant, run.runId), runs;
      if key !in runs {
        return Some(RowMissing);
      }
      if runs[key].status != expected {
        return Some(StateConflict);
      }
      runs := runs[key := run];
      error := None;
      if eventId.Some? {
        error := AppendAudit(tenant, eventId.value, record);
        if error != None {
          runs := before;
          error := Some(Clash(Contents(), tenant, eventId.value, EventIdTaken));
        }
      }
    }
  }
}
