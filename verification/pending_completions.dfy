/** Invocations that outlived the call that submitted them (src/cord_runtime/pending_completions.py). */
module PendingCompletions {
  import opened Basics

  datatype Key = Key(deployment: string, thread: string) {
    predicate Named() {
      !Blank(deployment) && !Blank(thread)
    }
  }

  datatype Entry = Entry(
    invocation: string, assistant: string, subject: string, cascadeDepth: nat,
    concurrencyHeld: bool, deploymentHeld: bool, recordedAt: real)

  type Entries = map<Key, Entry>

  datatype StoreError = BlankName

  predicate Recordable(key: Key, entry: Entry) {
    key.Named() && !Blank(entry.invocation) && !Blank(entry.assistant) && !Blank(entry.subject)
  }

  /** `None` leaves a field as it is. */
  function Updated(entries: Entries, key: Key, invocation: Option<string>, concurrencyHeld: Option<bool>, deploymentHeld: Option<bool>,
                   now: real): Entries {
    if key !in entries then entries
    else
      var e := entries[key];
      entries[key := e.(
        invocation := if invocation.Some? then invocation.value else e.invocation,
        concurrencyHeld := if concurrencyHeld.Some? then concurrencyHeld.value else e.concurrencyHeld,
        deploymentHeld := if deploymentHeld.Some? then deploymentHeld.value else e.deploymentHeld,
        recordedAt := now)]
  }

  /** An entry whose claims were all given back keeps its Thread's identity. */
  function Downgraded(entries: Entries, key: Key, now: real): Entries {
    Updated(entries, key, None, Some(false), Some(false), now)
  }

  /** Each field named has its new value, and every other one but the time its old. */
  predicate FieldsChanged(e: Entry, f: Entry, invocation: Option<string>, concurrencyHeld: Option<bool>, deploymentHeld: Option<bool>, now: real) {
    && f.assistant == e.assistant && f.subject == e.subject && f.cascadeDepth == e.cascadeDepth && f.recordedAt == now
    && (if invocation.Some? then invocation == Some(f.invocation) else f.invocation == e.invocation)
    && (if concurrencyHeld.Some? then concurrencyHeld == Some(f.concurrencyHeld) else f.concurrencyHeld == e.concurrencyHeld)
    && (if deploymentHeld.Some? then deploymentHeld == Some(f.deploymentHeld) else f.deploymentHeld == e.deploymentHeld)
  }

  class PendingStore {
    var entries: Entries

    constructor ()
      ensures entries == map[]
    {
      entries := map[];
    }

    /** Starts or overwrites one Thread's entry. */
    method RecordPending(key: Key, entry: Entry) returns (r: Result<(), StoreError>)
      modifies this
      ensures r.Ok? <==> Recordable(key, entry)
      ensures entries == if r.Ok? then old(entries)[key := entry] else old(entries)
    {
      if !Recordable(key, entry) { return Err(BlankName); }
      entries := entries[key := entry];
      return Ok(());
    }

    method UpdatePending(key: Key, invocation: Option<string>, concurrencyHeld: Option<bool>, deploymentHeld: Option<bool>, now: real)
      returns (r: Result<Option<Entry>, StoreError>)
      modifies this
      ensures r.Ok? <==> key.Named()
      ensures entries == if r.Ok? then Updated(old(entries), key, invocation, concurrencyHeld, deploymentHeld, now) else old(entries)
      ensures r.Ok? ==> r.value == if key in old(entries) then Some(entries[key]) else None
      ensures entries - {key} == old(entries) - {key} && (key in entries <==> key in old(entries))
      ensures r.Ok? && key in old(entries) ==> FieldsChanged(old(entries)[key], entries[key], invocation, concurrencyHeld, deploymentHeld, now)
    {
      if !key.Named() { return Err(BlankName); }
      if key !in entries { return Ok(None); }
      var record := entries[key];
      if invocation.Some? { record := record.(invocation := invocation.value); }
      if concurrencyHeld.Some? { record := record.(concurrencyHeld := concurrencyHeld.value); }
      if deploymentHeld.Some? { record := record.(deploymentHeld := deploymentHeld.value); }
      record := record.(recordedAt := now);
      entries := entries[key := record];
      return Ok(Some(record));
    }

    method GetPending(key: Key) returns (r: Result<Option<Entry>, StoreError>)
      ensures r.Ok? <==> key.Named()
      ensures r.Ok? ==> r.value == if key in entries then Some(entries[key]) else None
    {
      if !key.Named() { return Err(BlankName); }
      return Ok(if key in entries then Some(entries[key]) else None);
    }

    /** Safe to call twice: the second finds nothing. */
    method ResolvePending(key: Key) returns (r: Result<Option<Entry>, StoreError>)
      modifies this
      ensures r.Ok? <==> key.Named()
      ensures entries == if r.Ok? then old(entries) - {key} else old(entries)
      ensures r.Ok? ==> r.value == if key in old(entries) then Some(old(entries)[key]) else None
    {
      if !key.Named() { return Err(BlankName); }
      if key !in entries {
        assert entries == entries - {key};
        return Ok(None);
      }
      var record := entries[key];
      entries := entries - {key};
      return Ok(Some(record));
    }
  }
}
