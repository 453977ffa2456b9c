// packages/core/src/xref/xref-store.ts: what an xref store means, and the in-memory store.
module XrefStore {
  import opened Common
  import opened DedupKey

  datatype Status = Pending | Synced | Error | Ignored

  datatype Row = Row(
    parts: Parts,
    targetSystem: string,
    targetId: Option<InternalId>,
    targetExternal: string,
    sourceHash: Option<string>,
    status: Status)

  // The table as its primary key sees it.
  type Table = map<Parts, Row>

  datatype ClaimInput = ClaimInput(
    parts: Parts, targetSystem: string, targetExternal: string, sourceHash: Option<string>)

  datatype ClaimOutcome = Claimed | AlreadyClaimed | AlreadySynced | RowIgnored

  datatype ClaimResult = ClaimResult(outcome: ClaimOutcome, row: Row)

  // ----- one row at a time -----

  function OutcomeOf(s: Status): ClaimOutcome {
    match s
    case Synced => AlreadySynced
    case Ignored => RowIgnored
    case Pending | Error => AlreadyClaimed
  }

  function PendingRow(i: ClaimInput): Row {
    Row(i.parts, i.targetSystem, None, i.targetExternal, i.sourceHash, Pending)
  }

  function SyncedRow(r: Row, targetId: InternalId, externalId: string): Row {
    r.(targetId := Some(targetId), targetExternal := externalId, status := Synced)
  }

  function FailedRow(r: Row, sourceHash: Option<string>): Row {
    r.(status := Error, sourceHash := if sourceHash.Some? then sourceHash else r.sourceHash)
  }

  function IgnoredRow(p: Parts, r: Option<Row>): Row {
    match r
    case Some(row) => row.(status := Ignored)
    case None => Row(p, "netsuite", None, "", None, Ignored)
  }

  // ----- the atomic specification of each operation -----

  function Find(t: Table, p: Parts): Option<Row> {
    if p in t then Some(t[p]) else None
  }

  // The table with the row under `p` replaced, or removed.
  function PutRow(t: Table, p: Parts, row: Option<Row>): Table {
    match row
    case Some(r) => t[p := r]
    case None => t - {p}
  }

  function ClaimAnswer(t: Table, i: ClaimInput): ClaimResult {
    if i.parts in t
    then ClaimResult(OutcomeOf(t[i.parts].status), t[i.parts])
    else ClaimResult(Claimed, PendingRow(i))
  }

  function AfterClaim(t: Table, i: ClaimInput): Table {
    if i.parts in t then t else t[i.parts := PendingRow(i)]
  }

  // A claim, status by status: it takes an absent row, and is told of a present one.
  ghost predicate Claims(t: Table, i: ClaimInput, r: ClaimResult, after: Table) {
    if i.parts in t then
      && r.row == t[i.parts] && after == t
      && (r.outcome == AlreadySynced <==> r.row.status == Synced)
      && (r.outcome == RowIgnored <==> r.row.status == Ignored)
      && (r.outcome == AlreadyClaimed <==> r.row.status == Pending || r.row.status == Error)
    else
      && r.outcome == Claimed && after == t[i.parts := r.row]
      && r.row == Row(i.parts, i.targetSystem, None, i.targetExternal, i.sourceHash, Pending)
  }

  lemma ClaimSays(t: Table, i: ClaimInput)
    ensures Claims(t, i, ClaimAnswer(t, i), AfterClaim(t, i))
  {
  }

  function AfterSuccess(t: Table, p: Parts, targetId: InternalId, externalId: string): Table {
    if p in t then t[p := SyncedRow(t[p], targetId, externalId)] else t
  }

  function AfterFailure(t: Table, p: Parts, sourceHash: Option<string>): Table {
    if p in t then t[p := FailedRow(t[p], sourceHash)] else t
  }

  function AfterIgnore(t: Table, p: Parts): Table {
    t[p := IgnoredRow(p, Find(t, p))]
  }

  function AfterDelete(t: Table, p: Parts): Table {
    t - {p}
  }

  // ----- rows filed under the printed key -----

  ghost predicate Filed(rows: map<string, Row>) {
    forall k :: k in rows ==> Key(rows[k].parts) == Ok(k)
  }

  // The same rows under the five-column key.
  ghost function TableOf(rows: map<string, Row>): Table
    requires Filed(rows)
  {
    map k | k in rows :: rows[k].parts := rows[k]
  }

  lemma TableAt(rows: map<string, Row>, p: Parts)
    requires Filed(rows) && Accepted(p)
    ensures Find(TableOf(rows), p) == if KeyString(p) in rows then Some(rows[KeyString(p)]) else None
    ensures KeyString(p) in rows ==> rows[KeyString(p)].parts == p
  {
    if KeyString(p) in rows {
      KeyInjective(rows[KeyString(p)].parts, p);
    }
  }

  lemma TablePut(rows: map<string, Row>, key: string, row: Row)
    requires Filed(rows) && Key(row.parts) == Ok(key)
    ensures Filed(rows[key := row])
    ensures TableOf(rows[key := row]) == TableOf(rows)[row.parts := row]
  {
    var rows' := rows[key := row];
    var t, t' := TableOf(rows)[row.parts := row], TableOf(rows');
    forall p
      ensures Find(t', p) == Find(t, p)
    {
      if Accepted(p) {
        TableAt(rows, p);
        TableAt(rows', p);
        if KeyString(p) == key {
          KeyInjective(p, row.parts);
        }
      }
    }
    FindExtensional(t', t);
  }

  lemma TableDrop(rows: map<string, Row>, p: Parts)
    requires Filed(rows) && Accepted(p)
    ensures Filed(rows - {KeyString(p)})
    ensures TableOf(rows - {KeyString(p)}) == AfterDelete(TableOf(rows), p)
  {
    var rows' := rows - {KeyString(p)};
    var t, t' := AfterDelete(TableOf(rows), p), TableOf(rows');
    forall q
      ensures Find(t', q) == Find(t, q)
    {
      if Accepted(q) {
        TableAt(rows, q);
        TableAt(rows', q);
        if KeyString(q) == KeyString(p) {
          KeyInjective(q, p);
        }
      }
    }
    FindExtensional(t', t);
  }

  lemma FindExtensional(t: Table, u: Table)
    requires forall p :: Find(t, p) == Find(u, p)
    ensures t == u
  {
    forall p
      ensures p in t <==> p in u
      ensures p in t ==> t[p] == u[p]
    {
      assert Find(t, p) == Find(u, p);
    }
  }

  // The in-memory store. Each method body is one turn of the per-key promise chain, so it
  // runs without interference.
  class InMemoryXrefStore {
    var rows: map<string, Row>

    ghost predicate Valid()
      reads this
    {
      Filed(rows)
    }

    ghost function View(): Table
      reads this
      requires Valid()
    {
      TableOf(rows)
    }

    constructor ()
      ensures Valid() && View() == map[]
    {
      rows := map[];
    }

    method Claim(input: ClaimInput) returns (r: Result<ClaimResult, string>)
      requires Valid()
      modifies this
      ensures Valid()
      ensures !Accepted(input.parts) ==> r.Err? && rows == old(rows)
      ensures Accepted(input.parts) ==>
                && r == Ok(ClaimAnswer(old(View()), input))
                && View() == AfterClaim(old(View()), input)
                && Claims(old(View()), input, r.value, View())
    {
      var key := Key(input.parts);
      if key.Err? {
        return Err(key.error);
      }
      TableAt(rows, input.parts);
      if key.value in rows {
        var existing := rows[key.value];
        match existing.status {
          case Synced => return Ok(ClaimResult(AlreadySynced, existing));
          case Ignored => return Ok(ClaimResult(RowIgnored, existing));
          case Pending | Error => return Ok(ClaimResult(AlreadyClaimed, existing));
        }
      }
      var row := PendingRow(input);
      TablePut(rows, key.value, row);
      rows := rows[key.value := row];
      return Ok(ClaimResult(Claimed, row));
    }

    method RecordSuccess(p: Parts, targetId: InternalId, externalId: string)
      returns (r: Result<Row, string>)
      requires Valid()
      modifies this
      ensures Valid()
      ensures !Accepted(p) ==> r.Err? && rows == old(rows)
      ensures Accepted(p) ==> (r.Ok? <==> p in old(View()))
      ensures Accepted(p) ==> View() == AfterSuccess(old(View()), p, targetId, externalId)
      ensures r.Err? ==> View() == old(View())
      ensures r.Ok? ==>
                && View() == old(View())[p := r.value]
                && r.value ==
                   old(View())[p].(targetId := Some(targetId), targetExternal := externalId, status := Synced)
    {
      var key := Key(p);
      if key.Err? {
        return Err(key.error);
      }
      TableAt(rows, p);
      if key.value !in rows {
        return Err("cannot record success for unclaimed key");
      }
      var updated := SyncedRow(rows[key.value], targetId, externalId);
      TablePut(rows, key.value, updated);
      rows := rows[key.value := updated];
      return Ok(updated);
    }

    method RecordFailure(p: Parts, sourceHash: Option<string>) returns (r: Result<Row, string>)
      requires Valid()
      modifies this
      ensures Valid()
      ensures !Accepted(p) ==> r.Err? && rows == old(rows)
      ensures Accepted(p) ==> (r.Ok? <==> p in old(View()))
      ensures Accepted(p) ==> View() == AfterFailure(old(View()), p, sourceHash)
      ensures r.Err? ==> View() == old(View())
      ensures r.Ok? ==>
                && View() == old(View())[p := r.value] && r.value.status == Error
                && r.value.(status := old(View())[p].status, sourceHash := old(View())[p].sourceHash) == old(View())[p]
                && r.value.sourceHash == if sourceHash.Some? then sourceHash else old(View())[p].sourceHash
    {
      var key := Key(p);
      if key.Err? {
        return Err(key.error);
      }
      TableAt(rows, p);
      if key.value !in rows {
        return Err("cannot record failure for unclaimed key");
      }
      var updated := FailedRow(rows[key.value], sourceHash);
      TablePut(rows, key.value, updated);
      rows := rows[key.value := updated];
      return Ok(updated);
    }

    method MarkIgnored(p: Parts) returns (r: Result<Row, string>)
      requires Valid()
      modifies this
      ensures Valid()
      ensures !Accepted(p) ==> r.Err? && rows == old(rows)
      ensures Accepted(p) ==> View() == AfterIgnore(old(View()), p) && r == Ok(View()[p])
      ensures r.Ok? ==>
                && View() == old(View())[p := r.value]
                && r.value == if p in old(View()) then old(View())[p].(status := Ignored)
                              else Row(p, "netsuite", None, "", None, Ignored)
    {
      var key := Key(p);
      if key.Err? {
        return Err(key.error);
      }
      TableAt(rows, p);
      var existing := if key.value in rows then Some(rows[key.value]) else None;
      var row := IgnoredRow(p, existing);
      TablePut(rows, key.value, row);
      rows := rows[key.value := row];
      return Ok(row);
    }

    method Lookup(p: Parts) returns (r: Result<Option<Row>, string>)
      requires Valid()
      ensures r.Err? <==> !Accepted(p)
      ensures r.Ok? ==> r.value == Find(View(), p)
    {
      var key := Key(p);
      if key.Err? {
        return Err(key.error);
      }
      TableAt(rows, p);
      return Ok(if key.value in rows then Some(rows[key.value]) else None);
    }

    method Delete(p: Parts) returns (r: Result<Option<Row>, string>)
      requires Valid()
      modifies this
      ensures Valid()
      ensures !Accepted(p) ==> r.Err? && rows == old(rows)
      ensures Accepted(p) ==> r == Ok(Find(old(View()), p)) && View() == AfterDelete(old(View()), p)
    {
      var key := Key(p);
      if key.Err? {
        return Err(key.error);
      }
      TableAt(rows, p);
      var existing := if key.value in rows then Some(rows[key.value]) else None;
      TableDrop(rows, p);
      rows := rows - {key.value};
      return Ok(existing);
    }
  }
}
