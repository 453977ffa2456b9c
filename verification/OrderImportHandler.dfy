// apps/functions/src/triggers/order-import-handler.ts: one delivery, with its try, catch and
// finally. `await`s that throw come back as `Err`; which of them throw is left open. The ghost
// field `at` is the delivery's place in the step graph: every store operation says the place
// it belongs to, so a step skipped, repeated or taken out of turn does not verify.
module OrderImportHandler {
  import opened Common
  import opened DedupKey
  import opened XrefStore
  import opened NetSuiteGateway
  import opened OrderImportFlow

  datatype Order = Order(eligible: bool, customer: Option<string>)

  // One row of `order_attempt`.
  datatype AttemptLabel =
    | AttemptImported
    | AttemptParked(stage: Stage, errorClass: ErrorClass)
    | AttemptIgnoredByEligibility
    | AttemptShort(claim: ClaimOutcome)
    | AttemptRejected
    | AuthThrow(errorClass: ErrorClass)
    | TransientThrow(errorClass: ErrorClass)

  datatype Attempt = Attempt(parts: Parts, outcome: AttemptLabel)

  // resolveAttemptOutcome: a captured error wins over an outcome.
  function ResolveAttemptOutcome(outcome: Option<Outcome>, throwErr: Option<Thrown>): AttemptLabel {
    match throwErr
    case Some(e) =>
      var cls := Classify(e);
      if cls == Auth then AuthThrow(cls) else TransientThrow(cls)
    case None =>
      match outcome
      case None => TransientThrow(Unknown)
      case Some(Imported(_)) => AttemptImported
      case Some(Parked(s, c)) => AttemptParked(s, c)
      case Some(IgnoredByEligibility) => AttemptIgnoredByEligibility
      case Some(ShortCircuit(c)) => AttemptShort(c)
      case Some(Rejected) => AttemptRejected
  }

  function LabelOf(r: Returned): AttemptLabel {
    match r
    case Returns(o) => ResolveAttemptOutcome(Some(o), None)
    case Throws(e) => ResolveAttemptOutcome(None, Some(e))
  }

  // The attempt row tells what the handler returned or threw: each label comes from one result,
  // a throw's from the class of its error, and the id of an import is not in it.
  lemma LabelTells(r: Returned)
    ensures LabelOf(r) == AttemptImported <==> r.Returns? && r.outcome.Imported?
    ensures forall stage, cls :: LabelOf(r) == AttemptParked(stage, cls) <==> r == Returns(Parked(stage, cls))
    ensures LabelOf(r) == AttemptIgnoredByEligibility <==> r == Returns(IgnoredByEligibility)
    ensures forall claim :: LabelOf(r) == AttemptShort(claim) <==> r == Returns(ShortCircuit(claim))
    ensures LabelOf(r) == AttemptRejected <==> r == Returns(Rejected)
    ensures LabelOf(r) == AuthThrow(Auth) <==> r == Throws(Failure(Auth))
    ensures forall cls :: cls != Auth ==>
              (LabelOf(r) == TransientThrow(cls) <==>
               r == Throws(Failure(cls)) || (r == Throws(OrderNotFound) && cls == Data))
  {
  }

  // What a delivery is told of the row it finds.
  predicate ToldOf(status: Status, claim: ClaimOutcome) {
    match claim
    case AlreadySynced => status == Synced
    case RowIgnored => status == Ignored
    case AlreadyClaimed => status == Pending || status == Error
    case Claimed => false
  }

  // NetSuite has lost no record, and what is new is the order's record or a customer's.
  ghost predicate OnlyItsRecords(order: NsKey, before: NsState, after: NsState) {
    && Grew(before, after)
    && forall k :: k in after.ids && k !in before.ids ==>
         k == order || (k.account == order.account && k.recordType == "customer")
  }

  lemma RecordsJoin(order: NsKey, a: NsState, b: NsState, c: NsState)
    requires OnlyItsRecords(order, a, b) && OnlyItsRecords(order, b, c)
    ensures OnlyItsRecords(order, a, c)
  {
  }

  lemma UpsertOnly(order: NsKey, ns: NsState, k: NsKey)
    requires WellNumbered(ns) && (k == order || (k.account == order.account && k.recordType == "customer"))
    ensures OnlyItsRecords(order, ns, ns) && OnlyItsRecords(order, ns, Upserted(ns, k))
    ensures k in Upserted(ns, k).ids && Upserted(ns, k).ids[k] == UpsertId(ns, k)
  {
    UpsertGrows(ns, k);
  }

  class Handler {
    const wiring: Wiring
    // The connection's NetSuite account and order record type.
    const account: string
    const recordType: string

    var table: Table
    var ns: NsState
    var upserts: nat
    var attempts: seq<Attempt>
    ghost var at: Pc

    constructor (w: Wiring, account: string, recordType: string)
      ensures table == map[] && ns == NsState(map[], 0) && upserts == 0 && attempts == []
      ensures at == FindConnection && wiring == w
    {
      this.wiring, this.account, this.recordType := w, account, recordType;
      table, ns, upserts, attempts := map[], NsState(map[], 0), 0, [];
      at := FindConnection;
    }

    ghost function RowOf(m: Message): Option<Row>
      reads this
    {
      Find(table, m.parts)
    }

    // The delivery's row is what its place in the graph says.
    ghost predicate Settled(m: Message)
      reads this
    {
      RowAt(at, Find(table, m.parts))
    }

    // The rows of other orders are as they were.
    twostate predicate OthersKept(m: Message)
      reads this
    {
      table - {m.parts} == old(table) - {m.parts}
    }

    // An await of the delivery comes back with `io`: it may, the table has become what the
    // graph says it does to `before`, and the delivery moves on along the graph.
    ghost method Advance(m: Message, io: Io, before: Table)
      requires IoFits(wiring, at, io, Find(before, m.parts))
      requires table == PutRow(before, m.parts, RowAfter(m, at, io, Find(before, m.parts)))
      modifies this`at
      ensures at == Next(wiring, m, old(at), io)
      ensures RowAt(old(at), Find(before, m.parts)) ==> Settled(m)
    {
      if RowAt(at, Find(before, m.parts)) {
        StepKeepsRowAt(wiring, m, at, io, Find(before, m.parts));
      }
      at := Next(wiring, m, at, io);
    }

    // ----- the operations the handler awaits -----

    method FindConnectionById(m: Message) returns (r: Result<bool, Thrown>)
      requires at == FindConnection
      modifies this`at
      ensures Settled(m)
      ensures r == Ok(true) ==> at == AfterGate(m)
      ensures r == Ok(false) ==> at == Finished(Returns(Rejected))
      ensures r.Err? ==> at == Finished(Throws(r.error))
    {
      var fails: bool, found: bool, e: Thrown := *, *, *;
      r := if fails then Err(e) else Ok(found);
      Advance(m, if fails then Fails(e, false) else if found then Done else Missing, table);
    }

    method Lookup(m: Message) returns (r: Result<Option<Row>, Thrown>)
      requires (at == GateLookup || at == ClaimSelect) && Settled(m)
      modifies this`at
      ensures Settled(m)
      ensures r.Ok? ==> r.value == RowOf(m)
      ensures r.Err? ==> at == Finished(Throws(r.error))
      ensures r.Ok? && old(at) == GateLookup ==> at == if r.value.None? then GateIgnore else ClaimInsert
      ensures r.Ok? && r.value.Some? && old(at) == ClaimSelect ==>
                at == WriteAttempt(Returns(ShortCircuit(OutcomeOf(r.value.value.status))))
    {
      var fails: bool, e: Thrown := *, *;
      var row := if m.parts in table then Some(table[m.parts]) else None;
      r := if fails then Err(e) else Ok(row);
      Advance(m, if fails then Fails(e, false) else if row.Some? then Found(row.value.status) else Missing, table);
    }

    // xrefStore.claim: the INSERT, then after a conflict the SELECT.
    method Claim(m: Message) returns (r: Result<ClaimOutcome, Thrown>)
      requires at == ClaimInsert
      modifies this`at, this`table
      ensures Settled(m) && OthersKept(m)
      ensures r == Ok(Claimed) <==> at == Fetch
      ensures r == Ok(Claimed) ==> m.parts !in old(table)
      ensures r.Ok? ==>
                m.parts in table && Claims(old(table), ClaimOf(m), ClaimResult(r.value, table[m.parts]), table)
      ensures r.Ok? && r != Ok(Claimed) ==> at == WriteAttempt(Returns(ShortCircuit(r.value)))
      ensures r.Err? ==> at == Finished(Throws(r.error))
      ensures m.parts in old(table) ==> table == old(table)
    {
      ghost var before := table;
      var fails: bool, applied: bool, e: Thrown := *, *, *;
      if fails {
        if applied {
          table := AfterClaim(table, ClaimOf(m));
        }
        Advance(m, Fails(e, applied), before);
        return Err(e);
      }
      if m.parts !in table {
        table := table[m.parts := PendingRow(ClaimOf(m))];
        Advance(m, Inserted, before);
        return Ok(Claimed);
      }
      Advance(m, Conflict, before);
      var existing := Lookup(m);
      if existing.Err? {
        return Err(existing.error);
      }
      return Ok(OutcomeOf(existing.value.value.status));
    }

    method MarkIgnored(m: Message) returns (r: Result<(), Thrown>)
      requires (at == GateIgnore || at == IgnoreRow) && Settled(m)
      modifies this`at, this`table
      ensures Settled(m) && OthersKept(m)
      ensures r.Ok? ==> at == if old(at) == GateIgnore then GateLog else IgnoreLog
      ensures r.Err? ==> at == if old(at) == GateIgnore then Finished(Throws(r.error)) else Caught(r.error)
    {
      ghost var before := table;
      var fails: bool, applied: bool, e: Thrown := *, *, *;
      if !fails || applied {
        table := AfterIgnore(table, m.parts);
      }
      Advance(m, if fails then Fails(e, applied) else Done, before);
      return if fails then Err(e) else Ok(());
    }

    // The row cannot be missing here: the delivery runs alone and claimed it. The graph also
    // covers the run in which a replay deletes it.
    method RecordSuccess(m: Message, id: InternalId) returns (r: Result<(), Thrown>)
      requires at == OrderImportFlow.RecordSuccess(id) && Settled(m)
      modifies this`at, this`table
      ensures Settled(m) && OthersKept(m)
      ensures at == if r.Ok? then ImportLog(id) else Caught(r.error)
    {
      ghost var before := table;
      var fails: bool, applied: bool, e: Thrown := *, *, *;
      if !fails || applied {
        table := AfterSuccess(table, m.parts, id, m.parts.sourceId);
      }
      Advance(m, if fails then Fails(e, applied) else Done, before);
      return if fails then Err(e) else Ok(());
    }

    method RecordFailure(m: Message, ghost stage: Stage, ghost cls: ErrorClass, ghost caught: bool)
      returns (r: Result<(), Thrown>)
      requires at == ParkRow(stage, cls, caught) && Settled(m)
      modifies this`at, this`table
      ensures Settled(m) && OthersKept(m)
      ensures at == if r.Ok? then ParkErrorLog(stage, cls, caught) else ParkingFailed(caught, r.error)
    {
      ghost var before := table;
      var fails: bool, applied: bool, e: Thrown := *, *, *;
      if !fails || applied {
        table := AfterFailure(table, m.parts, None);
      }
      Advance(m, if fails then Fails(e, applied) else Done, before);
      return if fails then Err(e) else Ok(());
    }

    method GetOrder(m: Message) returns (r: Result<Order, Thrown>)
      requires at == Fetch && Settled(m)
      modifies this`at
      ensures Settled(m)
      ensures r.Ok? ==> at == if r.value.eligible then Customer(r.value.customer) else IgnoreRow
      ensures r.Err? ==> at == Caught(r.error)
    {
      var fails: bool, e: Thrown, eligible: bool, customer: Option<string> := *, *, *, *;
      r := if fails then Err(e) else Ok(Order(eligible, customer));
      Advance(m, if fails then Fails(e, false) else Fetched(eligible, customer), table);
    }

    // A guest order has no customer record to write.
    method ResolveCustomer(m: Message, gid: Option<string>) returns (r: Result<(), Thrown>)
      requires at == Customer(gid) && Settled(m) && WellNumbered(ns)
      modifies this`at, this`ns
      ensures Settled(m)
      ensures OnlyItsRecords(NsKey(account, recordType, m.parts.sourceId), old(ns), ns)
      ensures at == if r.Ok? then OrderImportFlow.BuildPayload else Caught(r.error)
      ensures ns == old(ns) || (gid.Some? && ns == Upserted(old(ns), NsKey(account, "customer", gid.value)))
      ensures r.Ok? && gid.Some? ==> ns == Upserted(old(ns), NsKey(account, "customer", gid.value))
    {
      var fails: bool, applied: bool, e: Thrown := *, *, *;
      if gid.Some? {
        UpsertOnly(NsKey(account, recordType, m.parts.sourceId), ns, NsKey(account, "customer", gid.value));
      }
      if gid.Some? && (!fails || applied) {
        ns := Upserted(ns, NsKey(account, "customer", gid.value));
      }
      Advance(m, if fails then Fails(e, applied) else Done, table);
      return if fails then Err(e) else Ok(());
    }

    // buildOrderPayload, the tax header and applyBalancing: a park, or a payload.
    method BuildPayload(m: Message) returns (r: Result<Option<Stage>, Thrown>)
      requires at == OrderImportFlow.BuildPayload && Settled(m)
      modifies this`at
      ensures Settled(m)
      ensures r == Ok(None) ==> at == ResolveItems
      ensures r.Ok? && r.value.Some? ==> at == ParkRow(r.value.value, ClassOfPark(r.value.value), false)
      ensures r.Err? ==> at == Caught(r.error)
    {
      var fails: bool, parks: bool, balancing: bool, e: Thrown := *, *, *, *;
      var stage := if balancing then AtBalancing else AtMapping;
      r := if fails then Err(e) else Ok(if parks then Some(stage) else None);
      Advance(m, if fails then Fails(e, false) else if parks then Parks(stage) else Done, table);
    }

    method ResolveItemReferences(m: Message) returns (r: Result<Option<Stage>, Thrown>)
      requires at == ResolveItems && Settled(m)
      modifies this`at
      ensures Settled(m)
      ensures r == Ok(None) ==> at == Upsert
      ensures r.Ok? && r.value.Some? ==> at == ParkRow(r.value.value, ClassOfPark(r.value.value), false)
      ensures r.Err? ==> at == Caught(r.error)
    {
      var fails: bool, parks: bool, e: Thrown := *, *, *;
      r := if fails then Err(e) else Ok(if parks then Some(AtItemResolution) else None);
      Advance(m, if fails then Fails(e, false) else if parks then Parks(AtItemResolution) else Done, table);
    }

    // The record may have been written although the call throws.
    method UpsertByExternalId(m: Message) returns (r: Result<InternalId, Thrown>)
      requires at == Upsert && Settled(m)
      modifies this`at, this`ns, this`upserts
      ensures Settled(m)
      ensures upserts == old(upserts) + 1
      ensures r.Ok? ==> at == OrderImportFlow.RecordSuccess(r.value)
      ensures var k := NsKey(account, recordType, m.parts.sourceId);
              && (r.Ok? ==> ns == Upserted(old(ns), k) && r.value == UpsertId(old(ns), k))
              && (r.Err? ==> at == Caught(r.error) && ns in {old(ns), Upserted(old(ns), k)})
    {
      var fails: bool, applied: bool, e: Thrown := *, *, *;
      upserts := upserts + 1;
      var key := NsKey(account, recordType, m.parts.sourceId);
      var id := UpsertId(ns, key);
      if !fails || applied {
        ns := Upserted(ns, key);
      }
      Advance(m, if fails then Fails(e, applied) else Saved(id), table);
      return if fails then Err(e) else Ok(id);
    }

    // A store that is not wired is skipped; one that is may throw.
    method Logs(m: Message, wired: bool) returns (r: Result<(), Thrown>)
      requires Settled(m)
      requires at.GateLog? || at.IgnoreLog? || at.ImportLog? || at.ParkLog? ==> wired == wiring.syncLog
      requires at.AuthLog? || at.ParkErrorLog? || at.TagErrorLog? ==> wired == wiring.errorStore
      requires at.TagOrder? ==> wired
      requires at.GateLog? || at.IgnoreLog? || at.ImportLog? || at.ParkLog? || at.AuthLog?
               || at.ParkErrorLog? || at.TagErrorLog? || at.TagOrder?
      modifies this`at
      ensures Settled(m)
      ensures at == Next(wiring, m, old(at), if r.Ok? then Done else Fails(r.error, false))
    {
      var fails: bool, e: Thrown := *, *;
      fails := fails && wired;
      Advance(m, if fails then Fails(e, false) else Done, table);
      return if fails then Err(e) else Ok(());
    }

    method WriteSyncLog(m: Message) returns (r: Result<(), Thrown>)
      requires (at.GateLog? || at.IgnoreLog? || at.ImportLog? || at.ParkLog?) && Settled(m)
      modifies this`at
      ensures Settled(m)
      ensures at == Next(wiring, m, old(at), if r.Ok? then Done else Fails(r.error, false))
    {
      r := Logs(m, wiring.syncLog);
    }

    method RecordError(m: Message) returns (r: Result<(), Thrown>)
      requires (at.AuthLog? || at.ParkErrorLog? || at.TagErrorLog?) && Settled(m)
      modifies this`at
      ensures Settled(m)
      ensures at == Next(wiring, m, old(at), if r.Ok? then Done else Fails(r.error, false))
    {
      r := Logs(m, wiring.errorStore);
    }

    method TagOrder(m: Message) returns (r: Result<(), Thrown>)
      requires at.TagOrder? && Settled(m)
      modifies this`at
      ensures Settled(m)
      ensures at == Next(wiring, m, old(at), if r.Ok? then Done else Fails(r.error, false))
    {
      r := Logs(m, true);
    }

    // recordAttempt: one row, if the store is wired; a failing store is swallowed.
    method RecordAttempt(m: Message, outcome: Option<Outcome>, throwErr: Option<Thrown>)
      requires at.WriteAttempt? && Settled(m)
      modifies this`at, this`attempts
      ensures Settled(m)
      ensures at == Finished(old(at).result)
      ensures attempts == old(attempts) +
                          (if wiring.attemptStore
                           then [Attempt(m.parts, ResolveAttemptOutcome(outcome, throwErr))] else [])
    {
      if wiring.attemptStore {
        attempts := attempts + [Attempt(m.parts, ResolveAttemptOutcome(outcome, throwErr))];
      }
      Advance(m, Done, table);
    }

    // ----- the handler -----

    // parkOutcome
    method ParkOutcome(m: Message, stage: Stage, cls: ErrorClass, ghost caught: bool)
      returns (r: Result<Outcome, Thrown>)
      requires at == ParkRow(stage, cls, caught) && Settled(m)
      modifies this`at, this`table
      ensures OthersKept(m)
      ensures Settled(m)
      ensures r.Ok? ==> r.value == Parked(stage, cls) && at == WriteAttempt(Returns(r.value))
      ensures r.Err? ==> at == ParkingFailed(caught, r.error)
    {
      var recorded := RecordFailure(m, stage, cls, caught);
      if recorded.Err? {
        return Err(recorded.error);
      }
      var logged := RecordError(m);
      if logged.Err? {
        return Err(logged.error);
      }
      var synced := WriteSyncLog(m);
      if synced.Err? {
        return Err(synced.error);
      }
      return Ok(Parked(stage, cls));
    }

    // classifyAndRoute: park, or hand the error on to be rethrown.
    method ClassifyAndRoute(m: Message, e: Thrown) returns (r: Result<Outcome, Thrown>)
      requires at == Caught(e) && Settled(m)
      modifies this`at, this`table
      ensures OthersKept(m)
      ensures Settled(m)
      ensures r.Ok? ==> r.value.Parked?
      ensures at == WriteAttempt(if r.Ok? then Returns(r.value) else Throws(r.error))
    {
      var cls := Classify(e);
      if ShouldRetry(cls) {
        if cls == Auth {
          var logged := RecordError(m);
          if logged.Err? {
            return Err(logged.error);
          }
        }
        return Err(e);
      }
      r := ParkOutcome(m, if e.OrderNotFound? then AtFetch else AtExternalCall, cls, true);
    }

    // Once the row is synced: the sync log, then the opportunistic tag.
    method LogImport(m: Message, id: InternalId) returns (r: Result<Outcome, Thrown>)
      requires at == ImportLog(id) && Settled(m)
      modifies this`at
      ensures Settled(m)
      ensures r.Ok? ==> r.value == Imported(id)
      ensures at == if r.Ok? then WriteAttempt(Returns(r.value)) else Caught(r.error)
    {
      var synced := WriteSyncLog(m);
      if synced.Err? {
        return Err(synced.error);
      }
      if wiring.writeTags {
        var tagged := TagOrder(m);
        if tagged.Err? {
          var logged := RecordError(m);
          if logged.Err? {
            return Err(logged.error);
          }
        }
      }
      return Ok(Imported(id));
    }

    // The end of the try block: the upsert, recordSuccess, the sync log and the tag.
    method WriteOrder(m: Message) returns (r: Result<Outcome, Thrown>)
      requires at == Upsert && Settled(m)
      modifies this`at, this`table, this`ns, this`upserts
      ensures Settled(m) && OthersKept(m)
      ensures upserts == old(upserts) + 1
      ensures at == if r.Ok? then WriteAttempt(Returns(r.value)) else Caught(r.error)
      ensures var k := NsKey(account, recordType, m.parts.sourceId);
              && ns in {old(ns), Upserted(old(ns), k)}
              && (r.Ok? ==> ns == Upserted(old(ns), k) && r.value == Imported(UpsertId(old(ns), k)))
    {
      var upserted := UpsertByExternalId(m);
      if upserted.Err? {
        return Err(upserted.error);
      }
      var id := upserted.value;
      var recorded := RecordSuccess(m, id);
      if recorded.Err? {
        return Err(recorded.error);
      }
      r := LogImport(m, id);
    }

    // The rest of the try block for an eligible order: customer, payload, items, upsert.
    method ImportEligible(m: Message, gid: Option<string>) returns (r: Result<Outcome, Thrown>)
      requires at == Customer(gid) && Settled(m) && WellNumbered(ns)
      modifies this`at, this`table, this`ns, this`upserts
      ensures Settled(m) && OthersKept(m)
      ensures old(upserts) <= upserts <= old(upserts) + 1
      ensures at == if r.Ok? then WriteAttempt(Returns(r.value)) else Caught(r.error)
      ensures r.Ok? ==> r.value.Imported? || r.value.Parked?
      ensures r.Ok? && r.value.Imported? ==>
                && NsKey(account, recordType, m.parts.sourceId) in ns.ids
                && ns.ids[NsKey(account, recordType, m.parts.sourceId)] == r.value.targetId
                && upserts == old(upserts) + 1
      ensures OnlyItsRecords(NsKey(account, recordType, m.parts.sourceId), old(ns), ns)
    {
      var customer := ResolveCustomer(m, gid);
      if customer.Err? {
        return Err(customer.error);
      }
      ghost var mid := ns;
      r := BuildAndWrite(m);
      RecordsJoin(NsKey(account, recordType, m.parts.sourceId), old(ns), mid, ns);
    }

    // The payload, and what follows it.
    method BuildAndWrite(m: Message) returns (r: Result<Outcome, Thrown>)
      requires at == OrderImportFlow.BuildPayload && Settled(m) && WellNumbered(ns)
      modifies this`at, this`table, this`ns, this`upserts
      ensures Settled(m) && OthersKept(m)
      ensures old(upserts) <= upserts <= old(upserts) + 1
      ensures at == if r.Ok? then WriteAttempt(Returns(r.value)) else Caught(r.error)
      ensures r.Ok? ==> r.value.Imported? || r.value.Parked?
      ensures r.Ok? && r.value.Imported? ==>
                && NsKey(account, recordType, m.parts.sourceId) in ns.ids
                && ns.ids[NsKey(account, recordType, m.parts.sourceId)] == r.value.targetId
                && upserts == old(upserts) + 1
      ensures OnlyItsRecords(NsKey(account, recordType, m.parts.sourceId), old(ns), ns)
    {
      var built := BuildPayload(m);
      if built.Err? {
        return Err(built.error);
      }
      if built.value.Some? {
        r := ParkOutcome(m, built.value.value, ClassOfPark(built.value.value), false);
        return;
      }
      r := ResolveAndWrite(m);
    }

    // The item ids, and the upsert with what follows it.
    method ResolveAndWrite(m: Message) returns (r: Result<Outcome, Thrown>)
      requires at == ResolveItems && Settled(m) && WellNumbered(ns)
      modifies this`at, this`table, this`ns, this`upserts
      ensures Settled(m) && OthersKept(m)
      ensures old(upserts) <= upserts <= old(upserts) + 1
      ensures at == if r.Ok? then WriteAttempt(Returns(r.value)) else Caught(r.error)
      ensures r.Ok? ==> r.value.Imported? || r.value.Parked?
      ensures r.Ok? && r.value.Imported? ==>
                && NsKey(account, recordType, m.parts.sourceId) in ns.ids
                && ns.ids[NsKey(account, recordType, m.parts.sourceId)] == r.value.targetId
                && upserts == old(upserts) + 1
      ensures OnlyItsRecords(NsKey(account, recordType, m.parts.sourceId), old(ns), ns)
    {
      var resolved := ResolveItemReferences(m);
      if resolved.Err? {
        return Err(resolved.error);
      }
      if resolved.value.Some? {
        r := ParkOutcome(m, resolved.value.value, ClassOfPark(resolved.value.value), false);
        return;
      }
      UpsertOnly(NsKey(account, recordType, m.parts.sourceId), ns, NsKey(account, recordType, m.parts.sourceId));
      r := WriteOrder(m);
    }

    // The try block: re-fetch and eligibility, and then the import.
    method ImportClaimed(m: Message) returns (r: Result<Outcome, Thrown>)
      requires at == Fetch && Settled(m) && WellNumbered(ns)
      modifies this`at, this`table, this`ns, this`upserts
      ensures Settled(m) && OthersKept(m)
      ensures old(upserts) <= upserts <= old(upserts) + 1
      ensures at == if r.Ok? then WriteAttempt(Returns(r.value)) else Caught(r.error)
      ensures r.Ok? ==> r.value.Imported? || r.value.Parked? || r.value.IgnoredByEligibility?
      ensures r.Ok? && r.value.Imported? ==>
                && NsKey(account, recordType, m.parts.sourceId) in ns.ids
                && ns.ids[NsKey(account, recordType, m.parts.sourceId)] == r.value.targetId
                && upserts == old(upserts) + 1
      ensures OnlyItsRecords(NsKey(account, recordType, m.parts.sourceId), old(ns), ns)
    {
      var fetched := GetOrder(m);
      if fetched.Err? {
        return Err(fetched.error);
      }
      var order := fetched.value;
      if !order.eligible {
        var ignored := MarkIgnored(m);
        if ignored.Err? {
          return Err(ignored.error);
        }
        var logged := WriteSyncLog(m);
        if logged.Err? {
          return Err(logged.error);
        }
        return Ok(IgnoredByEligibility);
      }
      r := ImportEligible(m, order.customer);
    }

    // The update_before_create gate: only a webhook `orders/updated` stops here, and only when its
    // order has no row; anything else goes on to the claim.
    method Gate(m: Message) returns (r: Option<Returned>)
      requires at == AfterGate(m) && Settled(m)
      modifies this`at, this`table, this`attempts
      ensures Settled(m) && OthersKept(m)
      ensures m.parts in old(table) ==> table == old(table)
      ensures at == if r.Some? then Finished(r.value) else ClaimInsert
      ensures r.None? ==> table == old(table) && attempts == old(attempts)
      ensures r.Some? ==> m.source == Webhook && m.topic == OrdersUpdated
      ensures m.source == Webhook && m.topic == OrdersUpdated && m.parts !in old(table) ==> r.Some?
      ensures r.Some? ==> r.value.Throws? || (r.value == Returns(IgnoredByEligibility) && m.parts !in old(table))
      ensures r.Some? ==>
                attempts == old(attempts) + (if r.value.Returns? && wiring.attemptStore
                                             then [Attempt(m.parts, AttemptIgnoredByEligibility)] else [])
    {
      if !(m.source == Webhook && m.topic == OrdersUpdated) {
        return None;
      }
      var existing := Lookup(m);
      if existing.Err? {
        return Some(Throws(existing.error));
      }
      if existing.value.Some? {
        return None;
      }
      var ignored := MarkIgnored(m);
      if ignored.Err? {
        return Some(Throws(ignored.error));
      }
      var logged := WriteSyncLog(m);
      if logged.Err? {
        return Some(Throws(logged.error));
      }
      RecordAttempt(m, Some(IgnoredByEligibility), None);
      return Some(Returns(IgnoredByEligibility));
    }

    // try, catch, finally: every way out of the claimed body writes the one attempt row.
    method RunClaimed(m: Message) returns (r: Returned)
      requires at == Fetch && Settled(m) && WellNumbered(ns)
      modifies this`at, this`table, this`ns, this`upserts, this`attempts
      ensures at == Finished(r) && Settled(m) && OthersKept(m)
      ensures m.parts in table
      ensures attempts == old(attempts) + (if wiring.attemptStore then [Attempt(m.parts, LabelOf(r))] else [])
      ensures old(upserts) <= upserts <= old(upserts) + 1
      ensures r.Throws? || r.outcome.Imported? || r.outcome.Parked? || r.outcome.IgnoredByEligibility?
      ensures r.Returns? && r.outcome.Imported? ==>
                && NsKey(account, recordType, m.parts.sourceId) in ns.ids
                && ns.ids[NsKey(account, recordType, m.parts.sourceId)] == r.outcome.targetId
                && upserts == old(upserts) + 1
      ensures OnlyItsRecords(NsKey(account, recordType, m.parts.sourceId), old(ns), ns)
    {
      var outcome: Option<Outcome> := None;
      var throwErr: Option<Thrown> := None;
      var body := ImportClaimed(m);
      if body.Ok? {
        outcome := Some(body.value);
      } else {
        var routed := ClassifyAndRoute(m, body.error);
        if routed.Ok? {
          outcome := Some(routed.value);
        } else {
          throwErr := Some(routed.error);
        }
      }
      r := if throwErr.Some? then Throws(throwErr.value) else Returns(outcome.value);
      assert m.parts in table;
      RecordAttempt(m, outcome, throwErr);
    }

    // From the claim on. `answered`: the claim returned; `claimed`: it made this delivery the
    // holder.
    method ClaimAndRun(m: Message) returns (r: Returned, ghost answered: bool, ghost claimed: bool)
      requires at == ClaimInsert && WellNumbered(ns)
      modifies this`at, this`table, this`ns, this`upserts, this`attempts
      ensures at == Finished(r) && Settled(m)
      ensures OthersKept(m)
      // Exactly one attempt row once the claim has answered, whatever is thrown afterwards, and
      // it says what the delivery came to.
      ensures answered && wiring.attemptStore ==>
                attempts == old(attempts) + [Attempt(m.parts, LabelOf(r))]
      ensures r.Returns? && r.outcome.ShortCircuit? ==>
                && answered && !claimed && m.parts in old(table) && table == old(table)
                && ToldOf(old(table)[m.parts].status, r.outcome.claim)
      ensures answered && m.parts !in old(table) ==> claimed
      // A claim leaves its row in the table, however the delivery ends.
      ensures claimed ==> answered && m.parts !in old(table) && m.parts in table
      // Only a claimed delivery writes an order to NetSuite, and it tries once.
      ensures old(upserts) <= upserts <= old(upserts) + (if claimed then 1 else 0)
      ensures !claimed ==> ns == old(ns) && (m.parts in old(table) ==> table == old(table))
      ensures r == Returns(IgnoredByEligibility) ==> claimed
      ensures !answered ==> attempts == old(attempts)
      ensures r.Returns? && r.outcome.Imported? ==>
                && claimed && upserts == old(upserts) + 1
                && NsKey(account, recordType, m.parts.sourceId) in ns.ids
                && ns.ids[NsKey(account, recordType, m.parts.sourceId)] == r.outcome.targetId
      ensures OnlyItsRecords(NsKey(account, recordType, m.parts.sourceId), old(ns), ns)
    {
      answered, claimed := false, false;
      var claim := Claim(m);
      if claim.Err? {
        r := Throws(claim.error);
        return;
      }
      answered := true;
      if claim.value != Claimed {
        r := Returns(ShortCircuit(claim.value));
        RecordAttempt(m, Some(ShortCircuit(claim.value)), None);
        return;
      }
      claimed := true;
      r := RunClaimed(m);
    }

    // The connection and the gate: what the delivery ends with before its claim, if it does.
    method Enter(m: Message) returns (stopped: Option<Returned>)
      requires at == FindConnection
      modifies this`at, this`table, this`attempts
      ensures Settled(m) && OthersKept(m)
      ensures m.parts in old(table) ==> table == old(table)
      ensures at == if stopped.Some? then Finished(stopped.value) else ClaimInsert
      ensures stopped.None? ==>
                && table == old(table) && attempts == old(attempts)
                && !(m.source == Webhook && m.topic == OrdersUpdated && m.parts !in old(table))
      ensures stopped.Some? ==>
                || stopped.value.Throws? || stopped.value == Returns(Rejected)
                || (stopped.value == Returns(IgnoredByEligibility)
                    && m.source == Webhook && m.topic == OrdersUpdated && m.parts !in old(table))
      ensures stopped.Some? ==>
                attempts == old(attempts) + (if stopped.value == Returns(IgnoredByEligibility) && wiring.attemptStore
                                             then [Attempt(m.parts, AttemptIgnoredByEligibility)] else [])
    {
      var connection := FindConnectionById(m);
      if connection.Err? {
        return Some(Throws(connection.error));
      }
      if !connection.value {
        return Some(Returns(Rejected));
      }
      stopped := Gate(m);
    }

    // handleOrderMessage, run alone on its order.
    method HandleOrderMessage(m: Message) returns (r: Returned, ghost answered: bool, ghost claimed: bool)
      requires WellNumbered(ns)
      modifies this`at, this`table, this`ns, this`upserts, this`attempts
      ensures at == Finished(r) && ResultRow(r, RowOf(m))
      ensures OthersKept(m)
      // Exactly one attempt row once the claim has answered, whatever is thrown afterwards, and
      // it says what the delivery came to.
      ensures answered && wiring.attemptStore ==>
                attempts == old(attempts) + [Attempt(m.parts, LabelOf(r))]
      ensures r.Returns? && r.outcome.ShortCircuit? ==>
                && answered && !claimed && m.parts in old(table) && table == old(table)
                && ToldOf(old(table)[m.parts].status, r.outcome.claim)
      ensures answered && m.parts !in old(table) ==> claimed
      // A claim leaves its row in the table, however the delivery ends.
      ensures claimed ==> answered && m.parts !in old(table) && m.parts in table
      // Only a claimed delivery writes an order to NetSuite, and it tries once.
      ensures old(upserts) <= upserts <= old(upserts) + (if claimed then 1 else 0)
      ensures !claimed ==> ns == old(ns) && (m.parts in old(table) ==> table == old(table))
      // Only an `orders/updated` webhook of an order without a row is ignored unclaimed.
      ensures r == Returns(IgnoredByEligibility) && !claimed ==>
                m.source == Webhook && m.topic == OrdersUpdated && m.parts !in old(table)
      ensures m.source == Webhook && m.topic == OrdersUpdated && m.parts !in old(table) ==> !answered
      ensures !answered ==>
                attempts == old(attempts) + (if r == Returns(IgnoredByEligibility) && wiring.attemptStore
                                             then [Attempt(m.parts, AttemptIgnoredByEligibility)] else [])
      ensures r.Returns? && r.outcome.Imported? ==>
                && claimed && upserts == old(upserts) + 1
                && NsKey(account, recordType, m.parts.sourceId) in ns.ids
                && ns.ids[NsKey(account, recordType, m.parts.sourceId)] == r.outcome.targetId
      ensures OnlyItsRecords(NsKey(account, recordType, m.parts.sourceId), old(ns), ns)
    {
      answered, claimed := false, false;
      assert OnlyItsRecords(NsKey(account, recordType, m.parts.sourceId), ns, ns);
      at := FindConnection;
      var stopped := Enter(m);
      if stopped.Some? {
        r := stopped.value;
        assert RowAt(Finished(r), RowOf(m));
        return;
      }
      assert table == old(table) && ns == old(ns) && attempts == old(attempts);
      r, answered, claimed := ClaimAndRun(m);
    }
  }
}
