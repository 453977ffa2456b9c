// The order-import idempotency protocol: any number of deliveries, replays and faults at once,
// over one xref table and one NetSuite. Every await is one step, so anything may happen
// between two awaits of the same delivery; a worker may also stop for good at any await.
module OrderProtocol {
  import opened Common
  import opened DedupKey
  import opened XrefStore
  import opened NetSuiteGateway
  import opened OrderImportFlow

  datatype Connection = Connection(account: string, recordType: string)

  datatype Config = Config(wiring: Wiring, connections: map<string, Connection>)

  function OrderKey(cfg: Config, p: Parts): NsKey {
    if p.connectionId in cfg.connections
    then NsKey(cfg.connections[p.connectionId].account, cfg.connections[p.connectionId].recordType, p.sourceId)
    else NsKey("", "salesorder", p.sourceId)
  }

  function CustomerKey(cfg: Config, p: Parts, gid: string): NsKey {
    NsKey(OrderKey(cfg, p).account, "customer", gid)
  }

  // `past` is what its awaits have come back with.
  datatype Delivery = Delivery(msg: Message, pc: Pc, past: seq<Io>)

  // requestReplay: lookup, delete, enqueue, with no lock around the three.
  datatype ReplayPc = ReplayLookup | ReplayDelete | ReplayEnqueue

  datatype ReplayRun = ReplayRun(parts: Parts, force: bool, topic: Topic, pc: ReplayPc)

  // What the history counts.
  datatype Event =
    | ClaimedRow(parts: Parts)
    | IgnoredInsert(parts: Parts)
    | DeletedRow(parts: Parts)
    | OrderUpsert(parts: Parts)
    | NetSuiteCall(parts: Parts)
    | CreatedRecord(key: NsKey)
    | FetchedEligible(parts: Parts, customer: Option<string>)

  // What is known of one delivery: its claim was answered, and what its attempt row says. A
  // failing attempt store is swallowed, so the write counts whether or not it was applied.
  datatype Audit =
    | ClaimAnswered(id: nat)
    | AttemptWritten(id: nat, result: Returned)

  datatype Sys = Sys(
    table: Table,
    ns: NsState,
    deliveries: map<nat, Delivery>,
    replays: map<nat, ReplayRun>,
    sent: set<Message>,
    nextId: nat,
    hist: multiset<Event>,
    audit: multiset<Audit>)

  const INIT := Sys(map[], NsState(map[], 0), map[], map[], {}, 0, multiset{}, multiset{})

  datatype Step =
    | Publish(msg: Message)
    | Deliver(msg: Message)
    | Await(id: nat, io: Io)
    | Stop(id: nat)
    | AskReplay(parts: Parts, force: bool, topic: Topic)
    | AwaitReplay(id: nat, fails: bool, applied: bool)
    | StopReplay(id: nat)

  ghost predicate Enabled(cfg: Config, s: Sys, step: Step) {
    match step
    case Publish(m) => m.source != Replay
    case Deliver(m) => m in s.sent
    case Await(id, io) =>
      && id in s.deliveries
      && var d := s.deliveries[id];
      && IoFits(cfg.wiring, d.pc, io, Find(s.table, d.msg.parts))
      && (d.pc.Upsert? && io.Saved? ==> io.id == UpsertId(s.ns, OrderKey(cfg, d.msg.parts)))
      && (d.pc.FindConnection? && io.Done? ==> d.msg.parts.connectionId in cfg.connections)
    case Stop(id) => id in s.deliveries
    case AskReplay(_, _, _) => true
    case AwaitReplay(id, fails, applied) => id in s.replays && (applied ==> fails)
    case StopReplay(id) => id in s.replays
  }

  // The NetSuite record an await writes, if any.
  function Writes(cfg: Config, d: Delivery, io: Io): Option<NsKey> {
    if !Applied(io) then None else
    match d.pc
    case Customer(Some(gid)) => Some(CustomerKey(cfg, d.msg.parts, gid))
    case Upsert => Some(OrderKey(cfg, d.msg.parts))
    case _ => None
  }

  function NsAfter(cfg: Config, d: Delivery, io: Io, ns: NsState): NsState {
    match Writes(cfg, d, io)
    case Some(k) => Upserted(ns, k)
    case None => ns
  }

  ghost function Created(cfg: Config, d: Delivery, io: Io, ns: NsState): multiset<Event> {
    match Writes(cfg, d, io)
    case Some(k) => if k in ns.ids then multiset{} else multiset{CreatedRecord(k)}
    case None => multiset{}
  }

  ghost function Events(d: Delivery, io: Io, row: Option<Row>): multiset<Event> {
    var p := d.msg.parts;
    match d.pc
    case ClaimInsert => if Applied(io) && row.None? then multiset{ClaimedRow(p)} else multiset{}
    case GateIgnore => if Applied(io) && row.None? then multiset{IgnoredInsert(p)} else multiset{}
    case IgnoreRow => if Applied(io) && row.None? then multiset{IgnoredInsert(p)} else multiset{}
    case Fetch => if io.Fetched? && io.eligible then multiset{FetchedEligible(p, io.customer)} else multiset{}
    case Customer(gid) => if gid.Some? then multiset{NetSuiteCall(p)} else multiset{}
    case ResolveItems => multiset{NetSuiteCall(p)}
    case Upsert => multiset{NetSuiteCall(p), OrderUpsert(p)}
    case _ => multiset{}
  }

  ghost function Audited(w: Wiring, id: nat, pc: Pc, io: Io): multiset<Audit> {
    match pc
    case ClaimInsert => if io.Inserted? then multiset{ClaimAnswered(id)} else multiset{}
    case ClaimSelect => if io.Found? then multiset{ClaimAnswered(id)} else multiset{}
    case WriteAttempt(r) => if w.attemptStore then multiset{AttemptWritten(id, r)} else multiset{}
    case _ => multiset{}
  }

  ghost function ApplyAwait(cfg: Config, s: Sys, id: nat, io: Io): Sys
    requires id in s.deliveries
  {
    var d := s.deliveries[id];
    var row := Find(s.table, d.msg.parts);
    s.(table := PutRow(s.table, d.msg.parts, RowAfter(d.msg, d.pc, io, row)),
       ns := NsAfter(cfg, d, io, s.ns),
       deliveries := s.deliveries[id := Delivery(d.msg, Next(cfg.wiring, d.msg, d.pc, io), d.past + [io])],
       hist := s.hist + Events(d, io, row) + Created(cfg, d, io, s.ns),
       audit := s.audit + Audited(cfg.wiring, id, d.pc, io))
  }

  ghost function ApplyReplay(s: Sys, id: nat, fails: bool, applied: bool): Sys
    requires id in s.replays
  {
    var r := s.replays[id];
    var gone := s.(replays := s.replays - {id});
    match r.pc
    case ReplayLookup =>
      var row := Find(s.table, r.parts);
      if fails || (row.Some? && row.value.status == Synced && !r.force) then gone
      else s.(replays := s.replays[id := r.(pc := if row.Some? then ReplayDelete else ReplayEnqueue)])
    case ReplayDelete =>
      var deleted :=
        if fails && !applied then s
        else s.(table := AfterDelete(s.table, r.parts),
                hist := s.hist + (if r.parts in s.table then multiset{DeletedRow(r.parts)} else multiset{}));
      deleted.(replays := if fails then s.replays - {id} else s.replays[id := r.(pc := ReplayEnqueue)])
    case ReplayEnqueue =>
      if fails && !applied then gone
      else gone.(sent := s.sent + {Message(r.parts, r.topic, Replay)})
  }

  ghost function Apply(cfg: Config, s: Sys, step: Step): Sys
    requires Enabled(cfg, s, step)
  {
    match step
    case Publish(m) => s.(sent := s.sent + {m})
    case Deliver(m) =>
      s.(deliveries := s.deliveries[s.nextId := Delivery(m, FindConnection, [])], nextId := s.nextId + 1)
    case Await(id, io) => ApplyAwait(cfg, s, id, io)
    case Stop(id) => s.(deliveries := s.deliveries - {id})
    case AskReplay(p, force, topic) =>
      s.(replays := s.replays[s.nextId := ReplayRun(p, force, topic, ReplayLookup)], nextId := s.nextId + 1)
    case AwaitReplay(id, fails, applied) => ApplyReplay(s, id, fails, applied)
    case StopReplay(id) => s.(replays := s.replays - {id})
  }

  ghost predicate Legal(cfg: Config, s: Sys, run: seq<Step>)
    decreases run
  {
    run == [] || (Enabled(cfg, s, run[0]) && Legal(cfg, Apply(cfg, s, run[0]), run[1..]))
  }

  ghost function Exec(cfg: Config, s: Sys, run: seq<Step>): Sys
    requires Legal(cfg, s, run)
    decreases run
  {
    if run == [] then s else Exec(cfg, Apply(cfg, s, run[0]), run[1..])
  }

  // ----- the invariant -----

  // Holding the claim, with the order upsert still ahead.
  predicate BeforeUpsert(pc: Pc) {
    pc.Fetch? || pc.Customer? || pc.BuildPayload? || pc.ResolveItems? || pc.Upsert?
  }

  ghost function Armed(deliveries: map<nat, Delivery>, p: Parts): set<nat> {
    set id | id in deliveries && deliveries[id].msg.parts == p && BeforeUpsert(deliveries[id].pc)
  }

  // Rows are inserted by claims and by markIgnored, and removed by deletes.
  ghost predicate RowsConserved(s: Sys) {
    forall p ::
      s.hist[ClaimedRow(p)] + s.hist[IgnoredInsert(p)]
      == s.hist[DeletedRow(p)] + (if p in s.table then 1 else 0)
  }

  // Every upsert tried, and every one still to be tried, has a claim of its own.
  ghost predicate UpsertsClaimed(s: Sys) {
    forall p :: s.hist[OrderUpsert(p)] + |Armed(s.deliveries, p)| <= s.hist[ClaimedRow(p)]
  }

  ghost predicate Names(cfg: Config, ns: NsState, p: Parts, id: InternalId) {
    OrderKey(cfg, p) in ns.ids && ns.ids[OrderKey(cfg, p)] == id
  }

  // A target id in a row, or on its way to a row, is the id of that order's record.
  ghost predicate TargetsTrue(cfg: Config, s: Sys) {
    && (forall p :: p in s.table && s.table[p].targetId.Some? ==> Names(cfg, s.ns, p, s.table[p].targetId.value))
    && (forall i :: i in s.deliveries && s.deliveries[i].pc.RecordSuccess? ==>
          Names(cfg, s.ns, s.deliveries[i].msg.parts, s.deliveries[i].pc.id))
  }

  // A synced row names a record.
  ghost predicate SyncedHasTarget(s: Sys) {
    forall p :: p in s.table && s.table[p].status == Synced ==> s.table[p].targetId.Some?
  }

  ghost predicate CreatedOnce(s: Sys) {
    forall k :: s.hist[CreatedRecord(k)] == if k in s.ns.ids then 1 else 0
  }

  ghost predicate Inv(cfg: Config, s: Sys) {
    && RowsConserved(s)
    && UpsertsClaimed(s)
    && TargetsTrue(cfg, s)
    && SyncedHasTarget(s)
    && CreatedOnce(s)
    && WellNumbered(s.ns)
    && (forall i :: i in s.deliveries ==> i < s.nextId)
  }

  // ----- one step keeps each part -----

  lemma CreatedApart(cfg: Config, d: Delivery, io: Io, row: Option<Row>, ns: NsState, e: Event)
    requires !e.CreatedRecord?
    ensures (Events(d, io, row) + Created(cfg, d, io, ns))[e] == Events(d, io, row)[e]
  {
    assert Created(cfg, d, io, ns)[e] == 0;
  }

  lemma InsertCounts(d: Delivery, io: Io, row: Option<Row>, q: Parts)
    ensures var e, mine, inserts := Events(d, io, row), q == d.msg.parts, Applied(io) && row.None?;
            && e[ClaimedRow(q)] == (if mine && inserts && d.pc.ClaimInsert? then 1 else 0)
            && e[IgnoredInsert(q)] == (if mine && inserts && (d.pc.GateIgnore? || d.pc.IgnoreRow?) then 1 else 0)
            && e[DeletedRow(q)] == 0
  {
  }

  lemma UpsertCounts(d: Delivery, io: Io, row: Option<Row>, q: Parts)
    ensures Events(d, io, row)[OrderUpsert(q)] == if q == d.msg.parts && d.pc.Upsert? then 1 else 0
  {
  }

  // A step inserts a row exactly when its events say so, and never removes one.
  lemma EventsMatchRow(cfg: Config, d: Delivery, io: Io, row: Option<Row>, ns: NsState, q: Parts)
    requires IoFits(cfg.wiring, d.pc, io, row)
    ensures var e := Events(d, io, row) + Created(cfg, d, io, ns);
            && e[ClaimedRow(q)] + e[IgnoredInsert(q)] ==
               (if q == d.msg.parts && row.None? && RowAfter(d.msg, d.pc, io, row).Some? then 1 else 0)
            && e[DeletedRow(q)] == 0
    ensures row.Some? ==> RowAfter(d.msg, d.pc, io, row).Some?
  {
    InsertCounts(d, io, row, q);
    CreatedApart(cfg, d, io, row, ns, ClaimedRow(q));
    CreatedApart(cfg, d, io, row, ns, IgnoredInsert(q));
    CreatedApart(cfg, d, io, row, ns, DeletedRow(q));
    InsertsRow(cfg.wiring, d, io, row);
  }

  lemma InsertsRow(w: Wiring, d: Delivery, io: Io, row: Option<Row>)
    requires IoFits(w, d.pc, io, row)
    ensures row.Some? ==> RowAfter(d.msg, d.pc, io, row).Some?
    ensures row.None? ==> (RowAfter(d.msg, d.pc, io, row).Some? <==>
              Applied(io) && (d.pc.ClaimInsert? || d.pc.GateIgnore? || d.pc.IgnoreRow?))
  {
  }

  lemma PutKeepsOthers(t: Table, p: Parts, row: Option<Row>, q: Parts)
    ensures Find(PutRow(t, p, row), q) == if q == p then row else Find(t, q)
  {
  }

  lemma AwaitConservesRows(cfg: Config, s: Sys, id: nat, io: Io)
    requires Enabled(cfg, s, Await(id, io)) && RowsConserved(s)
    ensures RowsConserved(ApplyAwait(cfg, s, id, io))
  {
    var d := s.deliveries[id];
    var p, row := d.msg.parts, Find(s.table, d.msg.parts);
    var s' := ApplyAwait(cfg, s, id, io);
    forall q
      ensures s'.hist[ClaimedRow(q)] + s'.hist[IgnoredInsert(q)]
           == s'.hist[DeletedRow(q)] + (if q in s'.table then 1 else 0)
    {
      assert s.hist[ClaimedRow(q)] + s.hist[IgnoredInsert(q)]
          == s.hist[DeletedRow(q)] + (if q in s.table then 1 else 0);
      EventsMatchRow(cfg, d, io, row, s.ns, q);
      PutKeepsOthers(s.table, p, RowAfter(d.msg, d.pc, io, row), q);
    }
  }

  lemma ArmedAfter(ds: map<nat, Delivery>, id: nat, d: Delivery, p: Parts)
    ensures Armed(ds[id := d], p) ==
            if d.msg.parts == p && BeforeUpsert(d.pc) then Armed(ds, p) + {id} else Armed(ds, p) - {id}
    ensures |Armed(ds[id := d], p)| ==
            |Armed(ds, p)| - (if id in Armed(ds, p) then 1 else 0)
            + (if d.msg.parts == p && BeforeUpsert(d.pc) then 1 else 0)
  {
    var before := Armed(ds, p);
    assert Armed(ds[id := d], p) ==
           if d.msg.parts == p && BeforeUpsert(d.pc) then before + {id} else before - {id};
    assert |before + {id}| == |before| + (if id in before then 0 else 1);
    assert |before - {id}| == |before| - (if id in before then 1 else 0);
  }

  lemma HoldSource(w: Wiring, d: Delivery, io: Io, row: Option<Row>)
    requires IoFits(w, d.pc, io, row) && BeforeUpsert(Next(w, d.msg, d.pc, io))
    ensures (BeforeUpsert(d.pc) && !d.pc.Upsert?) || (d.pc.ClaimInsert? && Applied(io) && row.None?)
  {
  }

  // A delivery comes to hold the claim only by inserting the row, and an upsert ends its hold.
  lemma EventsMatchHold(cfg: Config, d: Delivery, io: Io, row: Option<Row>, ns: NsState, q: Parts)
    requires IoFits(cfg.wiring, d.pc, io, row)
    ensures var e := Events(d, io, row) + Created(cfg, d, io, ns);
            var next := Next(cfg.wiring, d.msg, d.pc, io);
            e[OrderUpsert(q)] + (if q == d.msg.parts && BeforeUpsert(next) then 1 else 0)
            <= e[ClaimedRow(q)] + (if q == d.msg.parts && BeforeUpsert(d.pc) then 1 else 0)
  {
    InsertCounts(d, io, row, q);
    UpsertCounts(d, io, row, q);
    CreatedApart(cfg, d, io, row, ns, OrderUpsert(q));
    CreatedApart(cfg, d, io, row, ns, ClaimedRow(q));
    if BeforeUpsert(Next(cfg.wiring, d.msg, d.pc, io)) {
      HoldSource(cfg.wiring, d, io, row);
    }
  }

  lemma AwaitKeepsUpsertsClaimed(cfg: Config, s: Sys, id: nat, io: Io)
    requires Enabled(cfg, s, Await(id, io)) && UpsertsClaimed(s)
    ensures UpsertsClaimed(ApplyAwait(cfg, s, id, io))
  {
    var d := s.deliveries[id];
    var row := Find(s.table, d.msg.parts);
    var s' := ApplyAwait(cfg, s, id, io);
    forall q
      ensures s'.hist[OrderUpsert(q)] + |Armed(s'.deliveries, q)| <= s'.hist[ClaimedRow(q)]
    {
      assert s.hist[OrderUpsert(q)] + |Armed(s.deliveries, q)| <= s.hist[ClaimedRow(q)];
      ArmedAfter(s.deliveries, id, s'.deliveries[id], q);
      EventsMatchHold(cfg, d, io, row, s.ns, q);
    }
  }

  // A step creates a record exactly when its events say so.
  lemma EventsMatchRecords(cfg: Config, d: Delivery, io: Io, row: Option<Row>, ns: NsState, k: NsKey)
    ensures (Events(d, io, row) + Created(cfg, d, io, ns))[CreatedRecord(k)] ==
            if k !in ns.ids && k in NsAfter(cfg, d, io, ns).ids then 1 else 0
  {
  }

  lemma AwaitCreatesOnce(cfg: Config, s: Sys, id: nat, io: Io)
    requires Enabled(cfg, s, Await(id, io)) && WellNumbered(s.ns) && CreatedOnce(s)
    ensures CreatedOnce(ApplyAwait(cfg, s, id, io))
  {
    var d := s.deliveries[id];
    var s' := ApplyAwait(cfg, s, id, io);
    AwaitGrows(cfg, s, id, io);
    forall k
      ensures s'.hist[CreatedRecord(k)] == if k in s'.ns.ids then 1 else 0
    {
      assert s.hist[CreatedRecord(k)] == if k in s.ns.ids then 1 else 0;
      EventsMatchRecords(cfg, d, io, Find(s.table, d.msg.parts), s.ns, k);
    }
  }

  lemma AwaitKeepsTargets(cfg: Config, s: Sys, id: nat, io: Io)
    requires Enabled(cfg, s, Await(id, io)) && WellNumbered(s.ns)
    requires TargetsTrue(cfg, s) && SyncedHasTarget(s)
    ensures TargetsTrue(cfg, ApplyAwait(cfg, s, id, io)) && SyncedHasTarget(ApplyAwait(cfg, s, id, io))
  {
    var d := s.deliveries[id];
    var p, row := d.msg.parts, Find(s.table, d.msg.parts);
    var s' := ApplyAwait(cfg, s, id, io);
    AwaitGrows(cfg, s, id, io);
    forall q | q in s'.table
      ensures s'.table[q].targetId.Some? ==> Names(cfg, s'.ns, q, s'.table[q].targetId.value)
      ensures s'.table[q].status == Synced ==> s'.table[q].targetId.Some?
    {
      PutKeepsOthers(s.table, p, RowAfter(d.msg, d.pc, io, row), q);
      assert Find(s'.table, q) == Some(s'.table[q]);
      if q == p {
        RowKeepsTarget(d.msg, d.pc, io, row);
      } else {
        assert q in s.table && s'.table[q] == s.table[q];
      }
    }
    forall i | i in s'.deliveries && s'.deliveries[i].pc.RecordSuccess?
      ensures Names(cfg, s'.ns, s'.deliveries[i].msg.parts, s'.deliveries[i].pc.id)
    {
      if i == id {
        HandsOnItsId(cfg, d, io, row, s.ns);
      }
    }
  }

  lemma AwaitGrows(cfg: Config, s: Sys, id: nat, io: Io)
    requires Enabled(cfg, s, Await(id, io)) && WellNumbered(s.ns)
    ensures Grew(s.ns, ApplyAwait(cfg, s, id, io).ns)
  {
    var w := Writes(cfg, s.deliveries[id], io);
    if w.Some? {
      UpsertGrows(s.ns, w.value);
    }
  }

  // recordSuccess is reached only from an upsert, with the id that upsert returned.
  lemma HandsOnItsId(cfg: Config, d: Delivery, io: Io, row: Option<Row>, ns: NsState)
    requires IoFits(cfg.wiring, d.pc, io, row) && Next(cfg.wiring, d.msg, d.pc, io).RecordSuccess?
    requires d.pc.Upsert? && io.Saved? ==> io.id == UpsertId(ns, OrderKey(cfg, d.msg.parts))
    ensures Names(cfg, NsAfter(cfg, d, io, ns), d.msg.parts, Next(cfg.wiring, d.msg, d.pc, io).id)
  {
  }

  // Only recordSuccess writes a row's target id or makes it synced.
  lemma RowKeepsTarget(m: Message, pc: Pc, io: Io, row: Option<Row>)
    requires RowAfter(m, pc, io, row).Some?
    ensures var after := RowAfter(m, pc, io, row).value;
            || (pc.RecordSuccess? && after.targetId == Some(pc.id))
            || (row.Some? && after.targetId == row.value.targetId
                && (after.status == Synced ==> row.value.status == Synced))
            || (row.None? && after.targetId == None && after.status != Synced)
  {
  }

  // A replay step deletes at most one row, and its event counts the rows it deleted.
  lemma ReplayEffect(s: Sys, id: nat, fails: bool, applied: bool)
    requires id in s.replays
    ensures var s' := ApplyReplay(s, id, fails, applied);
            && s'.deliveries == s.deliveries && s'.ns == s.ns && s'.nextId == s.nextId
            && (|| (s'.table == s.table && s'.hist == s.hist)
                || (exists p :: && p in s.table && s'.table == s.table - {p}
                                && s'.hist == s.hist + multiset{DeletedRow(p)}))
  {
    var p := s.replays[id].parts;
    if p !in s.table {
      assert AfterDelete(s.table, p) == s.table;
    }
  }

  lemma DeleteKeepsInv(cfg: Config, s: Sys, s': Sys, p: Parts)
    requires Inv(cfg, s) && p in s.table
    requires s'.deliveries == s.deliveries && s'.ns == s.ns && s'.nextId == s.nextId
    requires s'.table == s.table - {p} && s'.hist == s.hist + multiset{DeletedRow(p)}
    ensures Inv(cfg, s')
  {
    assert RowsConserved(s') by {
      forall q
        ensures s'.hist[ClaimedRow(q)] + s'.hist[IgnoredInsert(q)]
             == s'.hist[DeletedRow(q)] + (if q in s'.table then 1 else 0)
      {
        assert s.hist[ClaimedRow(q)] + s.hist[IgnoredInsert(q)]
          == s.hist[DeletedRow(q)] + (if q in s.table then 1 else 0);
      }
    }
    assert UpsertsClaimed(s') by {
      forall q
        ensures s'.hist[OrderUpsert(q)] + |Armed(s'.deliveries, q)| <= s'.hist[ClaimedRow(q)]
      {
        assert s.hist[OrderUpsert(q)] + |Armed(s.deliveries, q)| <= s.hist[ClaimedRow(q)];
      }
    }
    assert CreatedOnce(s') by {
      forall k
        ensures s'.hist[CreatedRecord(k)] == if k in s'.ns.ids then 1 else 0
      {
        assert s.hist[CreatedRecord(k)] == if k in s.ns.ids then 1 else 0;
      }
    }
  }

  lemma ReplayKeepsInv(cfg: Config, s: Sys, id: nat, fails: bool, applied: bool)
    requires id in s.replays && Inv(cfg, s)
    ensures Inv(cfg, ApplyReplay(s, id, fails, applied))
  {
    var s' := ApplyReplay(s, id, fails, applied);
    ReplayEffect(s, id, fails, applied);
    if s'.table == s.table && s'.hist == s.hist {
      QuietKeepsInv(cfg, s, s');
    } else {
      var p :| p in s.table && s'.table == s.table - {p} && s'.hist == s.hist + multiset{DeletedRow(p)};
      DeleteKeepsInv(cfg, s, s', p);
    }
  }

  function Rank(pc: ReplayPc): nat {
    match pc
    case ReplayLookup => 2
    case ReplayDelete => 1
    case ReplayEnqueue => 0
  }

  // A replay to its end, with nothing failing and nothing running between its steps.
  ghost function Unhindered(s: Sys, id: nat): Sys
    requires id in s.replays
    decreases Rank(s.replays[id].pc)
  {
    var t := ApplyReplay(s, id, false, false);
    if id in t.replays && Rank(t.replays[id].pc) < Rank(s.replays[id].pc) then Unhindered(t, id) else t
  }

  lemma EnqueueTakes(s: Sys, id: nat)
    requires id in s.replays && s.replays[id].pc == ReplayEnqueue
    ensures var r, t := s.replays[id], Unhindered(s, id);
            t == s.(replays := s.replays - {id}, sent := s.sent + {Message(r.parts, r.topic, Replay)})
  {
  }

  lemma DeleteTakes(s: Sys, id: nat)
    requires id in s.replays && s.replays[id].pc == ReplayDelete && s.replays[id].parts in s.table
    ensures var r, t := s.replays[id], Unhindered(s, id);
            t == s.(replays := s.replays - {id}, sent := s.sent + {Message(r.parts, r.topic, Replay)},
                    table := s.table - {r.parts}, hist := s.hist + multiset{DeletedRow(r.parts)})
  {
    var t := ApplyReplay(s, id, false, false);
    EnqueueTakes(t, id);
    assert t.replays - {id} == s.replays - {id};
  }

  // It is refused, and does nothing, exactly when the row is synced and it is not forced.
  // Otherwise the row is gone and the order's message is published again.
  lemma ReplayTakes(s: Sys, id: nat)
    requires id in s.replays && s.replays[id].pc == ReplayLookup
    ensures var r, t := s.replays[id], Unhindered(s, id);
            var gone := s.(replays := s.replays - {id});
            t ==
            if r.parts !in s.table then gone.(sent := s.sent + {Message(r.parts, r.topic, Replay)})
            else if s.table[r.parts].status == Synced && !r.force then gone
            else gone.(sent := s.sent + {Message(r.parts, r.topic, Replay)},
                       table := s.table - {r.parts}, hist := s.hist + multiset{DeletedRow(r.parts)})
  {
    var t := ApplyReplay(s, id, false, false);
    if id in t.replays {
      assert t.replays - {id} == s.replays - {id};
      if t.replays[id].pc == ReplayDelete {
        DeleteTakes(t, id);
      } else {
        EnqueueTakes(t, id);
      }
    }
  }

  // A step that writes neither the table nor NetSuite and moves no delivery towards an upsert.
  lemma QuietKeepsInv(cfg: Config, s: Sys, s': Sys)
    requires Inv(cfg, s)
    requires s'.table == s.table && s'.ns == s.ns && s'.hist == s.hist && s'.nextId >= s.nextId
    requires forall i :: i in s'.deliveries ==>
               || (i in s.deliveries && s'.deliveries[i] == s.deliveries[i])
               || (i == s.nextId < s'.nextId && s'.deliveries[i].pc == FindConnection)
    ensures Inv(cfg, s')
  {
    forall p
      ensures s'.hist[OrderUpsert(p)] + |Armed(s'.deliveries, p)| <= s'.hist[ClaimedRow(p)]
    {
      SubsetSize(Armed(s'.deliveries, p), Armed(s.deliveries, p));
      assert s.hist[OrderUpsert(p)] + |Armed(s.deliveries, p)| <= s.hist[ClaimedRow(p)];
    }
    assert UpsertsClaimed(s');
  }

  lemma SubsetSize(a: set<nat>, b: set<nat>)
    requires a <= b
    ensures |a| <= |b|
  {
    assert b == a + (b - a);
  }

  lemma AwaitKeepsInv(cfg: Config, s: Sys, id: nat, io: Io)
    requires Enabled(cfg, s, Await(id, io)) && Inv(cfg, s)
    ensures Inv(cfg, ApplyAwait(cfg, s, id, io))
  {
    AwaitConservesRows(cfg, s, id, io);
    AwaitKeepsUpsertsClaimed(cfg, s, id, io);
    AwaitGrows(cfg, s, id, io);
    AwaitCreatesOnce(cfg, s, id, io);
    AwaitKeepsTargets(cfg, s, id, io);
  }

  lemma StepKeepsInv(cfg: Config, s: Sys, step: Step)
    requires Enabled(cfg, s, step) && Inv(cfg, s)
    ensures Inv(cfg, Apply(cfg, s, step))
  {
    match step {
      case Await(id, io) => AwaitKeepsInv(cfg, s, id, io);
      case AwaitReplay(id, fails, applied) => ReplayKeepsInv(cfg, s, id, fails, applied);
      case _ => QuietKeepsInv(cfg, s, Apply(cfg, s, step));
    }
  }

  lemma {:induction false} RunKeepsInv(cfg: Config, s: Sys, run: seq<Step>)
    requires Legal(cfg, s, run) && Inv(cfg, s)
    ensures Inv(cfg, Exec(cfg, s, run))
    decreases run
  {
    if run != [] {
      StepKeepsInv(cfg, s, run[0]);
      RunKeepsInv(cfg, Apply(cfg, s, run[0]), run[1..]);
    }
  }

  lemma InitInv(cfg: Config)
    ensures Inv(cfg, INIT)
  {
    forall p
      ensures Armed(INIT.deliveries, p) == {}
    {
    }
  }

  // ----- what the rows and the places say -----

  // A row is of a known connection and says what its claim or its markIgnored said: its own
  // key, NetSuite for the target, and the order's id for the external id once it is claimed.
  ghost predicate RowSays(cfg: Config, p: Parts, row: Row) {
    && p.connectionId in cfg.connections
    && row.parts == p && row.targetSystem == "netsuite" && row.sourceHash == None
    && (row.targetExternal == p.sourceId || row.targetExternal == "")
    && (row.status == Pending || row.status == Synced ==> row.targetExternal == p.sourceId)
    && (row.status == Pending ==> row.targetId == None)
  }

  ghost predicate Placed(cfg: Config, d: Delivery) {
    && Because(cfg.wiring, d.msg, d.pc, d.past)
    && (d.pc.FindConnection? || d.pc.Finished? || d.msg.parts.connectionId in cfg.connections)
  }

  ghost predicate Filed(cfg: Config, s: Sys) {
    && (forall p :: p in s.table ==> RowSays(cfg, p, s.table[p]))
    && (forall i :: i in s.deliveries ==> Placed(cfg, s.deliveries[i]))
  }

  lemma AwaitRow(cfg: Config, d: Delivery, io: Io, row: Option<Row>)
    requires Placed(cfg, d) && IoFits(cfg.wiring, d.pc, io, row)
    requires row.Some? ==> RowSays(cfg, d.msg.parts, row.value)
    ensures var after := RowAfter(d.msg, d.pc, io, row); after.Some? ==> RowSays(cfg, d.msg.parts, after.value)
  {
  }

  lemma AwaitPlaces(cfg: Config, s: Sys, id: nat, io: Io)
    requires Enabled(cfg, s, Await(id, io)) && Placed(cfg, s.deliveries[id])
    ensures Placed(cfg, ApplyAwait(cfg, s, id, io).deliveries[id])
  {
    var d := s.deliveries[id];
    NextBecause(cfg.wiring, d.msg, d.pc, io, Find(s.table, d.msg.parts), d.past);
  }

  lemma AwaitKeepsFiled(cfg: Config, s: Sys, id: nat, io: Io)
    requires Enabled(cfg, s, Await(id, io)) && Filed(cfg, s)
    ensures Filed(cfg, ApplyAwait(cfg, s, id, io))
  {
    var d := s.deliveries[id];
    var p, row := d.msg.parts, Find(s.table, d.msg.parts);
    var t := ApplyAwait(cfg, s, id, io);
    AwaitPlaces(cfg, s, id, io);
    AwaitRow(cfg, d, io, row);
    forall q | q in t.table
      ensures RowSays(cfg, q, t.table[q])
    {
      PutKeepsOthers(s.table, p, RowAfter(d.msg, d.pc, io, row), q);
      assert Find(t.table, q) == Some(t.table[q]);
    }
  }

  lemma StepKeepsFiled(cfg: Config, s: Sys, step: Step)
    requires Enabled(cfg, s, step) && Filed(cfg, s)
    ensures Filed(cfg, Apply(cfg, s, step))
  {
    match step {
      case Await(id, io) => AwaitKeepsFiled(cfg, s, id, io);
      case AwaitReplay(id, fails, applied) => ReplayEffect(s, id, fails, applied);
      case _ =>
    }
  }

  lemma {:induction false} RunKeepsFiled(cfg: Config, s: Sys, run: seq<Step>)
    requires Legal(cfg, s, run) && Filed(cfg, s)
    ensures Filed(cfg, Exec(cfg, s, run))
    decreases run
  {
    if run != [] {
      StepKeepsFiled(cfg, s, run[0]);
      RunKeepsFiled(cfg, Apply(cfg, s, run[0]), run[1..]);
    }
  }

  // Whatever runs beside it: a delivery ends as what its own awaits came back with makes it end.
  // Its attempt row's result was earned by them, or it ended before its claim was answered. And
  // no message but an `orders/updated` webhook is ever at the gate.
  lemma ResultsAreEarned(cfg: Config, run: seq<Step>, id: nat)
    requires Legal(cfg, INIT, run) && id in Exec(cfg, INIT, run).deliveries
    ensures var d := Exec(cfg, INIT, run).deliveries[id];
            && (d.pc.WriteAttempt? ==> Earns(cfg.wiring, d.msg, d.past, d.pc.result))
            && (d.pc.Finished? ==> EndsWith(cfg.wiring, d.msg, d.past, d.pc.result))
            && (d.pc.GateLookup? || d.pc.GateIgnore? || d.pc.GateLog? ==>
                  d.msg.source == Webhook && d.msg.topic == OrdersUpdated)
            && (d.pc.ClaimInsert? && d.msg.source == Webhook && d.msg.topic == OrdersUpdated ==>
                  |d.past| == 2 && d.past[1].Found?)
            && (d.pc.ClaimInsert? && !(d.msg.source == Webhook && d.msg.topic == OrdersUpdated) ==> d.past == [Done])
  {
    RunKeepsFiled(cfg, INIT, run);
    assert Placed(cfg, Exec(cfg, INIT, run).deliveries[id]);
  }

  // ----- whole runs -----

  // The record of an order of a known connection: that account, that record type, and the
  // order's own id.
  ghost predicate IsOrderKey(cfg: Config, p: Parts, k: NsKey) {
    && p.connectionId in cfg.connections
    && k == NsKey(cfg.connections[p.connectionId].account, cfg.connections[p.connectionId].recordType, p.sourceId)
  }

  // One Shopify order, one NetSuite record, for every run from the empty state: any number of
  // deliveries at once, redelivery, faults on either side of any write, crashes, and replays
  // that take no lock, forced or not.
  lemma OneOrderOneRecord(cfg: Config, run: seq<Step>, p: Parts)
    requires Legal(cfg, INIT, run)
    ensures var s := Exec(cfg, INIT, run);
            // a row comes from a claim or a markIgnored and goes only by a delete
            && s.hist[ClaimedRow(p)] + s.hist[IgnoredInsert(p)]
               == s.hist[DeletedRow(p)] + (if p in s.table then 1 else 0)
            // one upsert at most for each claim, and one claim more than deletes at most
            && s.hist[OrderUpsert(p)] + |Armed(s.deliveries, p)| <= s.hist[ClaimedRow(p)]
            && s.hist[ClaimedRow(p)] <= 1 + s.hist[DeletedRow(p)]
            // no record was ever created twice
            && (forall k :: s.hist[CreatedRecord(k)] <= 1)
            // a synced row is of a known connection, and names the record of that order
            && (p in s.table && s.table[p].status == Synced ==>
                  && p.connectionId in cfg.connections && s.table[p].targetId.Some?
                  && var c := cfg.connections[p.connectionId];
                     var k := NsKey(c.account, c.recordType, p.sourceId);
                     && k in s.ns.ids && s.ns.ids[k] == s.table[p].targetId.value
                     && s.hist[CreatedRecord(k)] == 1)
  {
    InitInv(cfg);
    RunKeepsInv(cfg, INIT, run);
    RunKeepsFiled(cfg, INIT, run);
    var s := Exec(cfg, INIT, run);
    assert s.hist[ClaimedRow(p)] + s.hist[IgnoredInsert(p)] == s.hist[DeletedRow(p)] + (if p in s.table then 1 else 0);
    assert s.hist[OrderUpsert(p)] + |Armed(s.deliveries, p)| <= s.hist[ClaimedRow(p)];
    assert forall k :: s.hist[CreatedRecord(k)] == if k in s.ns.ids then 1 else 0;
  }

  // Two synced rows that name one record are of one order: the same account, the same record
  // type and the same Shopify id.
  lemma RecordsApart(cfg: Config, run: seq<Step>, p: Parts, q: Parts)
    requires Legal(cfg, INIT, run)
    ensures var t := Exec(cfg, INIT, run).table;
            (&& p in t && q in t && t[p].status == Synced && t[q].status == Synced
             && t[p].targetId == t[q].targetId) ==>
              && p.sourceId == q.sourceId
              && p.connectionId in cfg.connections && q.connectionId in cfg.connections
              && cfg.connections[p.connectionId] == cfg.connections[q.connectionId]
  {
    OneOrderOneRecord(cfg, run, p);
    OneOrderOneRecord(cfg, run, q);
    InitInv(cfg);
    RunKeepsInv(cfg, INIT, run);
  }

  lemma StepForgetsNothing(cfg: Config, s: Sys, step: Step)
    requires Enabled(cfg, s, step) && WellNumbered(s.ns)
    ensures Grew(s.ns, Apply(cfg, s, step).ns) && s.hist <= Apply(cfg, s, step).hist
  {
    match step {
      case Await(id, io) =>
        AwaitGrows(cfg, s, id, io);
        var d := s.deliveries[id];
        OnlyMore(s.hist, Events(d, io, Find(s.table, d.msg.parts)), Created(cfg, d, io, s.ns));
      case AwaitReplay(id, fails, applied) => ReplayEffect(s, id, fails, applied);
      case _ =>
    }
  }

  lemma OnlyMore<T>(a: multiset<T>, b: multiset<T>, c: multiset<T>)
    ensures a <= a + b + c
  {
  }

  // No run renumbers a record, and no run forgets an event.
  lemma {:induction false} RecordsAreForever(cfg: Config, s: Sys, run: seq<Step>)
    requires Legal(cfg, s, run) && WellNumbered(s.ns)
    ensures Grew(s.ns, Exec(cfg, s, run).ns) && s.hist <= Exec(cfg, s, run).hist
    decreases run
  {
    if run != [] {
      StepForgetsNothing(cfg, s, run[0]);
      RecordsAreForever(cfg, Apply(cfg, s, run[0]), run[1..]);
    }
  }

  // ----- which records there are -----

  // Shopify was asked for this order and it was eligible.
  ghost predicate Licensed(s: Sys, p: Parts) {
    exists c :: s.hist[FetchedEligible(p, c)] > 0
  }

  ghost predicate IsCustomerKey(cfg: Config, p: Parts, gid: string, k: NsKey) {
    p.connectionId in cfg.connections && k == NsKey(cfg.connections[p.connectionId].account, "customer", gid)
  }

  // The record is of an order that was upserted, or of the customer of an eligible order.
  ghost predicate Accounted(cfg: Config, s: Sys, k: NsKey) {
    || (exists p :: IsOrderKey(cfg, p, k) && s.hist[OrderUpsert(p)] > 0)
    || (exists p, gid :: IsCustomerKey(cfg, p, gid, k) && s.hist[FetchedEligible(p, Some(gid))] > 0)
  }

  ghost predicate DeliveryLicensed(s: Sys, d: Delivery) {
    && (BeforeUpsert(d.pc) && !d.pc.Fetch? ==> Licensed(s, d.msg.parts))
    && (d.pc.Customer? ==> s.hist[FetchedEligible(d.msg.parts, d.pc.gid)] > 0)
  }

  ghost predicate RecordsInv(cfg: Config, s: Sys) {
    && (forall i :: i in s.deliveries ==> DeliveryLicensed(s, s.deliveries[i]))
    && (forall p :: s.hist[OrderUpsert(p)] > 0 ==> Licensed(s, p))
    && (forall k :: k in s.ns.ids ==> Accounted(cfg, s, k))
  }

  lemma StillLicensed(cfg: Config, s: Sys, t: Sys, p: Parts, d: Delivery, k: NsKey)
    requires s.hist <= t.hist
    ensures Licensed(s, p) ==> Licensed(t, p)
    ensures DeliveryLicensed(s, d) ==> DeliveryLicensed(t, d)
    ensures Accounted(cfg, s, k) ==> Accounted(cfg, t, k)
  {
    forall q, c
      ensures s.hist[FetchedEligible(q, c)] <= t.hist[FetchedEligible(q, c)]
      ensures s.hist[OrderUpsert(q)] <= t.hist[OrderUpsert(q)]
    {
    }
  }

  // Only an eligible answer leads a delivery on to the customer and the upsert.
  lemma OnlyFromFetch(w: Wiring, m: Message, pc: Pc, io: Io, row: Option<Row>)
    requires IoFits(w, pc, io, row)
    ensures var next := Next(w, m, pc, io);
            && (BeforeUpsert(next) && !next.Fetch? ==> BeforeUpsert(pc) && (pc.Fetch? ==> next.Customer?))
            && (next.Customer? ==> pc.Fetch? && io == Fetched(true, next.gid))
  {
  }

  lemma FetchCounts(d: Delivery, io: Io, row: Option<Row>)
    ensures d.pc.Fetch? && io.Fetched? && io.eligible ==>
              Events(d, io, row)[FetchedEligible(d.msg.parts, io.customer)] == 1
  {
  }

  lemma MovedLicensed(cfg: Config, s: Sys, id: nat, io: Io)
    requires Enabled(cfg, s, Await(id, io)) && WellNumbered(s.ns) && DeliveryLicensed(s, s.deliveries[id])
    ensures var t := ApplyAwait(cfg, s, id, io); DeliveryLicensed(t, t.deliveries[id])
  {
    var d, t := s.deliveries[id], ApplyAwait(cfg, s, id, io);
    var p, row := d.msg.parts, Find(s.table, d.msg.parts);
    StepForgetsNothing(cfg, s, Await(id, io));
    StillLicensed(cfg, s, t, p, d, OrderKey(cfg, p));
    OnlyFromFetch(cfg.wiring, d.msg, d.pc, io, row);
    FetchCounts(d, io, row);
    MoveLicensed(s, t, d, t.deliveries[id], io, Events(d, io, row), Created(cfg, d, io, s.ns));
  }

  lemma MoveLicensed(s: Sys, t: Sys, d: Delivery, next: Delivery, io: Io, es: multiset<Event>, cs: multiset<Event>)
    requires t.hist == s.hist + es + cs && next.msg == d.msg
    requires Licensed(s, d.msg.parts) ==> Licensed(t, d.msg.parts)
    requires BeforeUpsert(d.pc) && !d.pc.Fetch? ==> Licensed(s, d.msg.parts)
    requires BeforeUpsert(next.pc) && !next.pc.Fetch? ==> BeforeUpsert(d.pc) && (d.pc.Fetch? ==> next.pc.Customer?)
    requires next.pc.Customer? ==>
               d.pc.Fetch? && io == Fetched(true, next.pc.gid) && es[FetchedEligible(d.msg.parts, next.pc.gid)] == 1
    ensures DeliveryLicensed(t, next)
  {
    if next.pc.Customer? {
      assert t.hist[FetchedEligible(d.msg.parts, next.pc.gid)] > 0;
    }
  }

  lemma UpsertLicensed(cfg: Config, s: Sys, id: nat, io: Io, p: Parts)
    requires Enabled(cfg, s, Await(id, io)) && WellNumbered(s.ns) && RecordsInv(cfg, s)
    requires ApplyAwait(cfg, s, id, io).hist[OrderUpsert(p)] > 0
    ensures Licensed(ApplyAwait(cfg, s, id, io), p)
  {
    var d, t := s.deliveries[id], ApplyAwait(cfg, s, id, io);
    StepForgetsNothing(cfg, s, Await(id, io));
    StillLicensed(cfg, s, t, p, d, OrderKey(cfg, p));
    UpsertCounts(d, io, Find(s.table, d.msg.parts), p);
    CreatedApart(cfg, d, io, Find(s.table, d.msg.parts), s.ns, OrderUpsert(p));
    assert s.hist[OrderUpsert(p)] > 0 || (d.pc.Upsert? && p == d.msg.parts);
  }

  lemma WrittenAccounted(cfg: Config, s: Sys, id: nat, io: Io, k: NsKey)
    requires Enabled(cfg, s, Await(id, io)) && WellNumbered(s.ns) && RecordsInv(cfg, s) && Filed(cfg, s)
    requires Writes(cfg, s.deliveries[id], io) == Some(k)
    ensures Accounted(cfg, ApplyAwait(cfg, s, id, io), k)
  {
    var d, t := s.deliveries[id], ApplyAwait(cfg, s, id, io);
    var p := d.msg.parts;
    StepForgetsNothing(cfg, s, Await(id, io));
    assert Placed(cfg, d);
    if d.pc.Upsert? {
      assert Events(d, io, Find(s.table, p))[OrderUpsert(p)] == 1;
      assert IsOrderKey(cfg, p, k) && t.hist[OrderUpsert(p)] > 0;
    } else {
      assert s.hist[FetchedEligible(p, d.pc.gid)] <= t.hist[FetchedEligible(p, d.pc.gid)];
      assert IsCustomerKey(cfg, p, d.pc.gid.value, k);
    }
  }

  lemma AllLicensed(cfg: Config, s: Sys, id: nat, io: Io)
    requires Enabled(cfg, s, Await(id, io)) && WellNumbered(s.ns) && RecordsInv(cfg, s)
    ensures var t := ApplyAwait(cfg, s, id, io);
            forall i :: i in t.deliveries ==> DeliveryLicensed(t, t.deliveries[i])
  {
    var d, t := s.deliveries[id], ApplyAwait(cfg, s, id, io);
    StepForgetsNothing(cfg, s, Await(id, io));
    MovedLicensed(cfg, s, id, io);
    forall i | i in t.deliveries
      ensures DeliveryLicensed(t, t.deliveries[i])
    {
      if i != id {
        StillLicensed(cfg, s, t, d.msg.parts, s.deliveries[i], OrderKey(cfg, d.msg.parts));
      }
    }
  }

  lemma AllAccounted(cfg: Config, s: Sys, id: nat, io: Io)
    requires Enabled(cfg, s, Await(id, io)) && WellNumbered(s.ns) && RecordsInv(cfg, s) && Filed(cfg, s)
    ensures var t := ApplyAwait(cfg, s, id, io); forall k :: k in t.ns.ids ==> Accounted(cfg, t, k)
  {
    var d, t := s.deliveries[id], ApplyAwait(cfg, s, id, io);
    StepForgetsNothing(cfg, s, Await(id, io));
    forall k | k in t.ns.ids
      ensures Accounted(cfg, t, k)
    {
      if k in s.ns.ids {
        StillLicensed(cfg, s, t, d.msg.parts, d, k);
      } else {
        WrittenAccounted(cfg, s, id, io, k);
      }
    }
  }

  lemma AwaitKeepsRecords(cfg: Config, s: Sys, id: nat, io: Io)
    requires Enabled(cfg, s, Await(id, io)) && WellNumbered(s.ns) && RecordsInv(cfg, s) && Filed(cfg, s)
    ensures RecordsInv(cfg, ApplyAwait(cfg, s, id, io))
  {
    var t := ApplyAwait(cfg, s, id, io);
    AllLicensed(cfg, s, id, io);
    AllAccounted(cfg, s, id, io);
    forall p | t.hist[OrderUpsert(p)] > 0
      ensures Licensed(t, p)
    {
      UpsertLicensed(cfg, s, id, io, p);
    }
  }

  lemma StepKeepsRecords(cfg: Config, s: Sys, step: Step)
    requires Enabled(cfg, s, step) && WellNumbered(s.ns) && RecordsInv(cfg, s) && Filed(cfg, s)
    ensures RecordsInv(cfg, Apply(cfg, s, step))
  {
    match step {
      case Await(id, io) => AwaitKeepsRecords(cfg, s, id, io);
      case AwaitReplay(id, fails, applied) => ReplayKeepsRecords(cfg, s, id, fails, applied);
      case _ => SameRecords(cfg, s, Apply(cfg, s, step));
    }
  }

  // A step that writes no record, upserts nothing and moves no delivery.
  lemma SameRecords(cfg: Config, s: Sys, t: Sys)
    requires RecordsInv(cfg, s) && s.hist <= t.hist && t.ns == s.ns
    requires forall p :: t.hist[OrderUpsert(p)] == s.hist[OrderUpsert(p)]
    requires forall i :: i in t.deliveries ==>
               (i in s.deliveries && t.deliveries[i] == s.deliveries[i]) || t.deliveries[i].pc == FindConnection
    ensures RecordsInv(cfg, t)
  {
    forall p, d, k
      ensures Licensed(s, p) ==> Licensed(t, p)
      ensures DeliveryLicensed(s, d) ==> DeliveryLicensed(t, d)
      ensures Accounted(cfg, s, k) ==> Accounted(cfg, t, k)
    {
      StillLicensed(cfg, s, t, p, d, k);
    }
  }

  lemma ReplayKeepsRecords(cfg: Config, s: Sys, id: nat, fails: bool, applied: bool)
    requires id in s.replays && RecordsInv(cfg, s)
    ensures RecordsInv(cfg, ApplyReplay(s, id, fails, applied))
  {
    ReplayEffect(s, id, fails, applied);
    SameRecords(cfg, s, ApplyReplay(s, id, fails, applied));
  }

  lemma {:induction false} RunKeepsRecords(cfg: Config, s: Sys, run: seq<Step>)
    requires Legal(cfg, s, run) && WellNumbered(s.ns) && RecordsInv(cfg, s) && Filed(cfg, s)
    ensures RecordsInv(cfg, Exec(cfg, s, run))
    decreases run
  {
    if run != [] {
      StepForgetsNothing(cfg, s, run[0]);
      StepKeepsRecords(cfg, s, run[0]);
      StepKeepsFiled(cfg, s, run[0]);
      RunKeepsRecords(cfg, Apply(cfg, s, run[0]), run[1..]);
    }
  }

  // In every run: an order is upserted only after Shopify was asked for it and it was eligible,
  // and NetSuite holds no record but those of upserted orders, each under its own account, type
  // and id, and those of the customers of eligible orders.
  lemma OnlyEligibleAreWritten(cfg: Config, run: seq<Step>)
    requires Legal(cfg, INIT, run)
    ensures var s := Exec(cfg, INIT, run);
            && (forall p :: s.hist[OrderUpsert(p)] > 0 ==> exists c :: s.hist[FetchedEligible(p, c)] > 0)
            && (forall k :: k in s.ns.ids ==>
                  || (exists p :: IsOrderKey(cfg, p, k) && s.hist[OrderUpsert(p)] > 0)
                  || (exists p, gid :: IsCustomerKey(cfg, p, gid, k) && s.hist[FetchedEligible(p, Some(gid))] > 0))
  {
    RunKeepsRecords(cfg, INIT, run);
    var s := Exec(cfg, INIT, run);
    assert forall p :: s.hist[OrderUpsert(p)] > 0 ==> Licensed(s, p);
    assert forall k :: k in s.ns.ids ==> Accounted(cfg, s, k);
  }

  // The delivery has fetched its order, and its await at the order's customer is done.
  predicate CustomerDone(d: Delivery) {
    var n := Opening(d.msg);
    && HasClaim(d.msg, d.past) && |d.past| > n + 1
    && d.past[n].Fetched? && d.past[n].eligible && d.past[n].customer.Some? && d.past[n + 1] == Done
  }

  ghost predicate CustomerThere(cfg: Config, s: Sys, d: Delivery) {
    CustomerDone(d) ==>
      && d.msg.parts.connectionId in cfg.connections
      && NsKey(cfg.connections[d.msg.parts.connectionId].account, "customer", d.past[Opening(d.msg)].customer.value)
         in s.ns.ids
  }

  ghost predicate CustomersThere(cfg: Config, s: Sys) {
    forall i :: i in s.deliveries ==> CustomerThere(cfg, s, s.deliveries[i])
  }

  lemma CustomerStillDone(d: Delivery, next: Delivery, io: Io)
    requires next.msg == d.msg && next.past == d.past + [io] && CustomerDone(next)
    ensures CustomerDone(d) ||
            (|d.past| == Opening(d.msg) + 1 && HasClaim(d.msg, d.past) && io == Done
             && d.past[Opening(d.msg)] == next.past[Opening(d.msg)])
  {
  }

  lemma AwaitKeepsCustomer(cfg: Config, s: Sys, id: nat, io: Io)
    requires Enabled(cfg, s, Await(id, io)) && WellNumbered(s.ns) && Placed(cfg, s.deliveries[id])
    requires CustomerThere(cfg, s, s.deliveries[id])
    ensures var t := ApplyAwait(cfg, s, id, io); CustomerThere(cfg, t, t.deliveries[id])
  {
    var d, t := s.deliveries[id], ApplyAwait(cfg, s, id, io);
    AwaitGrows(cfg, s, id, io);
    if CustomerDone(t.deliveries[id]) {
      CustomerStillDone(d, t.deliveries[id], io);
      if !CustomerDone(d) {
        OnlyAtCustomer(cfg.wiring, d.msg, d.pc, d.past);
      }
    }
  }

  lemma StepKeepsCustomers(cfg: Config, s: Sys, step: Step)
    requires Enabled(cfg, s, step) && WellNumbered(s.ns) && Filed(cfg, s) && CustomersThere(cfg, s)
    ensures CustomersThere(cfg, Apply(cfg, s, step))
  {
    StepForgetsNothing(cfg, s, step);
    match step {
      case Await(id, io) => AwaitKeepsCustomer(cfg, s, id, io);
      case AwaitReplay(id, fails, applied) => ReplayEffect(s, id, fails, applied);
      case _ =>
    }
  }

  lemma {:induction false} RunKeepsCustomers(cfg: Config, s: Sys, run: seq<Step>)
    requires Legal(cfg, s, run) && WellNumbered(s.ns) && Filed(cfg, s) && CustomersThere(cfg, s)
    ensures CustomersThere(cfg, Exec(cfg, s, run))
    decreases run
  {
    if run != [] {
      StepForgetsNothing(cfg, s, run[0]);
      StepKeepsCustomers(cfg, s, run[0]);
      StepKeepsFiled(cfg, s, run[0]);
      RunKeepsCustomers(cfg, Apply(cfg, s, run[0]), run[1..]);
    }
  }

  // An order that was imported has its customer in NetSuite, unless it is a guest's: under the
  // connection's account and the customer's own Shopify id.
  lemma ImportedCustomerIsThere(cfg: Config, run: seq<Step>, id: nat)
    requires Legal(cfg, INIT, run) && id in Exec(cfg, INIT, run).deliveries
    ensures var s := Exec(cfg, INIT, run);
            var d, n := s.deliveries[id], Opening(s.deliveries[id].msg);
            d.pc.WriteAttempt? && d.pc.result.Returns? && d.pc.result.outcome.Imported? ==>
              && |d.past| > n && d.past[n].Fetched?
              && (d.past[n].customer.Some? ==>
                    && d.msg.parts.connectionId in cfg.connections
                    && NsKey(cfg.connections[d.msg.parts.connectionId].account, "customer", d.past[n].customer.value)
                       in s.ns.ids)
  {
    RunKeepsFiled(cfg, INIT, run);
    RunKeepsCustomers(cfg, INIT, run);
    var s := Exec(cfg, INIT, run);
    assert Placed(cfg, s.deliveries[id]) && CustomerThere(cfg, s, s.deliveries[id]);
  }

  // ----- once a row is there and nobody holds it -----

  ghost predicate Dormant(s: Sys, p: Parts, row: Row) {
    && Find(s.table, p) == Some(row)
    && (forall i :: i in s.deliveries && s.deliveries[i].msg.parts == p ==> Harmless(s.deliveries[i].pc))
  }

  // What a delivery that arrives at a dormant row can come to.
  predicate Refused(pc: Pc, row: Row) {
    match pc
    case FindConnection | GateLookup | ClaimInsert | ClaimSelect => true
    case WriteAttempt(r) => r.Throws? || r.outcome in {Rejected, ShortCircuit(OutcomeOf(row.status))}
    case Finished(r) => r.Throws? || r.outcome in {Rejected, ShortCircuit(OutcomeOf(row.status))}
    case _ => false
  }

  lemma RefusedStaysRefused(w: Wiring, m: Message, pc: Pc, io: Io, row: Row)
    requires Refused(pc, row) && IoFits(w, pc, io, Some(row))
    ensures Refused(Next(w, m, pc, io), row)
  {
  }

  // Deliveries of `p` numbered from `first` on have been refused so far.
  ghost predicate LaterRefused(s: Sys, first: nat, p: Parts, row: Row) {
    forall i :: i in s.deliveries && i >= first && s.deliveries[i].msg.parts == p ==> Refused(s.deliveries[i].pc, row)
  }

  lemma DormantAwait(cfg: Config, s: Sys, id: nat, io: Io, p: Parts, row: Row, first: nat)
    requires Enabled(cfg, s, Await(id, io)) && Dormant(s, p, row) && LaterRefused(s, first, p, row)
    ensures var s' := ApplyAwait(cfg, s, id, io);
            && Dormant(s', p, row) && LaterRefused(s', first, p, row)
            && s'.hist[NetSuiteCall(p)] == s.hist[NetSuiteCall(p)]
  {
    var d := s.deliveries[id];
    PutKeepsOthers(s.table, d.msg.parts, RowAfter(d.msg, d.pc, io, Find(s.table, d.msg.parts)), p);
    if d.msg.parts == p {
      HarmlessStaysHarmless(cfg.wiring, d.msg, d.pc, io, Some(row));
      if id >= first {
        RefusedStaysRefused(cfg.wiring, d.msg, d.pc, io, row);
      }
    }
    QuietOnOthers(cfg, d, io, Find(s.table, d.msg.parts), s.ns, p);
  }

  lemma QuietOnOthers(cfg: Config, d: Delivery, io: Io, row: Option<Row>, ns: NsState, p: Parts)
    requires d.msg.parts == p ==> Harmless(d.pc)
    ensures (Events(d, io, row) + Created(cfg, d, io, ns))[NetSuiteCall(p)] == 0
  {
  }

  lemma DormantStep(cfg: Config, s: Sys, step: Step, p: Parts, row: Row, first: nat)
    requires Enabled(cfg, s, step) && Dormant(s, p, row) && LaterRefused(s, first, p, row)
    requires Apply(cfg, s, step).hist[DeletedRow(p)] <= s.hist[DeletedRow(p)]
    ensures var s' := Apply(cfg, s, step);
            && Dormant(s', p, row) && LaterRefused(s', first, p, row)
            && s'.hist[NetSuiteCall(p)] == s.hist[NetSuiteCall(p)]
  {
    match step {
      case Await(id, io) => DormantAwait(cfg, s, id, io, p, row, first);
      case AwaitReplay(id, fails, applied) => ReplayEffect(s, id, fails, applied);
      case _ =>
    }
  }

  // A dormant row stays as it is through any run that does not delete it: no delivery changes
  // it or calls NetSuite for it, and whatever is delivered, redelivered or replayed later is
  // refused with the row's own status; only an effective delete revives it.
  lemma {:induction false} DormantUntilDelete(cfg: Config, s: Sys, run: seq<Step>, p: Parts, row: Row, first: nat)
    requires Legal(cfg, s, run) && WellNumbered(s.ns)
    requires Dormant(s, p, row) && LaterRefused(s, first, p, row)
    requires Exec(cfg, s, run).hist[DeletedRow(p)] == s.hist[DeletedRow(p)]
    ensures var s' := Exec(cfg, s, run);
            && Dormant(s', p, row) && LaterRefused(s', first, p, row)
            && s'.hist[NetSuiteCall(p)] == s.hist[NetSuiteCall(p)]
    decreases run
  {
    if run != [] {
      var s' := Apply(cfg, s, run[0]);
      StepForgetsNothing(cfg, s, run[0]);
      RecordsAreForever(cfg, s', run[1..]);
      DormantStep(cfg, s, run[0], p, row, first);
      DormantUntilDelete(cfg, s', run[1..], p, row, first);
    }
  }

  // ----- serialised sessions -----

  // The queue delivers one message of an order at a time, and no replay deletes the row of an
  // order while one of its deliveries is under way.
  ghost predicate Active(s: Sys, i: nat, p: Parts) {
    i in s.deliveries && s.deliveries[i].msg.parts == p && !s.deliveries[i].pc.Finished?
  }

  ghost predicate SerialStep(s: Sys, step: Step) {
    match step
    case Deliver(m) => forall i :: !Active(s, i, m.parts)
    case AwaitReplay(id, _, _) =>
      id in s.replays && s.replays[id].pc.ReplayDelete? ==> forall i :: !Active(s, i, s.replays[id].parts)
    case _ => true
  }

  ghost predicate SerialRun(cfg: Config, s: Sys, run: seq<Step>)
    decreases run
  {
    run == [] || (Enabled(cfg, s, run[0]) && SerialStep(s, run[0]) && SerialRun(cfg, Apply(cfg, s, run[0]), run[1..]))
  }

  ghost predicate SerialInv(s: Sys) {
    && (forall i, j, p :: Active(s, i, p) && Active(s, j, p) ==> i == j)
    && (forall i, p :: Active(s, i, p) ==> RowAt(s.deliveries[i].pc, Find(s.table, p)))
  }

  lemma SerialAwait(cfg: Config, s: Sys, id: nat, io: Io)
    requires Enabled(cfg, s, Await(id, io)) && SerialInv(s)
    ensures SerialInv(ApplyAwait(cfg, s, id, io))
  {
    var d := s.deliveries[id];
    var row := Find(s.table, d.msg.parts);
    var s' := ApplyAwait(cfg, s, id, io);
    assert Active(s, id, d.msg.parts);
    forall i, p | Active(s', i, p)
      ensures Active(s, i, p) && RowAt(s'.deliveries[i].pc, Find(s'.table, p))
    {
      PutKeepsOthers(s.table, d.msg.parts, RowAfter(d.msg, d.pc, io, row), p);
      if i == id {
        StepKeepsRowAt(cfg.wiring, d.msg, d.pc, io, row);
      } else {
        assert Active(s, i, p) && p != d.msg.parts;
      }
    }
  }

  lemma SerialStepKeepsInv(cfg: Config, s: Sys, step: Step)
    requires Enabled(cfg, s, step) && SerialStep(s, step) && SerialInv(s)
    ensures SerialInv(Apply(cfg, s, step))
  {
    var s' := Apply(cfg, s, step);
    match step {
      case Await(id, io) =>
        SerialAwait(cfg, s, id, io);
      case AwaitReplay(id, fails, applied) =>
        forall i, p | Active(s', i, p)
          ensures Active(s, i, p) && Find(s'.table, p) == Find(s.table, p)
        {
          ReplayEffect(s, id, fails, applied);
          assert Active(s, i, p);
        }
      case Deliver(m) =>
        forall i, p | Active(s', i, p)
          ensures (i == s.nextId && p == m.parts) || (Active(s, i, p) && p != m.parts)
        {
          assert i != s.nextId ==> Active(s, i, p);
        }
      case _ =>
        forall i, p | Active(s', i, p)
          ensures Active(s, i, p)
        {
        }
    }
  }

  lemma {:induction false} SerialRunKeepsInv(cfg: Config, s: Sys, run: seq<Step>)
    requires SerialRun(cfg, s, run) && SerialInv(s)
    ensures Legal(cfg, s, run) && SerialInv(Exec(cfg, s, run))
    decreases run
  {
    if run != [] {
      SerialStepKeepsInv(cfg, s, run[0]);
      SerialRunKeepsInv(cfg, Apply(cfg, s, run[0]), run[1..]);
    }
  }

  // In a serialised run, a delivery about to end with result `r` has left the row `r` promises:
  // `imported` synced and naming the record, `parked` error, `ignored_by_eligibility` ignored,
  // whatever logs or tags failed on the way. From then on, through any further run, serialised
  // or not, the row is dormant until it is deleted.
  lemma SettledForGood(cfg: Config, run: seq<Step>, id: nat, r: Returned, later: seq<Step>)
    requires SerialRun(cfg, INIT, run) && Legal(cfg, INIT, run)
    requires id in Exec(cfg, INIT, run).deliveries
    requires Exec(cfg, INIT, run).deliveries[id].pc == WriteAttempt(r)
    requires Legal(cfg, Exec(cfg, INIT, run), later)
    ensures var s := Exec(cfg, INIT, run);
            var p, end := s.deliveries[id].msg.parts, Exec(cfg, s, later);
            && p in s.table && ResultRow(r, Some(s.table[p]))
            && (end.hist[DeletedRow(p)] == s.hist[DeletedRow(p)] ==>
                  && Find(end.table, p) == Some(s.table[p])
                  && end.hist[NetSuiteCall(p)] == s.hist[NetSuiteCall(p)]
                  && LaterRefused(end, s.nextId, p, s.table[p]))
  {
    SerialRunKeepsInv(cfg, INIT, run);
    InitInv(cfg);
    RunKeepsInv(cfg, INIT, run);
    var s := Exec(cfg, INIT, run);
    var p := s.deliveries[id].msg.parts;
    assert Active(s, id, p);
    forall i | i in s.deliveries && s.deliveries[i].msg.parts == p
      ensures Harmless(s.deliveries[i].pc)
    {
      assert i != id ==> !Active(s, i, p);
    }
    DormantFromNow(cfg, s, p, later);
  }

  lemma OthersHarmless(s: Sys, id: nat, p: Parts)
    requires SerialInv(s) && Active(s, id, p)
    ensures forall i :: i in s.deliveries && i != id && s.deliveries[i].msg.parts == p ==> Harmless(s.deliveries[i].pc)
  {
    forall i | i in s.deliveries && i != id && s.deliveries[i].msg.parts == p
      ensures Harmless(s.deliveries[i].pc)
    {
      assert !Active(s, i, p);
    }
  }

  lemma ThrowStep(cfg: Config, s: Sys, id: nat, io: Io)
    requires SerialInv(s) && Enabled(cfg, s, Await(id, io)) && EndsInThrow(s.deliveries[id].pc, io)
    ensures var d, t := s.deliveries[id], ApplyAwait(cfg, s, id, io);
            var p := d.msg.parts;
            && t.deliveries[id].pc in {WriteAttempt(Throws(io.error)), AuthLog(io.error)}
            && p in s.table && StatusAt(d.pc, s.table[p].status)
            && p in t.table && t.table[p].status == StatusLeft(d.pc, io.applied, s.table[p].status)
            && Dormant(t, p, t.table[p])
  {
    var d := s.deliveries[id];
    var p, row := d.msg.parts, Find(s.table, d.msg.parts);
    assert Active(s, id, p);
    OthersHarmless(s, id, p);
    ThrowLeaves(cfg.wiring, d.msg, d.pc, io, row);
    PutKeepsOthers(s.table, p, RowAfter(d.msg, d.pc, io, row), p);
  }

  // An await whose error ends a serialised delivery leaves the row with the status of its place,
  // and for good: no later delivery changes it or calls NetSuite, and each is refused with that
  // status until the row is deleted.
  lemma ThrowLeavesDormant(cfg: Config, run: seq<Step>, id: nat, io: Io, later: seq<Step>)
    requires SerialRun(cfg, INIT, run) && Legal(cfg, INIT, run)
    requires Enabled(cfg, Exec(cfg, INIT, run), Await(id, io))
    requires EndsInThrow(Exec(cfg, INIT, run).deliveries[id].pc, io)
    requires Legal(cfg, Apply(cfg, Exec(cfg, INIT, run), Await(id, io)), later)
    ensures var s := Exec(cfg, INIT, run);
            var d, t := s.deliveries[id], Apply(cfg, s, Await(id, io));
            var p, end := d.msg.parts, Exec(cfg, t, later);
            && t.deliveries[id].pc in {WriteAttempt(Throws(io.error)), AuthLog(io.error)}
            && p in s.table && StatusAt(d.pc, s.table[p].status)
            && p in t.table && t.table[p].status == StatusLeft(d.pc, io.applied, s.table[p].status)
            && Dormant(t, p, t.table[p])
            && (end.hist[DeletedRow(p)] == t.hist[DeletedRow(p)] ==>
                  && Find(end.table, p) == Some(t.table[p])
                  && end.hist[NetSuiteCall(p)] == t.hist[NetSuiteCall(p)]
                  && LaterRefused(end, t.nextId, p, t.table[p]))
  {
    SerialRunKeepsInv(cfg, INIT, run);
    InitInv(cfg);
    RunKeepsInv(cfg, INIT, run);
    var s := Exec(cfg, INIT, run);
    ThrowStep(cfg, s, id, io);
    StepKeepsInv(cfg, s, Await(id, io));
    var t := ApplyAwait(cfg, s, id, io);
    DormantFromNow(cfg, t, s.deliveries[id].msg.parts, later);
  }

  // Deliveries that come after a row is dormant are refused until it is deleted.
  lemma DormantFromNow(cfg: Config, t: Sys, p: Parts, later: seq<Step>)
    requires Inv(cfg, t) && Legal(cfg, t, later) && p in t.table && Dormant(t, p, t.table[p])
    ensures var end := Exec(cfg, t, later);
            end.hist[DeletedRow(p)] == t.hist[DeletedRow(p)] ==>
              && Find(end.table, p) == Some(t.table[p])
              && end.hist[NetSuiteCall(p)] == t.hist[NetSuiteCall(p)]
              && LaterRefused(end, t.nextId, p, t.table[p])
  {
    if Exec(cfg, t, later).hist[DeletedRow(p)] == t.hist[DeletedRow(p)] {
      DormantUntilDelete(cfg, t, later, p, t.table[p], t.nextId);
    }
  }

  // All a later delivery can be told at a pending row.
  predicate ToldClaimed(pc: Pc) {
    match pc
    case WriteAttempt(Returns(o)) => o in {Rejected, ShortCircuit(AlreadyClaimed)}
    case Finished(Returns(o)) => o in {Rejected, ShortCircuit(AlreadyClaimed)}
    case _ => true
  }

  // A failure that is retried, anywhere before the upsert has returned, leaves the row `pending`:
  // the retries, and every other delivery, are told `already_claimed` until the row is deleted.
  lemma TransientLeavesPending(cfg: Config, run: seq<Step>, id: nat, io: Io, later: seq<Step>)
    requires SerialRun(cfg, INIT, run) && Legal(cfg, INIT, run)
    requires Enabled(cfg, Exec(cfg, INIT, run), Await(id, io))
    requires BeforeUpsert(Exec(cfg, INIT, run).deliveries[id].pc)
    requires io.Fails? && ShouldRetry(Classify(io.error))
    requires Legal(cfg, Apply(cfg, Exec(cfg, INIT, run), Await(id, io)), later)
    ensures var s := Exec(cfg, INIT, run);
            var t := Apply(cfg, s, Await(id, io));
            var p, end := s.deliveries[id].msg.parts, Exec(cfg, t, later);
            && t.deliveries[id].pc in {WriteAttempt(Throws(io.error)), AuthLog(io.error)}
            && p in t.table && t.table[p].status == Pending
            && (end.hist[DeletedRow(p)] == t.hist[DeletedRow(p)] ==>
                  && Find(end.table, p) == Some(t.table[p])
                  && end.hist[NetSuiteCall(p)] == t.hist[NetSuiteCall(p)]
                  && forall i :: i in end.deliveries && i >= t.nextId && end.deliveries[i].msg.parts == p ==>
                       ToldClaimed(end.deliveries[i].pc))
  {
    ThrowLeavesDormant(cfg, run, id, io, later);
  }

  // A serialised run can be taken one step further.
  lemma {:induction false} SerialRunOn(cfg: Config, s: Sys, run: seq<Step>, step: Step)
    requires SerialRun(cfg, s, run) && Legal(cfg, s, run)
    requires Enabled(cfg, Exec(cfg, s, run), step) && SerialStep(Exec(cfg, s, run), step)
    ensures SerialRun(cfg, s, run + [step]) && Legal(cfg, s, run + [step])
    ensures Exec(cfg, s, run + [step]) == Apply(cfg, Exec(cfg, s, run), step)
    decreases run
  {
    var all := run + [step];
    if run == [] {
      assert all[1..] == [];
      assert Legal(cfg, Apply(cfg, s, step), all[1..]);
    } else {
      SerialRunOn(cfg, Apply(cfg, s, run[0]), run[1..], step);
      assert all[1..] == run[1..] + [step];
    }
  }

  // Any order of a known connection: its catch-up message is claimed, and then Shopify's answer
  // is a failure to be retried.
  function TransientRun(p: Parts): seq<Step> {
    var m := Message(p, OrdersUpdated, Catchup);
    [Publish(m)] + [Deliver(m)] + [Await(0, Done)] + [Await(0, Inserted)]
    + [Await(0, Fails(Failure(Transient), false))]
  }

  lemma ClaimedByCatchup(cfg: Config, p: Parts)
    requires p.connectionId in cfg.connections
    ensures var run := TransientRun(p)[..4];
            && SerialRun(cfg, INIT, run) && Legal(cfg, INIT, run)
            && var s := Exec(cfg, INIT, run);
               && s.deliveries == map[0 := Delivery(Message(p, OrdersUpdated, Catchup), Fetch, [Done, Inserted])]
               && s.table == map[p := PendingRow(ClaimOf(Message(p, OrdersUpdated, Catchup)))]
               && s.nextId == 1 && s.hist == multiset{ClaimedRow(p)}
  {
    var m := Message(p, OrdersUpdated, Catchup);
    var r1 := [Publish(m)];
    var r2, r3 := r1 + [Deliver(m)], r1 + [Deliver(m)] + [Await(0, Done)];
    assert r1 == [] + [Publish(m)];
    SerialRunOn(cfg, INIT, [], Publish(m));
    SerialRunOn(cfg, INIT, r1, Deliver(m));
    SerialRunOn(cfg, INIT, r2, Await(0, Done));
    SerialRunOn(cfg, INIT, r3, Await(0, Inserted));
    assert TransientRun(p)[..4] == r3 + [Await(0, Inserted)];
    var none: seq<Io> := [];
    assert none + [Done] + [Inserted] == [Done, Inserted];
  }

  // The row is left `pending`, and however the retries go, they are told `already_claimed` and
  // call NetSuite for nothing until the row is deleted.
  lemma TransientInstance(cfg: Config, p: Parts, later: seq<Step>)
    requires p.connectionId in cfg.connections
    ensures SerialRun(cfg, INIT, TransientRun(p)) && Legal(cfg, INIT, TransientRun(p))
    ensures var t := Exec(cfg, INIT, TransientRun(p));
            && t.deliveries.Keys == {0} && t.deliveries[0].pc == WriteAttempt(Throws(Failure(Transient)))
            && p in t.table && t.table[p].status == Pending
            && (Legal(cfg, t, later) ==>
                  var end := Exec(cfg, t, later);
                  end.hist[DeletedRow(p)] == 0 ==>
                    && Find(end.table, p) == Some(t.table[p])
                    && end.hist[NetSuiteCall(p)] == 0
                    && forall i :: i in end.deliveries && i > 0 && end.deliveries[i].msg.parts == p ==>
                         ToldClaimed(end.deliveries[i].pc))
  {
    var run, io := TransientRun(p)[..4], Fails(Failure(Transient), false);
    ClaimedByCatchup(cfg, p);
    SerialRunOn(cfg, INIT, run, Await(0, io));
    assert TransientRun(p) == run + [Await(0, io)];
    var t := Exec(cfg, INIT, TransientRun(p));
    assert t.nextId == 1 && t.hist == multiset{ClaimedRow(p)};
    TransientLeavesPending(cfg, run, 0, io, []);
    if Legal(cfg, t, later) {
      TransientLeavesPending(cfg, run, 0, io, later);
    }
  }

  // A worker that stops for good in the middle of a serialised delivery leaves a dormant row
  // as soon as the claim has been made, with the status of the place it stopped at.
  lemma CrashLeavesDormantRow(cfg: Config, run: seq<Step>, id: nat)
    requires SerialRun(cfg, INIT, run) && Legal(cfg, INIT, run)
    requires id in Exec(cfg, INIT, run).deliveries && Holding(Exec(cfg, INIT, run).deliveries[id].pc)
    ensures var s := Exec(cfg, INIT, run);
            var d := s.deliveries[id];
            var p := d.msg.parts;
            && p in s.table && StatusAt(d.pc, s.table[p].status)
            && Dormant(Apply(cfg, s, Stop(id)), p, s.table[p])
  {
    SerialRunKeepsInv(cfg, INIT, run);
    var s := Exec(cfg, INIT, run);
    var p := s.deliveries[id].msg.parts;
    assert Active(s, id, p);
    OthersHarmless(s, id, p);
  }

  // ----- one attempt row for each delivery -----

  ghost predicate NoAttempt(s: Sys, id: nat) {
    forall q :: s.audit[AttemptWritten(id, q)] == 0
  }

  ghost predicate OneAttempt(s: Sys, id: nat, r: Returned) {
    s.audit[AttemptWritten(id, r)] == 1 && forall q :: q != r ==> s.audit[AttemptWritten(id, q)] == 0
  }

  ghost predicate AtMostOneAttempt(s: Sys, id: nat) {
    NoAttempt(s, id) || exists r :: OneAttempt(s, id, r)
  }

  predicate BeforeClaimed(pc: Pc) {
    pc.FindConnection? || pc.GateLookup? || pc.GateIgnore? || pc.GateLog? || pc.ClaimInsert? || pc.ClaimSelect?
  }

  ghost predicate AuditAt(w: Wiring, s: Sys, id: nat, pc: Pc) {
    var answers := s.audit[ClaimAnswered(id)];
    match pc
    case Finished(r) =>
      && answers <= 1
      && (NoAttempt(s, id) || OneAttempt(s, id, r))
      && (answers == 1 && w.attemptStore ==> OneAttempt(s, id, r))
    case _ => NoAttempt(s, id) && answers <= 1 && (BeforeClaimed(pc) ==> answers == 0)
  }

  // Also of deliveries that were stopped, and of those still to come.
  ghost predicate AuditOf(w: Wiring, s: Sys, id: nat) {
    if id in s.deliveries then AuditAt(w, s, id, s.deliveries[id].pc)
    else AtMostOneAttempt(s, id) && (id >= s.nextId ==> NoAttempt(s, id) && s.audit[ClaimAnswered(id)] == 0)
  }

  ghost predicate AuditInv(w: Wiring, s: Sys) {
    (forall id :: AuditOf(w, s, id)) && (forall id :: id in s.deliveries ==> id < s.nextId)
  }

  lemma AuditedCounts(w: Wiring, id: nat, pc: Pc, io: Io, i: nat, r: Returned)
    ensures Audited(w, id, pc, io)[AttemptWritten(i, r)] ==
            if i == id && pc == WriteAttempt(r) && w.attemptStore then 1 else 0
    ensures Audited(w, id, pc, io)[ClaimAnswered(i)] ==
            if i == id && ((pc.ClaimInsert? && io.Inserted?) || (pc.ClaimSelect? && io.Found?)) then 1 else 0
  {
  }

  lemma AwaitAuditsOthers(cfg: Config, s: Sys, id: nat, io: Io, i: nat)
    requires Enabled(cfg, s, Await(id, io)) && AuditOf(cfg.wiring, s, i) && i != id
    ensures AuditOf(cfg.wiring, ApplyAwait(cfg, s, id, io), i)
  {
    var s' := ApplyAwait(cfg, s, id, io);
    forall r
      ensures s'.audit[AttemptWritten(i, r)] == s.audit[AttemptWritten(i, r)]
      ensures s'.audit[ClaimAnswered(i)] == s.audit[ClaimAnswered(i)]
    {
      AuditedCounts(cfg.wiring, id, s.deliveries[id].pc, io, i, r);
    }
    SameAudit(cfg.wiring, s, s', i);
  }

  lemma SameAudit(w: Wiring, s: Sys, s': Sys, i: nat)
    requires AuditOf(w, s, i) && s'.audit[ClaimAnswered(i)] == s.audit[ClaimAnswered(i)] && s'.nextId >= s.nextId
    requires forall r :: s'.audit[AttemptWritten(i, r)] == s.audit[AttemptWritten(i, r)]
    requires i in s'.deliveries <==> i in s.deliveries
    requires i in s.deliveries ==> s'.deliveries[i] == s.deliveries[i]
    ensures AuditOf(w, s', i)
  {
    assert NoAttempt(s', i) == NoAttempt(s, i);
    forall r
      ensures OneAttempt(s', i, r) == OneAttempt(s, i, r)
    {
    }
  }

  // Where the claim is answered, and what the last await leads to.
  lemma AuditedPlaces(w: Wiring, m: Message, pc: Pc, io: Io, row: Option<Row>)
    requires IoFits(w, pc, io, row)
    ensures var next := Next(w, m, pc, io);
            var answers := (pc.ClaimInsert? && io.Inserted?) || (pc.ClaimSelect? && io.Found?);
            && (answers ==> BeforeClaimed(pc) && !next.Finished? && !BeforeClaimed(next))
            && (BeforeClaimed(next) ==> BeforeClaimed(pc))
            && (next.Finished? && !pc.WriteAttempt? ==> BeforeClaimed(pc))
            && (pc.WriteAttempt? ==> next == Finished(pc.result))
  {
  }

  lemma AwaitAuditsItself(cfg: Config, s: Sys, id: nat, io: Io)
    requires Enabled(cfg, s, Await(id, io)) && AuditOf(cfg.wiring, s, id)
    ensures AuditOf(cfg.wiring, ApplyAwait(cfg, s, id, io), id)
  {
    var s', d := ApplyAwait(cfg, s, id, io), s.deliveries[id];
    forall r
      ensures s'.audit[AttemptWritten(id, r)] == s.audit[AttemptWritten(id, r)] +
              if d.pc == WriteAttempt(r) && cfg.wiring.attemptStore then 1 else 0
    {
      AuditedCounts(cfg.wiring, id, d.pc, io, id, r);
    }
    AuditedCounts(cfg.wiring, id, d.pc, io, id, Returns(Rejected));
    AuditedPlaces(cfg.wiring, d.msg, d.pc, io, Find(s.table, d.msg.parts));
    if d.pc.WriteAttempt? {
      AttemptCounts(cfg.wiring, s, s', id, d.pc.result);
    } else {
      ElsewhereCounts(cfg.wiring, s, s', id, d.pc, s'.deliveries[id].pc);
    }
  }

  // Away from the attempt row: the claim is answered at most once, on the way past it.
  lemma ElsewhereCounts(w: Wiring, s: Sys, s': Sys, id: nat, pc: Pc, next: Pc)
    requires AuditAt(w, s, id, pc) && !pc.Finished? && !pc.WriteAttempt?
    requires forall q :: s'.audit[AttemptWritten(id, q)] == s.audit[AttemptWritten(id, q)]
    requires s.audit[ClaimAnswered(id)] <= s'.audit[ClaimAnswered(id)] <= s.audit[ClaimAnswered(id)] + 1
    requires s'.audit[ClaimAnswered(id)] > s.audit[ClaimAnswered(id)] ==>
               BeforeClaimed(pc) && !next.Finished? && !BeforeClaimed(next)
    requires (BeforeClaimed(next) || next.Finished?) ==> BeforeClaimed(pc)
    ensures AuditAt(w, s', id, next)
  {
    assert NoAttempt(s', id);
  }

  lemma AttemptCounts(w: Wiring, s: Sys, s': Sys, id: nat, r: Returned)
    requires NoAttempt(s, id)
    requires forall q :: s'.audit[AttemptWritten(id, q)] ==
                         s.audit[AttemptWritten(id, q)] + if q == r && w.attemptStore then 1 else 0
    ensures if w.attemptStore then OneAttempt(s', id, r) else NoAttempt(s', id)
  {
  }

  lemma StepKeepsAudit(cfg: Config, s: Sys, step: Step)
    requires Enabled(cfg, s, step) && AuditInv(cfg.wiring, s)
    ensures AuditInv(cfg.wiring, Apply(cfg, s, step))
  {
    var s' := Apply(cfg, s, step);
    if step.AwaitReplay? {
      ReplayEffect(s, step.id, step.fails, step.applied);
    }
    forall i
      ensures AuditOf(cfg.wiring, s', i)
    {
      assert AuditOf(cfg.wiring, s, i);
      if step.Await? {
        if i == step.id {
          AwaitAuditsItself(cfg, s, i, step.io);
        } else {
          AwaitAuditsOthers(cfg, s, step.id, step.io, i);
        }
      } else if step.Stop? && i == step.id {
        StoppedAudit(cfg.wiring, s, s', i);
      } else if !(step.Deliver? && i == s.nextId) {
        SameAudit(cfg.wiring, s, s', i);
      }
    }
  }

  lemma StoppedAudit(w: Wiring, s: Sys, s': Sys, i: nat)
    requires AuditOf(w, s, i) && i in s.deliveries && i < s.nextId
    requires s'.audit == s.audit && s'.nextId == s.nextId && i !in s'.deliveries
    ensures AuditOf(w, s', i)
  {
    assert NoAttempt(s', i) == NoAttempt(s, i);
    if s.deliveries[i].pc.Finished? && OneAttempt(s, i, s.deliveries[i].pc.result) {
      assert OneAttempt(s', i, s.deliveries[i].pc.result);
    }
  }

  lemma {:induction false} RunKeepsAudit(cfg: Config, s: Sys, run: seq<Step>)
    requires Legal(cfg, s, run) && AuditInv(cfg.wiring, s)
    ensures AuditInv(cfg.wiring, Exec(cfg, s, run))
    decreases run
  {
    if run != [] {
      StepKeepsAudit(cfg, s, run[0]);
      RunKeepsAudit(cfg, Apply(cfg, s, run[0]), run[1..]);
    }
  }

  // Whatever else runs, deletes or fails beside it: a delivery whose claim was answered and that
  // has ended has written exactly one attempt row, and the row says what the delivery came to;
  // no delivery, ended, stopped or under way, has ever written two.
  lemma OneAttemptRowEach(cfg: Config, run: seq<Step>, id: nat)
    requires Legal(cfg, INIT, run)
    ensures var s := Exec(cfg, INIT, run);
            && AtMostOneAttempt(s, id)
            && (id in s.deliveries && s.deliveries[id].pc.Finished? ==>
                  var r := s.deliveries[id].pc.result;
                  && (s.audit[ClaimAnswered(id)] > 0 && cfg.wiring.attemptStore ==> OneAttempt(s, id, r))
                  && forall q :: s.audit[AttemptWritten(id, q)] > 0 ==> q == r)
  {
    RunKeepsAudit(cfg, INIT, run);
    var s := Exec(cfg, INIT, run);
    assert AuditOf(cfg.wiring, s, id);
    if id in s.deliveries && s.deliveries[id].pc.Finished? && OneAttempt(s, id, s.deliveries[id].pc.result) {
      assert AtMostOneAttempt(s, id);
    }
  }
}
