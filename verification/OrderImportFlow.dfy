// apps/functions/src/triggers/order-import-handler.ts, step by step: where a delivery can be
// (`Pc`), what an await can come back with (`Io`), where that leads (`Next`) and what it does
// to the order's xref row (`RowAfter`). The handler method is proved to follow this graph, and
// the protocol runs any number of deliveries through it at once.
module OrderImportFlow {
  import opened Common
  import opened DedupKey
  import opened XrefStore

  datatype ErrorClass = Transient | Auth | Data | UnmappedConstruct | Unknown

  // A thrown error: Shopify's order-not-found, or any other with the class it is sorted into.
  datatype Thrown = OrderNotFound | Failure(cls: ErrorClass)

  function Classify(e: Thrown): ErrorClass {
    if e.OrderNotFound? then Data else e.cls
  }

  predicate ShouldRetry(c: ErrorClass) {
    c == Transient || c == Auth
  }

  datatype Stage = AtFetch | AtMapping | AtBalancing | AtItemResolution | AtExternalCall

  datatype Outcome =
    | Imported(targetId: InternalId)
    | Parked(stage: Stage, errorClass: ErrorClass)
    | IgnoredByEligibility
    | ShortCircuit(claim: ClaimOutcome)
    | Rejected

  datatype Returned = Returns(outcome: Outcome) | Throws(error: Thrown)

  datatype Source = Webhook | Catchup | Replay

  datatype Topic = OrdersCreate | OrdersUpdated

  datatype Message = Message(parts: Parts, topic: Topic, source: Source)

  // Which optional stores are wired, and the connection's tag write-back switch.
  datatype Wiring = Wiring(errorStore: bool, syncLog: bool, attemptStore: bool, writeTags: bool)

  datatype Pc =
    | FindConnection
    | GateLookup | GateIgnore | GateLog
    | ClaimInsert | ClaimSelect
    | Fetch
    | IgnoreRow | IgnoreLog
    | Customer(gid: Option<string>) | BuildPayload | ResolveItems
    | Upsert | RecordSuccess(id: InternalId) | ImportLog(id: InternalId)
    | TagOrder(id: InternalId) | TagErrorLog(id: InternalId)
    | AuthLog(error: Thrown)
    | ParkRow(stage: Stage, cls: ErrorClass, caught: bool)
    | ParkErrorLog(stage: Stage, cls: ErrorClass, caught: bool)
    | ParkLog(stage: Stage, cls: ErrorClass, caught: bool)
    | WriteAttempt(result: Returned)
    | Finished(result: Returned)

  // `Fails(e, applied)`: the await throws; a write may have been applied all the same.
  datatype Io =
    | Done
    | Missing
    | Found(status: Status)
    | Inserted
    | Conflict
    | Fetched(eligible: bool, customer: Option<string>)
    | Parks(stage: Stage)
    | Saved(id: InternalId)
    | Fails(error: Thrown, applied: bool)

  predicate Gated(m: Message) {
    m.source == Webhook && m.topic == OrdersUpdated
  }

  function AfterGate(m: Message): Pc {
    if Gated(m) then GateLookup else ClaimInsert
  }

  // The catch block: where an error thrown inside the try goes.
  function Caught(e: Thrown): Pc {
    var cls := Classify(e);
    if ShouldRetry(cls) then
      if cls == Auth then AuthLog(e) else WriteAttempt(Throws(e))
    else
      ParkRow(if e.OrderNotFound? then AtFetch else AtExternalCall, cls, true)
  }

  // Parking inside the try is itself caught; parking from the catch block is not.
  function ParkingFailed(caught: bool, e: Thrown): Pc {
    if caught then WriteAttempt(Throws(e)) else Caught(e)
  }

  function ClassOfPark(s: Stage): ErrorClass {
    if s == AtBalancing then Data else UnmappedConstruct
  }

  const ROW_MISSING := Failure(Unknown)

  function Next(w: Wiring, m: Message, pc: Pc, io: Io): Pc {
    match pc
    case FindConnection =>
      (match io
       case Done => AfterGate(m)
       case Fails(e, _) => Finished(Throws(e))
       case _ => Finished(Returns(Rejected)))
    case GateLookup =>
      (match io
       case Missing => GateIgnore
       case Fails(e, _) => Finished(Throws(e))
       case _ => ClaimInsert)
    case GateIgnore =>
      if io.Fails? then Finished(Throws(io.error)) else GateLog
    case GateLog =>
      if io.Fails? then Finished(Throws(io.error)) else WriteAttempt(Returns(IgnoredByEligibility))
    case ClaimInsert =>
      (match io
       case Inserted => Fetch
       case Fails(e, _) => Finished(Throws(e))
       case _ => ClaimSelect)
    case ClaimSelect =>
      (match io
       case Found(s) => WriteAttempt(Returns(ShortCircuit(OutcomeOf(s))))
       case Fails(e, _) => Finished(Throws(e))
       case _ => Finished(Throws(ROW_MISSING)))
    case Fetch =>
      (match io
       case Fetched(eligible, c) => if eligible then Customer(c) else IgnoreRow
       case Fails(e, _) => Caught(e)
       case _ => pc)
    case IgnoreRow =>
      if io.Fails? then Caught(io.error) else IgnoreLog
    case IgnoreLog =>
      if io.Fails? then Caught(io.error) else WriteAttempt(Returns(IgnoredByEligibility))
    case Customer(_) =>
      if io.Fails? then Caught(io.error) else BuildPayload
    case BuildPayload =>
      (match io
       case Parks(s) => ParkRow(s, ClassOfPark(s), false)
       case Fails(e, _) => Caught(e)
       case _ => ResolveItems)
    case ResolveItems =>
      (match io
       case Parks(s) => ParkRow(s, ClassOfPark(s), false)
       case Fails(e, _) => Caught(e)
       case _ => Upsert)
    case Upsert =>
      (match io
       case Saved(id) => RecordSuccess(id)
       case Fails(e, _) => Caught(e)
       case _ => pc)
    case RecordSuccess(id) =>
      if io.Fails? then Caught(io.error) else ImportLog(id)
    case ImportLog(id) =>
      if io.Fails? then Caught(io.error)
      else if w.writeTags then TagOrder(id) else WriteAttempt(Returns(Imported(id)))
    case TagOrder(id) =>
      if io.Fails? then TagErrorLog(id) else WriteAttempt(Returns(Imported(id)))
    case TagErrorLog(id) =>
      if io.Fails? then Caught(io.error) else WriteAttempt(Returns(Imported(id)))
    case AuthLog(e) =>
      WriteAttempt(Throws(if io.Fails? then io.error else e))
    case ParkRow(s, c, caught) =>
      if io.Fails? then ParkingFailed(caught, io.error) else ParkErrorLog(s, c, caught)
    case ParkErrorLog(s, c, caught) =>
      if io.Fails? then ParkingFailed(caught, io.error) else ParkLog(s, c, caught)
    case ParkLog(s, c, caught) =>
      if io.Fails? then ParkingFailed(caught, io.error) else WriteAttempt(Returns(Parked(s, c)))
    case WriteAttempt(r) => Finished(r)
    case Finished(_) => pc
  }

  // What the await at `pc` can come back with when the order's row is `row`. An update that
  // finds no row throws; a store that is not wired does nothing.
  predicate IoFits(w: Wiring, pc: Pc, io: Io, row: Option<Row>) {
    match pc
    case FindConnection => io.Done? || io.Missing? || io.Fails?
    case GateLookup => Looks(io, row)
    case ClaimInsert => io.Fails? || io == (if row.None? then Inserted else Conflict)
    case ClaimSelect => Looks(io, row)
    case Fetch => io.Fetched? || io.Fails?
    case BuildPayload => io.Done? || (io.Parks? && io.stage in {AtMapping, AtBalancing}) || io.Fails?
    case ResolveItems => io.Done? || io == Parks(AtItemResolution) || io.Fails?
    case Upsert => io.Saved? || io.Fails?
    case RecordSuccess(_) => (io.Done? && row.Some?) || Updates(io, row)
    case ParkRow(_, _, _) => (io.Done? && row.Some?) || Updates(io, row)
    case GateLog | IgnoreLog | ImportLog(_) | ParkLog(_, _, _) => io.Done? || (io.Fails? && w.syncLog)
    case TagErrorLog(_) | AuthLog(_) | ParkErrorLog(_, _, _) => io.Done? || (io.Fails? && w.errorStore)
    case WriteAttempt(_) => io.Done? || (io.Fails? && w.attemptStore)
    case GateIgnore | IgnoreRow | Customer(_) | TagOrder(_) => io.Done? || io.Fails?
    case Finished(_) => false
  }

  predicate Looks(io: Io, row: Option<Row>) {
    io.Fails? || io == (if row.Some? then Found(row.value.status) else Missing)
  }

  predicate Updates(io: Io, row: Option<Row>) {
    io.Fails? && (io.applied ==> row.Some?)
  }

  predicate Applied(io: Io) {
    !io.Fails? || io.applied
  }

  function ClaimOf(m: Message): ClaimInput {
    ClaimInput(m.parts, "netsuite", m.parts.sourceId, None)
  }

  function RowAfter(m: Message, pc: Pc, io: Io, row: Option<Row>): Option<Row> {
    if !Applied(io) then row else
    match pc
    case GateIgnore | IgnoreRow => Some(IgnoredRow(m.parts, row))
    case ClaimInsert => if row.None? then Some(PendingRow(ClaimOf(m))) else row
    case RecordSuccess(id) => if row.Some? then Some(SyncedRow(row.value, id, m.parts.sourceId)) else row
    case ParkRow(_, _, _) => if row.Some? then Some(FailedRow(row.value, None)) else row
    case _ => row
  }

  // ----- what a delivery that runs alone on its order leaves in the row -----

  // Past the INSERT that made this delivery the holder of the claim.
  predicate Holding(pc: Pc) {
    match pc
    case FindConnection | GateLookup | GateIgnore | GateLog | ClaimInsert | ClaimSelect => false
    case WriteAttempt(_) | Finished(_) => false
    case _ => true
  }

  // The row a result promises.
  predicate ResultRow(r: Returned, row: Option<Row>) {
    match r
    case Returns(Imported(id)) => row.Some? && row.value.status == Synced && row.value.targetId == Some(id)
    case Returns(Parked(_, _)) => row.Some? && row.value.status == Error
    case Returns(IgnoredByEligibility) => row.Some? && row.value.status == Ignored
    case Returns(ShortCircuit(c)) => row.Some? && c == OutcomeOf(row.value.status)
    case _ => true
  }

  // The row at every point of a delivery that nobody interferes with.
  predicate RowAt(pc: Pc, row: Option<Row>) {
    match pc
    case FindConnection | GateLookup | ClaimInsert => true
    case GateIgnore => row.None?
    case GateLog | IgnoreLog => row.Some? && row.value.status == Ignored
    case Fetch | IgnoreRow | Customer(_) | BuildPayload | ResolveItems | Upsert | RecordSuccess(_) =>
      row.Some? && row.value.status == Pending
    case ParkRow(_, _, caught) => row.Some? && (!caught ==> row.value.status == Pending)
    case ImportLog(id) => ResultRow(Returns(Imported(id)), row)
    case TagOrder(id) => ResultRow(Returns(Imported(id)), row)
    case TagErrorLog(id) => ResultRow(Returns(Imported(id)), row)
    case ParkErrorLog(_, _, _) | ParkLog(_, _, _) => row.Some? && row.value.status == Error
    case WriteAttempt(r) => row.Some? && ResultRow(r, row)
    case Finished(r) => ResultRow(r, row)
    case _ => row.Some?
  }

  // One step of a delivery alone on its order keeps the row at what its place says.
  lemma StepKeepsRowAt(w: Wiring, m: Message, pc: Pc, io: Io, row: Option<Row>)
    requires IoFits(w, pc, io, row) && RowAt(pc, row)
    ensures RowAt(Next(w, m, pc, io), RowAfter(m, pc, io, row))
  {
  }

  // The status a failing await leaves behind. A place that writes the row decides by whether the
  // write was applied; every other place leaves the row as it found it.
  function StatusLeft(pc: Pc, applied: bool, before: Status): Status {
    match pc
    case IgnoreRow => if applied then Ignored else before
    case RecordSuccess(_) => if applied then Synced else before
    case ParkRow(_, _, _) => if applied then Error else before
    case _ => before
  }

  // What the places of the claimed body hold when they fail: `pending` up to the write that
  // settles the row, and the settled status after it.
  predicate StatusAt(pc: Pc, status: Status) {
    match pc
    case Fetch | IgnoreRow | Customer(_) | BuildPayload | ResolveItems | Upsert | RecordSuccess(_) => status == Pending
    case IgnoreLog => status == Ignored
    case ImportLog(_) | TagErrorLog(_) => status == Synced
    case ParkErrorLog(_, _, _) | ParkLog(_, _, _) => status == Error
    case ParkRow(_, _, caught) => !caught ==> status == Pending
    case _ => true
  }

  // An await of the claimed body whose error ends the delivery: it is retried, or it comes out
  // of the catch block itself. A failing tag is swallowed.
  predicate EndsInThrow(pc: Pc, io: Io) {
    && Holding(pc) && io.Fails? && !pc.TagOrder? && !pc.AuthLog?
    && (ShouldRetry(Classify(io.error)) || ((pc.ParkRow? || pc.ParkErrorLog? || pc.ParkLog?) && pc.caught))
  }

  // Such an await leads to the throw, by way of the auth log if at all, with the row as
  // StatusLeft says; what follows no longer touches it.
  lemma ThrowLeaves(w: Wiring, m: Message, pc: Pc, io: Io, row: Option<Row>)
    requires IoFits(w, pc, io, row) && RowAt(pc, row) && EndsInThrow(pc, io)
    ensures var next, after := Next(w, m, pc, io), RowAfter(m, pc, io, row);
            && (next == WriteAttempt(Throws(io.error)) || (next == AuthLog(io.error) && Classify(io.error) == Auth))
            && row.Some? && StatusAt(pc, row.value.status)
            && after.Some? && after.value.status == StatusLeft(pc, io.applied, row.value.status)
  {
  }

  // The delivery throws and leaves `pending` if and only if no settling write was applied before
  // it, nor by the failing await itself.
  lemma ThrowLeavesPendingIff(w: Wiring, m: Message, pc: Pc, io: Io, row: Option<Row>)
    requires IoFits(w, pc, io, row) && RowAt(pc, row) && EndsInThrow(pc, io)
    ensures RowAfter(m, pc, io, row).Some?
    ensures RowAfter(m, pc, io, row).value.status == Pending <==>
              match pc
              case Fetch | Customer(_) | BuildPayload | ResolveItems | Upsert => true
              case IgnoreRow | RecordSuccess(_) => !io.applied
              case ParkRow(_, _, caught) => !io.applied && (caught ==> row.value.status == Pending)
              case _ => false
  {
    ThrowLeaves(w, m, pc, io, row);
  }

  // Places from which a delivery can no longer touch a row that is present, nor call NetSuite.
  predicate Harmless(pc: Pc) {
    match pc
    case FindConnection | GateLookup | GateLog | ClaimInsert | ClaimSelect => true
    case AuthLog(_) | WriteAttempt(_) | Finished(_) => true
    case _ => false
  }

  lemma HarmlessStaysHarmless(w: Wiring, m: Message, pc: Pc, io: Io, row: Option<Row>)
    requires Harmless(pc) && row.Some? && IoFits(w, pc, io, row)
    ensures Harmless(Next(w, m, pc, io))
    ensures RowAfter(m, pc, io, row) == row
  {
  }

  // ----- why a delivery is where it is -----

  // `past` holds what the awaits of the delivery have come back with so far.

  predicate UpdateWebhook(m: Message) {
    m.source == Webhook && m.topic == OrdersUpdated
  }

  // The awaits up to the claim: the connection, the lookup of the gate, the INSERT.
  function Opening(m: Message): nat {
    if UpdateWebhook(m) then 3 else 2
  }

  // The connection was found, and the row by the gate, where there is one.
  predicate Admitted(m: Message, past: seq<Io>) {
    && |past| >= Opening(m) - 1 && past[0] == Done
    && (UpdateWebhook(m) ==> past[1].Found?)
  }

  predicate HasClaim(m: Message, past: seq<Io>) {
    Admitted(m, past) && |past| >= Opening(m) && past[Opening(m) - 1] == Inserted
  }

  // The first `k` awaits of the claimed body went the way of an import: the order is fetched and
  // eligible; customer, payload and items are done; the order is saved, recorded and logged.
  predicate WentWell(m: Message, past: seq<Io>, k: nat) {
    var n := Opening(m);
    && HasClaim(m, past) && |past| >= n + k
    && (k > 0 ==> past[n].Fetched? && past[n].eligible)
    && (k > 1 ==> past[n + 1] == Done)
    && (k > 2 ==> past[n + 2] == Done)
    && (k > 3 ==> past[n + 3] == Done)
    && (k > 4 ==> past[n + 4].Saved?)
    && (k > 5 ==> past[n + 5] == Done)
    && (k > 6 ==> past[n + 6] == Done)
  }

  predicate NotEligible(m: Message, past: seq<Io>) {
    var n := Opening(m);
    HasClaim(m, past) && |past| > n && past[n].Fetched? && !past[n].eligible
  }

  // Await `k` of the claimed body failed, and not as the tag write-back, whose failure is only logged.
  predicate Failed(m: Message, past: seq<Io>, k: int) {
    && HasClaim(m, past) && Opening(m) <= k < |past| && past[k].Fails?
    && !(WentWell(m, past, 7) && k == Opening(m) + 7)
  }

  predicate FailedAuth(m: Message, past: seq<Io>, k: int) {
    Failed(m, past, k) && past[k].error == Failure(Auth)
  }

  // It failed with an error that is not to be retried.
  predicate FailedHard(m: Message, past: seq<Io>, k: int) {
    Failed(m, past, k) && past[k].error != Failure(Transient) && past[k].error != Failure(Auth)
  }

  // Await `k` of the delivery is a reason to park: the payload does not map or balance, or the
  // items do not resolve; or it failed hard, with an order Shopify does not know among the reasons.
  predicate ParksOn(m: Message, past: seq<Io>, k: int, stage: Stage, cls: ErrorClass, caught: bool) {
    if caught then
      && FailedHard(m, past, k)
      && (past[k].error == OrderNotFound ==> stage == AtFetch && cls == Data)
      && (past[k].error != OrderNotFound ==> stage == AtExternalCall && past[k].error == Failure(cls))
    else
      && 0 <= k - Opening(m) < |past| - Opening(m) && WentWell(m, past, k - Opening(m)) && past[k] == Parks(stage)
      && match stage
         case AtMapping => k == Opening(m) + 2 && cls == UnmappedConstruct
         case AtBalancing => k == Opening(m) + 2 && cls == Data
         case AtItemResolution => k == Opening(m) + 3 && cls == UnmappedConstruct
         case _ => false
  }

  predicate AllDone(past: seq<Io>, i: int) {
    0 <= i <= |past| && forall k :: i <= k < |past| ==> past[k] == Done
  }

  // The tag write-back, where it is switched on: it was done, or its failure was logged.
  predicate Tagged(w: Wiring, past: seq<Io>, i: nat) {
    if w.writeTags then
      || (|past| == i + 1 && past[i] == Done)
      || (|past| == i + 2 && past[i].Fails? && past[i + 1] == Done)
    else |past| == i
  }

  // What the answers so far must have been for the claimed body, or the gate, to come to `r`.
  predicate Earns(w: Wiring, m: Message, past: seq<Io>, r: Returned) {
    var n := Opening(m);
    match r
    case Returns(Imported(id)) => WentWell(m, past, 7) && past[n + 4] == Saved(id) && Tagged(w, past, n + 7)
    case Returns(IgnoredByEligibility) =>
      || (NotEligible(m, past) && AllDone(past, n + 1) && |past| == n + 3)
      || (UpdateWebhook(m) && past == [Done, Missing, Done, Done])
    case Returns(Parked(stage, cls)) =>
      AllDone(past, |past| - 3)
      && (ParksOn(m, past, |past| - 4, stage, cls, false) || ParksOn(m, past, |past| - 4, stage, cls, true))
    case Returns(ShortCircuit(claim)) =>
      && Admitted(m, past) && |past| == n + 1 && past[n - 1] == Conflict && past[n].Found?
      && (past[n].status == Synced ==> claim == AlreadySynced)
      && (past[n].status == Ignored ==> claim == RowIgnored)
      && (past[n].status == Pending || past[n].status == Error ==> claim == AlreadyClaimed)
    case Returns(Rejected) => false
    case Throws(e) => HasClaim(m, past) && Throwing(m, past, e)
  }

  // The last await failed and the error is retried at once; or after the auth log; or it came
  // out of the auth log, or of the parking of an error, whatever it was.
  predicate Throwing(m: Message, past: seq<Io>, e: Thrown) {
    var n := |past| - 1;
    && n > Opening(m) - 1
    && (|| (Failed(m, past, n) && past[n].error == e == Failure(Transient))
        || (past[n] == Done && e == Failure(Auth) && FailedAuth(m, past, n - 1))
        || (past[n].Fails? && past[n].error == e && FailedAuth(m, past, n - 1))
        || (past[n].Fails? && past[n].error == e && Parking(m, past, n)))
  }

  // Await `n` is one of the three of a parking in the catch block.
  predicate Parking(m: Message, past: seq<Io>, n: int) {
    && 2 <= n <= |past|
    && (|| FailedHard(m, past, n - 1)
        || (past[n - 1] == Done && FailedHard(m, past, n - 2))
        || (past[n - 1] == Done && past[n - 2] == Done && FailedHard(m, past, n - 3)))
  }

  predicate InOpening(pc: Pc) {
    pc.FindConnection? || pc.GateLookup? || pc.GateIgnore? || pc.GateLog? || pc.ClaimInsert? || pc.ClaimSelect?
  }

  predicate InParking(pc: Pc) {
    pc.ParkRow? || pc.ParkErrorLog? || pc.ParkLog?
  }

  predicate AtEnd(pc: Pc) {
    pc.AuthLog? || pc.WriteAttempt? || pc.Finished?
  }

  // What the answers so far must have been for the delivery to be at this place.
  predicate Because(w: Wiring, m: Message, pc: Pc, past: seq<Io>) {
    if InOpening(pc) then OpeningAt(m, pc, past)
    else if InParking(pc) then ParkingAt(m, pc, past)
    else if AtEnd(pc) then EndAt(w, m, pc, past)
    else BodyAt(w, m, pc, past)
  }

  predicate OpeningAt(m: Message, pc: Pc, past: seq<Io>) {
    var n := Opening(m);
    match pc
    case FindConnection => past == []
    case GateLookup => UpdateWebhook(m) && past == [Done]
    case GateIgnore => UpdateWebhook(m) && past == [Done, Missing]
    case GateLog => UpdateWebhook(m) && past == [Done, Missing, Done]
    case ClaimInsert => Admitted(m, past) && |past| == n - 1
    case ClaimSelect => Admitted(m, past) && |past| == n && past[n - 1] == Conflict
    case _ => true
  }

  predicate BodyAt(w: Wiring, m: Message, pc: Pc, past: seq<Io>) {
    var n := Opening(m);
    match pc
    case Fetch => WentWell(m, past, 0) && |past| == n
    case IgnoreRow => NotEligible(m, past) && |past| == n + 1
    case IgnoreLog => NotEligible(m, past) && |past| == n + 2 && past[n + 1] == Done
    case Customer(c) => WentWell(m, past, 1) && |past| == n + 1 && past[n].customer == c
    case BuildPayload => WentWell(m, past, 2) && |past| == n + 2
    case ResolveItems => WentWell(m, past, 3) && |past| == n + 3
    case Upsert => WentWell(m, past, 4) && |past| == n + 4
    case RecordSuccess(id) => WentWell(m, past, 5) && |past| == n + 5 && past[n + 4] == Saved(id)
    case ImportLog(id) => WentWell(m, past, 6) && |past| == n + 6 && past[n + 4] == Saved(id)
    case TagOrder(id) => WentWell(m, past, 7) && |past| == n + 7 && past[n + 4] == Saved(id) && w.writeTags
    case TagErrorLog(id) =>
      WentWell(m, past, 7) && |past| == n + 8 && past[n + 4] == Saved(id) && w.writeTags && past[n + 7].Fails?
    case _ => true
  }

  predicate ParkingAt(m: Message, pc: Pc, past: seq<Io>) {
    match pc
    case ParkRow(stage, cls, caught) => ParksOn(m, past, |past| - 1, stage, cls, caught)
    case ParkErrorLog(stage, cls, caught) =>
      AllDone(past, |past| - 1) && ParksOn(m, past, |past| - 2, stage, cls, caught)
    case ParkLog(stage, cls, caught) =>
      AllDone(past, |past| - 2) && ParksOn(m, past, |past| - 3, stage, cls, caught)
    case _ => true
  }

  predicate EndAt(w: Wiring, m: Message, pc: Pc, past: seq<Io>) {
    match pc
    case AuthLog(e) => HasClaim(m, past) && e == Failure(Auth) && FailedAuth(m, past, |past| - 1)
    case WriteAttempt(r) => Earns(w, m, past, r)
    case Finished(r) => EndsWith(w, m, past, r)
    case _ => true
  }

  // A delivery ends by writing its attempt row; or before that, when its connection is not
  // there, or an await up to the claim's answer fails.
  predicate EndsWith(w: Wiring, m: Message, past: seq<Io>, r: Returned) {
    && past != []
    && var n := |past| - 1;
    || (r == Returns(Rejected) && past == [Missing])
    || (n <= Opening(m) && past[n].Fails? && !HasClaim(m, past) && r == Throws(past[n].error))
    || (Admitted(m, past) && n == Opening(m) && past[n - 1] == Conflict && past[n] == Missing
        && r == Throws(Failure(Unknown)))
    || ((past[n] == Done || past[n].Fails?) && Earns(w, m, past[..n], r))
  }

  // An error thrown inside the try.
  lemma CaughtBecause(w: Wiring, m: Message, past: seq<Io>, io: Io)
    requires HasClaim(m, past) && io.Fails? && !(WentWell(m, past, 7) && |past| == Opening(m) + 7)
    ensures Because(w, m, Caught(io.error), past + [io])
  {
    assert (past + [io])[|past|] == io;
  }

  lemma OpeningBecause(w: Wiring, m: Message, pc: Pc, io: Io, row: Option<Row>, past: seq<Io>)
    requires InOpening(pc) && IoFits(w, pc, io, row) && OpeningAt(m, pc, past)
    ensures Because(w, m, Next(w, m, pc, io), past + [io])
  {
    assert (past + [io])[..|past|] == past;
  }

  lemma BodyHasClaim(w: Wiring, m: Message, pc: Pc, past: seq<Io>)
    requires !InOpening(pc) && !InParking(pc) && !AtEnd(pc) && BodyAt(w, m, pc, past)
    ensures HasClaim(m, past) && (!pc.TagOrder? ==> |past| != Opening(m) + 7)
  {
  }

  // A failing tag is not caught, and no other failure is swallowed.
  lemma BodyFails(w: Wiring, m: Message, pc: Pc, io: Io)
    requires !InOpening(pc) && !InParking(pc) && !AtEnd(pc) && io.Fails?
    ensures Next(w, m, pc, io) == if pc.TagOrder? then TagErrorLog(pc.id) else Caught(io.error)
  {
  }

  lemma BodyBecause(w: Wiring, m: Message, pc: Pc, io: Io, row: Option<Row>, past: seq<Io>)
    requires !InOpening(pc) && !InParking(pc) && !AtEnd(pc) && IoFits(w, pc, io, row) && BodyAt(w, m, pc, past)
    ensures Because(w, m, Next(w, m, pc, io), past + [io])
  {
    if io.Fails? && !pc.TagOrder? {
      BodyHasClaim(w, m, pc, past);
      BodyFails(w, m, pc, io);
      CaughtBecause(w, m, past, io);
    } else if pc.Fetch? || pc.IgnoreRow? || pc.IgnoreLog? {
      FetchedBecause(w, m, pc, io, row, past);
    } else if pc.Customer? || pc.BuildPayload? || pc.ResolveItems? {
      DraftBecause(w, m, pc, io, row, past);
    } else {
      SavedBecause(w, m, pc, io, row, past);
    }
  }

  lemma FetchedBecause(w: Wiring, m: Message, pc: Pc, io: Io, row: Option<Row>, past: seq<Io>)
    requires (pc.Fetch? || pc.IgnoreRow? || pc.IgnoreLog?) && !io.Fails?
    requires IoFits(w, pc, io, row) && BodyAt(w, m, pc, past)
    ensures Because(w, m, Next(w, m, pc, io), past + [io])
  {
  }

  lemma DraftBecause(w: Wiring, m: Message, pc: Pc, io: Io, row: Option<Row>, past: seq<Io>)
    requires (pc.Customer? || pc.BuildPayload? || pc.ResolveItems?) && !io.Fails?
    requires IoFits(w, pc, io, row) && BodyAt(w, m, pc, past)
    ensures Because(w, m, Next(w, m, pc, io), past + [io])
  {
  }

  lemma SavedBecause(w: Wiring, m: Message, pc: Pc, io: Io, row: Option<Row>, past: seq<Io>)
    requires pc.Upsert? || pc.RecordSuccess? || pc.ImportLog? || pc.TagOrder? || pc.TagErrorLog?
    requires (!io.Fails? || pc.TagOrder?) && IoFits(w, pc, io, row) && BodyAt(w, m, pc, past)
    ensures Because(w, m, Next(w, m, pc, io), past + [io])
  {
  }

  lemma ParksStill(m: Message, past: seq<Io>, io: Io, k: int, stage: Stage, cls: ErrorClass, caught: bool)
    requires ParksOn(m, past, k, stage, cls, caught)
    ensures HasClaim(m, past) && ParksOn(m, past + [io], k, stage, cls, caught)
    ensures caught ==> FailedHard(m, past + [io], k)
  {
  }

  lemma DoneStill(past: seq<Io>, i: int)
    requires AllDone(past, i)
    ensures AllDone(past + [Done], i)
  {
  }

  // What the last await of a parking leaves when it fails: another throw inside the try, or the
  // throw of the catch block itself.
  lemma ParkingFails(w: Wiring, m: Message, pc: Pc, io: Io, past: seq<Io>)
    requires InParking(pc) && io.Fails? && ParkingAt(m, pc, past)
    ensures Because(w, m, ParkingFailed(pc.caught, io.error), past + [io])
  {
    var k := |past| - (if pc.ParkRow? then 1 else if pc.ParkErrorLog? then 2 else 3);
    ParksStill(m, past, io, k, pc.stage, pc.cls, pc.caught);
    if pc.caught {
      assert (past + [io])[|past|] == io;
      assert Parking(m, past + [io], |past|);
    } else {
      CaughtBecause(w, m, past, io);
    }
  }

  lemma ParkingBecause(w: Wiring, m: Message, pc: Pc, io: Io, row: Option<Row>, past: seq<Io>)
    requires InParking(pc) && IoFits(w, pc, io, row) && ParkingAt(m, pc, past)
    ensures Because(w, m, Next(w, m, pc, io), past + [io])
  {
    if io.Fails? {
      ParkingFails(w, m, pc, io, past);
    } else {
      var i := if pc.ParkRow? then 0 else if pc.ParkErrorLog? then 1 else 2;
      ParksStill(m, past, io, |past| - 1 - i, pc.stage, pc.cls, pc.caught);
      DoneStill(past, |past| - i);
    }
  }

  lemma EndBecause(w: Wiring, m: Message, pc: Pc, io: Io, row: Option<Row>, past: seq<Io>)
    requires AtEnd(pc) && IoFits(w, pc, io, row) && EndAt(w, m, pc, past)
    ensures Because(w, m, Next(w, m, pc, io), past + [io])
  {
    assert (past + [io])[..|past|] == past;
  }

  // Every await leads to a place that the answers, this one included, account for.
  lemma NextBecause(w: Wiring, m: Message, pc: Pc, io: Io, row: Option<Row>, past: seq<Io>)
    requires IoFits(w, pc, io, row) && Because(w, m, pc, past)
    ensures Because(w, m, Next(w, m, pc, io), past + [io])
  {
    if InOpening(pc) {
      OpeningBecause(w, m, pc, io, row, past);
    } else if InParking(pc) {
      ParkingBecause(w, m, pc, io, row, past);
    } else if AtEnd(pc) {
      EndBecause(w, m, pc, io, row, past);
    } else {
      BodyBecause(w, m, pc, io, row, past);
    }
  }

  // Straight after an eligible answer the delivery is at that order's customer.
  lemma OnlyAtCustomer(w: Wiring, m: Message, pc: Pc, past: seq<Io>)
    requires Because(w, m, pc, past) && HasClaim(m, past) && |past| == Opening(m) + 1 && !pc.Finished?
    requires past[Opening(m)].Fetched? && past[Opening(m)].eligible
    ensures pc == Customer(past[Opening(m)].customer)
  {
  }

  // The answers leave no choice: they earn one result at most, so each result comes exactly from
  // the answers said above.
  lemma EarnsOne(w: Wiring, m: Message, past: seq<Io>, r: Returned, q: Returned)
    requires Earns(w, m, past, r) && Earns(w, m, past, q)
    ensures r == q
  {
    if r.Throws? && q.Throws? {
    } else if r.Throws? {
      ThrowsAlone(w, m, past, r.error, q);
    } else if q.Throws? {
      ThrowsAlone(w, m, past, q.error, r);
    } else {
      ReturnsOne(w, m, past, r, q);
    }
  }

  lemma ThrowsAlone(w: Wiring, m: Message, past: seq<Io>, e: Thrown, q: Returned)
    requires HasClaim(m, past) && Throwing(m, past, e) && q.Returns?
    ensures !Earns(w, m, past, q)
  {
  }

  lemma ReturnsOne(w: Wiring, m: Message, past: seq<Io>, r: Returned, q: Returned)
    requires r.Returns? && q.Returns? && Earns(w, m, past, r) && Earns(w, m, past, q)
    ensures r == q
  {
  }

  // ----- a whole stretch of one delivery, alone on its order -----

  ghost predicate Fits(w: Wiring, m: Message, pc: Pc, row: Option<Row>, ios: seq<Io>)
    decreases ios
  {
    ios == [] ||
    (IoFits(w, pc, ios[0], row) && Fits(w, m, Next(w, m, pc, ios[0]), RowAfter(m, pc, ios[0], row), ios[1..]))
  }

  ghost function EndPc(w: Wiring, m: Message, pc: Pc, ios: seq<Io>): Pc
    decreases ios
  {
    if ios == [] then pc else EndPc(w, m, Next(w, m, pc, ios[0]), ios[1..])
  }

  ghost function EndRow(w: Wiring, m: Message, pc: Pc, row: Option<Row>, ios: seq<Io>): Option<Row>
    decreases ios
  {
    if ios == [] then row else EndRow(w, m, Next(w, m, pc, ios[0]), RowAfter(m, pc, ios[0], row), ios[1..])
  }

  predicate HardFailure(io: Io) {
    io.Fails? && !ShouldRetry(Classify(io.error))
  }

  // The await, counted from the sync-log write of an import, at which a log that fails for
  // good makes the delivery park the order it has just imported.
  function ParkedAt(w: Wiring, ios: seq<Io>): Option<nat> {
    if |ios| > 0 && HardFailure(ios[0]) then Some(1)
    else if |ios| > 2 && w.writeTags && ios[0].Done? && ios[1].Fails? && HardFailure(ios[2]) then Some(3)
    else None
  }

  lemma {:induction false} RowFixedAfterPark(w: Wiring, m: Message, pc: Pc, row: Option<Row>, ios: seq<Io>)
    requires Fits(w, m, pc, row, ios)
    requires pc.AuthLog? || pc.WriteAttempt? || pc.Finished? || ((pc.ParkErrorLog? || pc.ParkLog?) && pc.caught)
    ensures EndRow(w, m, pc, row, ios) == row
    decreases ios
  {
    if ios != [] {
      RowFixedAfterPark(w, m, Next(w, m, pc, ios[0]), row, ios[1..]);
    }
  }

  lemma {:induction false} ParkedImport(w: Wiring, m: Message, pc: Pc, row: Row, ios: seq<Io>)
    requires pc.ParkRow? && pc.caught && Fits(w, m, pc, Some(row), ios) && |ios| > 0
    ensures EndRow(w, m, pc, Some(row), ios) == Some(if Applied(ios[0]) then FailedRow(row, None) else row)
  {
    RowFixedAfterPark(w, m, Next(w, m, pc, ios[0]), RowAfter(m, pc, ios[0], Some(row)), ios[1..]);
  }

  lemma {:induction false} TagErrorLogged(w: Wiring, m: Message, id: InternalId, row: Row, ios: seq<Io>)
    requires Fits(w, m, TagErrorLog(id), Some(row), ios) && EndPc(w, m, TagErrorLog(id), ios).Finished?
    ensures |ios| > 1
    ensures EndRow(w, m, TagErrorLog(id), Some(row), ios) ==
            Some(if HardFailure(ios[0]) && Applied(ios[1]) then FailedRow(row, None) else row)
  {
    var pc, rest := Next(w, m, TagErrorLog(id), ios[0]), ios[1..];
    assert EndPc(w, m, pc, rest).Finished?;
    if HardFailure(ios[0]) {
      ParkedImport(w, m, pc, row, rest);
    } else {
      RowFixedAfterPark(w, m, pc, Some(row), rest);
    }
  }

  lemma {:induction false} TagTried(w: Wiring, m: Message, id: InternalId, row: Row, ios: seq<Io>)
    requires Fits(w, m, TagOrder(id), Some(row), ios) && EndPc(w, m, TagOrder(id), ios).Finished?
    ensures |ios| > 1 && (ios[0].Fails? ==> |ios| > 2)
    ensures EndRow(w, m, TagOrder(id), Some(row), ios) ==
            Some(if ios[0].Fails? && HardFailure(ios[1]) && Applied(ios[2]) then FailedRow(row, None) else row)
  {
    var pc, rest := Next(w, m, TagOrder(id), ios[0]), ios[1..];
    assert EndPc(w, m, pc, rest).Finished?;
    if ios[0].Fails? {
      TagErrorLogged(w, m, id, row, rest);
    } else {
      RowFixedAfterPark(w, m, pc, Some(row), rest);
    }
  }

  // An imported order does not always stay `synced` to the end of its delivery. From the sync-log
  // write on, it ends as `error` if and only if a log failed with an error that is not retried
  // (the sync log, or the error store on behalf of a failed tag) and the park that this causes
  // was recorded. Its target id is kept either way.
  lemma {:induction false} ImportStaysSyncedUnlessALogFails(w: Wiring, m: Message, id: InternalId, row: Row,
                                                            ios: seq<Io>)
    requires row.status == Synced && Fits(w, m, ImportLog(id), Some(row), ios)
    requires EndPc(w, m, ImportLog(id), ios).Finished?
    ensures var end := EndRow(w, m, ImportLog(id), Some(row), ios);
            var n := ParkedAt(w, ios);
            && end.Some? && end.value.targetId == row.targetId
            && (end.value.status == Error <==> n.Some? && n.value < |ios| && Applied(ios[n.value]))
            && (end.value.status != Error ==> end.value == row)
  {
    var pc, rest := Next(w, m, ImportLog(id), ios[0]), ios[1..];
    assert EndPc(w, m, pc, rest).Finished?;
    if HardFailure(ios[0]) {
      ParkedImport(w, m, pc, row, rest);
    } else if pc.TagOrder? {
      TagTried(w, m, id, row, rest);
    } else {
      RowFixedAfterPark(w, m, pc, Some(row), rest);
    }
  }

  lemma FitsOne(w: Wiring, m: Message, pc: Pc, row: Option<Row>, io: Io, rest: seq<Io>)
    requires IoFits(w, pc, io, row) && Fits(w, m, Next(w, m, pc, io), RowAfter(m, pc, io, row), rest)
    ensures Fits(w, m, pc, row, [io] + rest)
    ensures EndPc(w, m, pc, [io] + rest) == EndPc(w, m, Next(w, m, pc, io), rest)
    ensures EndRow(w, m, pc, row, [io] + rest) == EndRow(w, m, Next(w, m, pc, io), RowAfter(m, pc, io, row), rest)
  {
    assert ([io] + rest)[1..] == rest;
  }

  // One way there: the sync log refuses the entry for good and nothing else fails. The order is
  // in NetSuite and the row says error.
  lemma ImportedRowFlips(w: Wiring, m: Message, id: InternalId, row: Row) returns (ios: seq<Io>)
    requires w.syncLog
    ensures Fits(w, m, ImportLog(id), Some(row), ios) && EndPc(w, m, ImportLog(id), ios).Finished?
    ensures EndRow(w, m, ImportLog(id), Some(row), ios) == Some(FailedRow(row, None))
  {
    var io, end := Fails(Failure(Data), false), Some(FailedRow(row, None));
    var s, c := AtExternalCall, Data;
    FitsOne(w, m, WriteAttempt(Returns(Parked(s, c))), end, Done, []);
    FitsOne(w, m, ParkLog(s, c, true), end, Done, [Done] + []);
    FitsOne(w, m, ParkErrorLog(s, c, true), end, Done, [Done] + ([Done] + []));
    FitsOne(w, m, ParkRow(s, c, true), Some(row), Done, [Done] + ([Done] + ([Done] + [])));
    FitsOne(w, m, ImportLog(id), Some(row), io, [Done] + ([Done] + ([Done] + ([Done] + []))));
    ios := [io] + ([Done] + ([Done] + ([Done] + ([Done] + []))));
  }
}
