// apps/functions/src/adapters/postgres-xref-store.ts: a claim is two SQL statements, an
// INSERT that a conflict makes do nothing and, after a conflict, a SELECT. Other sessions
// run their own statements between the two.
module PostgresXrefStore {
  import opened Common
  import opened DedupKey
  import opened XrefStore

  // The class keeps one session's view: each method body is one statement, except Claim.
  class PostgresStore {
    var table: Table

    constructor ()
      ensures table == map[]
    {
      table := map[];
    }

    // INSERT ... ON CONFLICT DO NOTHING RETURNING *
    method Insert(i: ClaimInput) returns (inserted: Option<Row>)
      modifies this
      ensures inserted == if i.parts in old(table) then None else Some(PendingRow(i))
      ensures table == AfterClaim(old(table), i)
    {
      if i.parts in table {
        return None;
      }
      table := table[i.parts := PendingRow(i)];
      return Some(PendingRow(i));
    }

    method Fetch(p: Parts) returns (row: Option<Row>)
      ensures row == Find(table, p)
    {
      return if p in table then Some(table[p]) else None;
    }

    // Whatever the other sessions commit while this one awaits.
    method OtherSessions()
      modifies this
    {
      table := *;
    }

    // The answer is the atomic claim's answer on the table as it was at the INSERT when the
    // row was inserted, and on the table as it was at the SELECT otherwise; in that second
    // case the claim itself has changed nothing.
    method Claim(i: ClaimInput) returns (r: Result<ClaimResult, string>, ghost atSelect: Table)
      modifies this
      ensures i.parts !in old(table) ==>
                && r == Ok(ClaimAnswer(old(table), i))
                && table == AfterClaim(old(table), i)
                && Claims(old(table), i, r.value, table)
      ensures i.parts in old(table) ==>
                && table == atSelect
                && r == (if i.parts in atSelect then Ok(ClaimAnswer(atSelect, i)) else Err("row missing"))
                && (r.Ok? ==> Claims(atSelect, i, r.value, table))
    {
      atSelect := table;
      var inserted := Insert(i);
      if inserted.Some? {
        return Ok(ClaimResult(Claimed, inserted.value)), atSelect;
      }
      OtherSessions();
      atSelect := table;
      var existing := Fetch(i.parts);
      match existing {
        case None => return Err("row missing"), atSelect;
        case Some(row) =>
          match row.status {
            case Synced => return Ok(ClaimResult(AlreadySynced, row)), atSelect;
            case Ignored => return Ok(ClaimResult(RowIgnored, row)), atSelect;
            case Pending | Error => return Ok(ClaimResult(AlreadyClaimed, row)), atSelect;
          }
      }
    }
  }

  // ----- every interleaving of the statements of any number of sessions -----

  // One committed SQL statement. A claim call is named by `call`.
  datatype Stmt =
    | InsertClaim(call: nat, input: ClaimInput)
    | SelectClaim(call: nat)
    | UpdateSuccess(parts: Parts, targetId: InternalId, externalId: string)
    | UpdateFailure(parts: Parts, sourceHash: Option<string>)
    | UpsertIgnored(parts: Parts)
    | DeleteRow(parts: Parts)

  type Answer = Result<ClaimResult, string>

  // `waiting`: calls between their two statements; `answers`: calls that have returned or thrown.
  datatype Db = Db(table: Table, waiting: map<nat, ClaimInput>, answers: map<nat, Answer>)

  ghost predicate Enabled(d: Db, s: Stmt) {
    match s
    case InsertClaim(c, _) => c !in d.waiting && c !in d.answers
    case SelectClaim(c) => c in d.waiting
    case _ => true
  }

  ghost function Exec(d: Db, s: Stmt): Db
    requires Enabled(d, s)
  {
    match s
    case InsertClaim(c, i) =>
      if i.parts in d.table
      then d.(waiting := d.waiting[c := i])
      else d.(table := d.table[i.parts := PendingRow(i)],
              answers := d.answers[c := Ok(ClaimResult(Claimed, PendingRow(i)))])
    case SelectClaim(c) =>
      var i := d.waiting[c];
      var answer: Answer :=
        if i.parts in d.table
        then Ok(ClaimResult(OutcomeOf(d.table[i.parts].status), d.table[i.parts]))
        else Err("row missing");
      d.(waiting := d.waiting - {c}, answers := d.answers[c := answer])
    case UpdateSuccess(p, id, x) => d.(table := AfterSuccess(d.table, p, id, x))
    case UpdateFailure(p, h) => d.(table := AfterFailure(d.table, p, h))
    case UpsertIgnored(p) => d.(table := AfterIgnore(d.table, p))
    case DeleteRow(p) => d.(table := AfterDelete(d.table, p))
  }

  // No call is at once between its statements and answered.
  ghost predicate Consistent(d: Db) {
    d.waiting.Keys !! d.answers.Keys
  }

  ghost predicate Legal(d: Db, run: seq<Stmt>)
    decreases run
  {
    run == [] || (Enabled(d, run[0]) && Legal(Exec(d, run[0]), run[1..]))
  }

  ghost function Run(d: Db, run: seq<Stmt>): Db
    requires Legal(d, run)
    decreases run
  {
    if run == [] then d else Run(Exec(d, run[0]), run[1..])
  }

  // ----- the atomic store the claim is compared with -----

  datatype AtomicOp =
    | AtomicClaim(call: nat, input: ClaimInput)
    | Other(stmt: Stmt)

  datatype Spec = Spec(table: Table, answers: map<nat, ClaimResult>)

  ghost function SpecTable(t: Table, s: Stmt): Table {
    match s
    case UpdateSuccess(p, id, x) => AfterSuccess(t, p, id, x)
    case UpdateFailure(p, h) => AfterFailure(t, p, h)
    case UpsertIgnored(p) => AfterIgnore(t, p)
    case DeleteRow(p) => AfterDelete(t, p)
    case _ => t
  }

  ghost function SpecStep(s: Spec, op: AtomicOp): Spec {
    match op
    case AtomicClaim(c, i) => Spec(AfterClaim(s.table, i), s.answers[c := ClaimAnswer(s.table, i)])
    case Other(stmt) => s.(table := SpecTable(s.table, stmt))
  }

  ghost function SpecRun(s: Spec, ops: seq<AtomicOp>): Spec
    decreases ops
  {
    if ops == [] then s else SpecRun(SpecStep(s, ops[0]), ops[1..])
  }

  // The atomic operation a statement stands for. An INSERT that inserts and a SELECT that
  // finds the row are the call's single atomic claim; the other INSERTs and SELECTs are none.
  ghost function Point(d: Db, s: Stmt): seq<AtomicOp>
    requires Enabled(d, s)
  {
    match s
    case InsertClaim(c, i) => if i.parts in d.table then [] else [AtomicClaim(c, i)]
    case SelectClaim(c) => if d.waiting[c].parts in d.table then [AtomicClaim(c, d.waiting[c])] else []
    case _ => [Other(s)]
  }

  ghost function Linearisation(d: Db, run: seq<Stmt>): seq<AtomicOp>
    requires Legal(d, run)
    decreases run
  {
    if run == [] then [] else Point(d, run[0]) + Linearisation(Exec(d, run[0]), run[1..])
  }

  ghost function Abstract(d: Db): Spec {
    Spec(d.table, map c | c in d.answers && d.answers[c].Ok? :: d.answers[c].value)
  }

  lemma PointIsAtomic(d: Db, s: Stmt)
    requires Consistent(d) && Enabled(d, s) && Point(d, s) != []
    ensures SpecStep(Abstract(d), Point(d, s)[0]) == Abstract(Exec(d, s))
  {
    assert SpecStep(Abstract(d), Point(d, s)[0]).answers == Abstract(Exec(d, s)).answers;
  }

  // The points of a call lie on the call's own statements, so the order of the points is an
  // order of the calls that respects real time. Run atomically in that order, the store ends
  // with the same table and gives every call that did not throw the same answer; the calls
  // that threw are not in the order at all, so they changed nothing.
  lemma {:induction false} ClaimIsLinearisable(d: Db, run: seq<Stmt>)
    requires Consistent(d) && Legal(d, run)
    ensures SpecRun(Abstract(d), Linearisation(d, run)) == Abstract(Run(d, run))
    decreases run
  {
    if run != [] {
      var d' := Exec(d, run[0]);
      ClaimIsLinearisable(d', run[1..]);
      var ops, rest := Point(d, run[0]), Linearisation(d', run[1..]);
      if ops == [] {
        assert Abstract(d').answers == Abstract(d).answers;
        assert ops + rest == rest;
      } else {
        PointIsAtomic(d, run[0]);
        assert (ops + rest)[1..] == rest;
      }
    }
  }

  // A call takes effect at most once: it never has two points in the order.
  lemma {:induction false} OnePointPerCall(d: Db, run: seq<Stmt>, i: nat, j: nat)
    requires Legal(d, run)
    requires i < j < |Linearisation(d, run)|
    requires Linearisation(d, run)[i].AtomicClaim? && Linearisation(d, run)[j].AtomicClaim?
    ensures Linearisation(d, run)[i].call != Linearisation(d, run)[j].call
    decreases run
  {
    var d' := Exec(d, run[0]);
    var ops, rest := Point(d, run[0]), Linearisation(d', run[1..]);
    if i >= |ops| {
      OnePointPerCall(d', run[1..], i - |ops|, j - |ops|);
    } else {
      assert i == 0 && |ops| == 1;
      assert ops[0].call in d'.answers;
      AnsweredCallsHaveNoPoint(d', run[1..], ops[0].call, j - 1);
    }
  }

  lemma {:induction false} AnsweredCallsHaveNoPoint(d: Db, run: seq<Stmt>, c: nat, j: nat)
    requires Legal(d, run) && c in d.answers && c !in d.waiting
    requires j < |Linearisation(d, run)| && Linearisation(d, run)[j].AtomicClaim?
    ensures Linearisation(d, run)[j].call != c
    decreases run
  {
    var ops := Point(d, run[0]);
    if j >= |ops| {
      AnsweredCallsHaveNoPoint(Exec(d, run[0]), run[1..], c, j - |ops|);
    }
  }

  // The moment a returned call took effect: a statement of that call inside the run at which
  // the call's answer is the atomic claim's, and the statement's effect is the atomic claim's.
  lemma {:induction false} AnswerHasItsMoment(d: Db, run: seq<Stmt>, c: nat) returns (n: nat, i: ClaimInput)
    requires Legal(d, run)
    requires c !in d.answers && c in Run(d, run).answers && Run(d, run).answers[c].Ok?
    ensures n < |run| && Legal(d, run[..n]) && Enabled(Run(d, run[..n]), run[n])
    ensures run[n] == InsertClaim(c, i) || (run[n] == SelectClaim(c) && Run(d, run[..n]).waiting[c] == i)
    ensures Run(d, run).answers[c] == Ok(ClaimAnswer(Run(d, run[..n]).table, i))
    ensures Exec(Run(d, run[..n]), run[n]).table == AfterClaim(Run(d, run[..n]).table, i)
    ensures Claims(Run(d, run[..n]).table, i, Run(d, run).answers[c].value, Exec(Run(d, run[..n]), run[n]).table)
    decreases run
  {
    var d' := Exec(d, run[0]);
    if c in d'.answers {
      n := 0;
      AnswersAreFinal(d', run[1..], c);
      i := if run[0].InsertClaim? then run[0].input else d.waiting[c];
      assert run[..0] == [];
      ClaimSays(d.table, i);
    } else {
      var m;
      m, i := AnswerHasItsMoment(d', run[1..], c);
      n := m + 1;
      assert run[..n][1..] == run[1..][..m];
    }
  }

  lemma {:induction false} AnswersAreFinal(d: Db, run: seq<Stmt>, c: nat)
    requires Legal(d, run) && c in d.answers && c !in d.waiting
    ensures c in Run(d, run).answers && Run(d, run).answers[c] == d.answers[c]
    decreases run
  {
    if run != [] {
      AnswersAreFinal(Exec(d, run[0]), run[1..], c);
    }
  }
}
