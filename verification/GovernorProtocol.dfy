// Any number of governed requests from any number of processes, step by step, over the stores of
// packages/core/src/governor/governor-store.ts. A request holds its slot from the acquire to the
// release in the middleware's finally block, whether it was answered or threw.
module GovernorProtocol {
  import opened Governor

  // Either all processes share one store, or each has its own and ignores the account.
  datatype Wiring = SharedStore | PerProcessStore

  datatype Budget = OfAccount(account: string) | OfProcess(process: nat)

  // The requests of a process are numbered by its holder-id counter.
  datatype Request = Request(process: nat, num: nat)

  datatype Phase = Waiting | InFlight | Ended | TimedOut

  datatype Entry = Entry(budget: Budget, holder: Holder, phase: Phase)

  datatype Sys = Sys(
    slots: map<Budget, set<Holder>>, requests: map<Request, Entry>, counters: map<nat, nat>, frees: map<Request, nat>)

  datatype Event =
    | Begin(process: nat, account: string, time: nat)
    | TryAcquire(request: Request)
    | GiveUp(request: Request)
    | Finish(request: Request)

  const INIT := Sys(map[], map[], map[], map[])

  function BudgetOf(w: Wiring, process: nat, account: string): Budget {
    if w.SharedStore? then OfAccount(account) else OfProcess(process)
  }

  function SlotsAt(s: Sys, b: Budget): set<Holder> {
    if b in s.slots then s.slots[b] else {}
  }

  function Counter(s: Sys, process: nat): nat {
    if process in s.counters then s.counters[process] else 0
  }

  function FreesOf(s: Sys, r: Request): nat {
    if r in s.frees then s.frees[r] else 0
  }

  ghost predicate Enabled(s: Sys, e: Event) {
    match e
    case Begin(_, _, _) => true
    case TryAcquire(r) => r in s.requests && s.requests[r].phase == Waiting
    case GiveUp(r) => r in s.requests && s.requests[r].phase == Waiting
    case Finish(r) => r in s.requests && s.requests[r].phase == InFlight
  }

  function Apply(w: Wiring, ceiling: nat, s: Sys, e: Event): Sys
    requires Enabled(s, e)
  {
    match e
    case Begin(p, account, time) =>
      var n := Counter(s, p) + 1;
      s.(counters := s.counters[p := n],
         requests := s.requests[Request(p, n) := Entry(BudgetOf(w, p, account), Holder(time, n), Waiting)])
    case TryAcquire(r) =>
      var entry := s.requests[r];
      var b := entry.budget;
      if |SlotsAt(s, b)| >= ceiling then s
      else s.(slots := s.slots[b := SlotsAt(s, b) + {entry.holder}],
              requests := s.requests[r := entry.(phase := InFlight)])
    case GiveUp(r) => s.(requests := s.requests[r := s.requests[r].(phase := TimedOut)])
    case Finish(r) =>
      var entry := s.requests[r];
      var b := entry.budget;
      s.(slots := s.slots[b := SlotsAt(s, b) - {entry.holder}],
         requests := s.requests[r := entry.(phase := Ended)],
         frees := s.frees[r := FreesOf(s, r) + 1])
  }

  ghost predicate Legal(w: Wiring, ceiling: nat, s: Sys, run: seq<Event>)
    decreases run
  {
    run == [] || (Enabled(s, run[0]) && Legal(w, ceiling, Apply(w, ceiling, s, run[0]), run[1..]))
  }

  function Exec(w: Wiring, ceiling: nat, s: Sys, run: seq<Event>): Sys
    requires Legal(w, ceiling, s, run)
    decreases run
  {
    if run == [] then s else Exec(w, ceiling, Apply(w, ceiling, s, run[0]), run[1..])
  }

  // ----- what every step keeps -----

  ghost predicate Live(s: Sys, r: Request) {
    r in s.requests && (s.requests[r].phase == Waiting || s.requests[r].phase == InFlight)
  }

  ghost predicate Flies(s: Sys, r: Request, b: Budget) {
    r in s.requests && s.requests[r].phase == InFlight && s.requests[r].budget == b
  }

  ghost function Flying(s: Sys, b: Budget): set<Request> {
    set r | r in s.requests && Flies(s, r, b)
  }

  ghost predicate Held(s: Sys, b: Budget, h: Holder) {
    exists r :: Flies(s, r, b) && s.requests[r].holder == h
  }

  ghost predicate Clash(s: Sys, q: Request, r: Request) {
    q != r && Live(s, q) && Live(s, r) && s.requests[q].budget == s.requests[r].budget
    && s.requests[q].holder == s.requests[r].holder
  }

  // No two requests under way on one budget have the same holder id.
  ghost predicate HoldersDiffer(s: Sys) {
    forall q, r :: !Clash(s, q, r)
  }

  ghost predicate HoldersIn(s: Sys, b: Budget) {
    forall r :: Flies(s, r, b) ==> s.requests[r].holder in SlotsAt(s, b)
  }

  ghost predicate SlotsHeld(s: Sys, b: Budget) {
    forall h {:trigger Held(s, b, h)} :: h in SlotsAt(s, b) ==> Held(s, b, h)
  }

  ghost predicate SizesAgree(s: Sys, b: Budget) {
    |Flying(s, b)| == |SlotsAt(s, b)|
  }

  // The slots of a budget are exactly the holder ids of its requests in flight, one each.
  ghost predicate SlotsMatch(s: Sys, b: Budget) {
    HoldersIn(s, b) && SlotsHeld(s, b) && SizesAgree(s, b)
  }

  ghost predicate WithinCeiling(s: Sys, b: Budget, ceiling: nat) {
    |SlotsAt(s, b)| <= ceiling
  }

  // Requests are numbered by their process's counter, and so are their holder ids.
  ghost predicate Counted(s: Sys) {
    forall r :: r in s.requests ==> 0 < r.num <= Counter(s, r.process) && s.requests[r].holder.num == r.num
  }

  // A slot that was acquired is freed once, when its request ends; others never.
  ghost predicate FreedOnce(s: Sys) {
    forall r :: FreesOf(s, r) == if r in s.requests && s.requests[r].phase == Ended then 1 else 0
  }

  ghost predicate Inv(ceiling: nat, s: Sys) {
    && Counted(s) && FreedOnce(s) && HoldersDiffer(s)
    && forall b :: SlotsMatch(s, b) && WithinCeiling(s, b, ceiling)
  }

  // A new request's holder id is not that of a request under way on its budget.
  ghost predicate FreshHolder(w: Wiring, s: Sys, e: Event) {
    e.Begin? ==>
      forall r :: Live(s, r) && s.requests[r].budget == BudgetOf(w, e.process, e.account) ==>
                    s.requests[r].holder != Holder(e.time, Counter(s, e.process) + 1)
  }

  lemma BeginKeeps(w: Wiring, ceiling: nat, s: Sys, e: Event)
    requires e.Begin? && Inv(ceiling, s) && FreshHolder(w, s, e)
    ensures Inv(ceiling, Apply(w, ceiling, s, e))
  {
    var t := Apply(w, ceiling, s, e);
    var begun := Request(e.process, Counter(s, e.process) + 1);
    assert begun !in s.requests;
    forall q, r
      ensures !Clash(t, q, r)
    {
      assert !Clash(s, q, r);
    }
    forall b
      ensures SlotsMatch(t, b) && WithinCeiling(t, b, ceiling)
    {
      assert SlotsMatch(s, b) && WithinCeiling(s, b, ceiling);
      assert forall r :: Flies(t, r, b) <==> Flies(s, r, b);
      SameFlying(s, t, b);
    }
  }

  lemma SameFlying(s: Sys, t: Sys, b: Budget)
    requires SlotsMatch(s, b) && SlotsAt(t, b) == SlotsAt(s, b)
    requires forall r :: Flies(t, r, b) <==> Flies(s, r, b)
    requires forall r :: Flies(s, r, b) && Flies(t, r, b) ==> t.requests[r].holder == s.requests[r].holder
    ensures SlotsMatch(t, b)
  {
    assert Flying(t, b) == Flying(s, b);
    forall h | h in SlotsAt(t, b)
      ensures Held(t, b, h)
    {
      assert Held(s, b, h);
      var r :| Flies(s, r, b) && s.requests[r].holder == h;
      assert Flies(t, r, b);
    }
  }

  lemma NotYetHeld(s: Sys, r: Request, b: Budget)
    requires r in s.requests && s.requests[r].phase == Waiting && s.requests[r].budget == b
    requires HoldersDiffer(s) && SlotsMatch(s, b)
    ensures s.requests[r].holder !in SlotsAt(s, b)
  {
    if s.requests[r].holder in SlotsAt(s, b) {
      assert Held(s, b, s.requests[r].holder);
      var q :| Flies(s, q, b) && s.requests[q].holder == s.requests[r].holder;
      assert Clash(s, q, r);
    }
  }

  // `t` is `s` after r has acquired a slot of its own.
  ghost predicate Acquired(s: Sys, t: Sys, r: Request, b: Budget) {
    && r in s.requests && s.requests[r].phase == Waiting && s.requests[r].budget == b
    && t.requests == s.requests[r := s.requests[r].(phase := InFlight)]
    && SlotsAt(t, b) == SlotsAt(s, b) + {s.requests[r].holder}
  }

  lemma FliesToo(s: Sys, t: Sys, r: Request, b: Budget, q: Request)
    requires Acquired(s, t, r, b)
    ensures Flies(t, q, b) <==> Flies(s, q, b) || q == r
    ensures Flies(t, q, b) ==> t.requests[q].holder == s.requests[q].holder
  {
  }

  lemma AcquiredHolders(s: Sys, t: Sys, r: Request, b: Budget)
    requires Acquired(s, t, r, b) && HoldersIn(s, b)
    ensures HoldersIn(t, b)
  {
    forall q | Flies(t, q, b)
      ensures t.requests[q].holder in SlotsAt(t, b)
    {
      FliesToo(s, t, r, b, q);
    }
  }

  lemma AcquiredHeld(s: Sys, t: Sys, r: Request, b: Budget)
    requires Acquired(s, t, r, b) && SlotsHeld(s, b)
    ensures SlotsHeld(t, b)
  {
    forall g | g in SlotsAt(t, b)
      ensures Held(t, b, g)
    {
      HeldToo(s, t, r, b, g);
    }
  }

  lemma HeldToo(s: Sys, t: Sys, r: Request, b: Budget, g: Holder)
    requires Acquired(s, t, r, b) && (g == s.requests[r].holder || Held(s, b, g))
    ensures Held(t, b, g)
  {
    var q := r;
    if g != s.requests[r].holder {
      q :| Flies(s, q, b) && s.requests[q].holder == g;
    }
    FliesToo(s, t, r, b, q);
  }

  lemma AcquiredSizes(s: Sys, t: Sys, r: Request, b: Budget)
    requires Acquired(s, t, r, b) && SizesAgree(s, b) && s.requests[r].holder !in SlotsAt(s, b)
    ensures SizesAgree(t, b)
  {
    assert Flies(t, r, b) && !Flies(s, r, b);
    forall q
      ensures Flies(t, q, b) <==> Flies(s, q, b) || q == r
    {
      FliesToo(s, t, r, b, q);
    }
    assert Flying(t, b) == Flying(s, b) + {r};
    assert |Flying(t, b)| == |Flying(s, b)| + 1;
  }

  lemma AcquiredMatches(s: Sys, t: Sys, r: Request, b: Budget)
    requires Acquired(s, t, r, b) && SlotsMatch(s, b) && s.requests[r].holder !in SlotsAt(s, b)
    ensures SlotsMatch(t, b)
  {
    AcquiredHolders(s, t, r, b);
    AcquiredHeld(s, t, r, b);
    AcquiredSizes(s, t, r, b);
  }

  lemma AcquireMatches(w: Wiring, ceiling: nat, s: Sys, r: Request, b: Budget)
    requires Enabled(s, TryAcquire(r)) && s.requests[r].budget == b
    requires HoldersDiffer(s) && SlotsMatch(s, b) && |SlotsAt(s, b)| < ceiling
    ensures var t := Apply(w, ceiling, s, TryAcquire(r)); SlotsMatch(t, b) && WithinCeiling(t, b, ceiling)
  {
    NotYetHeld(s, r, b);
    AcquiredMatches(s, Apply(w, ceiling, s, TryAcquire(r)), r, b);
  }

  lemma FinishMatches(w: Wiring, ceiling: nat, s: Sys, r: Request, b: Budget)
    requires Enabled(s, Finish(r)) && s.requests[r].budget == b
    requires HoldersDiffer(s) && SlotsMatch(s, b) && WithinCeiling(s, b, ceiling)
    ensures var t := Apply(w, ceiling, s, Finish(r)); SlotsMatch(t, b) && WithinCeiling(t, b, ceiling)
  {
    var t, h := Apply(w, ceiling, s, Finish(r)), s.requests[r].holder;
    assert Flies(s, r, b);
    assert Flying(t, b) == Flying(s, b) - {r};
    SmallerSet(SlotsAt(s, b), h);
    SmallerSet(Flying(s, b), r);
    forall q | Flies(t, q, b)
      ensures t.requests[q].holder in SlotsAt(t, b)
    {
      assert Flies(s, q, b) && !Clash(s, q, r);
    }
    forall g | g in SlotsAt(t, b)
      ensures Held(t, b, g)
    {
      assert Held(s, b, g);
      var q :| Flies(s, q, b) && s.requests[q].holder == g;
      assert Flies(t, q, b);
    }
  }

  lemma OtherBudget(w: Wiring, ceiling: nat, s: Sys, e: Event, r: Request, b: Budget)
    requires (e == TryAcquire(r) || e == Finish(r) || e == GiveUp(r)) && Enabled(s, e)
    requires s.requests[r].budget != b || e.GiveUp?
    requires SlotsMatch(s, b) && WithinCeiling(s, b, ceiling)
    ensures var t := Apply(w, ceiling, s, e); SlotsMatch(t, b) && WithinCeiling(t, b, ceiling)
  {
    var t := Apply(w, ceiling, s, e);
    assert forall q :: Flies(t, q, b) <==> Flies(s, q, b);
    SameFlying(s, t, b);
  }

  // No step but a beginning makes two requests clash.
  lemma ClashedBefore(w: Wiring, ceiling: nat, s: Sys, e: Event, q: Request, r: Request)
    requires Enabled(s, e) && !e.Begin?
    ensures Clash(Apply(w, ceiling, s, e), q, r) ==> Clash(s, q, r)
  {
  }

  lemma StepKeepsCounts(w: Wiring, ceiling: nat, s: Sys, e: Event)
    requires Counted(s) && FreedOnce(s) && Enabled(s, e) && !e.Begin?
    ensures var t := Apply(w, ceiling, s, e); Counted(t) && FreedOnce(t)
  {
  }

  lemma StepKeepsRest(w: Wiring, ceiling: nat, s: Sys, e: Event)
    requires Inv(ceiling, s) && Enabled(s, e) && !e.Begin?
    ensures var t := Apply(w, ceiling, s, e); Counted(t) && FreedOnce(t) && HoldersDiffer(t)
  {
    StepKeepsCounts(w, ceiling, s, e);
    forall q, r
      ensures !Clash(Apply(w, ceiling, s, e), q, r)
    {
      ClashedBefore(w, ceiling, s, e, q, r);
    }
  }

  lemma StepKeepsInv(w: Wiring, ceiling: nat, s: Sys, e: Event)
    requires Inv(ceiling, s) && Enabled(s, e) && FreshHolder(w, s, e)
    ensures Inv(ceiling, Apply(w, ceiling, s, e))
  {
    if e.Begin? {
      BeginKeeps(w, ceiling, s, e);
    } else {
      StepKeepsRest(w, ceiling, s, e);
      var r := e.request;
      forall b
        ensures SlotsMatch(Apply(w, ceiling, s, e), b) && WithinCeiling(Apply(w, ceiling, s, e), b, ceiling)
      {
        assert SlotsMatch(s, b) && WithinCeiling(s, b, ceiling);
        if b != s.requests[r].budget || e.GiveUp? {
          OtherBudget(w, ceiling, s, e, r, b);
        } else if e.Finish? {
          FinishMatches(w, ceiling, s, r, b);
        } else if |SlotsAt(s, b)| < ceiling {
          AcquireMatches(w, ceiling, s, r, b);
        }
      }
    }
  }

  // ----- whole runs -----

  // Every new request of a run has a holder id that is fresh among those under way.
  ghost predicate FreshRun(w: Wiring, ceiling: nat, s: Sys, run: seq<Event>)
    requires Legal(w, ceiling, s, run)
    decreases run
  {
    run == [] ||
    (FreshHolder(w, s, run[0]) && FreshRun(w, ceiling, Apply(w, ceiling, s, run[0]), run[1..]))
  }

  lemma {:induction false} RunKeepsInv(w: Wiring, ceiling: nat, s: Sys, run: seq<Event>)
    requires Inv(ceiling, s) && Legal(w, ceiling, s, run) && FreshRun(w, ceiling, s, run)
    ensures Inv(ceiling, Exec(w, ceiling, s, run))
    decreases run
  {
    if run != [] {
      StepKeepsInv(w, ceiling, s, run[0]);
      RunKeepsInv(w, ceiling, Apply(w, ceiling, s, run[0]), run[1..]);
    }
  }

  lemma InitInv(ceiling: nat)
    ensures Inv(ceiling, INIT)
  {
    forall b
      ensures SlotsMatch(INIT, b)
    {
      assert Flying(INIT, b) == {};
    }
  }

  // At any moment, however many requests begin, wait, give up, are answered or throw: the
  // requests in flight on a budget are as many as its slots and at most the ceiling, and each
  // acquired slot is freed exactly once, when its request ends.
  lemma CeilingHolds(w: Wiring, ceiling: nat, run: seq<Event>, b: Budget, r: Request)
    requires Legal(w, ceiling, INIT, run) && FreshRun(w, ceiling, INIT, run)
    ensures var s := Exec(w, ceiling, INIT, run);
            && |Flying(s, b)| == |SlotsAt(s, b)| <= ceiling
            && FreesOf(s, r) == if r in s.requests && s.requests[r].phase == Ended then 1 else 0
  {
    InitInv(ceiling);
    RunKeepsInv(w, ceiling, INIT, run);
    var s := Exec(w, ceiling, INIT, run);
    assert SlotsMatch(s, b) && WithinCeiling(s, b, ceiling);
  }

  // Holder ids are fresh when each store serves one process: the counter never repeats.
  ghost predicate OneProcess(s: Sys, process: nat) {
    forall r :: r in s.requests ==> r.process == process
  }

  ghost predicate OwnBudgets(s: Sys) {
    forall r :: r in s.requests ==> s.requests[r].budget == OfProcess(r.process)
  }

  lemma FreshForOneProcess(w: Wiring, s: Sys, e: Event)
    requires Counted(s)
    requires e.Begin? ==> if w.SharedStore? then OneProcess(s, e.process) else OwnBudgets(s)
    ensures FreshHolder(w, s, e)
  {
  }

  ghost predicate Begins(run: seq<Event>, process: nat) {
    forall k :: 0 <= k < |run| && run[k].Begin? ==> run[k].process == process
  }

  lemma {:induction false} FreshRuns(w: Wiring, ceiling: nat, s: Sys, run: seq<Event>, process: nat)
    requires Inv(ceiling, s) && Legal(w, ceiling, s, run)
    requires if w.SharedStore? then OneProcess(s, process) && Begins(run, process) else OwnBudgets(s)
    ensures FreshRun(w, ceiling, s, run)
    decreases run
  {
    if run != [] {
      FreshForOneProcess(w, s, run[0]);
      StepKeepsInv(w, ceiling, s, run[0]);
      FreshRuns(w, ceiling, Apply(w, ceiling, s, run[0]), run[1..], process);
    }
  }

  // The ceiling on a store that serves one process, with nothing assumed of the holder ids.
  lemma CeilingHoldsForOneProcess(w: Wiring, ceiling: nat, run: seq<Event>, process: nat, b: Budget, r: Request)
    requires Legal(w, ceiling, INIT, run) && (w.SharedStore? ==> Begins(run, process))
    ensures var s := Exec(w, ceiling, INIT, run);
            && |Flying(s, b)| == |SlotsAt(s, b)| <= ceiling
            && FreesOf(s, r) == if r in s.requests && s.requests[r].phase == Ended then 1 else 0
  {
    InitInv(ceiling);
    FreshRuns(w, ceiling, INIT, run, process);
    CeilingHolds(w, ceiling, run, b, r);
  }

  // Without fresh holder ids, a request that acquires breaks the match if and only if a request in flight
  // on its budget has the same holder id: both then fly on one slot.
  lemma AcquireMatchesIff(w: Wiring, ceiling: nat, s: Sys, r: Request, b: Budget)
    requires Enabled(s, TryAcquire(r)) && s.requests[r].budget == b
    requires SlotsMatch(s, b) && |SlotsAt(s, b)| < ceiling
    ensures SlotsMatch(Apply(w, ceiling, s, TryAcquire(r)), b) <==> !Held(s, b, s.requests[r].holder)
  {
    var t, h := Apply(w, ceiling, s, TryAcquire(r)), s.requests[r].holder;
    assert Flying(t, b) == Flying(s, b) + {r};
    if Held(s, b, h) {
      assert SlotsAt(t, b) == SlotsAt(s, b);
    } else {
      AcquiredMatches(s, t, r, b);
    }
  }

  lemma OneStep(w: Wiring, ceiling: nat, s: Sys, e: Event)
    requires Enabled(s, e)
    ensures Legal(w, ceiling, s, [e]) && Exec(w, ceiling, s, [e]) == Apply(w, ceiling, s, e)
  {
    assert [e][1..] == [];
  }

  lemma {:induction false} RunsJoin(w: Wiring, ceiling: nat, s: Sys, xs: seq<Event>, ys: seq<Event>)
    requires Legal(w, ceiling, s, xs) && Legal(w, ceiling, Exec(w, ceiling, s, xs), ys)
    ensures Legal(w, ceiling, s, xs + ys)
    ensures Exec(w, ceiling, s, xs + ys) == Exec(w, ceiling, Exec(w, ceiling, s, xs), ys)
    decreases xs
  {
    if xs == [] {
      assert xs + ys == ys;
    } else {
      assert (xs + ys)[0] == xs[0] && (xs + ys)[1..] == xs[1..] + ys;
      RunsJoin(w, ceiling, Apply(w, ceiling, s, xs[0]), xs[1..], ys);
    }
  }

  // A request that begins and tries at once.
  function Started(w: Wiring, ceiling: nat, s: Sys, process: nat, account: string, time: nat): Sys {
    Apply(w, ceiling, Apply(w, ceiling, s, Begin(process, account, time)),
          TryAcquire(Request(process, Counter(s, process) + 1)))
  }

  lemma BeginAndTry(w: Wiring, ceiling: nat, s: Sys, process: nat, account: string, time: nat)
    returns (run: seq<Event>)
    ensures Legal(w, ceiling, s, run) && Exec(w, ceiling, s, run) == Started(w, ceiling, s, process, account, time)
  {
    var e, f := Begin(process, account, time), TryAcquire(Request(process, Counter(s, process) + 1));
    OneStep(w, ceiling, s, e);
    OneStep(w, ceiling, Apply(w, ceiling, s, e), f);
    RunsJoin(w, ceiling, s, [e], [f]);
    run := [e] + [f];
  }

  lemma StartedIs(w: Wiring, ceiling: nat, s: Sys, process: nat, account: string, time: nat)
    requires |SlotsAt(s, BudgetOf(w, process, account))| < ceiling
    ensures var t := Started(w, ceiling, s, process, account, time);
            var b, n := BudgetOf(w, process, account), Counter(s, process) + 1;
            && SlotsAt(t, b) == SlotsAt(s, b) + {Holder(time, n)}
            && (forall c :: c != b ==> SlotsAt(t, c) == SlotsAt(s, c))
            && t.requests == s.requests[Request(process, n) := Entry(b, Holder(time, n), InFlight)]
            && t.counters == s.counters[process := n]
  {
  }

  // With one store for all, each account has a ceiling of its own: at any moment of any run, a
  // new request for it gets a slot if and only if fewer of its requests than the ceiling are in
  // flight, and the other accounts see nothing of it.
  lemma SlotGivenIff(ceiling: nat, run: seq<Event>, process: nat, account: string, time: nat, other: string)
    requires Legal(SharedStore, ceiling, INIT, run) && FreshRun(SharedStore, ceiling, INIT, run)
    requires account != other
    ensures var s := Exec(SharedStore, ceiling, INIT, run);
            var t := Started(SharedStore, ceiling, s, process, account, time);
            var r := Request(process, Counter(s, process) + 1);
            && r !in s.requests && r in t.requests && t.requests[r].budget == OfAccount(account)
            && (t.requests[r].phase == InFlight <==> |Flying(s, OfAccount(account))| < ceiling)
            && Flying(t, OfAccount(other)) == Flying(s, OfAccount(other))
            && SlotsAt(t, OfAccount(other)) == SlotsAt(s, OfAccount(other))
  {
    InitInv(ceiling);
    RunKeepsInv(SharedStore, ceiling, INIT, run);
    var s := Exec(SharedStore, ceiling, INIT, run);
    assert SlotsMatch(s, OfAccount(account));
    StartGiven(ceiling, s, process, account, time);
    OthersSeeNothing(ceiling, s, process, account, time, other);
  }

  lemma StartGiven(ceiling: nat, s: Sys, process: nat, account: string, time: nat)
    requires Counted(s) && SizesAgree(s, OfAccount(account))
    ensures var t := Started(SharedStore, ceiling, s, process, account, time);
            var r := Request(process, Counter(s, process) + 1);
            && r !in s.requests && r in t.requests && t.requests[r].budget == OfAccount(account)
            && (t.requests[r].phase == InFlight <==> |Flying(s, OfAccount(account))| < ceiling)
  {
  }

  lemma OthersSeeNothing(ceiling: nat, s: Sys, process: nat, account: string, time: nat, other: string)
    requires Counted(s) && account != other
    ensures var t := Started(SharedStore, ceiling, s, process, account, time);
            && Flying(t, OfAccount(other)) == Flying(s, OfAccount(other))
            && SlotsAt(t, OfAccount(other)) == SlotsAt(s, OfAccount(other))
  {
    var t := Started(SharedStore, ceiling, s, process, account, time);
    forall q
      ensures Flies(t, q, OfAccount(other)) <==> Flies(s, q, OfAccount(other))
    {
      assert q == Request(process, Counter(s, process) + 1) ==> q !in s.requests;
    }
  }

  // n processes that start a request each, in the same millisecond, on one account of a store
  // they share: all n requests are in flight, on one slot. So without fresh holder ids nothing
  // bounds the requests in flight.
  lemma {:induction false} SameHolderOverruns(ceiling: nat, account: string, time: nat, n: nat)
    returns (run: seq<Event>)
    requires ceiling >= 2
    ensures Legal(SharedStore, ceiling, INIT, run)
    ensures AllOnOneSlot(Exec(SharedStore, ceiling, INIT, run), OfAccount(account), Holder(time, 1), n)
  {
    if n == 0 {
      run := [];
      NoneOnOneSlot(OfAccount(account), Holder(time, 1));
    } else {
      var shorter := SameHolderOverruns(ceiling, account, time, n - 1);
      run := OneMoreOnSlot(ceiling, account, time, n - 1, shorter);
    }
  }

  // n requests in flight, on one slot at most.
  ghost predicate AllOnOneSlot(s: Sys, b: Budget, h: Holder, n: nat) {
    |Flying(s, b)| == n && |SlotsAt(s, b)| <= 1 && OneSlot(s, b, h, n)
  }

  lemma NoneOnOneSlot(b: Budget, h: Holder)
    ensures AllOnOneSlot(INIT, b, h, 0)
  {
    assert Flying(INIT, b) == {};
  }

  lemma OneMoreOnSlot(ceiling: nat, account: string, time: nat, n: nat, xs: seq<Event>) returns (run: seq<Event>)
    requires ceiling >= 2 && Legal(SharedStore, ceiling, INIT, xs)
    requires AllOnOneSlot(Exec(SharedStore, ceiling, INIT, xs), OfAccount(account), Holder(time, 1), n)
    ensures Legal(SharedStore, ceiling, INIT, run)
    ensures AllOnOneSlot(Exec(SharedStore, ceiling, INIT, run), OfAccount(account), Holder(time, 1), n + 1)
  {
    var s := Exec(SharedStore, ceiling, INIT, xs);
    StartOnOneSlot(ceiling, s, n, account, time);
    var ys := BeginAndTry(SharedStore, ceiling, s, n, account, time);
    RunsJoin(SharedStore, ceiling, INIT, xs, ys);
    run := xs + ys;
  }

  lemma StartOnOneSlot(ceiling: nat, s: Sys, p: nat, account: string, time: nat)
    requires ceiling >= 2 && OneSlot(s, OfAccount(account), Holder(time, 1), p)
    ensures var t, b, h := Started(SharedStore, ceiling, s, p, account, time), OfAccount(account), Holder(time, 1);
            |Flying(t, b)| == |Flying(s, b)| + 1 && |SlotsAt(t, b)| == 1 && OneSlot(t, b, h, p + 1)
  {
    var b, h := OfAccount(account), Holder(time, 1);
    assert |SlotsAt(s, b)| <= |{h}| by {
      if h in SlotsAt(s, b) {
        assert SlotsAt(s, b) == {h};
      } else {
        assert SlotsAt(s, b) == {};
      }
    }
    StartedIs(SharedStore, ceiling, s, p, account, time);
    OneMoreFlies(s, Started(SharedStore, ceiling, s, p, account, time), p, b, h);
  }

  // The requests are the first ones of the first n processes, all in flight on the one slot.
  ghost predicate OneSlot(s: Sys, b: Budget, h: Holder, n: nat) {
    && (forall r :: r in s.requests ==> r.process < n)
    && (forall p :: p in s.counters ==> p < n)
    && SlotsAt(s, b) <= {h}
  }

  lemma OneMoreFlies(s: Sys, t: Sys, p: nat, b: Budget, h: Holder)
    requires OneSlot(s, b, h, p) && SlotsAt(t, b) == SlotsAt(s, b) + {h}
    requires t.requests == s.requests[Request(p, 1) := Entry(b, h, InFlight)]
    requires t.counters == s.counters[p := 1]
    ensures |Flying(t, b)| == |Flying(s, b)| + 1 && |SlotsAt(t, b)| == 1 && OneSlot(t, b, h, p + 1)
  {
    FlyingGrows(s, t, Request(p, 1), b, h);
    assert SlotsAt(t, b) == {h};
  }

  lemma FlyingGrows(s: Sys, t: Sys, r: Request, b: Budget, h: Holder)
    requires r !in s.requests && t.requests == s.requests[r := Entry(b, h, InFlight)]
    ensures |Flying(t, b)| == |Flying(s, b)| + 1
  {
    assert Flies(t, r, b);
    assert forall q :: q != r ==> (Flies(t, q, b) <==> Flies(s, q, b));
    assert Flying(t, b) == Flying(s, b) + {r};
  }

  // ----- one store per process -----

  // Requests of one account in flight from the first n processes.
  ghost function FlyingFrom(s: Sys, n: nat): set<Request> {
    set r | r in s.requests && s.requests[r].phase == InFlight && r.process < n
  }

  ghost predicate OwnInv(ceiling: nat, s: Sys) {
    Inv(ceiling, s) && OwnBudgets(s)
  }

  lemma SplitFlying(s: Sys, n: nat)
    requires OwnBudgets(s)
    ensures |FlyingFrom(s, n + 1)| == |FlyingFrom(s, n)| + |Flying(s, OfProcess(n))|
  {
    var here := Flying(s, OfProcess(n));
    assert forall r :: r in FlyingFrom(s, n) ==> r !in here;
    assert FlyingFrom(s, n + 1) == FlyingFrom(s, n) + here;
  }

  lemma OwnCount(ceiling: nat, s: Sys, process: nat)
    requires Inv(ceiling, s)
    ensures |Flying(s, OfProcess(process))| == |SlotsAt(s, OfProcess(process))| <= ceiling
  {
    assert SlotsMatch(s, OfProcess(process)) && WithinCeiling(s, OfProcess(process), ceiling);
  }

  // With a store for each of n processes, at most n times the ceiling are in flight.
  lemma {:induction false} AtMostEach(ceiling: nat, s: Sys, n: nat)
    requires OwnInv(ceiling, s)
    ensures |FlyingFrom(s, n)| <= n * ceiling
  {
    if n == 0 {
      assert FlyingFrom(s, 0) == {};
    } else {
      AtMostEach(ceiling, s, n - 1);
      SplitFlying(s, n - 1);
      OwnCount(ceiling, s, n - 1);
      assert n * ceiling == (n - 1) * ceiling + ceiling;
    }
  }

  ghost predicate Full(s: Sys, process: nat, ceiling: nat) {
    |SlotsAt(s, OfProcess(process))| == ceiling
  }

  lemma {:induction false} AllFull(ceiling: nat, s: Sys, n: nat)
    requires OwnInv(ceiling, s) && forall p :: 0 <= p < n ==> Full(s, p, ceiling)
    ensures |FlyingFrom(s, n)| == n * ceiling
  {
    if n == 0 {
      assert FlyingFrom(s, 0) == {};
    } else {
      AllFull(ceiling, s, n - 1);
      SplitFlying(s, n - 1);
      OwnCount(ceiling, s, n - 1);
      assert Full(s, n - 1, ceiling);
      assert n * ceiling == (n - 1) * ceiling + ceiling;
    }
  }

  lemma OwnHolders(ceiling: nat, s: Sys, process: nat, h: Holder)
    requires OwnInv(ceiling, s) && h in SlotsAt(s, OfProcess(process))
    ensures h.num <= Counter(s, process)
  {
    assert SlotsMatch(s, OfProcess(process)) && Held(s, OfProcess(process), h);
  }

  lemma OneMore(ceiling: nat, s: Sys, process: nat, account: string) returns (run: seq<Event>, t: Sys)
    requires OwnInv(ceiling, s) && |SlotsAt(s, OfProcess(process))| < ceiling
    ensures Legal(PerProcessStore, ceiling, s, run) && t == Exec(PerProcessStore, ceiling, s, run)
    ensures OwnInv(ceiling, t)
    ensures |SlotsAt(t, OfProcess(process))| == |SlotsAt(s, OfProcess(process))| + 1
    ensures forall b :: b != OfProcess(process) ==> SlotsAt(t, b) == SlotsAt(s, b)
  {
    run := BeginAndTry(PerProcessStore, ceiling, s, process, account, 0);
    t := Started(PerProcessStore, ceiling, s, process, account, 0);
    StartedIs(PerProcessStore, ceiling, s, process, account, 0);
    FreshRuns(PerProcessStore, ceiling, s, run, process);
    RunKeepsInv(PerProcessStore, ceiling, s, run);
    var b, n := OfProcess(process), Counter(s, process) + 1;
    forall h | h in SlotsAt(s, b)
      ensures h.num < n
    {
      OwnHolders(ceiling, s, process, h);
    }
  }

  // And as many are reached: each process fills its own store.
  lemma {:induction false} FillProcess(ceiling: nat, s: Sys, process: nat, account: string, k: nat)
    returns (run: seq<Event>, t: Sys)
    requires OwnInv(ceiling, s) && k + |SlotsAt(s, OfProcess(process))| == ceiling
    ensures Legal(PerProcessStore, ceiling, s, run) && t == Exec(PerProcessStore, ceiling, s, run)
    ensures OwnInv(ceiling, t) && Full(t, process, ceiling)
    ensures forall b :: b != OfProcess(process) ==> SlotsAt(t, b) == SlotsAt(s, b)
    decreases k
  {
    if k == 0 {
      return [], s;
    }
    var xs, mid := OneMore(ceiling, s, process, account);
    var ys, last := FillProcess(ceiling, mid, process, account, k - 1);
    RunsJoin(PerProcessStore, ceiling, s, xs, ys);
    run, t := xs + ys, last;
  }

  lemma {:induction false} FillEach(ceiling: nat, account: string, n: nat) returns (run: seq<Event>, t: Sys)
    ensures Legal(PerProcessStore, ceiling, INIT, run) && t == Exec(PerProcessStore, ceiling, INIT, run)
    ensures OwnInv(ceiling, t)
    ensures forall p :: 0 <= p < n ==> Full(t, p, ceiling)
    ensures forall p: nat :: p >= n ==> SlotsAt(t, OfProcess(p)) == {}
  {
    if n == 0 {
      InitInv(ceiling);
      return [], INIT;
    }
    var xs, mid := FillEach(ceiling, account, n - 1);
    var ys, last := FillProcess(ceiling, mid, n - 1, account, ceiling);
    RunsJoin(PerProcessStore, ceiling, INIT, xs, ys);
    run, t := xs + ys, last;
    forall p | 0 <= p < n
      ensures Full(t, p, ceiling)
    {
      if p < n - 1 {
        assert Full(mid, p, ceiling);
      }
    }
  }

  // A store for each process allows n times the ceiling on one account, no more, and a run
  // gets there.
  lemma PerProcessBoundIsReached(ceiling: nat, account: string, n: nat) returns (run: seq<Event>)
    ensures Legal(PerProcessStore, ceiling, INIT, run)
    ensures |FlyingFrom(Exec(PerProcessStore, ceiling, INIT, run), n)| == n * ceiling
  {
    var t;
    run, t := FillEach(ceiling, account, n);
    AllFull(ceiling, t, n);
  }

  lemma {:induction false} OwnBudgetsKept(ceiling: nat, s: Sys, run: seq<Event>)
    requires OwnInv(ceiling, s) && Legal(PerProcessStore, ceiling, s, run)
    ensures OwnInv(ceiling, Exec(PerProcessStore, ceiling, s, run))
    decreases run
  {
    if run != [] {
      FreshForOneProcess(PerProcessStore, s, run[0]);
      StepKeepsInv(PerProcessStore, ceiling, s, run[0]);
      OwnBudgetsKept(ceiling, Apply(PerProcessStore, ceiling, s, run[0]), run[1..]);
    }
  }

  lemma PerProcessBoundHolds(ceiling: nat, run: seq<Event>, n: nat)
    requires Legal(PerProcessStore, ceiling, INIT, run)
    ensures |FlyingFrom(Exec(PerProcessStore, ceiling, INIT, run), n)| <= n * ceiling
  {
    InitInv(ceiling);
    OwnBudgetsKept(ceiling, INIT, run);
    AtMostEach(ceiling, Exec(PerProcessStore, ceiling, INIT, run), n);
  }
}
