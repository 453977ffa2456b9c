// packages/core/src/governor/governor-store.ts, packages/core/src/governor/acquire.ts and
// packages/netsuite-client/src/governor-middleware.ts: one client of the concurrency budget of a
// NetSuite account. GovernorProtocol has many at once.
module Governor {
  import opened Common

  // `${prefix}_${time}_${seq}`; the prefix is the same for every request.
  datatype Holder = Holder(time: nat, num: nat)

  lemma SmallerSet<T>(b: set<T>, x: T)
    ensures |b - {x}| == |b| - if x in b then 1 else 0
  {
    if x in b {
      assert b == (b - {x}) + {x};
    } else {
      assert b - {x} == b;
    }
  }

  class SharedInMemoryGovernorStore {
    const ceiling: nat
    var slots: map<string, set<Holder>>

    // The source throws when the ceiling is below 1.
    constructor (ceiling: nat)
      requires ceiling >= 1
      ensures Valid() && this.ceiling == ceiling && slots == map[]
    {
      this.ceiling := ceiling;
      slots := map[];
    }

    ghost predicate Valid()
      reads this
    {
      forall a :: a in slots ==> |slots[a]| <= ceiling
    }

    function Bucket(account: string): set<Holder>
      reads this
    {
      if account in slots then slots[account] else {}
    }

    method TryAcquire(account: string, holder: Holder) returns (got: bool)
      requires Valid()
      modifies this
      ensures Valid()
      ensures got <==> old(|Bucket(account)|) < ceiling
      ensures Bucket(account) == old(Bucket(account)) + (if got then {holder} else {})
      ensures forall a :: a != account ==> Bucket(a) == old(Bucket(a))
    {
      var b := Bucket(account);
      got := |b| < ceiling;
      slots := slots[account := if got then b + {holder} else b];
    }

    method Release(account: string, holder: Holder)
      requires Valid()
      modifies this
      ensures Valid()
      ensures Bucket(account) == old(Bucket(account)) - {holder}
      ensures forall a :: a != account ==> Bucket(a) == old(Bucket(a))
    {
      SmallerSet(Bucket(account), holder);
      slots := slots[account := Bucket(account) - {holder}];
    }

    // What other clients do meanwhile: anything that keeps the ceiling and leaves this
    // client's holder id alone.
    method OtherClients(mine: Holder)
      requires Valid()
      modifies this
      ensures Valid()
      ensures forall a :: mine in Bucket(a) <==> mine in old(Bucket(a))
    {
      var s: map<string, set<Holder>> := *;
      if && (forall a :: a in s ==> |s[a]| <= ceiling)
         && (forall a :: a in s ==> (mine in s[a] <==> mine in Bucket(a)))
         && (forall a :: a in slots ==> mine in slots[a] ==> a in s)
      {
        slots := s;
      }
    }
  }

  // The release callback, with its `released` flag.
  class Slot {
    const store: SharedInMemoryGovernorStore
    const account: string
    const holder: Holder
    var released: bool
    ghost var frees: nat

    constructor (store: SharedInMemoryGovernorStore, account: string, holder: Holder)
      ensures this.store == store && this.account == account && this.holder == holder
      ensures !released && frees == 0
    {
      this.store, this.account, this.holder := store, account, holder;
      released, frees := false, 0;
    }

    // However often it is called, the store is asked to free the slot once.
    method Release()
      requires store.Valid() && frees == if released then 1 else 0
      modifies this, store
      ensures store.Valid() && released && frees == 1
      ensures old(released) ==> store.slots == old(store.slots)
      ensures !old(released) ==> store.Bucket(account) == old(store.Bucket(account)) - {holder}
      ensures forall a :: a != account ==> store.Bucket(a) == old(store.Bucket(a))
    {
      if released {
        return;
      }
      released := true;
      store.Release(account, holder);
      frees := frees + 1;
    }
  }

  // ----- waiting for a slot -----

  datatype Config = Config(pollIntervalMs: Option<nat>, acquireTimeoutMs: Option<nat>)

  // A timer of less than a millisecond takes one.
  function PollOf(c: Config): (p: nat)
    ensures p >= 1
  {
    if c.pollIntervalMs.None? then 25 else if c.pollIntervalMs.value == 0 then 1 else c.pollIntervalMs.value
  }

  function TimeoutOf(c: Config): nat {
    if c.acquireTimeoutMs.Some? then c.acquireTimeoutMs.value else 60000
  }

  // How many polls of `p` fit into `t`, the last one cut short.
  function Polls(t: int, p: nat): nat
    requires p >= 1
    decreases if t <= 0 then 0 else t
  {
    if t <= 0 then 0 else 1 + Polls(t - p, p)
  }

  lemma {:induction false} PollsIsCeiling(t: nat, p: nat)
    requires p >= 1
    ensures t <= Polls(t, p) * p < t + p
    decreases t
  {
    if t > p {
      PollsIsCeiling(t - p, p);
    } else if t > 0 {
      assert Polls(t, p) == 1 + Polls(t - p, p) == 1;
    }
  }

  lemma TriesBound(t: nat, p: nat, tries: nat)
    requires p >= 1 && 1 <= tries <= Polls(t, p) + 1
    ensures (tries - 2) * p < t
  {
    PollsIsCeiling(t, p);
    if t > 0 {
      assert (tries - 2) * p <= (Polls(t, p) - 1) * p by {
        TimesMonotone(tries - 2, Polls(t, p) - 1, p);
      }
      assert (Polls(t, p) - 1) * p == Polls(t, p) * p - p;
    }
  }

  // n polls, one after the other.
  function Times(n: nat, p: nat): nat {
    if n == 0 then 0 else Times(n - 1, p) + p
  }

  lemma {:induction false} TimesIs(n: nat, p: nat)
    ensures Times(n, p) == n * p
  {
    if n > 0 {
      TimesIs(n - 1, p);
    }
  }

  lemma TimesMonotone(a: int, b: int, p: nat)
    requires a <= b
    ensures a * p <= b * p
  {
  }

  lemma {:induction false} PollsMonotone(t: int, u: int, p: nat)
    requires p >= 1 && t <= u
    ensures Polls(t, p) <= Polls(u, p)
    decreases if u <= 0 then 0 else u
  {
    if t > 0 {
      PollsMonotone(t - p, u - p, p);
    }
  }

  // Some time passes.
  method Elapsed() returns (ms: nat)
  {
    var t: int := *;
    ms := if t < 0 then 0 else t;
  }

  // acquireSlot. It tries at most once more than there are polls in the timeout, and gives up
  // only when the timeout has passed.
  method AcquireSlot(store: SharedInMemoryGovernorStore, account: string, holder: Holder, config: Config, start: nat)
    returns (slot: Option<Slot>, now: nat, ghost tries: nat, ghost late: nat)
    requires store.Valid() && forall a :: holder !in store.Bucket(a)
    modifies store
    ensures store.Valid()
    ensures 1 <= tries <= Polls(TimeoutOf(config), PollOf(config)) + 1
    ensures forall a :: holder in store.Bucket(a) <==> slot.Some? && a == account
    ensures slot.None? ==> now >= start + TimeoutOf(config)
    // in milliseconds, as configured or by default
    ensures var timeout := if config.acquireTimeoutMs == None then 60000 else config.acquireTimeoutMs.value;
            var poll := if config.pollIntervalMs == None then 25
                        else if config.pollIntervalMs == Some(0) then 1
                        else config.pollIntervalMs.value;
            && (tries - 2) * poll < timeout
            && (slot.None? ==> now >= start + timeout)
            // one poll between two tries, besides what the timers and the store are late by
            && now == start + (tries - 1) * poll + late
    ensures slot.Some? ==>
              && fresh(slot.value) && slot.value.store == store && slot.value.account == account
              && slot.value.holder == holder && !slot.value.released && slot.value.frees == 0
  {
    var poll := PollOf(config);
    now := start;
    var deadline := now + TimeoutOf(config);
    tries, late := 0, 0;
    ghost var polled: nat := 0;
    while true
      invariant store.Valid() && now >= start && now == start + polled + late && polled == Times(tries, poll)
      invariant forall a :: holder !in store.Bucket(a)
      invariant tries + Polls(deadline - now, poll) <= Polls(TimeoutOf(config), poll)
      decreases Polls(deadline - now, poll), if tries == 0 then 1 else 0
    {
      ghost var before := now;
      store.OtherClients(holder);
      var got := store.TryAcquire(account, holder);
      tries := tries + 1;
      if got {
        var s := new Slot(store, account, holder);
        slot := Some(s);
        TriesBound(TimeoutOf(config), poll, tries);
        TimesIs(tries - 1, poll);
        return;
      }
      var spent := Elapsed();
      now := now + spent;
      late := late + spent;
      PollsMonotone(deadline - now, deadline - before, poll);
      if now >= deadline {
        slot := None;
        TriesBound(TimeoutOf(config), poll, tries);
        TimesIs(tries - 1, poll);
        return;
      }
      var slept := Elapsed();
      ghost var checked := now;
      now := now + poll + slept;
      polled := polled + poll;
      late := late + slept;
      PollsMonotone(deadline - now, deadline - checked - poll, poll);
    }
  }

  // ----- the middleware -----

  datatype Response = Response(body: string)

  datatype Outcome = Answered(response: Response) | RequestThrew | NoSlot

  // Acquire, mark the request, send it, and release whatever it does. The holder id is nowhere
  // in the store afterwards.
  method GovernedRequest(store: SharedInMemoryGovernorStore, account: string, holder: Holder, config: Config,
                         start: nat, metadata: map<string, string>, idText: string)
    returns (r: Outcome, marked: map<string, string>, ghost frees: nat)
    requires store.Valid() && forall a :: holder !in store.Bucket(a)
    modifies store
    ensures store.Valid() && forall a :: holder !in store.Bucket(a)
    ensures frees == if r.NoSlot? then 0 else 1
    ensures marked == if r.NoSlot? then metadata
                      else metadata["ns_account_id" := account]["governor_holder_id" := idText]
  {
    marked, frees := metadata, 0;
    var slot, _, _, _ := AcquireSlot(store, account, holder, config, start);
    if slot.None? {
      return NoSlot, marked, frees;
    }
    marked := metadata["ns_account_id" := account]["governor_holder_id" := idText];
    store.OtherClients(holder);
    var throws: bool, body: string := *, *;
    r := if throws then RequestThrew else Answered(Response(body));
    slot.value.Release();
    frees := slot.value.frees;
  }
}
