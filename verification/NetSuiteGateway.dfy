// packages/netsuite-client/src/fake-gateway.ts: NetSuite as the integration sees it, a store
// of records keyed by account, record type and external id, which hands out internal ids.
module NetSuiteGateway {
  import opened Common

  datatype NsKey = NsKey(account: string, recordType: string, externalId: string)

  datatype NsState = NsState(ids: map<NsKey, InternalId>, num: nat)

  // Internal ids are numbered, belong to their account, and no two records share one.
  ghost predicate WellNumbered(ns: NsState) {
    && (forall k :: k in ns.ids ==> ns.ids[k].account == k.account && 0 < ns.ids[k].num <= ns.num)
    && (forall j, k :: j in ns.ids && k in ns.ids && ns.ids[j] == ns.ids[k] ==> j == k)
  }

  function UpsertId(ns: NsState, k: NsKey): InternalId {
    if k in ns.ids then ns.ids[k] else InternalId(k.account, ns.num + 1)
  }

  function Upserted(ns: NsState, k: NsKey): NsState {
    if k in ns.ids then ns else NsState(ns.ids[k := UpsertId(ns, k)], ns.num + 1)
  }

  // An upsert never renumbers a record, never drops one, and adds at most its own.
  lemma UpsertKeepsRecords(ns: NsState, k: NsKey)
    requires WellNumbered(ns)
    ensures WellNumbered(Upserted(ns, k))
    ensures Upserted(ns, k).ids.Keys == ns.ids.Keys + {k}
    ensures forall j :: j in ns.ids ==> Upserted(ns, k).ids[j] == ns.ids[j]
    ensures Upserted(ns, k).ids[k] == UpsertId(ns, k)
    ensures Upserted(Upserted(ns, k), k) == Upserted(ns, k)
  {
  }

  lemma UpsertStaysNumbered(ns: NsState, k: NsKey)
    requires WellNumbered(ns)
    ensures WellNumbered(Upserted(ns, k))
  {
    UpsertKeepsRecords(ns, k);
  }

  // Every record of `a` is still in `b` under the same internal id.
  ghost predicate Grew(a: NsState, b: NsState) {
    && WellNumbered(b)
    && (forall k :: k in a.ids ==> k in b.ids && b.ids[k] == a.ids[k])
  }

  lemma UpsertGrows(ns: NsState, k: NsKey)
    requires WellNumbered(ns)
    ensures Grew(ns, Upserted(ns, k))
    ensures k in Upserted(ns, k).ids && Upserted(ns, k).ids[k] == UpsertId(ns, k)
  {
    UpsertKeepsRecords(ns, k);
  }

  datatype UpsertResult = UpsertResult(internalId: InternalId, externalId: string, created: bool)

  class FakeNetSuiteGateway {
    var store: map<NsKey, InternalId>
    var payloads: map<NsKey, string>
    var internalIdSeq: nat
    var attempts: nat
    var failureQueue: seq<string>

    ghost predicate Valid()
      reads this
    {
      WellNumbered(NsState(store, internalIdSeq))
    }

    constructor ()
      ensures Valid() && store == map[] && attempts == 0 && failureQueue == []
    {
      store, payloads := map[], map[];
      internalIdSeq, attempts := 0, 0;
      failureQueue := [];
    }

    method FailNext(error: string)
      requires Valid()
      modifies this`failureQueue
      ensures Valid() && failureQueue == old(failureQueue) + [error]
    {
      failureQueue := failureQueue + [error];
    }

    // A queued failure is thrown before anything is written, and still counts as an attempt.
    method UpsertByExternalId(k: NsKey, payload: string) returns (r: Result<UpsertResult, string>)
      requires Valid()
      modifies this
      ensures Valid() && attempts == old(attempts) + 1
      ensures old(failureQueue) != [] ==>
                && r == Err(old(failureQueue)[0])
                && failureQueue == old(failureQueue)[1..]
                && store == old(store) && internalIdSeq == old(internalIdSeq) && payloads == old(payloads)
      ensures old(failureQueue) == [] ==>
                && r == Ok(UpsertResult(UpsertId(old(NsState(store, internalIdSeq)), k), k.externalId,
                                        k !in old(store)))
                && failureQueue == []
                && NsState(store, internalIdSeq) == Upserted(old(NsState(store, internalIdSeq)), k)
                && payloads == old(payloads)[k := payload]
    {
      attempts := attempts + 1;
      if failureQueue != [] {
        var queued := failureQueue[0];
        failureQueue := failureQueue[1..];
        return Err(queued);
      }
      payloads := payloads[k := payload];
      r := Write(k);
    }

    method Write(k: NsKey) returns (r: Result<UpsertResult, string>)
      requires Valid()
      modifies this`store, this`internalIdSeq
      ensures Valid()
      ensures r == Ok(UpsertResult(UpsertId(old(NsState(store, internalIdSeq)), k), k.externalId, k !in old(store)))
      ensures NsState(store, internalIdSeq) == Upserted(old(NsState(store, internalIdSeq)), k)
    {
      UpsertStaysNumbered(NsState(store, internalIdSeq), k);
      if k in store {
        return Ok(UpsertResult(store[k], k.externalId, false));
      }
      internalIdSeq := internalIdSeq + 1;
      var internalId := InternalId(k.account, internalIdSeq);
      store := store[k := internalId];
      return Ok(UpsertResult(internalId, k.externalId, true));
    }
  }

  // A queued failure and the retry after it leave what the retry alone would have left: the same
  // record, the same number and the same answer.
  method RetryAfterFailure(ns: FakeNetSuiteGateway, error: string, k: NsKey, payload: string)
    returns (first: Result<UpsertResult, string>, second: Result<UpsertResult, string>)
    requires ns.Valid() && ns.failureQueue == []
    modifies ns
    ensures ns.Valid() && ns.failureQueue == [] && ns.attempts == old(ns.attempts) + 2
    ensures first == Err(error)
    ensures var before := old(NsState(ns.store, ns.internalIdSeq));
            && second == Ok(UpsertResult(UpsertId(before, k), k.externalId, k !in before.ids))
            && NsState(ns.store, ns.internalIdSeq) == Upserted(before, k)
            && ns.payloads == old(ns.payloads)[k := payload]
  {
    ns.FailNext(error);
    first := ns.UpsertByExternalId(k, payload);
    second := ns.UpsertByExternalId(k, payload);
  }
}
