// packages/shopify-client/src/token-service.ts: one token exchange at a time for each shop, with
// the cache in front of it. A caller runs from one await to the next without interruption.
module TokenService {
  import opened Common

  datatype Token = Token(accessToken: string, scope: string, expiresAt: int)

  // What the token endpoint does.
  datatype Answer =
    | Unreachable
    | HttpError
    | NoToken
    | Issued(accessToken: string, scope: Option<string>, expiresIn: Option<nat>)

  // fetchToken, once it is answered; None when it throws. An absent lifetime is taken as an hour.
  function Exchanged(a: Answer, now: int): Option<Token> {
    if a.Issued? && a.accessToken != "" then
      Some(Token(a.accessToken, if a.scope.Some? then a.scope.value else "",
                 now + 1000 * (if a.expiresIn.Some? then a.expiresIn.value else 3600)))
    else None
  }

  type Shop = string
  type FetchId = nat

  // Where a call goes from its first look at the cache.
  datatype Way = Hit(token: Token) | Join(fetch: FetchId) | Create(fetch: FetchId)

  predicate StillGood(t: Token, buffer: int, now: int) {
    t.expiresAt - buffer > now
  }

  // ----- the service -----

  class ShopifyTokenService {
    const refreshBufferMs: int
    var cache: map<Shop, Token>
    // The promise a shop's callers wait for, by the number of its fetch.
    var inFlight: map<Shop, FetchId>

    constructor (refreshBufferMs: Option<int>)
      ensures cache == map[] && inFlight == map[]
      ensures this.refreshBufferMs == if refreshBufferMs.Some? then refreshBufferMs.value else 300000
    {
      this.refreshBufferMs := if refreshBufferMs.Some? then refreshBufferMs.value else 300000;
      cache, inFlight := map[], map[];
    }

    // getAccessToken up to its await; `next` is the promise a new exchange would be.
    method Begin(shop: Shop, now: int, next: FetchId) returns (way: Way)
      modifies this`inFlight
      ensures way == WayOf(old(Local(cache, inFlight)), refreshBufferMs, shop, now, next)
      ensures Local(cache, inFlight) == Begun(old(Local(cache, inFlight)), shop, way)
      ensures way.Hit? <==> shop in cache && cache[shop].expiresAt > now + refreshBufferMs
      ensures way.Hit? ==> way.token == cache[shop] && inFlight == old(inFlight)
      ensures way.Join? ==> shop in old(inFlight) && way.fetch == inFlight[shop] && inFlight == old(inFlight)
      ensures way.Create? ==> shop !in old(inFlight) && way.fetch == next && inFlight == old(inFlight)[shop := next]
    {
      if shop in cache {
        var cached := cache[shop];
        if cached.expiresAt - refreshBufferMs > now {
          return Hit(cached);
        }
      }
      if shop in inFlight {
        return Join(inFlight[shop]);
      }
      inFlight := inFlight[shop := next];
      return Create(next);
    }

    // The creator of an exchange after its await: the token is cached, and in either case the
    // entry is removed.
    method Resume(shop: Shop, result: Option<Token>)
      modifies this
      ensures Local(cache, inFlight) == Resumed(old(Local(cache, inFlight)), shop, result)
      ensures inFlight == old(inFlight) - {shop}
      ensures cache == if result.Some? then old(cache)[shop := result.value] else old(cache)
    {
      if result.Some? {
        cache := cache[shop := result.value];
      }
      inFlight := inFlight - {shop};
    }

    method Invalidate(shop: Shop)
      modifies this`cache
      ensures Local(cache, inFlight) == Evicted(old(Local(cache, inFlight)), shop)
      ensures cache == old(cache) - {shop} && inFlight == old(inFlight)
    {
      cache := cache - {shop};
    }
  }

  datatype Local = Local(cache: map<Shop, Token>, inFlight: map<Shop, FetchId>)

  function WayOf(s: Local, buffer: int, shop: Shop, now: int, next: FetchId): Way {
    if shop in s.cache && StillGood(s.cache[shop], buffer, now) then Hit(s.cache[shop])
    else if shop in s.inFlight then Join(s.inFlight[shop])
    else Create(next)
  }

  function Begun(s: Local, shop: Shop, way: Way): Local {
    if way.Create? then s.(inFlight := s.inFlight[shop := way.fetch]) else s
  }

  function Resumed(s: Local, shop: Shop, result: Option<Token>): Local {
    Local(if result.Some? then s.cache[shop := result.value] else s.cache, s.inFlight - {shop})
  }

  function Evicted(s: Local, shop: Shop): Local {
    s.(cache := s.cache - {shop})
  }

  // ----- any number of callers -----

  type Caller = nat

  datatype Status = Outstanding | Settled(result: Option<Token>)

  // What the endpoint answered, and when.
  datatype Reply = Reply(answer: Answer, at: int)

  datatype Fetch = Fetch(shop: Shop, creator: Caller, status: Status, reply: Option<Reply>)

  // A caller waits for a fetch, or has its answer: from the cache at some time, or from a fetch.
  datatype Call =
    | Awaiting(shop: Shop, fetch: FetchId)
    | FromCache(shop: Shop, token: Token, at: int)
    | FromFetch(shop: Shop, fetch: FetchId, result: Option<Token>)

  datatype Sys = Sys(service: Local, fetches: map<FetchId, Fetch>, calls: map<Caller, Call>, fetched: nat, now: int)

  datatype Event =
    | Begin(caller: Caller, shop: Shop)
    | Settle(fetch: FetchId, answer: Answer)
    | Resume(caller: Caller)
    | Invalidate(shop: Shop)
    | Tick(ms: nat)

  function Init(now: int): Sys {
    Sys(Local(map[], map[]), map[], map[], 0, now)
  }

  predicate Enabled(s: Sys, e: Event) {
    match e
    case Begin(c, _) => c !in s.calls
    case Settle(f, _) => f in s.fetches && s.fetches[f].status.Outstanding?
    case Resume(c) =>
      && c in s.calls && s.calls[c].Awaiting?
      && s.calls[c].fetch in s.fetches && s.fetches[s.calls[c].fetch].status.Settled?
    case Invalidate(_) => true
    case Tick(_) => true
  }

  function Apply(buffer: int, s: Sys, e: Event): Sys
    requires Enabled(s, e)
  {
    match e
    case Begin(c, shop) =>
      var way := WayOf(s.service, buffer, shop, s.now, s.fetched);
      var s' := s.(service := Begun(s.service, shop, way));
      (match way
       case Hit(t) => s'.(calls := s.calls[c := FromCache(shop, t, s.now)])
       case Join(f) => s'.(calls := s.calls[c := Awaiting(shop, f)])
       case Create(f) => s'.(calls := s.calls[c := Awaiting(shop, f)], fetched := s.fetched + 1,
                             fetches := s.fetches[f := Fetch(shop, c, Outstanding, None)]))
    case Settle(f, a) =>
      var settled := s.fetches[f].(status := Settled(Exchanged(a, s.now)), reply := Some(Reply(a, s.now)));
      s.(fetches := s.fetches[f := settled])
    case Resume(c) =>
      var call := s.calls[c];
      var fetch := s.fetches[call.fetch];
      var s' := s.(calls := s.calls[c := FromFetch(call.shop, call.fetch, fetch.status.result)]);
      if fetch.creator == c then s'.(service := Resumed(s.service, call.shop, fetch.status.result)) else s'
    case Invalidate(shop) => s.(service := Evicted(s.service, shop))
    case Tick(ms) => s.(now := s.now + ms)
  }

  predicate Legal(buffer: int, s: Sys, run: seq<Event>)
    decreases run
  {
    run == [] || (Enabled(s, run[0]) && Legal(buffer, Apply(buffer, s, run[0]), run[1..]))
  }

  function Exec(buffer: int, s: Sys, run: seq<Event>): Sys
    requires Legal(buffer, s, run)
    decreases run
  {
    if run == [] then s else Exec(buffer, Apply(buffer, s, run[0]), run[1..])
  }

  // ----- what every step keeps -----

  // The fetch's creator has not been resumed yet.
  ghost predicate Open(s: Sys, f: FetchId) {
    f in s.fetches && s.fetches[f].creator in s.calls && s.calls[s.fetches[f].creator].Awaiting?
    && s.calls[s.fetches[f].creator].fetch == f
  }

  // The in-flight entry of a shop is its one open fetch.
  ghost predicate EntryIsOpen(s: Sys) {
    && (forall f :: f in s.fetches ==> f < s.fetched && s.fetches[f].creator in s.calls)
    && (forall shop :: shop in s.service.inFlight ==>
          Open(s, s.service.inFlight[shop]) && s.fetches[s.service.inFlight[shop]].shop == shop)
    && (forall f :: Open(s, f) ==>
          s.fetches[f].shop in s.service.inFlight && s.service.inFlight[s.fetches[f].shop] == f)
  }

  ghost predicate OutstandingIsOpen(s: Sys) {
    forall f :: f in s.fetches && s.fetches[f].status.Outstanding? ==> Open(s, f)
  }

  // Everyone who waits, waits for a fetch of its own shop; everyone who was answered from a
  // fetch has what the fetch came to.
  ghost predicate CallGood(s: Sys, buffer: int, c: Call) {
    match c
    case Awaiting(shop, f) => f in s.fetches && s.fetches[f].shop == shop
    case FromCache(shop, t, at) => StillGood(t, buffer, at) && Earned(s, shop, t)
    case FromFetch(shop, f, r) => f in s.fetches && s.fetches[f].shop == shop && s.fetches[f].status == Settled(r)
  }

  // Some fetch for this shop came to this token.
  ghost predicate Earned(s: Sys, shop: Shop, t: Token) {
    exists f :: f in s.fetches && s.fetches[f].shop == shop && s.fetches[f].status == Settled(Some(t))
  }

  ghost predicate CallsGood(s: Sys, buffer: int) {
    && (forall c :: c in s.calls ==> CallGood(s, buffer, s.calls[c]))
    && (forall shop :: shop in s.service.cache ==> Earned(s, shop, s.service.cache[shop]))
  }

  ghost predicate Inv(buffer: int, s: Sys) {
    EntryIsOpen(s) && OutstandingIsOpen(s) && CallsGood(s, buffer)
  }

  lemma BeginKeepsEntries(buffer: int, s: Sys, e: Event)
    requires e.Begin? && EntryIsOpen(s) && OutstandingIsOpen(s) && Enabled(s, e)
    ensures EntryIsOpen(Apply(buffer, s, e)) && OutstandingIsOpen(Apply(buffer, s, e))
  {
    var t := Apply(buffer, s, e);
    forall f
      ensures Open(t, f) <==> Open(s, f) || (f == s.fetched && f in t.fetches)
    {
      assert f in s.fetches ==> s.fetches[f].creator != e.caller;
    }
  }

  lemma SettleKeepsEntries(buffer: int, s: Sys, e: Event)
    requires e.Settle? && EntryIsOpen(s) && OutstandingIsOpen(s) && Enabled(s, e)
    ensures EntryIsOpen(Apply(buffer, s, e)) && OutstandingIsOpen(Apply(buffer, s, e))
  {
    var t := Apply(buffer, s, e);
    assert forall f :: Open(t, f) <==> Open(s, f);
  }

  lemma ResumeKeepsEntries(buffer: int, s: Sys, e: Event)
    requires e.Resume? && EntryIsOpen(s) && OutstandingIsOpen(s) && CallsGood(s, buffer) && Enabled(s, e)
    ensures EntryIsOpen(Apply(buffer, s, e)) && OutstandingIsOpen(Apply(buffer, s, e))
  {
    var t := Apply(buffer, s, e);
    var f := s.calls[e.caller].fetch;
    assert CallGood(s, buffer, s.calls[e.caller]);
    forall g
      ensures Open(t, g) <==> Open(s, g) && (g != f || s.fetches[f].creator != e.caller)
    {
    }
    if s.fetches[f].creator == e.caller {
      assert Open(s, f);
    }
  }

  lemma StepKeepsEntries(buffer: int, s: Sys, e: Event)
    requires EntryIsOpen(s) && OutstandingIsOpen(s) && CallsGood(s, buffer) && Enabled(s, e)
    ensures EntryIsOpen(Apply(buffer, s, e)) && OutstandingIsOpen(Apply(buffer, s, e))
  {
    match e
    case Begin(_, _) => BeginKeepsEntries(buffer, s, e);
    case Settle(_, _) => SettleKeepsEntries(buffer, s, e);
    case Resume(_) => ResumeKeepsEntries(buffer, s, e);
    case Invalidate(_) =>
      assert forall f :: Open(Apply(buffer, s, e), f) <==> Open(s, f);
    case Tick(_) =>
      assert forall f :: Open(Apply(buffer, s, e), f) <==> Open(s, f);
  }

  // A fetch stays what it was, and once settled stays as it settled.
  ghost predicate Keeps(s: Sys, t: Sys) {
    forall f :: f in s.fetches ==>
      && f in t.fetches && t.fetches[f].shop == s.fetches[f].shop && t.fetches[f].creator == s.fetches[f].creator
      && (s.fetches[f].status.Settled? ==> t.fetches[f].status == s.fetches[f].status)
  }

  lemma StepKeepsFetches(buffer: int, s: Sys, e: Event)
    requires EntryIsOpen(s) && Enabled(s, e)
    ensures Keeps(s, Apply(buffer, s, e))
  {
  }

  lemma EarnedKept(s: Sys, t: Sys, shop: Shop, token: Token)
    requires Keeps(s, t) && Earned(s, shop, token)
    ensures Earned(t, shop, token)
  {
    var f :| f in s.fetches && s.fetches[f].shop == shop && s.fetches[f].status == Settled(Some(token));
    assert t.fetches[f].status == Settled(Some(token));
  }

  lemma CallKept(buffer: int, s: Sys, t: Sys, c: Call)
    requires Keeps(s, t) && CallGood(s, buffer, c)
    ensures CallGood(t, buffer, c)
  {
    if c.FromCache? {
      EarnedKept(s, t, c.shop, c.token);
    }
  }

  lemma NewCallGood(buffer: int, s: Sys, e: Event, c: Caller)
    requires Inv(buffer, s) && Enabled(s, e) && c in Apply(buffer, s, e).calls
    requires !(c in s.calls && s.calls[c] == Apply(buffer, s, e).calls[c])
    ensures CallGood(Apply(buffer, s, e), buffer, Apply(buffer, s, e).calls[c])
  {
    var t := Apply(buffer, s, e);
    StepKeepsFetches(buffer, s, e);
    match e
    case Begin(caller, shop) =>
      if t.calls[c].FromCache? {
        EarnedKept(s, t, shop, t.calls[c].token);
      }
    case Resume(caller) => assert CallGood(s, buffer, s.calls[caller]);
    case _ =>
  }

  lemma StepKeepsCalls(buffer: int, s: Sys, e: Event)
    requires Inv(buffer, s) && Enabled(s, e)
    ensures CallsGood(Apply(buffer, s, e), buffer)
  {
    var t := Apply(buffer, s, e);
    StepKeepsFetches(buffer, s, e);
    forall c | c in t.calls
      ensures CallGood(t, buffer, t.calls[c])
    {
      if c in s.calls && s.calls[c] == t.calls[c] {
        CallKept(buffer, s, t, s.calls[c]);
      } else {
        NewCallGood(buffer, s, e, c);
      }
    }
    forall shop | shop in t.service.cache
      ensures Earned(t, shop, t.service.cache[shop])
    {
      if shop in s.service.cache && t.service.cache[shop] == s.service.cache[shop] {
        EarnedKept(s, t, shop, t.service.cache[shop]);
      } else {
        assert CallGood(s, buffer, s.calls[e.caller]);
        EarnedKept(s, t, shop, t.service.cache[shop]);
      }
    }
  }

  lemma {:induction false} RunKeepsInv(buffer: int, s: Sys, run: seq<Event>)
    requires Inv(buffer, s) && Legal(buffer, s, run)
    ensures Inv(buffer, Exec(buffer, s, run))
    decreases run
  {
    if run != [] {
      StepKeepsEntries(buffer, s, run[0]);
      StepKeepsCalls(buffer, s, run[0]);
      RunKeepsInv(buffer, Apply(buffer, s, run[0]), run[1..]);
    }
  }

  // ----- what that means -----

  // Whatever the callers, answers, evictions and delays: a shop never has two exchanges
  // outstanding.
  lemma OneExchangePerShop(buffer: int, now: int, run: seq<Event>, f: FetchId, g: FetchId)
    requires Legal(buffer, Init(now), run)
    ensures var s := Exec(buffer, Init(now), run);
            (&& f in s.fetches && g in s.fetches && s.fetches[f].shop == s.fetches[g].shop
             && s.fetches[f].status.Outstanding? && s.fetches[g].status.Outstanding?) ==> f == g
  {
    RunKeepsInv(buffer, Init(now), run);
    var s := Exec(buffer, Init(now), run);
    if f in s.fetches && g in s.fetches && s.fetches[f].status.Outstanding? && s.fetches[g].status.Outstanding? {
      assert Open(s, f) && Open(s, g);
    }
  }

  // Everyone answered from a fetch has the same token, or the same failure, as its creator, and
  // it is a token for the shop they asked for.
  lemma JoinersShareTheAnswer(buffer: int, now: int, run: seq<Event>, c: Caller, d: Caller)
    requires Legal(buffer, Init(now), run)
    ensures var s := Exec(buffer, Init(now), run);
            (&& c in s.calls && d in s.calls && s.calls[c].FromFetch? && s.calls[d].FromFetch?
             && s.calls[c].fetch == s.calls[d].fetch) ==>
              s.calls[c].result == s.calls[d].result && s.calls[c].shop == s.calls[d].shop
  {
    RunKeepsInv(buffer, Init(now), run);
    var s := Exec(buffer, Init(now), run);
    if c in s.calls && d in s.calls {
      assert CallGood(s, buffer, s.calls[c]) && CallGood(s, buffer, s.calls[d]);
    }
  }

  // A fetch comes to the token that was issued, with its lifetime in seconds from the answer on,
  // an hour if none is given; any other answer comes to none.
  ghost predicate CameTo(reply: Reply, result: Option<Token>) {
    var a := reply.answer;
    && (result.Some? <==> a.Issued? && a.accessToken != "")
    && (result.Some? ==>
          && result.value.accessToken == a.accessToken
          && result.value.scope == (if a.scope == None then "" else a.scope.value)
          && result.value.expiresAt == reply.at + 1000 * Lifetime(a))
  }

  function Lifetime(a: Answer): nat
    requires a.Issued?
  {
    match a.expiresIn
    case None => 60 * 60
    case Some(seconds) => seconds
  }

  ghost predicate Replied(s: Sys, f: FetchId)
    requires f in s.fetches
  {
    var fetch := s.fetches[f];
    fetch.status.Settled? ==>
      fetch.reply.Some? && fetch.reply.value.at <= s.now && CameTo(fetch.reply.value, fetch.status.result)
  }

  // Whatever happens, every settled fetch has come to what the endpoint answered.
  lemma {:induction false} RunKeepsReplies(buffer: int, s: Sys, run: seq<Event>)
    requires Legal(buffer, s, run) && forall f :: f in s.fetches ==> Replied(s, f)
    ensures forall f :: f in Exec(buffer, s, run).fetches ==> Replied(Exec(buffer, s, run), f)
    decreases run
  {
    if run != [] {
      var t := Apply(buffer, s, run[0]);
      forall f | f in t.fetches
        ensures Replied(t, f)
      {
        assert f in s.fetches ==> Replied(s, f);
      }
      RunKeepsReplies(buffer, t, run[1..]);
    }
  }

  // The token was issued for this shop, and at `at` more than the buffer was left of its
  // lifetime, counted from the answer.
  ghost predicate IssuedAndFresh(s: Sys, buffer: int, shop: Shop, t: Token, at: int, f: FetchId) {
    && f in s.fetches && s.fetches[f].shop == shop && s.fetches[f].reply.Some?
    && var reply := s.fetches[f].reply.value;
    && reply.answer.Issued? && reply.answer.accessToken == t.accessToken
    && at + buffer < reply.at + 1000 * Lifetime(reply.answer)
  }

  // A token from the cache was issued for that shop and had more than the buffer left.
  lemma CacheHitsAreFresh(buffer: int, now: int, run: seq<Event>, c: Caller)
    requires Legal(buffer, Init(now), run)
    ensures var s := Exec(buffer, Init(now), run);
            c in s.calls && s.calls[c].FromCache? ==>
              && s.calls[c].at + buffer < s.calls[c].token.expiresAt
              && exists f :: IssuedAndFresh(s, buffer, s.calls[c].shop, s.calls[c].token, s.calls[c].at, f)
  {
    RunKeepsInv(buffer, Init(now), run);
    RunKeepsReplies(buffer, Init(now), run);
    var s := Exec(buffer, Init(now), run);
    if c in s.calls && s.calls[c].FromCache? {
      assert CallGood(s, buffer, s.calls[c]);
      HitIsFresh(s, buffer, s.calls[c]);
    }
  }

  lemma HitIsFresh(s: Sys, buffer: int, call: Call)
    requires call.FromCache? && CallGood(s, buffer, call) && forall f :: f in s.fetches ==> Replied(s, f)
    ensures exists f :: IssuedAndFresh(s, buffer, call.shop, call.token, call.at, f)
  {
    var f :| f in s.fetches && s.fetches[f].shop == call.shop && s.fetches[f].status == Settled(Some(call.token));
    assert Replied(s, f);
    assert IssuedAndFresh(s, buffer, call.shop, call.token, call.at, f);
  }

  // After the creator of an exchange has its token, the next caller has it too, as long as more
  // than the buffer is left; after an eviction nobody is answered from the cache.
  lemma NextCallerAfter(buffer: int, s: Sys, c: Caller, d: Caller)
    requires Enabled(s, Resume(c)) && d !in s.calls && c != d
    ensures var f := s.fetches[s.calls[c].fetch];
            var t := Apply(buffer, s, Resume(c));
            f.creator == c && f.status.result.Some? && s.now + buffer < f.status.result.value.expiresAt ==>
              Apply(buffer, t, Begin(d, s.calls[c].shop)).calls[d] ==
              FromCache(s.calls[c].shop, f.status.result.value, s.now)
    ensures Apply(buffer, Apply(buffer, s, Invalidate(s.calls[c].shop)), Begin(d, s.calls[c].shop)).calls[d].Awaiting?
  {
  }

  lemma StepRemoves(buffer: int, s: Sys, e: Event, shop: Shop)
    requires Inv(buffer, s) && Enabled(s, e) && shop in s.service.inFlight
    ensures var f, t := s.service.inFlight[shop], Apply(buffer, s, e);
            && f in s.fetches
            && if e == Resume(s.fetches[f].creator)
               then shop !in t.service.inFlight && s.fetches[f].status.Settled?
               else shop in t.service.inFlight && t.service.inFlight[shop] == f
  {
    assert Open(s, s.service.inFlight[shop]);
    if e.Resume? {
      assert CallGood(s, buffer, s.calls[e.caller]);
      var g := s.calls[e.caller].fetch;
      assert s.fetches[g].creator == e.caller ==> Open(s, g);
    }
  }

  // The in-flight entry of a shop is only ever removed by the caller who created the exchange,
  // and only after that exchange is answered.
  lemma OnlyTheCreatorRemoves(buffer: int, now: int, run: seq<Event>, e: Event, shop: Shop)
    requires Legal(buffer, Init(now), run) && Enabled(Exec(buffer, Init(now), run), e)
    ensures var s := Exec(buffer, Init(now), run);
            var t := Apply(buffer, s, e);
            shop in s.service.inFlight ==>
              var f := s.service.inFlight[shop];
              f in s.fetches &&
              if e == Resume(s.fetches[f].creator)
              then shop !in t.service.inFlight && s.fetches[f].status.Settled?
              else shop in t.service.inFlight && t.service.inFlight[shop] == f
  {
    RunKeepsInv(buffer, Init(now), run);
    var s := Exec(buffer, Init(now), run);
    if shop in s.service.inFlight {
      StepRemoves(buffer, s, e, shop);
    }
  }
}
