// The catch-up poller on a shop whose orders do not change: which orders does it ever see?
module PollProgress {
  import opened Common
  import opened CatchupPoller
  import opened OrderListing
  import opened XrefStore

  // The cursor after `n` polls from `start`; poll `n` runs at `clock(n)`.
  ghost function CursorAfter(c: PollConfig, orders: seq<Summary>, start: int, clock: nat -> int, n: nat): int {
    if n == 0 then start
    else NewCursor(c, Page(orders, CursorAfter(c, orders, start, clock, n - 1), c.pageSize), clock(n - 1))
  }

  ghost predicate Seen(c: PollConfig, orders: seq<Summary>, start: int, clock: nat -> int, n: nat, o: Summary) {
    o in Page(orders, CursorAfter(c, orders, start, clock, n), c.pageSize)
  }

  // How many orders are at least this recent.
  function CountSince(orders: seq<Summary>, t: int): nat {
    |Since(orders, t)|
  }

  // An instant shared by a whole page of orders blocks the cursor, unless no more than one page
  // is left from there.
  ghost predicate NoFullInstant(orders: seq<Summary>, start: int, limit: nat) {
    forall t | start <= t ::
      CountSince(orders, t) <= limit || CountSince(orders, t) - CountSince(orders, t + 1) < limit
  }

  lemma CountIsTail(orders: seq<Summary>, t: int)
    ensures CountSince(orders, t) == |Sort(orders)| - First(Sort(orders), t)
  {
    SortSince(orders, t);
    SortFacts(Since(orders, t));
  }

  // The cursor of the next poll, read off the sorted list.
  lemma NextCursor(c: PollConfig, orders: seq<Summary>, start: int, clock: nat -> int, n: nat)
    requires c.pageSize > 0
    requires First(Sort(orders), CursorAfter(c, orders, start, clock, n)) < |Sort(orders)|
    ensures var s, i := Sort(orders), First(Sort(orders), CursorAfter(c, orders, start, clock, n));
            var j := if i + c.pageSize <= |s| then i + c.pageSize else |s|;
            && Page(orders, CursorAfter(c, orders, start, clock, n), c.pageSize) == s[i..j]
            && CursorAfter(c, orders, start, clock, n + 1) == s[j - 1].updatedAt
  {
    PageIsARun(orders, CursorAfter(c, orders, start, clock, n), c.pageSize);
  }

  // While more than a page is left, a poll of a shop with no full instant gets strictly further
  // in the sorted list, and leaves nothing out on the way.
  lemma PollAdvances(c: PollConfig, orders: seq<Summary>, start: int, clock: nat -> int, n: nat)
    requires c.pageSize > 0 && NoFullInstant(orders, start, c.pageSize)
    requires start <= CursorAfter(c, orders, start, clock, n)
    requires First(Sort(orders), CursorAfter(c, orders, start, clock, n)) + c.pageSize < |Sort(orders)|
    ensures var i := First(Sort(orders), CursorAfter(c, orders, start, clock, n));
            var i' := First(Sort(orders), CursorAfter(c, orders, start, clock, n + 1));
            i < i' < i + c.pageSize
    ensures start <= CursorAfter(c, orders, start, clock, n + 1)
  {
    var s, cursor := Sort(orders), CursorAfter(c, orders, start, clock, n);
    var i := First(s, cursor);
    NextCursor(c, orders, start, clock, n);
    SortFacts(orders);
    FirstSplits(s, cursor);
    var t := s[i + c.pageSize - 1].updatedAt;
    FirstSplits(s, t);
    FirstSplits(s, t + 1);
    CountIsTail(orders, t);
    CountIsTail(orders, t + 1);
    assert CountSince(orders, t) <= c.pageSize || CountSince(orders, t) - CountSince(orders, t + 1) < c.pageSize;
  }

  lemma {:induction false} EventuallySeen(c: PollConfig, orders: seq<Summary>, start: int, clock: nat -> int,
                                          n: nat, q: nat)
    returns (m: nat)
    requires c.pageSize > 0 && NoFullInstant(orders, start, c.pageSize)
    requires start <= CursorAfter(c, orders, start, clock, n)
    requires n <= First(Sort(orders), CursorAfter(c, orders, start, clock, n)) <= q < |Sort(orders)|
    ensures m <= q && Seen(c, orders, start, clock, m, Sort(orders)[q])
    decreases q - First(Sort(orders), CursorAfter(c, orders, start, clock, n))
  {
    var s := Sort(orders);
    var i := First(s, CursorAfter(c, orders, start, clock, n));
    if q < i + c.pageSize {
      NextCursor(c, orders, start, clock, n);
      assert Page(orders, CursorAfter(c, orders, start, clock, n), c.pageSize)[q - i] == s[q];
      m := n;
    } else {
      PollAdvances(c, orders, start, clock, n);
      m := EventuallySeen(c, orders, start, clock, n + 1, q);
    }
  }

  // A full instant holds the cursor for ever: no poll gets past the page that starts at it.
  lemma {:induction false} CursorStuck(c: PollConfig, orders: seq<Summary>, start: int, clock: nat -> int,
                                       n: nat, t: int)
    requires c.pageSize > 0 && start <= t
    requires CountSince(orders, t) > c.pageSize && CountSince(orders, t) - CountSince(orders, t + 1) >= c.pageSize
    ensures First(Sort(orders), CursorAfter(c, orders, start, clock, n)) <= First(Sort(orders), t) < |Sort(orders)|
  {
    SortFacts(orders);
    FullInstant(orders, c.pageSize, t);
    if n == 0 {
      FirstMonotone(Sort(orders), start, t);
    } else {
      CursorStuck(c, orders, start, clock, n - 1, t);
      StuckNext(c, orders, start, clock, n - 1, First(Sort(orders), t), First(Sort(orders), t + 1), t);
    }
  }

  lemma StuckNext(c: PollConfig, orders: seq<Summary>, start: int, clock: nat -> int, n: nat, i: nat, j: nat, t: int)
    requires c.pageSize > 0 && Sorted(Sort(orders)) && i + c.pageSize < |Sort(orders)| && i + c.pageSize <= j
    requires i == First(Sort(orders), t) && j == First(Sort(orders), t + 1)
    requires First(Sort(orders), CursorAfter(c, orders, start, clock, n)) <= i
    ensures First(Sort(orders), CursorAfter(c, orders, start, clock, n + 1)) <= i
  {
    NextCursor(c, orders, start, clock, n);
    PageStuck(Sort(orders), t, c.pageSize, First(Sort(orders), CursorAfter(c, orders, start, clock, n)));
  }

  // A page that starts no later than a full instant ends no later either.
  lemma PageStuck(s: seq<Summary>, t: int, limit: nat, i: nat)
    requires Sorted(s) && limit > 0 && i <= First(s, t)
    requires First(s, t) + limit < |s| && First(s, t) + limit <= First(s, t + 1)
    ensures i + limit <= |s| && First(s, s[i + limit - 1].updatedAt) <= First(s, t)
  {
    StaysAtInstant(s, t, i + limit - 1);
    FirstMonotone(s, s[i + limit - 1].updatedAt, t);
  }

  // The orders of a full instant fill a page of the sorted list, and more is left behind it.
  lemma FullInstant(orders: seq<Summary>, limit: nat, t: int)
    requires CountSince(orders, t) > limit && CountSince(orders, t) - CountSince(orders, t + 1) >= limit
    ensures var s := Sort(orders);
            First(s, t) + limit < |s| && First(s, t) + limit <= First(s, t + 1)
  {
    CountIsTail(orders, t);
    CountIsTail(orders, t + 1);
  }

  lemma StaysAtInstant(s: seq<Summary>, t: int, k: nat)
    requires Sorted(s) && k < |s| && k < First(s, t + 1)
    ensures s[k].updatedAt <= t
  {
    FirstSplits(s, t + 1);
  }

  lemma FirstMonotone(s: seq<Summary>, t: int, u: int)
    requires Sorted(s) && t <= u
    ensures First(s, t) <= First(s, u)
  {
    FirstSplits(s, t);
    FirstSplits(s, u);
  }

  ghost predicate NoDuplicates(s: seq<Summary>) {
    forall i, j :: 0 <= i < j < |s| ==> s[i] != s[j]
  }

  lemma InInsert(x: Summary, o: Summary, s: seq<Summary>)
    ensures x in Insert(o, s) <==> x == o || x in s
  {
    InsertKeeps(o, s);
    assert x in Insert(o, s) <==> x in multiset(Insert(o, s));
  }

  lemma {:induction false} InsertNoDuplicates(o: Summary, s: seq<Summary>)
    requires NoDuplicates(s) && o !in s
    ensures NoDuplicates(Insert(o, s))
  {
    if s == [] || o.updatedAt <= s[0].updatedAt {
    } else {
      InsertNoDuplicates(o, s[1..]);
      InInsert(s[0], o, s[1..]);
    }
  }

  lemma {:induction false} SortNoDuplicates(orders: seq<Summary>)
    requires DistinctIds(orders)
    ensures NoDuplicates(Sort(orders))
  {
    if orders != [] {
      SortNoDuplicates(orders[1..]);
      SameElements(orders[1..], orders[0]);
      InsertNoDuplicates(orders[0], Sort(orders[1..]));
    }
  }

  // Exactly when does catch-up see every order at or after the start? When, and only when, no
  // instant is shared by a whole page of orders with more than a page left from it. When it
  // does, it takes at most as many polls as there are orders; when it does not, some order is
  // never seen by any poll.
  lemma EveryOrderSeenIff(c: PollConfig, orders: seq<Summary>, start: int, clock: nat -> int)
    requires c.pageSize > 0 && DistinctIds(orders)
    ensures NoFullInstant(orders, start, c.pageSize) ==>
              forall o :: o in orders && start <= o.updatedAt ==>
                exists n: nat :: n < |orders| && Seen(c, orders, start, clock, n, o)
    ensures !NoFullInstant(orders, start, c.pageSize) ==>
              exists o :: o in orders && start <= o.updatedAt &&
                forall n: nat :: !Seen(c, orders, start, clock, n, o)
  {
    var s := Sort(orders);
    SortFacts(orders);
    if NoFullInstant(orders, start, c.pageSize) {
      forall o | o in orders && start <= o.updatedAt
        ensures exists n: nat :: n < |orders| && Seen(c, orders, start, clock, n, o)
      {
        SameElements(orders, o);
        FirstSplits(s, start);
        var q := IndexOf(s, o);
        var n := EventuallySeen(c, orders, start, clock, 0, q);
      }
    } else {
      var t :| start <= t &&
               !(CountSince(orders, t) <= c.pageSize || CountSince(orders, t) - CountSince(orders, t + 1) < c.pageSize);
      CountIsTail(orders, t);
      FirstSplits(s, t);
      var lost := s[First(s, t) + c.pageSize];
      SameElements(orders, lost);
      SortNoDuplicates(orders);
      forall n: nat
        ensures !Seen(c, orders, start, clock, n, lost)
      {
        NeverSeen(c, orders, start, clock, n, t);
      }
    }
  }

  // Two orders of one instant and pages of one: one of the two is never seen.
  lemma StarvedInstance(c: PollConfig, clock: nat -> int)
    requires c.pageSize == 1
    ensures var orders := [Summary("a", 0), Summary("b", 0)];
            exists o :: o in orders && forall n: nat :: !Seen(c, orders, 0, clock, n, o)
  {
    var orders := [Summary("a", 0), Summary("b", 0)];
    assert orders[1..] == [Summary("b", 0)] && orders[1..][1..] == [];
    assert Since(orders, 0) == orders && Since(orders, 1) == [];
    assert CountSince(orders, 0) == 2 && CountSince(orders, 1) == 0;
    assert !NoFullInstant(orders, 0, 1);
    EveryOrderSeenIff(c, orders, 0, clock);
  }

  // The order has no row, or one that is pending or error.
  ghost predicate Open(rows: map<string, Status>, id: string) {
    id !in rows || rows[id] == Pending || rows[id] == Error
  }

  datatype Shop = Shop(orders: seq<Summary>, rows: map<string, Status>)

  ghost predicate PublishedWhenSeen(c: PollConfig, shop: Shop, start: int, clock: nat -> int, n: nat,
                                    queue: seq<string>) {
    forall i: nat, o ::
      i < n && Seen(c, shop.orders, start, clock, i, o) && Open(shop.rows, o.id) ==> o.id in queue
  }

  ghost predicate AllPublished(shop: Shop, start: int, queue: seq<string>) {
    forall o :: o in shop.orders && start <= o.updatedAt && Open(shop.rows, o.id) ==> o.id in queue
  }

  lemma OnePollMore(c: PollConfig, shop: Shop, start: int, clock: nat -> int, k: nat,
                    before: seq<string>, more: seq<string>)
    requires PublishedWhenSeen(c, shop, start, clock, k, before)
    requires OpenOnes(Page(shop.orders, CursorAfter(c, shop.orders, start, clock, k), c.pageSize), shop.rows, more)
    ensures PublishedWhenSeen(c, shop, start, clock, k + 1, before + more)
  {
    forall o | Seen(c, shop.orders, start, clock, k, o) && Open(shop.rows, o.id)
      ensures o.id in more
    {
      OnItsPage(Page(shop.orders, CursorAfter(c, shop.orders, start, clock, k), c.pageSize), o);
    }
  }

  // There are as many polls as orders, and no instant fills a page.
  ghost predicate NothingBlocks(c: PollConfig, shop: Shop, start: int, n: nat) {
    && c.pageSize > 0 && DistinctIds(shop.orders) && n >= |shop.orders|
    && NoFullInstant(shop.orders, start, c.pageSize)
  }

  lemma AllSeen(c: PollConfig, shop: Shop, start: int, clock: nat -> int, n: nat, queue: seq<string>)
    requires PublishedWhenSeen(c, shop, start, clock, n, queue)
    ensures NothingBlocks(c, shop, start, n) ==> AllPublished(shop, start, queue)
  {
    if NothingBlocks(c, shop, start, n) {
      EveryOrderSeenIff(c, shop.orders, start, clock);
    }
  }

  // The timer runs the poller `n` times on a shop that stands still: the watermark goes where
  // CursorAfter says, and every open order that was seen on the way is published. Those are all
  // the open orders from the start on, after as many polls as there are orders, unless an
  // instant fills a page.
  method PollOnTimer(p: Poller, clock: nat -> int, n: nat)
    requires p.watermark.Some?
    modifies p`watermark, p`queue
    ensures p.watermark == Some(CursorAfter(p.config, p.orders, old(p.watermark.value), clock, n))
    ensures PublishedWhenSeen(p.config, Shop(p.orders, p.rows), old(p.watermark.value), clock, n, p.queue)
    ensures NothingBlocks(p.config, Shop(p.orders, p.rows), old(p.watermark.value), n) ==>
              AllPublished(Shop(p.orders, p.rows), old(p.watermark.value), p.queue)
  {
    ghost var start, shop := p.watermark.value, Shop(p.orders, p.rows);
    for k := 0 to n
      invariant p.watermark == Some(CursorAfter(p.config, p.orders, start, clock, k))
      invariant PublishedWhenSeen(p.config, shop, start, clock, k, p.queue)
    {
      ghost var before := p.queue;
      var r := p.PollOneConnection(clock(k));
      assert p.queue == before + p.queue[|before|..];
      OnePollMore(p.config, shop, start, clock, k, before, p.queue[|before|..]);
    }
    AllSeen(p.config, shop, start, clock, n, p.queue);
  }

  lemma OnItsPage(page: seq<Summary>, o: Summary)
    requires o in page
    ensures OnPage(page, o.id)
  {
    var k :| 0 <= k < |page| && page[k] == o;
  }

  lemma PageBefore(orders: seq<Summary>, cursor: int, limit: nat, k: nat)
    requires NoDuplicates(Sort(orders)) && First(Sort(orders), cursor) + limit <= k < |Sort(orders)|
    ensures Sort(orders)[k] !in Page(orders, cursor, limit)
  {
    PageIsARun(orders, cursor, limit);
    NotInRun(Sort(orders), First(Sort(orders), cursor), First(Sort(orders), cursor) + limit, k);
  }

  // The order one page after a full instant is on no page.
  lemma NeverSeen(c: PollConfig, orders: seq<Summary>, start: int, clock: nat -> int, n: nat, t: int)
    requires c.pageSize > 0 && NoDuplicates(Sort(orders)) && start <= t
    requires CountSince(orders, t) > c.pageSize && CountSince(orders, t) - CountSince(orders, t + 1) >= c.pageSize
    requires First(Sort(orders), t) + c.pageSize < |Sort(orders)|
    ensures !Seen(c, orders, start, clock, n, Sort(orders)[First(Sort(orders), t) + c.pageSize])
  {
    CursorStuck(c, orders, start, clock, n, t);
    PageBefore(orders, CursorAfter(c, orders, start, clock, n), c.pageSize, First(Sort(orders), t) + c.pageSize);
  }

  lemma NotInRun(s: seq<Summary>, i: nat, j: nat, k: nat)
    requires NoDuplicates(s) && i <= j <= k < |s|
    ensures s[k] !in s[i..j]
  {
  }
}
