// packages/shopify-client/src/fake-gateway.ts, listOrdersUpdatedSince: one page of the orders
// updated since an instant, oldest first. Timestamps are integers.
module OrderListing {
  datatype Summary = Summary(id: string, updatedAt: int)

  predicate DistinctIds(orders: seq<Summary>) {
    forall i, j :: 0 <= i < j < |orders| ==> orders[i].id != orders[j].id
  }

  // filter
  function Since(orders: seq<Summary>, since: int): seq<Summary> {
    if orders == [] then []
    else if orders[0].updatedAt >= since then [orders[0]] + Since(orders[1..], since)
    else Since(orders[1..], since)
  }

  // sort: stable, so orders of one instant keep the order in which they were first seen.
  function Insert(o: Summary, s: seq<Summary>): seq<Summary> {
    if s == [] || o.updatedAt <= s[0].updatedAt then [o] + s else [s[0]] + Insert(o, s[1..])
  }

  function Sort(orders: seq<Summary>): seq<Summary> {
    if orders == [] then [] else Insert(orders[0], Sort(orders[1..]))
  }

  // slice
  function Take(s: seq<Summary>, limit: nat): seq<Summary> {
    if |s| <= limit then s else s[..limit]
  }

  function Page(orders: seq<Summary>, since: int, limit: nat): seq<Summary> {
    Take(Sort(Since(orders, since)), limit)
  }

  // ----- the sorted list -----

  ghost predicate Sorted(s: seq<Summary>) {
    forall i, j :: 0 <= i <= j < |s| ==> s[i].updatedAt <= s[j].updatedAt
  }

  lemma {:induction false} InsertKeeps(o: Summary, s: seq<Summary>)
    ensures multiset(Insert(o, s)) == multiset{o} + multiset(s)
    ensures |Insert(o, s)| == |s| + 1
  {
    if s == [] || o.updatedAt <= s[0].updatedAt {
    } else {
      InsertKeeps(o, s[1..]);
      assert s == [s[0]] + s[1..];
    }
  }

  lemma {:induction false} InsertSorted(o: Summary, s: seq<Summary>)
    requires Sorted(s)
    ensures Sorted(Insert(o, s))
  {
    if s == [] || o.updatedAt <= s[0].updatedAt {
    } else {
      InsertSorted(o, s[1..]);
      var r := Insert(o, s[1..]);
      InsertKeeps(o, s[1..]);
      forall k | 0 <= k < |r|
        ensures s[0].updatedAt <= r[k].updatedAt
      {
        assert r[k] in multiset(r);
        assert r[k] == o || r[k] in s[1..];
      }
    }
  }

  lemma {:induction false} SortFacts(orders: seq<Summary>)
    ensures Sorted(Sort(orders))
    ensures multiset(Sort(orders)) == multiset(orders)
    ensures |Sort(orders)| == |orders|
  {
    if orders != [] {
      SortFacts(orders[1..]);
      InsertKeeps(orders[0], Sort(orders[1..]));
      InsertSorted(orders[0], Sort(orders[1..]));
      assert orders == [orders[0]] + orders[1..];
    }
  }

  // How many orders of a sorted list are older than `since`.
  function First(s: seq<Summary>, since: int): (n: nat)
    ensures n <= |s|
  {
    if s == [] || s[0].updatedAt >= since then 0 else 1 + First(s[1..], since)
  }

  lemma {:induction false} FirstSplits(s: seq<Summary>, since: int)
    requires Sorted(s)
    ensures forall k :: 0 <= k < First(s, since) ==> s[k].updatedAt < since
    ensures forall k :: First(s, since) <= k < |s| ==> s[k].updatedAt >= since
    ensures Since(s, since) == s[First(s, since)..]
  {
    if s != [] {
      FirstSplits(s[1..], since);
      if s[0].updatedAt >= since {
        assert forall k :: 0 <= k < |s| ==> s[k].updatedAt >= since;
        assert First(s[1..], since) == 0 by {
          assert |s| > 1 ==> s[1..][0] == s[1];
        }
        assert [s[0]] + s[1..] == s;
      } else {
        assert forall k :: 1 <= k < |s| ==> s[k] == s[1..][k - 1];
        assert s[1..][First(s[1..], since)..] == s[First(s, since)..];
      }
    }
  }

  lemma {:induction false} SinceInsert(o: Summary, s: seq<Summary>, since: int)
    requires Sorted(s)
    ensures Since(Insert(o, s), since) == if o.updatedAt >= since then Insert(o, Since(s, since)) else Since(s, since)
  {
    if s == [] || o.updatedAt <= s[0].updatedAt {
      assert ([o] + s)[1..] == s;
      if o.updatedAt >= since && s != [] {
        FirstSplits(s, since);
        assert Since(s, since) == s;
      }
    } else {
      SinceInsert(o, s[1..], since);
      assert ([s[0]] + Insert(o, s[1..]))[1..] == Insert(o, s[1..]);
      if s[0].updatedAt >= since {
        assert ([s[0]] + Since(s[1..], since))[1..] == Since(s[1..], since);
      }
    }
  }

  // Sorting the recent orders is the tail of sorting them all.
  lemma {:induction false} SortSince(orders: seq<Summary>, since: int)
    ensures Sort(Since(orders, since)) == Sort(orders)[First(Sort(orders), since)..]
  {
    SortCommutes(orders, since);
    SortFacts(orders);
    FirstSplits(Sort(orders), since);
  }

  lemma {:induction false} SortCommutes(orders: seq<Summary>, since: int)
    ensures Sort(Since(orders, since)) == Since(Sort(orders), since)
  {
    if orders != [] {
      SortCommutes(orders[1..], since);
      SortFacts(orders[1..]);
      SinceInsert(orders[0], Sort(orders[1..]), since);
      var rest := Since(orders[1..], since);
      if orders[0].updatedAt >= since {
        assert ([orders[0]] + rest)[1..] == rest;
      }
    }
  }

  // A page is a run of consecutive orders of the sorted list, starting at the first that is
  // recent enough; so it holds every order between `since` and its own last instant.
  lemma PageIsARun(orders: seq<Summary>, since: int, limit: nat)
    ensures var s := Sort(orders);
            var i := First(s, since);
            Page(orders, since, limit) == s[i..if i + limit <= |s| then i + limit else |s|]
  {
    SortSince(orders, since);
  }

  lemma SameElements(orders: seq<Summary>, o: Summary)
    ensures o in Sort(orders) <==> o in orders
  {
    SortFacts(orders);
    assert o in Sort(orders) <==> o in multiset(Sort(orders));
    assert o in orders <==> o in multiset(orders);
  }

  lemma PageElements(orders: seq<Summary>, since: int, limit: nat)
    ensures var page := Page(orders, since, limit);
            && Sorted(page)
            && (forall o :: o in page ==> o in orders && since <= o.updatedAt)
  {
    PageIsARun(orders, since, limit);
    SortFacts(orders);
    FirstSplits(Sort(orders), since);
    forall o | o in Page(orders, since, limit)
      ensures o in orders
    {
      SameElements(orders, o);
    }
  }

  lemma RunCovers(s: seq<Summary>, i: nat, j: nat, k: nat)
    requires Sorted(s) && i < j <= |s| && i <= k < |s|
    ensures s[i..j] != [] && (s[k].updatedAt < s[i..j][|s[i..j]| - 1].updatedAt ==> s[k] in s[i..j])
  {
    var run := s[i..j];
    assert run[|run| - 1] == s[j - 1];
    if k < j {
      assert run[k - i] == s[k];
    } else {
      assert s[j - 1].updatedAt <= s[k].updatedAt;
    }
  }

  ghost function IndexOf(s: seq<Summary>, o: Summary): (k: nat)
    requires o in s
    ensures k < |s| && s[k] == o
  {
    if s[0] == o then 0 else 1 + IndexOf(s[1..], o)
  }

  lemma PageCovers(orders: seq<Summary>, since: int, limit: nat, o: Summary)
    requires limit > 0 && o in orders && since <= o.updatedAt
    ensures var page := Page(orders, since, limit);
            page != [] && (o.updatedAt < page[|page| - 1].updatedAt ==> o in page)
  {
    var s := Sort(orders);
    var i := First(s, since);
    var j := if i + limit <= |s| then i + limit else |s|;
    PageIsARun(orders, since, limit);
    assert Page(orders, since, limit) == s[i..j];
    RecentAt(orders, since, o);
    var k := IndexOf(s, o);
    RunCovers(s, i, j, k);
  }

  lemma RecentAt(orders: seq<Summary>, since: int, o: Summary)
    requires o in orders && since <= o.updatedAt
    ensures var s := Sort(orders);
            Sorted(s) && o in s && First(s, since) <= IndexOf(s, o)
  {
    SortFacts(orders);
    SameElements(orders, o);
    FirstSplits(Sort(orders), since);
  }
}
