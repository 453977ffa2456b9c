// Orders of one customer at once. Sessions are keyed by order, so between the read and the
// write of one order's import (apps/functions/src/activities/customer-resolver.ts) another
// order may write the same book: the read an import merges with may be out of date.
module AddressBookSessions {
  import opened Common
  import opened AddressBook

  datatype Session = Session(billing: Option<Address>, shipping: Option<Address>, read: seq<Entry>)

  datatype Desk = Desk(book: Book, sessions: map<nat, Session>, nextId: nat)

  datatype Step =
    | Read(billing: Option<Address>, shipping: Option<Address>, read: seq<Entry>)
    | Write(id: nat)
    | Stop(id: nat)

  ghost predicate Enabled(d: Desk, step: Step) {
    match step
    case Read(_, _, read) => ReadOf(read, d.book)
    case Write(id) => id in d.sessions
    case Stop(id) => id in d.sessions
  }

  ghost function Apply(d: Desk, step: Step): Desk
    requires Enabled(d, step)
  {
    match step
    case Read(billing, shipping, read) =>
      Desk(d.book, d.sessions[d.nextId := Session(billing, shipping, read)], d.nextId + 1)
    case Write(id) =>
      var s := d.sessions[id];
      Desk(Import(d.book, s.billing, s.shipping, s.read), d.sessions - {id}, d.nextId)
    case Stop(id) => Desk(d.book, d.sessions - {id}, d.nextId)
  }

  ghost predicate Legal(d: Desk, run: seq<Step>)
    decreases run
  {
    run == [] || (Enabled(d, run[0]) && Legal(Apply(d, run[0]), run[1..]))
  }

  ghost function Exec(d: Desk, run: seq<Step>): Desk
    requires Legal(d, run)
    decreases run
  {
    if run == [] then d else Exec(Apply(d, run[0]), run[1..])
  }

  // ----- what stays true of a read -----

  ghost predicate Numbered(b: Book) {
    forall i :: i in b.rows ==> i < b.next
  }

  ghost predicate ReadRow(b: Book, e: Entry) {
    e.internalId in b.rows && b.rows[e.internalId].shopifyId == e.shopifyId
  }

  // What is left of a read once others have written: its rows are still there, with the stamps
  // they had, but their flags and names may have changed and there may be more rows.
  ghost predicate Dated(read: seq<Entry>, b: Book) {
    && DistinctIds(read)
    && forall k :: 0 <= k < |read| ==> ReadRow(b, read[k])
  }

  ghost predicate StampsStay(b: Book, c: Book) {
    b.next <= c.next && forall i :: i in b.rows ==> i in c.rows && c.rows[i].shopifyId == b.rows[i].shopifyId
  }

  lemma FreshRead(read: seq<Entry>, b: Book)
    requires ReadOf(read, b)
    ensures Dated(read, b) && IdsOf(read) == b.rows.Keys
  {
    forall i | i in b.rows
      ensures i in IdsOf(read)
    {
      assert EntryAt(i, b.rows[i]) in read;
    }
  }

  lemma MatchRow(b: Book, read: seq<Entry>, a: NsAddress)
    requires Dated(read, b)
    ensures Match(read, a).Some? ==> Holds(b, Match(read, a).value, a.stamp) && Match(read, a).value in IdsOf(read)
  {
    MatchEntry(read, a);
  }

  // The rows that were there keep their stamps; a row that was not there carries the stamp of
  // an address that matched none, and each such stamp is on one new row.
  ghost predicate Grown(b: Book, read: seq<Entry>, incs: seq<Incoming>, c: Book) {
    && Numbered(c) && StampsStay(b, c)
    && (forall i, s :: Added(b, c, i, s) ==> IsNew(read, incs, s))
    && (forall i, j, s :: Added(b, c, i, s) && Added(b, c, j, s) ==> i == j)
    && (forall s :: IsNew(read, incs, s) ==> exists i :: Added(b, c, i, s))
  }

  ghost predicate Added(b: Book, c: Book, i: nat, s: Option<string>) {
    i !in b.rows && Holds(c, i, s)
  }

  ghost predicate IsNew(read: seq<Entry>, incs: seq<Incoming>, s: Option<string>) {
    s.Some? && exists k :: 0 <= k < |incs| && Unmatched(read, incs[k], s)
  }

  ghost predicate Unmatched(read: seq<Entry>, i: Incoming, s: Option<string>) {
    i.address.stamp == s && Match(read, i.address).None?
  }

  lemma NewOrBefore(read: seq<Entry>, incs: seq<Incoming>, i: Incoming, s: Option<string>)
    ensures IsNew(read, incs + [i], s) <==> IsNew(read, incs, s) || (s.Some? && Unmatched(read, i, s))
  {
    var all := incs + [i];
    if s.Some? && Unmatched(read, i, s) {
      assert Unmatched(read, all[|incs|], s);
    }
    if IsNew(read, incs, s) {
      var k :| 0 <= k < |incs| && Unmatched(read, incs[k], s);
      assert Unmatched(read, all[k], s);
    }
  }

  lemma AddMatched(b: Book, read: seq<Entry>, incs: seq<Incoming>, c: Book, i: Incoming)
    requires Grown(b, read, incs, c) && Dated(read, b) && Match(read, i.address).Some?
    ensures Grown(b, read, incs + [i], WriteEntry(c, Emit(read, i)))
  {
    MatchRow(b, read, i.address);
    var d := WriteEntry(c, Emit(read, i));
    assert forall j, s :: Added(b, d, j, s) <==> Added(b, c, j, s);
    forall s
      ensures IsNew(read, incs + [i], s) <==> IsNew(read, incs, s)
    {
      NewOrBefore(read, incs, i, s);
    }
    forall s | IsNew(read, incs + [i], s)
      ensures exists j :: Added(b, d, j, s)
    {
      var j :| Added(b, c, j, s);
      assert Added(b, d, j, s);
    }
  }

  lemma AddUnmatched(b: Book, read: seq<Entry>, incs: seq<Incoming>, c: Book, i: Incoming)
    requires Grown(b, read, incs, c) && Match(read, i.address).None? && Numbered(b)
    requires forall k :: 0 <= k < |incs| && i.address.stamp.Some? ==> incs[k].address.stamp != i.address.stamp
    ensures Grown(b, read, incs + [i], WriteEntry(c, Emit(read, i)))
  {
    var d := WriteEntry(c, Emit(read, i));
    assert c.next !in c.rows && c.next !in b.rows;
    forall s | i.address.stamp == s && s.Some?
      ensures !IsNew(read, incs, s) && Unmatched(read, i, s) && Added(b, d, c.next, s)
    {
    }
    assert forall j, s ::
      Added(b, d, j, s) <==> Added(b, c, j, s) || (j == c.next && s.Some? && s == i.address.stamp);
    forall s
      ensures IsNew(read, incs + [i], s) <==> IsNew(read, incs, s) || (s.Some? && s == i.address.stamp)
    {
      NewOrBefore(read, incs, i, s);
    }
    forall s | IsNew(read, incs + [i], s)
      ensures exists j :: Added(b, d, j, s)
    {
      if IsNew(read, incs, s) {
        var j :| Added(b, c, j, s);
        assert Added(b, d, j, s);
      } else {
        assert Added(b, d, c.next, s);
      }
    }
  }

  lemma {:induction false} EmittedGrow(b: Book, read: seq<Entry>, incs: seq<Incoming>)
    requires Numbered(b) && Dated(read, b) && GoodStamps(incs)
    ensures Grown(b, read, incs, WriteAll(b, EmitAll(read, incs)))
  {
    if incs != [] {
      var n := |incs| - 1;
      var outs := EmitAll(read, incs);
      assert outs[..n] == EmitAll(read, incs[..n]) && incs == incs[..n] + [incs[n]];
      EmittedGrow(b, read, incs[..n]);
      var c := WriteAll(b, outs[..n]);
      if Match(read, incs[n].address).Some? {
        AddMatched(b, read, incs[..n], c, incs[n]);
      } else {
        AddUnmatched(b, read, incs[..n], c, incs[n]);
      }
    }
  }

  ghost predicate SameStamps(c: Book, d: Book) {
    && d.next == c.next && d.rows.Keys == c.rows.Keys
    && forall i :: i in c.rows ==> d.rows[i].shopifyId == c.rows[i].shopifyId
  }

  // The entries no address claimed are written without an address, so their stamps stay.
  lemma {:induction false} PreservedKeepStamps(c: Book, read: seq<Entry>, claimed: set<nat>)
    requires forall k :: 0 <= k < |read| ==> read[k].internalId in c.rows
    ensures SameStamps(c, WriteAll(c, Preserved(read, claimed)))
  {
    if read != [] {
      var n := |read| - 1;
      PreservedKeepStamps(c, read[..n], claimed);
      var outs := Preserved(read, claimed);
      if read[n].internalId in claimed {
        assert outs == Preserved(read[..n], claimed);
      } else {
        assert outs[..|outs| - 1] == Preserved(read[..n], claimed);
      }
    }
  }

  lemma SameStampsGrown(b: Book, read: seq<Entry>, incs: seq<Incoming>, c: Book, d: Book)
    requires Grown(b, read, incs, c) && SameStamps(c, d)
    ensures Grown(b, read, incs, d)
  {
    assert forall i, s :: Holds(c, i, s) <==> Holds(d, i, s);
    assert forall i, s :: Added(b, c, i, s) <==> Added(b, d, i, s);
  }

  lemma ImportGrows(b: Book, billing: Option<Address>, shipping: Option<Address>, read: seq<Entry>)
    requires Numbered(b) && Dated(read, b)
    ensures Grown(b, read, Incomings(billing, shipping), Import(b, billing, shipping, read))
  {
    var incs := Incomings(billing, shipping);
    var emitted := EmitAll(read, incs);
    IncomingStamps(billing, shipping);
    EmittedGrow(b, read, incs);
    if incs != [] {
      var c := WriteAll(b, emitted);
      WriteAllAppend(b, emitted, Preserved(read, ClaimedIds(emitted)));
      PreservedKeepStamps(c, read, ClaimedIds(emitted));
      SameStampsGrown(b, read, incs, c, Import(b, billing, shipping, read));
    }
  }

  // ----- the invariant -----

  ghost predicate Inv(d: Desk) {
    && Numbered(d.book)
    && (forall i :: i in d.sessions ==> Dated(d.sessions[i].read, d.book))
  }

  lemma DatedStays(read: seq<Entry>, b: Book, c: Book)
    requires Dated(read, b) && StampsStay(b, c)
    ensures Dated(read, c)
  {
    forall k | 0 <= k < |read|
      ensures ReadRow(c, read[k])
    {
      assert ReadRow(b, read[k]);
    }
  }

  lemma StepKeepsInv(d: Desk, step: Step)
    requires Inv(d) && Enabled(d, step)
    ensures Inv(Apply(d, step))
  {
    match step {
      case Read(_, _, read) =>
        FreshRead(read, d.book);
      case Write(id) =>
        var s := d.sessions[id];
        ImportGrows(d.book, s.billing, s.shipping, s.read);
        forall i | i in d.sessions
          ensures Dated(d.sessions[i].read, Apply(d, step).book)
        {
          DatedStays(d.sessions[i].read, d.book, Apply(d, step).book);
        }
      case Stop(_) =>
    }
  }

  // However the orders of a customer interleave, every row an order has read is still there,
  // under the stamp it was read with, when the order writes.
  lemma {:induction false} RunKeepsInv(d: Desk, run: seq<Step>)
    requires Inv(d) && Legal(d, run)
    ensures Inv(Exec(d, run))
    decreases run
  {
    if run != [] {
      StepKeepsInv(d, run[0]);
      RunKeepsInv(Apply(d, run[0]), run[1..]);
    }
  }

  // ----- the defaults a write leaves -----

  datatype Kind = Billing | Shipping

  predicate Flag(r: Stored, kind: Kind) {
    if kind.Billing? then r.defaultBilling else r.defaultShipping
  }

  predicate Sends(o: OutEntry, kind: Kind) {
    if kind.Billing? then o.defaultBilling else o.defaultShipping
  }

  function Sent(outs: seq<OutEntry>, kind: Kind): nat {
    if kind.Billing? then BillingDefaults(outs) else ShippingDefaults(outs)
  }

  ghost function Defaults(b: Book, kind: Kind): set<nat> {
    set i | i in b.rows && Flag(b.rows[i], kind)
  }

  // Defaults that go to a row of their own.
  function SentToNew(outs: seq<OutEntry>, kind: Kind): nat {
    if outs == [] then 0
    else
      var o := outs[|outs| - 1];
      SentToNew(outs[..|outs| - 1], kind) + (if o.id.None? && Sends(o, kind) then 1 else 0)
  }

  ghost predicate SentOnce(b: Book, outs: seq<OutEntry>) {
    forall i :: TimesSent(outs, i) <= if i in b.rows then 1 else 0
  }

  ghost function Named(b: Book, outs: seq<OutEntry>): set<nat> {
    set i | i in b.rows && TimesSent(outs, i) > 0
  }

  // Rows that are not named are as they were.
  ghost predicate RestStays(b: Book, outs: seq<OutEntry>, c: Book) {
    && Numbered(c) && b.rows.Keys <= c.rows.Keys && b.next <= c.next
    && (forall i :: i in b.rows && i !in Named(b, outs) ==> c.rows[i] == b.rows[i])
  }

  // The defaults are those of the rows not named and those that were sent.
  ghost predicate Counted(b: Book, outs: seq<OutEntry>, c: Book, kind: Kind) {
    && |Defaults(c, kind)| == |Defaults(b, kind) - Named(b, outs)| + Sent(outs, kind)
    && |Defaults(c, kind) - b.rows.Keys| == SentToNew(outs, kind)
  }

  lemma WriteFlag(c: Book, o: OutEntry, kind: Kind)
    requires Numbered(c) && (o.id.Some? ==> o.id.value in c.rows)
    ensures var at := if o.id.Some? then o.id.value else c.next;
            Defaults(WriteEntry(c, o), kind) ==
            if Sends(o, kind) then Defaults(c, kind) + {at} else Defaults(c, kind) - {at}
  {
  }

  lemma TimesStep(init: seq<OutEntry>, o: OutEntry, i: nat)
    ensures TimesSent(init + [o], i) == TimesSent(init, i) + if o.id == Some(i) then 1 else 0
  {
    assert (init + [o])[..|init|] == init;
  }

  lemma NamedStep(b: Book, init: seq<OutEntry>, o: OutEntry)
    requires SentOnce(b, init + [o])
    ensures SentOnce(b, init)
    ensures o.id.Some? ==> o.id.value !in Named(b, init) && o.id.value in b.rows
    ensures Named(b, init + [o]) == Named(b, init) + (if o.id.Some? then {o.id.value} else {})
  {
    forall i: nat
      ensures TimesSent(init + [o], i) == TimesSent(init, i) + if o.id == Some(i) then 1 else 0
      ensures TimesSent(init + [o], i) <= if i in b.rows then 1 else 0
    {
      TimesStep(init, o, i);
    }
  }

  lemma WithOne(s: set<nat>, x: nat)
    ensures |s + {x}| == |s| + (if x in s then 0 else 1)
    ensures |s - {x}| == |s| - (if x in s then 1 else 0)
  {
    assert if x in s then s + {x} == s else s - {x} == s;
    assert x in s ==> |s - {x}| + 1 == |(s - {x}) + {x}| && (s - {x}) + {x} == s;
  }

  lemma SentStep(init: seq<OutEntry>, o: OutEntry, kind: Kind)
    ensures Sent(init + [o], kind) == Sent(init, kind) + (if Sends(o, kind) then 1 else 0)
    ensures SentToNew(init + [o], kind) == SentToNew(init, kind) + (if o.id.None? && Sends(o, kind) then 1 else 0)
  {
    assert (init + [o])[..|init|] == init;
  }

  lemma RestStep(b: Book, init: seq<OutEntry>, c: Book, o: OutEntry)
    requires RestStays(b, init, c) && SentOnce(b, init + [o])
    ensures RestStays(b, init + [o], WriteEntry(c, o))
  {
    NamedStep(b, init, o);
  }

  // One row written over: its old default goes, and the one sent comes.
  lemma WrittenOver(now: set<nat>, before: set<nat>, named: set<nat>, i: nat, sent: nat)
    requires |now| == |before - named| + sent && i !in named && (i in now <==> i in before)
    ensures |now - {i}| == |before - (named + {i})| + sent
    ensures |now + {i}| == |before - (named + {i})| + sent + 1
  {
    var kept := before - named;
    assert before - (named + {i}) == kept - {i};
    assert i in kept <==> i in before;
    WithOne(now, i);
    WithOne(kept, i);
  }

  lemma StillApart(now: set<nat>, keys: set<nat>, i: nat)
    requires i in keys
    ensures (now + {i}) - keys == (now - {i}) - keys == now - keys
  {
  }

  lemma CountNamed(b: Book, init: seq<OutEntry>, c: Book, o: OutEntry, kind: Kind)
    requires RestStays(b, init, c) && Counted(b, init, c, kind) && SentOnce(b, init + [o]) && o.id.Some?
    ensures Counted(b, init + [o], WriteEntry(c, o), kind)
  {
    NamedStep(b, init, o);
    SentStep(init, o, kind);
    WriteFlag(c, o, kind);
    SameFlag(b, init, c, o.id.value, kind);
    WrittenOver(Defaults(c, kind), Defaults(b, kind), Named(b, init), o.id.value, Sent(init, kind));
    StillApart(Defaults(c, kind), b.rows.Keys, o.id.value);
  }

  lemma SameFlag(b: Book, init: seq<OutEntry>, c: Book, i: nat, kind: Kind)
    requires RestStays(b, init, c) && i in b.rows && i !in Named(b, init)
    ensures i in Defaults(c, kind) <==> i in Defaults(b, kind)
  {
    assert c.rows[i] == b.rows[i];
  }

  // One row more.
  lemma NewOne(now: set<nat>, keys: set<nat>, i: nat)
    requires i !in now && i !in keys
    ensures now - {i} == now && |now + {i}| == |now| + 1
    ensures |(now + {i}) - keys| == |now - keys| + 1
  {
    assert (now + {i}) - keys == (now - keys) + {i};
  }

  lemma CountNew(b: Book, init: seq<OutEntry>, c: Book, o: OutEntry, kind: Kind)
    requires Numbered(b) && RestStays(b, init, c) && Counted(b, init, c, kind)
    requires SentOnce(b, init + [o]) && o.id.None?
    ensures Counted(b, init + [o], WriteEntry(c, o), kind)
  {
    NamedStep(b, init, o);
    SentStep(init, o, kind);
    WriteFlag(c, o, kind);
    NotThere(b, c, kind);
    NewOne(Defaults(c, kind), b.rows.Keys, c.next);
    NoneMore(Named(b, init));
  }

  lemma NotThere(b: Book, c: Book, kind: Kind)
    requires Numbered(b) && Numbered(c) && b.next <= c.next
    ensures c.next !in Defaults(c, kind) && c.next !in b.rows.Keys
  {
  }

  lemma NoneMore(s: set<nat>)
    ensures s + {} == s
  {
  }

  lemma NothingSent(b: Book, kind: Kind)
    ensures Counted(b, [], b, kind)
  {
    assert Defaults(b, kind) - Named(b, []) == Defaults(b, kind);
    assert Defaults(b, kind) - b.rows.Keys == {};
  }

  lemma {:induction false} WritesCount(b: Book, outs: seq<OutEntry>, kind: Kind)
    requires Numbered(b) && SentOnce(b, outs)
    ensures RestStays(b, outs, WriteAll(b, outs)) && Counted(b, outs, WriteAll(b, outs), kind)
  {
    if outs == [] {
      NothingSent(b, kind);
    } else {
      var n := |outs| - 1;
      var init, o := outs[..n], outs[n];
      assert outs == init + [o];
      NamedStep(b, init, o);
      WritesCount(b, init, kind);
      RestStep(b, init, WriteAll(b, init), o);
      if o.id.Some? {
        CountNamed(b, init, WriteAll(b, init), o, kind);
      } else {
        CountNew(b, init, WriteAll(b, init), o, kind);
      }
    }
  }

  // The address of the order that takes the default of this kind.
  function Taker(billing: Option<Address>, shipping: Option<Address>, kind: Kind): NsAddress
    requires Incomings(billing, shipping) != []
  {
    var incs := Incomings(billing, shipping);
    (if kind.Billing? then incs[0] else incs[|incs| - 1]).address
  }

  lemma NewOfTwo(x: OutEntry, y: OutEntry, kind: Kind)
    ensures SentToNew([x], kind) == (if x.id.None? && Sends(x, kind) then 1 else 0)
    ensures SentToNew([x, y], kind) == SentToNew([x], kind) + (if y.id.None? && Sends(y, kind) then 1 else 0)
  {
    assert [x][..0] == [] && [x, y][..1] == [x];
  }

  lemma EmittedToNew(read: seq<Entry>, billing: Option<Address>, shipping: Option<Address>, kind: Kind)
    requires Incomings(billing, shipping) != []
    ensures SentToNew(EmitAll(read, Incomings(billing, shipping)), kind) ==
            if Match(read, Taker(billing, shipping, kind)).None? then 1 else 0
  {
    var incs := Incomings(billing, shipping);
    var outs := EmitAll(read, incs);
    if |incs| == 1 {
      assert outs == [outs[0]];
      NewOfTwo(outs[0], outs[0], kind);
    } else {
      assert outs == [outs[0], outs[1]];
      NewOfTwo(outs[0], outs[1], kind);
    }
  }

  lemma {:induction false} PreservedToNew(xs: seq<OutEntry>, read: seq<Entry>, claimed: set<nat>, kind: Kind)
    ensures SentToNew(xs + Preserved(read, claimed), kind) == SentToNew(xs, kind)
  {
    if read == [] {
      assert xs + Preserved(read, claimed) == xs;
    } else {
      var n := |read| - 1;
      PreservedToNew(xs, read[..n], claimed, kind);
      var outs, before := Preserved(read, claimed), Preserved(read[..n], claimed);
      if read[n].internalId in claimed {
        assert outs == before;
      } else {
        assert xs + outs == (xs + before) + [outs[|outs| - 1]];
        SentStep(xs + before, outs[|outs| - 1], kind);
      }
    }
  }

  // However old its read is, an import that has an address to write leaves one default of each
  // kind and those on rows its read did not list; a default sits on a row of the import's own
  // exactly when the address that takes it matched none.
  lemma ImportDefaults(b: Book, billing: Option<Address>, shipping: Option<Address>, read: seq<Entry>, kind: Kind)
    requires Numbered(b) && Dated(read, b) && Incomings(billing, shipping) != []
    ensures var c := Import(b, billing, shipping, read);
            && |Defaults(c, kind)| == 1 + |Defaults(b, kind) - IdsOf(read)|
            && |Defaults(c, kind) - b.rows.Keys| ==
               (if Match(read, Taker(billing, shipping, kind)).None? then 1 else 0)
  {
    var outs := Merge(billing, shipping, read);
    var emitted := EmitAll(read, Incomings(billing, shipping));
    MergedBookShape(billing, shipping, read);
    forall i | i in IdsOf(read)
      ensures i in b.rows
    {
      var k :| 0 <= k < |read| && read[k].internalId == i;
      assert ReadRow(b, read[k]);
    }
    assert Named(b, outs) == IdsOf(read);
    WritesCount(b, outs, kind);
    EmittedToNew(read, billing, shipping, kind);
    PreservedToNew(emitted, read, ClaimedIds(emitted), kind);
  }

  // ----- the main results -----

  // A row of the book that the read does not list carries this stamp.
  ghost predicate Missed(b: Book, read: seq<Entry>, s: Option<string>) {
    exists i :: i !in IdsOf(read) && Holds(b, i, s)
  }

  lemma UnmatchedIsMissed(b: Book, read: seq<Entry>, a: NsAddress)
    requires Dated(read, b) && a.stamp.Some? && a.stamp.value != ""
    ensures Match(read, a).None? <==> forall i :: Holds(b, i, a.stamp) ==> i !in IdsOf(read)
  {
    LastStampedHolds(read, a.stamp.value);
    MatchRow(b, read, a);
    forall e | e in read && Holds(b, e.internalId, a.stamp)
      ensures e.shopifyId == a.stamp
    {
      var k :| 0 <= k < |read| && read[k] == e;
      assert ReadRow(b, read[k]);
    }
  }

  // The book has two rows of one Shopify address after an import if and only if a row of one of
  // the addresses was not in the read.
  lemma StampsDistinctIff(b: Book, billing: Option<Address>, shipping: Option<Address>, read: seq<Entry>)
    requires ValidBook(b) && Dated(read, b)
    ensures var incs := Incomings(billing, shipping);
            ValidBook(Import(b, billing, shipping, read)) <==>
            forall k :: 0 <= k < |incs| ==> !Missed(b, read, incs[k].address.stamp)
  {
    var incs := Incomings(billing, shipping);
    var c := Import(b, billing, shipping, read);
    IncomingStamps(billing, shipping);
    ImportGrows(b, billing, shipping, read);
    if k :| 0 <= k < |incs| && Missed(b, read, incs[k].address.stamp) {
      MissedTwice(b, read, incs, c, k);
    } else {
      NoneMissed(b, read, incs, c);
    }
  }

  lemma MissedTwice(b: Book, read: seq<Entry>, incs: seq<Incoming>, c: Book, k: nat)
    requires ValidBook(b) && Dated(read, b) && GoodStamps(incs) && Grown(b, read, incs, c)
    requires k < |incs| && Missed(b, read, incs[k].address.stamp)
    ensures !ValidBook(c)
  {
    var s := incs[k].address.stamp;
    var i :| i !in IdsOf(read) && Holds(b, i, s);
    UnmatchedIsMissed(b, read, incs[k].address);
    assert Unmatched(read, incs[k], s);
    assert IsNew(read, incs, s);
    var j :| Added(b, c, j, s);
    assert Holds(c, i, s) && Holds(c, j, s);
  }

  lemma NoneMissed(b: Book, read: seq<Entry>, incs: seq<Incoming>, c: Book)
    requires ValidBook(b) && Dated(read, b) && GoodStamps(incs) && Grown(b, read, incs, c)
    requires forall k :: 0 <= k < |incs| ==> !Missed(b, read, incs[k].address.stamp)
    ensures ValidBook(c)
  {
    forall i, s | Holds(c, i, s)
      ensures if i in b.rows then Holds(b, i, s) else Added(b, c, i, s)
      ensures i !in b.rows ==> s.value != "" && forall j :: !Holds(b, j, s)
    {
      if i !in b.rows {
        assert Added(b, c, i, s);
        NewHasNoRow(b, read, incs, s);
      }
    }
  }

  lemma NewHasNoRow(b: Book, read: seq<Entry>, incs: seq<Incoming>, s: Option<string>)
    requires Dated(read, b) && GoodStamps(incs) && IsNew(read, incs, s)
    requires forall k :: 0 <= k < |incs| ==> !Missed(b, read, incs[k].address.stamp)
    ensures s.value != "" && forall j :: !Holds(b, j, s)
  {
    var k :| 0 <= k < |incs| && Unmatched(read, incs[k], s);
    UnmatchedIsMissed(b, read, incs[k].address);
  }

  const OPEN := Desk(Book(map[], 0), map[], 0)

  lemma NothingLeft(a: set<nat>, b: set<nat>)
    ensures |a - b| == 0 <==> a <= b
  {
    assert forall x :: x in a - b <==> x in a && x !in b;
  }

  // In any run of any number of orders of one customer, a write leaves exactly one default of
  // each kind if and only if its read listed every row that has one, and two rows of one
  // Shopify address exactly when it missed a row of one of its own.
  lemma WriteInAnyRun(run: seq<Step>, id: nat, kind: Kind)
    requires Legal(OPEN, run) && id in Exec(OPEN, run).sessions
    requires var s := Exec(OPEN, run).sessions[id]; Incomings(s.billing, s.shipping) != []
    ensures var d := Exec(OPEN, run);
            var s, c := d.sessions[id], Apply(d, Write(id)).book;
            var incs := Incomings(s.billing, s.shipping);
            && (|Defaults(c, kind)| == 1 <==> Defaults(d.book, kind) <= IdsOf(s.read))
            && (ValidBook(d.book) ==>
                  (ValidBook(c) <==> forall k :: 0 <= k < |incs| ==> !Missed(d.book, s.read, incs[k].address.stamp)))
  {
    RunKeepsInv(OPEN, run);
    var d := Exec(OPEN, run);
    var s := d.sessions[id];
    ImportDefaults(d.book, s.billing, s.shipping, s.read, kind);
    NothingLeft(Defaults(d.book, kind), IdsOf(s.read));
    if ValidBook(d.book) {
      StampsDistinctIff(d.book, s.billing, s.shipping, s.read);
    }
  }

  // Two orders that read the same book and then write one after the other leave one default of
  // a kind if the first order's default went to a row that was there, and two if it did not.
  lemma TwoOrdersIff(b: Book, one: Session, two: Session, kind: Kind)
    requires Numbered(b) && ReadOf(one.read, b) && ReadOf(two.read, b)
    requires Incomings(one.billing, one.shipping) != [] && Incomings(two.billing, two.shipping) != []
    ensures var c := Import(Import(b, one.billing, one.shipping, one.read), two.billing, two.shipping, two.read);
            |Defaults(c, kind)| == if Match(one.read, Taker(one.billing, one.shipping, kind)).Some? then 1 else 2
  {
    var c := Import(b, one.billing, one.shipping, one.read);
    FreshRead(one.read, b);
    FreshRead(two.read, b);
    ImportGrows(b, one.billing, one.shipping, one.read);
    ImportDefaults(b, one.billing, one.shipping, one.read, kind);
    DatedStays(two.read, b, c);
    ImportDefaults(c, two.billing, two.shipping, two.read, kind);
  }

  // A customer's first two orders, to the same address: both read the empty book before either
  // writes, and the address is in the book twice, each time as both defaults.
  lemma SameAddressTwice(gid: string, street: string)
    requires gid != "" && street != ""
    ensures var a := Some(Address(Some(gid), street, "", "", ""));
            var run := [Read(a, None, []), Read(a, None, []), Write(0), Write(1)];
            && Legal(OPEN, run)
            && var b := Exec(OPEN, run).book;
               && !ValidBook(b)
               && forall kind :: Defaults(b, kind) == {0, 1}
  {
    var a := Some(Address(Some(gid), street, "", "", ""));
    var row := Stored(Some(gid), true, true, Some("Billing"), ToNs(a));
    var run := [Read(a, None, []), Read(a, None, []), Write(0), Write(1)];
    var s := Session(a, None, []);
    var d1 := Desk(OPEN.book, map[0 := s], 1);
    var d2 := Desk(OPEN.book, map[0 := s, 1 := s], 2);
    var d3 := Desk(Book(map[0 := row], 1), map[1 := s], 2);
    var d4 := Desk(Book(map[0 := row, 1 := row], 2), map[], 2);
    FirstRow(a, gid, street, d2.book);
    FirstRow(a, gid, street, d3.book);
    assert ReadOf([], OPEN.book);
    assert Apply(OPEN, run[0]) == d1 && Apply(d1, run[1]) == d2 && Apply(d2, run[2]) == d3 && Apply(d3, run[3]) == d4;
    FourSteps(OPEN, d1, d2, d3, run);
    assert Holds(d4.book, 0, Some(gid)) && Holds(d4.book, 1, Some(gid));
  }

  lemma {:induction false} OneStepOn(d: Desk, run: seq<Step>, step: Step)
    requires Legal(d, run) && Enabled(Exec(d, run), step)
    ensures Legal(d, run + [step]) && Exec(d, run + [step]) == Apply(Exec(d, run), step)
    decreases run
  {
    var all := run + [step];
    if run == [] {
      assert all[1..] == [];
      assert Legal(Apply(d, step), all[1..]);
    } else {
      OneStepOn(Apply(d, run[0]), run[1..], step);
      assert all[1..] == run[1..] + [step];
    }
  }

  lemma FourSteps(d0: Desk, d1: Desk, d2: Desk, d3: Desk, run: seq<Step>)
    requires |run| == 4 && Enabled(d0, run[0]) && Apply(d0, run[0]) == d1
    requires Enabled(d1, run[1]) && Apply(d1, run[1]) == d2
    requires Enabled(d2, run[2]) && Apply(d2, run[2]) == d3 && Enabled(d3, run[3])
    ensures Legal(d0, run) && Exec(d0, run) == Apply(d3, run[3])
  {
    assert run[..0] == [] && run[..1] == [] + [run[0]] && run[..2] == run[..1] + [run[1]];
    assert run[..3] == run[..2] + [run[2]] && run == run[..3] + [run[3]];
    OneStepOn(d0, [], run[0]);
    OneStepOn(d0, run[..1], run[1]);
    OneStepOn(d0, run[..2], run[2]);
    OneStepOn(d0, run[..3], run[3]);
  }

  lemma FirstRow(a: Option<Address>, gid: string, street: string, b: Book)
    requires gid != "" && street != "" && a == Some(Address(Some(gid), street, "", "", ""))
    ensures Import(b, a, None, []) ==
            Book(b.rows[b.next := Stored(Some(gid), true, true, Some("Billing"), ToNs(a))], b.next + 1)
  {
    var incs := Incomings(a, None);
    assert incs == [Incoming(ToNs(a).value, true, true, "Billing")];
    var o := OutEntry(None, true, true, Some("Billing"), ToNs(a));
    assert Emit([], incs[0]) == o;
    assert EmitAll([], incs) == [o];
    assert Merge(a, None, []) == [o];
    assert [o][..0] == [];
    assert WriteAll(b, [o][..0]) == b;
    assert WriteAll(b, [o]) == WriteEntry(b, o);
  }
}
