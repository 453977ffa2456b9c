// apps/functions/src/activities/customer-resolver.ts, buildAddressbookMerged: merge an order's
// addresses into the customer's NetSuite address book, matching on the Shopify address id
// stamped on each entry.
module AddressBook {
  import opened Common

  // An absent text field and an empty one are treated alike by the source.
  datatype Address = Address(id: Option<string>, address1: string, city: string, zip: string, rest: string)

  datatype NsAddress = NsAddress(stamp: Option<string>, address1: string, city: string, zip: string, rest: string)

  // One row of the address book as it is read. Internal ids are numbers here.
  datatype Entry = Entry(
    internalId: nat, shopifyId: Option<string>, defaultBilling: bool, defaultShipping: bool, name: Option<string>)

  // One row of the address book as it is written.
  datatype OutEntry = OutEntry(
    id: Option<nat>, defaultBilling: bool, defaultShipping: bool, name: Option<string>, address: Option<NsAddress>)

  predicate Truthy(s: Option<string>) {
    s.Some? && s.value != ""
  }

  // shopifyAddressToNs with the id field set; None for an address without content.
  function ToNs(a: Option<Address>): Option<NsAddress> {
    if a.Some? && (a.value.address1 != "" || a.value.city != "" || a.value.zip != "")
    then Some(NsAddress(if Truthy(a.value.id) then a.value.id else None,
                        a.value.address1, a.value.city, a.value.zip, a.value.rest))
    else None
  }

  // ----- what the merge emits -----

  // An address of the order on its way into the book.
  datatype Incoming = Incoming(address: NsAddress, defaultBilling: bool, defaultShipping: bool, name: string)

  predicate SameIds(billing: Option<Address>, shipping: Option<Address>) {
    billing.Some? && shipping.Some? && billing.value.id.Some? && billing.value.id == shipping.value.id
  }

  function Incomings(billing: Option<Address>, shipping: Option<Address>): seq<Incoming> {
    var b, s := ToNs(billing), ToNs(shipping);
    if SameIds(billing, shipping) && b.Some? then [Incoming(b.value, true, true, "Default")]
    else
      (if b.Some? then [Incoming(b.value, true, s.None?, "Billing")] else []) +
      (if s.Some? then [Incoming(s.value, b.None?, true, "Shipping")] else [])
  }

  // The last entry with this stamp, as the map built by successive sets keeps it.
  function LastStamped(existing: seq<Entry>, gid: string): Option<Entry> {
    if existing == [] then None
    else
      var e := existing[|existing| - 1];
      if Truthy(e.shopifyId) && e.shopifyId.value == gid then Some(e)
      else LastStamped(existing[..|existing| - 1], gid)
  }

  function Match(existing: seq<Entry>, a: NsAddress): Option<nat> {
    if a.stamp.None? then None
    else
      var e := LastStamped(existing, a.stamp.value);
      if e.Some? then Some(e.value.internalId) else None
  }

  function Emit(existing: seq<Entry>, i: Incoming): OutEntry {
    OutEntry(Match(existing, i.address), i.defaultBilling, i.defaultShipping, Some(i.name), Some(i.address))
  }

  function EmitAll(existing: seq<Entry>, incoming: seq<Incoming>): seq<OutEntry> {
    seq(|incoming|, k requires 0 <= k < |incoming| => Emit(existing, incoming[k]))
  }

  function ClaimedIds(outs: seq<OutEntry>): set<nat> {
    set o | o in outs && o.id.Some? :: o.id.value
  }

  // Entries no incoming address claimed, with both default flags unset.
  function Preserved(existing: seq<Entry>, claimed: set<nat>): seq<OutEntry> {
    if existing == [] then []
    else
      var e := existing[|existing| - 1];
      Preserved(existing[..|existing| - 1], claimed) +
      (if e.internalId in claimed then []
       else [OutEntry(Some(e.internalId), false, false, if Truthy(e.name) then e.name else None, None)])
  }

  function Merge(billing: Option<Address>, shipping: Option<Address>, existing: seq<Entry>): seq<OutEntry> {
    var emitted := EmitAll(existing, Incomings(billing, shipping));
    if emitted == [] then [] else emitted + Preserved(existing, ClaimedIds(emitted))
  }

  // ----- what is sent, address by address -----

  predicate Content(a: Option<Address>) {
    a.Some? && !(a.value.address1 == "" && a.value.city == "" && a.value.zip == "")
  }

  // The row carries this address, all of it, stamped with its id if it has one.
  ghost predicate Carries(o: OutEntry, a: Option<Address>) {
    && a.Some? && o.address.Some?
    && o.address.value.address1 == a.value.address1
    && o.address.value.city == a.value.city
    && o.address.value.zip == a.value.zip
    && o.address.value.rest == a.value.rest
    && o.address.value.stamp == (if a.value.id == Some("") then None else a.value.id)
  }

  // The order's billing address is the default for billing and its shipping address that for
  // shipping; one alone is both, and so is the billing address when the two have the same id.
  ghost predicate DefaultsPlaced(outs: seq<OutEntry>, billing: Option<Address>, shipping: Option<Address>) {
    var one := && Content(billing) && shipping.Some?
               && billing.value.id.Some? && billing.value.id == shipping.value.id;
    && (forall o :: o in outs && o.defaultBilling ==>
          && Carries(o, if Content(billing) then billing else shipping)
          && o.name == Some(if one then "Default" else if Content(billing) then "Billing" else "Shipping"))
    && (forall o :: o in outs && o.defaultShipping ==>
          && Carries(o, if one || !Content(shipping) then billing else shipping)
          && o.name == Some(if one then "Default" else if Content(shipping) then "Shipping" else "Billing"))
    && (forall o :: o in outs && o.address.Some? ==> o.defaultBilling || o.defaultShipping)
  }

  lemma EmittedPlaced(existing: seq<Entry>, billing: Option<Address>, shipping: Option<Address>)
    ensures DefaultsPlaced(EmitAll(existing, Incomings(billing, shipping)), billing, shipping)
  {
  }

  lemma {:induction false} PreservedSays(existing: seq<Entry>, claimed: set<nat>)
    ensures forall o :: o in Preserved(existing, claimed) ==>
              && !o.defaultBilling && !o.defaultShipping && o.address.None?
              && exists e :: e in existing && o.id == Some(e.internalId) && e.internalId !in claimed
                             && o.name == if e.name == Some("") then None else e.name
  {
    if existing != [] {
      var n := |existing| - 1;
      PreservedSays(existing[..n], claimed);
      assert existing == existing[..n] + [existing[n]];
    }
  }

  // Nothing is sent when neither address has content. Otherwise the defaults are where they
  // belong, each address of the order goes into the last row that has its id, or a new one if
  // none has, and every other row is an old one, sent without an address and under its name.
  lemma MergeSays(billing: Option<Address>, shipping: Option<Address>, existing: seq<Entry>)
    ensures var outs := Merge(billing, shipping, existing);
            && DefaultsPlaced(outs, billing, shipping)
            && (outs == [] <==> !Content(billing) && !Content(shipping))
            && (forall o :: o in outs && o.address.Some? ==> FoundById(existing, o))
            && (forall o :: o in outs && o.address.None? ==>
                  exists e :: e in existing && o.id == Some(e.internalId)
                              && o.name == if e.name == Some("") then None else e.name)
  {
    var emitted := EmitAll(existing, Incomings(billing, shipping));
    EmittedPlaced(existing, billing, shipping);
    PreservedSays(existing, ClaimedIds(emitted));
    forall o | o in emitted
      ensures o.address.Some? && FoundById(existing, o)
    {
      MatchIsLast(existing, o.address.value);
    }
  }

  // The row's id is that of the last entry read with the address's stamp, if there is one.
  ghost predicate FoundById(existing: seq<Entry>, o: OutEntry)
    requires o.address.Some?
  {
    var stamp := o.address.value.stamp;
    if o.id.Some? then
      exists k :: 0 <= k < |existing| && LastWith(existing, k, stamp) && existing[k].internalId == o.id.value
    else
      forall k :: 0 <= k < |existing| ==> !LastWith(existing, k, stamp)
  }

  // Entry k has this stamp, which is not empty, and no later one has.
  ghost predicate LastWith(existing: seq<Entry>, k: nat, stamp: Option<string>)
    requires k < |existing|
  {
    && stamp.Some? && stamp.value != "" && existing[k].shopifyId == stamp
    && forall l :: k < l < |existing| ==> existing[l].shopifyId != stamp
  }

  lemma {:induction false} LastStampedIsLast(existing: seq<Entry>, gid: string)
    ensures LastStamped(existing, gid).Some? ==>
              exists k :: 0 <= k < |existing| && LastWith(existing, k, Some(gid))
                          && existing[k] == LastStamped(existing, gid).value
    ensures LastStamped(existing, gid).None? ==>
              forall k :: 0 <= k < |existing| ==> !LastWith(existing, k, Some(gid))
  {
    if existing != [] {
      var n := |existing| - 1;
      if Truthy(existing[n].shopifyId) && existing[n].shopifyId.value == gid {
        assert LastWith(existing, n, Some(gid));
      } else {
        LastStampedIsLast(existing[..n], gid);
        forall k | 0 <= k < n
          ensures LastWith(existing, k, Some(gid)) <==> LastWith(existing[..n], k, Some(gid))
        {
        }
      }
    }
  }

  lemma MatchIsLast(existing: seq<Entry>, a: NsAddress)
    ensures forall o: OutEntry :: o.address == Some(a) && o.id == Match(existing, a) ==> FoundById(existing, o)
  {
    if a.stamp.Some? {
      LastStampedIsLast(existing, a.stamp.value);
    }
  }

  // ----- the loops of the source -----

  ghost predicate Indexes(byShopifyId: map<string, Entry>, existing: seq<Entry>) {
    && (forall g :: g in byShopifyId <==> LastStamped(existing, g).Some?)
    && (forall g :: g in byShopifyId ==> LastStamped(existing, g) == Some(byShopifyId[g]))
  }

  method IndexByShopifyId(existing: seq<Entry>) returns (byShopifyId: map<string, Entry>)
    ensures Indexes(byShopifyId, existing)
  {
    byShopifyId := map[];
    for i := 0 to |existing|
      invariant Indexes(byShopifyId, existing[..i])
    {
      var e := existing[i];
      assert existing[..i + 1][..i] == existing[..i];
      if e.shopifyId.Some? && e.shopifyId.value != "" {
        byShopifyId := byShopifyId[e.shopifyId.value := e];
      }
    }
    assert existing[..|existing|] == existing;
  }

  method Lookup(byShopifyId: map<string, Entry>, id: Option<string>, ghost a: NsAddress, ghost existing: seq<Entry>)
    returns (matched: Option<nat>)
    requires Indexes(byShopifyId, existing)
    requires a.stamp == if Truthy(id) then id else None
    ensures matched == Match(existing, a)
  {
    if id.Some? && id.value != "" && id.value in byShopifyId {
      return Some(byShopifyId[id.value].internalId);
    }
    return None;
  }

  // The entries for the order's own addresses, and the existing entries they claim.
  method EmitIncoming(billing: Option<Address>, shipping: Option<Address>,
                      byShopifyId: map<string, Entry>, ghost existing: seq<Entry>)
    returns (out: seq<OutEntry>, claimed: set<nat>)
    requires Indexes(byShopifyId, existing)
    ensures out == EmitAll(existing, Incomings(billing, shipping))
    ensures DefaultsPlaced(out, billing, shipping)
    ensures claimed == ClaimedIds(out)
  {
    var sameIds := billing.Some? && shipping.Some? && billing.value.id.Some? && shipping.value.id.Some?
                   && billing.value.id.value == shipping.value.id.value;
    if sameIds && ToNs(billing).Some? {
      out, claimed := EmitShared(billing, shipping, byShopifyId, existing);
    } else {
      out, claimed := EmitSeparate(billing, shipping, byShopifyId, existing);
    }
    EmittedPlaced(existing, billing, shipping);
  }

  // Both addresses are one, by their id.
  method EmitShared(billing: Option<Address>, ghost shipping: Option<Address>,
                    byShopifyId: map<string, Entry>, ghost existing: seq<Entry>)
    returns (out: seq<OutEntry>, claimed: set<nat>)
    requires Indexes(byShopifyId, existing) && SameIds(billing, shipping) && ToNs(billing).Some?
    ensures out == EmitAll(existing, Incomings(billing, shipping))
    ensures claimed == ClaimedIds(out)
  {
    var matched := Lookup(byShopifyId, billing.value.id, ToNs(billing).value, existing);
    out := [OutEntry(matched, true, true, Some("Default"), ToNs(billing))];
    claimed := if matched.Some? then {matched.value} else {};
  }

  method EmitSeparate(billing: Option<Address>, shipping: Option<Address>,
                      byShopifyId: map<string, Entry>, ghost existing: seq<Entry>)
    returns (out: seq<OutEntry>, claimed: set<nat>)
    requires Indexes(byShopifyId, existing) && !(SameIds(billing, shipping) && ToNs(billing).Some?)
    ensures out == EmitAll(existing, Incomings(billing, shipping))
    ensures claimed == ClaimedIds(out)
  {
    var b, s := ToNs(billing), ToNs(shipping);
    claimed, out := {}, [];
    if b.Some? {
      var matched := Lookup(byShopifyId, billing.value.id, b.value, existing);
      out := [OutEntry(matched, true, s.None?, Some("Billing"), b)];
      claimed := if matched.Some? then {matched.value} else {};
    }
    if s.Some? {
      var matched := Lookup(byShopifyId, shipping.value.id, s.value, existing);
      ghost var before := out;
      out := out + [OutEntry(matched, b.None?, true, Some("Shipping"), s)];
      claimed := claimed + if matched.Some? then {matched.value} else {};
      assert forall o :: o in out <==> o in before || o == out[|before|];
    }
  }

  // The existing entries that are not claimed go behind the ones just built. The default flags
  // they would keep are computed from those; they turn out never to be kept.
  method AppendPreserved(emitted: seq<OutEntry>, existing: seq<Entry>, claimed: set<nat>)
    returns (out: seq<OutEntry>)
    requires emitted != [] && emitted[0].defaultBilling && emitted[|emitted| - 1].defaultShipping
    ensures out == emitted + Preserved(existing, claimed)
  {
    out := emitted;
    var claimsBilling := exists k :: 0 <= k < |out| && out[k].defaultBilling;
    var claimsShipping := exists k :: 0 <= k < |out| && out[k].defaultShipping;
    for i := 0 to |existing|
      invariant out == emitted + Preserved(existing[..i], claimed)
    {
      var e := existing[i];
      assert existing[..i + 1][..i] == existing[..i];
      if e.internalId in claimed {
        continue;
      }
      out := out + [OutEntry(Some(e.internalId),
                             if claimsBilling then false else e.defaultBilling,
                             if claimsShipping then false else e.defaultShipping,
                             if e.name.Some? && e.name.value != "" then e.name else None,
                             None)];
    }
    assert existing[..|existing|] == existing;
  }

  // buildAddressbookMerged.
  method BuildAddressbookMerged(billing: Option<Address>, shipping: Option<Address>, existing: seq<Entry>)
    returns (out: seq<OutEntry>)
    ensures out == Merge(billing, shipping, existing)
    ensures DefaultsPlaced(out, billing, shipping)
  {
    if ToNs(billing).None? && ToNs(shipping).None? {
      return [];
    }
    var byShopifyId := IndexByShopifyId(existing);
    var emitted, claimed := EmitIncoming(billing, shipping, byShopifyId, existing);
    out := AppendPreserved(emitted, existing, claimed);
    MergeSays(billing, shipping, existing);
  }

  // ----- the book as one import leaves it -----

  datatype Stored = Stored(
    shopifyId: Option<string>, defaultBilling: bool, defaultShipping: bool, name: Option<string>,
    address: Option<NsAddress>)

  // NetSuite updates the entry a written row names and appends a row that names none.
  datatype Book = Book(rows: map<nat, Stored>, next: nat)

  function WriteEntry(b: Book, o: OutEntry): Book {
    var was := if o.id.Some? && o.id.value in b.rows then b.rows[o.id.value]
               else Stored(None, false, false, None, None);
    var row := Stored(
      if o.address.Some? then o.address.value.stamp else was.shopifyId,
      o.defaultBilling, o.defaultShipping,
      if o.name.Some? then o.name else was.name,
      if o.address.Some? then o.address else was.address);
    if o.id.Some? then b.(rows := b.rows[o.id.value := row])
    else Book(b.rows[b.next := row], b.next + 1)
  }

  function WriteAll(b: Book, outs: seq<OutEntry>): Book {
    if outs == [] then b else WriteEntry(WriteAll(b, outs[..|outs| - 1]), outs[|outs| - 1])
  }

  // Entry `i` carries this stamp.
  ghost predicate Holds(b: Book, i: nat, stamp: Option<string>) {
    i in b.rows && stamp.Some? && b.rows[i].shopifyId == stamp
  }

  // Entries are numbered below `next`, and no two carry the same stamp.
  ghost predicate ValidBook(b: Book) {
    && (forall i :: i in b.rows ==> i < b.next)
    && (forall i :: i in b.rows && b.rows[i].shopifyId.Some? ==> b.rows[i].shopifyId.value != "")
    && (forall i, j, stamp :: Holds(b, i, stamp) && Holds(b, j, stamp) ==> i == j)
  }

  function EntryAt(i: nat, r: Stored): Entry {
    Entry(i, r.shopifyId, r.defaultBilling, r.defaultShipping, r.name)
  }

  // A read lists every entry once, in an order NetSuite chooses.
  ghost predicate ReadOf(read: seq<Entry>, b: Book) {
    && (forall k :: 0 <= k < |read| ==>
          && read[k].internalId in b.rows
          && read[k] == EntryAt(read[k].internalId, b.rows[read[k].internalId]))
    && (forall k, l :: 0 <= k < l < |read| ==> read[k].internalId != read[l].internalId)
    && (forall i :: i in b.rows ==> EntryAt(i, b.rows[i]) in read)
  }

  // One import: read the book, merge, write.
  function Import(b: Book, billing: Option<Address>, shipping: Option<Address>, read: seq<Entry>): Book {
    WriteAll(b, Merge(billing, shipping, read))
  }

  // ----- the same import, row by row -----

  ghost function StoredOf(i: Incoming): Stored {
    Stored(i.address.stamp, i.defaultBilling, i.defaultShipping, Some(i.name), Some(i.address))
  }

  ghost function Quiet(r: Stored): Stored {
    r.(defaultBilling := false, defaultShipping := false)
  }

  lemma {:induction false} LastStampedHolds(read: seq<Entry>, gid: string)
    ensures LastStamped(read, gid).Some? ==>
              LastStamped(read, gid).value in read && LastStamped(read, gid).value.shopifyId == Some(gid)
    ensures LastStamped(read, gid).None? && gid != "" ==> forall e :: e in read ==> e.shopifyId != Some(gid)
  {
    if read != [] {
      var n := |read| - 1;
      LastStampedHolds(read[..n], gid);
      assert read == read[..n] + [read[n]];
    }
  }

  lemma {:induction false} WriteAllAppend(b: Book, xs: seq<OutEntry>, ys: seq<OutEntry>)
    ensures WriteAll(b, xs + ys) == WriteAll(WriteAll(b, xs), ys)
  {
    if ys == [] {
      assert xs + ys == xs;
    } else {
      var n := |ys| - 1;
      WriteAllAppend(b, xs, ys[..n]);
      assert (xs + ys)[..|xs + ys| - 1] == xs + ys[..n];
    }
  }

  ghost predicate Listed(read: seq<Entry>, i: nat) {
    exists e :: e in read && e.internalId == i
  }

  // Row by row: unclaimed entries that are listed lose their default flags.
  ghost predicate Quieted(b: Book, b': Book, read: seq<Entry>, claimed: set<nat>) {
    && b'.next == b.next && b'.rows.Keys == b.rows.Keys
    && forall i :: i in b.rows ==>
         b'.rows[i] == if i !in claimed && Listed(read, i) then Quiet(b.rows[i]) else b.rows[i]
  }

  lemma ListedAppend(read: seq<Entry>, e: Entry, i: nat)
    ensures Listed(read + [e], i) <==> Listed(read, i) || i == e.internalId
  {
    assert e in read + [e];
    if Listed(read, i) {
      var f :| f in read && f.internalId == i;
      assert f in read + [e];
    }
  }

  lemma QuietOne(b: Book, b': Book, read: seq<Entry>, e: Entry, claimed: set<nat>)
    requires Quieted(b, b', read, claimed) && e.internalId !in claimed
    requires e.internalId in b.rows && b.rows[e.internalId].name == e.name
    ensures Quieted(b, WriteEntry(b', OutEntry(Some(e.internalId), false, false,
                                               if Truthy(e.name) then e.name else None, None)),
                    read + [e], claimed)
  {
    forall i | i in b.rows
      ensures Listed(read + [e], i) <==> Listed(read, i) || i == e.internalId
    {
      ListedAppend(read, e, i);
    }
  }

  lemma QuietNone(b: Book, b': Book, read: seq<Entry>, e: Entry, claimed: set<nat>)
    requires Quieted(b, b', read, claimed) && e.internalId in claimed
    ensures Quieted(b, b', read + [e], claimed)
  {
    forall i | i in b.rows
      ensures Listed(read + [e], i) <==> Listed(read, i) || i == e.internalId
    {
      ListedAppend(read, e, i);
    }
  }

  // Writing the preserved entries only takes their default flags away.
  lemma {:induction false} PreservedWrites(b: Book, read: seq<Entry>, claimed: set<nat>)
    requires forall k :: 0 <= k < |read| && read[k].internalId !in claimed ==>
               read[k].internalId in b.rows && b.rows[read[k].internalId].name == read[k].name
    ensures Quieted(b, WriteAll(b, Preserved(read, claimed)), read, claimed)
  {
    if read != [] {
      var n := |read| - 1;
      var e, init := read[n], read[..n];
      PreservedWrites(b, init, claimed);
      assert read == init + [e];
      var outs := Preserved(read, claimed);
      var b' := WriteAll(b, Preserved(init, claimed));
      if e.internalId in claimed {
        assert outs == Preserved(init, claimed);
        QuietNone(b, b', init, e, claimed);
      } else {
        assert outs[..|outs| - 1] == Preserved(init, claimed);
        QuietOne(b, b', init, e, claimed);
      }
    }
  }

  // The entry that carries a stamp; a valid book has at most one.
  ghost function Where(b: Book, stamp: Option<string>): Option<nat> {
    if exists i :: Holds(b, i, stamp) then
      var i :| Holds(b, i, stamp);
      Some(i)
    else None
  }

  lemma WhereSame(b: Book, c: Book, stamp: Option<string>)
    requires ValidBook(b) && forall i :: Holds(b, i, stamp) <==> Holds(c, i, stamp)
    ensures Where(b, stamp) == Where(c, stamp)
  {
  }

  // The lookup in the list that was read finds the entry that carries the stamp.
  lemma MatchIsWhere(b: Book, read: seq<Entry>, a: NsAddress)
    requires ValidBook(b) && ReadOf(read, b) && (a.stamp.Some? ==> a.stamp.value != "")
    ensures Match(read, a) == Where(b, a.stamp)
  {
    if a.stamp.Some? {
      LastStampedHolds(read, a.stamp.value);
      forall i | Holds(b, i, a.stamp)
        ensures EntryAt(i, b.rows[i]) in read
      {
      }
      var e := LastStamped(read, a.stamp.value);
      if e.Some? {
        assert Holds(b, e.value.internalId, a.stamp);
      }
    }
  }

  // Put one address into the book: in the row that carries its stamp, or in a new one.
  ghost function Absorb(b: Book, i: Incoming): Book {
    match Where(b, i.address.stamp)
    case Some(id) => b.(rows := b.rows[id := StoredOf(i)])
    case None => Book(b.rows[b.next := StoredOf(i)], b.next + 1)
  }

  ghost function AbsorbAll(b: Book, incs: seq<Incoming>): Book {
    if incs == [] then b else Absorb(AbsorbAll(b, incs[..|incs| - 1]), incs[|incs| - 1])
  }

  ghost function QuietBook(b: Book): Book {
    Book(map i | i in b.rows :: Quiet(b.rows[i]), b.next)
  }

  // Stamps are never empty, and two addresses of one order do not share one.
  ghost predicate GoodStamps(incs: seq<Incoming>) {
    && (forall k :: 0 <= k < |incs| && incs[k].address.stamp.Some? ==> incs[k].address.stamp.value != "")
    && (forall k, l :: 0 <= k < l < |incs| && incs[k].address.stamp.Some? ==>
          incs[k].address.stamp != incs[l].address.stamp)
  }

  lemma IncomingStamps(billing: Option<Address>, shipping: Option<Address>)
    ensures GoodStamps(Incomings(billing, shipping))
  {
  }

  lemma AbsorbKeeps(b: Book, i: Incoming)
    requires ValidBook(b) && (i.address.stamp.Some? ==> i.address.stamp.value != "")
    ensures ValidBook(Absorb(b, i))
    ensures forall j, s :: s != i.address.stamp ==> (Holds(Absorb(b, i), j, s) <==> Holds(b, j, s))
    ensures i.address.stamp.Some? ==>
              var id := Where(Absorb(b, i), i.address.stamp);
              && id == Some(if Where(b, i.address.stamp).Some? then Where(b, i.address.stamp).value else b.next)
              && id.value in Absorb(b, i).rows && Absorb(b, i).rows[id.value] == StoredOf(i)
  {
    var c, s := Absorb(b, i), i.address.stamp;
    var at := if Where(b, s).Some? then Where(b, s).value else b.next;
    assert c.rows[at] == StoredOf(i);
    assert at in b.rows ==> Holds(b, at, s);
    forall j: nat | Holds(c, j, s)
      ensures j == at
    {
      if j != at {
        assert Holds(b, j, s);
      }
    }
    forall j: nat, t | t != s
      ensures Holds(c, j, t) <==> Holds(b, j, t)
    {
    }
    if s.Some? {
      assert Holds(c, at, s);
    }
    forall j: nat, k: nat, t | Holds(c, j, t) && Holds(c, k, t)
      ensures j == k
    {
      if t != s {
        assert Holds(b, j, t) && Holds(b, k, t);
      }
    }
  }

  lemma {:induction false} AbsorbAllKeeps(b: Book, incs: seq<Incoming>)
    requires ValidBook(b) && GoodStamps(incs)
    ensures ValidBook(AbsorbAll(b, incs))
    ensures forall j, s :: (forall k :: 0 <= k < |incs| ==> incs[k].address.stamp != s) ==>
              (Holds(AbsorbAll(b, incs), j, s) <==> Holds(b, j, s))
  {
    if incs != [] {
      var n := |incs| - 1;
      AbsorbAllKeeps(b, incs[..n]);
      AbsorbKeeps(AbsorbAll(b, incs[..n]), incs[n]);
    }
  }

  // Later addresses are looked up as if the earlier ones had not been put in yet.
  lemma WhereStill(b: Book, incs: seq<Incoming>)
    requires ValidBook(b) && GoodStamps(incs) && incs != []
    ensures var n := |incs| - 1;
            GoodStamps(incs[..n]) &&
            Where(AbsorbAll(b, incs[..n]), incs[n].address.stamp) == Where(b, incs[n].address.stamp)
  {
    var n := |incs| - 1;
    AbsorbAllKeeps(b, incs[..n]);
    if incs[n].address.stamp.Some? {
      WhereSame(b, AbsorbAll(b, incs[..n]), incs[n].address.stamp);
    }
  }

  // Writing what the merge emits puts the addresses in one by one.
  lemma {:induction false} WriteEmitted(b: Book, read: seq<Entry>, incs: seq<Incoming>)
    requires ValidBook(b) && ReadOf(read, b) && GoodStamps(incs)
    ensures WriteAll(b, EmitAll(read, incs)) == AbsorbAll(b, incs)
  {
    if incs != [] {
      var n := |incs| - 1;
      var outs := EmitAll(read, incs);
      assert outs[..n] == EmitAll(read, incs[..n]);
      WriteEmitted(b, read, incs[..n]);
      WhereStill(b, incs);
      MatchIsWhere(b, read, incs[n].address);
      WriteOne(AbsorbAll(b, incs[..n]), Match(read, incs[n].address), incs[n]);
    }
  }

  lemma WriteOne(b: Book, hit: Option<nat>, i: Incoming)
    requires hit == Where(b, i.address.stamp)
    ensures WriteEntry(b, OutEntry(hit, i.defaultBilling, i.defaultShipping, Some(i.name), Some(i.address))) ==
            Absorb(b, i)
  {
  }

  // The old rows the addresses go into.
  ghost function Hits(b: Book, incs: seq<Incoming>): set<nat> {
    if incs == [] then {}
    else
      var at := Where(b, incs[|incs| - 1].address.stamp);
      Hits(b, incs[..|incs| - 1]) + (if at.Some? then {at.value} else {})
  }

  lemma {:induction false} ClaimedAreHits(b: Book, read: seq<Entry>, incs: seq<Incoming>)
    requires ValidBook(b) && ReadOf(read, b) && GoodStamps(incs)
    ensures ClaimedIds(EmitAll(read, incs)) == Hits(b, incs)
    ensures Hits(b, incs) <= b.rows.Keys
  {
    if incs != [] {
      var n := |incs| - 1;
      var outs := EmitAll(read, incs);
      assert outs == EmitAll(read, incs[..n]) + [outs[n]];
      ClaimedAreHits(b, read, incs[..n]);
      MatchIsWhere(b, read, incs[n].address);
      ClaimedAppend(EmitAll(read, incs[..n]), outs[n]);
    }
  }

  lemma ClaimedAppend(outs: seq<OutEntry>, o: OutEntry)
    ensures ClaimedIds(outs + [o]) == ClaimedIds(outs) + (if o.id.Some? then {o.id.value} else {})
  {
    assert forall x :: x in outs + [o] <==> x in outs || x == o;
    if o.id.Some? {
      assert o in outs + [o];
    }
  }

  // Taking the default flags off the rows the addresses did not go into is the same as taking
  // them off everywhere first.
  ghost predicate QuietedOutside(b: Book, hits: set<nat>, c: Book, d: Book) {
    && d.next == c.next && d.rows.Keys == c.rows.Keys && b.rows.Keys <= c.rows.Keys && b.next <= c.next
    && (forall i :: i in c.rows ==> d.rows[i] == if i in b.rows && i !in hits then Quiet(b.rows[i]) else c.rows[i])
    && (forall i :: i in b.rows && i !in hits ==> c.rows[i] == b.rows[i])
  }

  lemma QuietKeeps(b: Book)
    requires ValidBook(b)
    ensures ValidBook(QuietBook(b)) && forall i, s :: Holds(QuietBook(b), i, s) <==> Holds(b, i, s)
  {
    var q := QuietBook(b);
    assert forall i :: i in q.rows ==> q.rows[i].shopifyId == b.rows[i].shopifyId;
    assert forall i, s :: Holds(q, i, s) <==> Holds(b, i, s);
  }

  lemma {:induction false} QuietFirst(b: Book, incs: seq<Incoming>)
    requires ValidBook(b) && GoodStamps(incs)
    ensures QuietedOutside(b, Hits(b, incs), AbsorbAll(b, incs), AbsorbAll(QuietBook(b), incs))
  {
    QuietKeeps(b);
    if incs != [] {
      var n := |incs| - 1;
      QuietFirst(b, incs[..n]);
      WhereStill(b, incs);
      WhereStill(QuietBook(b), incs);
      WhereSame(b, QuietBook(b), incs[n].address.stamp);
      QuietedStep(b, Hits(b, incs[..n]), AbsorbAll(b, incs[..n]), AbsorbAll(QuietBook(b), incs[..n]), incs[n]);
    }
  }

  lemma QuietedStep(b: Book, hits: set<nat>, c: Book, d: Book, i: Incoming)
    requires ValidBook(b) && QuietedOutside(b, hits, c, d)
    requires Where(c, i.address.stamp) == Where(b, i.address.stamp) == Where(d, i.address.stamp)
    ensures var at := Where(b, i.address.stamp);
            QuietedOutside(b, hits + (if at.Some? then {at.value} else {}), Absorb(c, i), Absorb(d, i))
  {
  }

  lemma ListedIff(b: Book, read: seq<Entry>, i: nat)
    requires ReadOf(read, b)
    ensures Listed(read, i) <==> i in b.rows
  {
    if i in b.rows {
      assert EntryAt(i, b.rows[i]) in read;
    }
  }

  lemma WritePreserved(b: Book, read: seq<Entry>, hits: set<nat>, c: Book, d: Book)
    requires ReadOf(read, b) && QuietedOutside(b, hits, c, d)
    ensures WriteAll(c, Preserved(read, hits)) == d
  {
    PreservedWrites(c, read, hits);
    var e := WriteAll(c, Preserved(read, hits));
    forall i | i in c.rows
      ensures e.rows[i] == d.rows[i]
    {
      ListedIff(b, read, i);
    }
  }

  // What an import does, whatever order the book was read in: every row loses its default
  // flags, and each address of the order goes into the row that carries its stamp or a new one.
  lemma ImportAbsorbs(b: Book, billing: Option<Address>, shipping: Option<Address>, read: seq<Entry>)
    requires ValidBook(b) && ReadOf(read, b)
    ensures var incs := Incomings(billing, shipping);
            Import(b, billing, shipping, read) == if incs == [] then b else AbsorbAll(QuietBook(b), incs)
  {
    var incs := Incomings(billing, shipping);
    IncomingStamps(billing, shipping);
    ImportWrites(b, read, incs);
  }

  lemma ImportWrites(b: Book, read: seq<Entry>, incs: seq<Incoming>)
    requires ValidBook(b) && ReadOf(read, b) && GoodStamps(incs)
    ensures var emitted := EmitAll(read, incs);
            WriteAll(b, emitted + Preserved(read, ClaimedIds(emitted))) == AbsorbAll(QuietBook(b), incs)
  {
    var emitted := EmitAll(read, incs);
    WriteEmitted(b, read, incs);
    ClaimedAreHits(b, read, incs);
    QuietFirst(b, incs);
    WriteAllAppend(b, emitted, Preserved(read, ClaimedIds(emitted)));
    WritePreserved(b, read, Hits(b, incs), AbsorbAll(b, incs), AbsorbAll(QuietBook(b), incs));
  }

  // No two entries share a stamp after an import either.
  lemma ImportKeepsValid(b: Book, billing: Option<Address>, shipping: Option<Address>, read: seq<Entry>)
    requires ValidBook(b) && ReadOf(read, b)
    ensures ValidBook(Import(b, billing, shipping, read))
  {
    ImportAbsorbs(b, billing, shipping, read);
    IncomingStamps(billing, shipping);
    QuietKeeps(b);
    AbsorbAllKeeps(QuietBook(b), Incomings(billing, shipping));
  }

  // ----- importing the same order again -----

  // Every address that goes into the book carries a Shopify id to be found by again.
  ghost predicate CarryIds(incs: seq<Incoming>) {
    forall k :: 0 <= k < |incs| ==> incs[k].address.stamp.Some?
  }

  // Address k is in the book as the import writes it.
  ghost predicate Taken(b: Book, i: Incoming) {
    var id := Where(b, i.address.stamp);
    id.Some? && id.value in b.rows && b.rows[id.value] == StoredOf(i)
  }

  ghost predicate QuietRow(b: Book, id: nat) {
    id in b.rows && b.rows[id] == Quiet(b.rows[id])
  }

  ghost predicate RowOfOne(b: Book, incs: seq<Incoming>, id: nat) {
    exists k :: 0 <= k < |incs| && Where(b, incs[k].address.stamp) == Some(id)
  }

  // The addresses are all in the book, and every other row has no default flag.
  ghost predicate Settled(b: Book, incs: seq<Incoming>) {
    && ValidBook(b)
    && (forall k :: 0 <= k < |incs| ==> Taken(b, incs[k]))
    && (forall id :: id in b.rows ==> QuietRow(b, id) || RowOfOne(b, incs, id))
  }

  lemma SettleStep(b: Book, incs: seq<Incoming>, i: Incoming)
    requires Settled(b, incs) && GoodStamps(incs + [i]) && CarryIds(incs + [i])
    ensures Settled(Absorb(b, i), incs + [i])
  {
    var c, all := Absorb(b, i), incs + [i];
    assert all[|incs|] == i;
    AbsorbKeeps(b, i);
    forall k | 0 <= k < |incs|
      ensures Taken(c, all[k]) && Where(c, all[k].address.stamp) == Where(b, incs[k].address.stamp)
    {
      assert all[k] == incs[k] && all[k].address.stamp != i.address.stamp;
      assert Taken(b, incs[k]);
      WhereSame(b, c, incs[k].address.stamp);
    }
    forall id | id in c.rows
      ensures QuietRow(c, id) || RowOfOne(c, all, id)
    {
      if Where(c, i.address.stamp) == Some(id) {
        assert Where(c, all[|incs|].address.stamp) == Some(id);
      } else {
        assert id in b.rows && c.rows[id] == b.rows[id];
        if RowOfOne(b, incs, id) {
          var k :| 0 <= k < |incs| && Where(b, incs[k].address.stamp) == Some(id);
          assert Where(c, all[k].address.stamp) == Some(id);
        }
      }
    }
  }

  lemma {:induction false} Settles(b: Book, incs: seq<Incoming>)
    requires ValidBook(b) && (forall id :: id in b.rows ==> QuietRow(b, id)) && GoodStamps(incs) && CarryIds(incs)
    ensures Settled(AbsorbAll(b, incs), incs)
  {
    if incs != [] {
      var n := |incs| - 1;
      Settles(b, incs[..n]);
      assert incs == incs[..n] + [incs[n]];
      SettleStep(AbsorbAll(b, incs[..n]), incs[..n], incs[n]);
    }
  }

  // The rows of some of the addresses are as they were in `b`, all others without default flags.
  ghost predicate Rewritten(b: Book, c: Book, incs: seq<Incoming>) {
    && c.next == b.next && c.rows.Keys == b.rows.Keys
    && forall id :: id in b.rows ==> c.rows[id] == if RowOfOne(b, incs, id) then b.rows[id] else Quiet(b.rows[id])
  }

  lemma RewriteOne(b: Book, c: Book, incs: seq<Incoming>, i: Incoming)
    requires Rewritten(b, c, incs) && Taken(b, i) && Where(c, i.address.stamp) == Where(b, i.address.stamp)
    ensures Rewritten(b, Absorb(c, i), incs + [i])
  {
    forall id | id in b.rows
      ensures RowOfOne(b, incs + [i], id) <==> RowOfOne(b, incs, id) || Where(b, i.address.stamp) == Some(id)
    {
      RowOfOneAppend(b, incs, i, id);
    }
  }

  lemma OneAgain(b: Book, prev: seq<Incoming>, i: Incoming)
    requires ValidBook(b) && GoodStamps(prev + [i]) && Taken(b, i)
    requires Rewritten(b, AbsorbAll(QuietBook(b), prev), prev)
    ensures Rewritten(b, AbsorbAll(QuietBook(b), prev + [i]), prev + [i])
  {
    var some := prev + [i];
    assert some[..|some| - 1] == prev;
    QuietKeeps(b);
    WhereStill(QuietBook(b), some);
    WhereSame(b, QuietBook(b), i.address.stamp);
    RewriteOne(b, AbsorbAll(QuietBook(b), prev), prev, i);
  }

  lemma GoodPrefix(incs: seq<Incoming>, n: nat)
    requires GoodStamps(incs) && n <= |incs|
    ensures GoodStamps(incs[..n])
  {
  }

  // Putting the addresses into a settled book rewrites their own rows as they were.
  lemma {:induction false} SettledAgain(b: Book, incs: seq<Incoming>, n: nat)
    requires Settled(b, incs) && GoodStamps(incs) && n <= |incs|
    ensures Rewritten(b, AbsorbAll(QuietBook(b), incs[..n]), incs[..n])
  {
    if n > 0 {
      SettledAgain(b, incs, n - 1);
      assert incs[..n] == incs[..n - 1] + [incs[n - 1]];
      GoodPrefix(incs, n);
      OneAgain(b, incs[..n - 1], incs[n - 1]);
    }
  }

  lemma RowOfOneAppend(b: Book, incs: seq<Incoming>, i: Incoming, id: nat)
    ensures RowOfOne(b, incs + [i], id) <==> RowOfOne(b, incs, id) || Where(b, i.address.stamp) == Some(id)
  {
    var all := incs + [i];
    if Where(b, i.address.stamp) == Some(id) {
      assert Where(b, all[|incs|].address.stamp) == Some(id);
    }
    if RowOfOne(b, incs, id) {
      var k :| 0 <= k < |incs| && Where(b, incs[k].address.stamp) == Some(id);
      assert Where(b, all[k].address.stamp) == Some(id);
    }
  }

  lemma SettledIsFixed(b: Book, incs: seq<Incoming>)
    requires Settled(b, incs) && GoodStamps(incs)
    ensures AbsorbAll(QuietBook(b), incs) == b
  {
    SettledAgain(b, incs, |incs|);
    assert incs[..|incs|] == incs;
    var c := AbsorbAll(QuietBook(b), incs);
    assert forall id :: id in b.rows ==> c.rows[id] == b.rows[id];
  }

  // An address without an id is appended by every import.
  lemma {:induction false} AbsorbAllGrows(b: Book, incs: seq<Incoming>)
    ensures AbsorbAll(b, incs).next >= b.next
    ensures !CarryIds(incs) ==> AbsorbAll(b, incs).next > b.next
  {
    if incs != [] {
      var n := |incs| - 1;
      AbsorbAllGrows(b, incs[..n]);
      assert CarryIds(incs) <==> CarryIds(incs[..n]) && incs[n].address.stamp.Some?;
    }
  }

  // Importing an order again changes nothing after the first time, if and only if each of its
  // addresses that goes into the book carries a Shopify id.
  lemma ReimportIsFixedIff(b: Book, billing: Option<Address>, shipping: Option<Address>,
                           read: seq<Entry>, reread: seq<Entry>)
    requires ValidBook(b) && ReadOf(read, b)
    requires ReadOf(reread, Import(b, billing, shipping, read))
    ensures var b1 := Import(b, billing, shipping, read);
            Import(b1, billing, shipping, reread) == b1 <==> CarryIds(Incomings(billing, shipping))
  {
    var incs := Incomings(billing, shipping);
    var b1 := Import(b, billing, shipping, read);
    ImportKeepsValid(b, billing, shipping, read);
    ImportAbsorbs(b, billing, shipping, read);
    ImportAbsorbs(b1, billing, shipping, reread);
    if incs != [] {
      IncomingStamps(billing, shipping);
      AgainFixedIff(b, incs);
    }
  }

  lemma AgainFixedIff(b: Book, incs: seq<Incoming>)
    requires ValidBook(b) && GoodStamps(incs)
    ensures var b1 := AbsorbAll(QuietBook(b), incs);
            AbsorbAll(QuietBook(b1), incs) == b1 <==> CarryIds(incs)
  {
    var q := QuietBook(b);
    var b1 := AbsorbAll(q, incs);
    AbsorbAllGrows(QuietBook(b1), incs);
    if CarryIds(incs) {
      QuietKeeps(b);
      assert forall id :: id in q.rows ==> QuietRow(q, id);
      Settles(q, incs);
      SettledIsFixed(b1, incs);
    }
  }

  // One way to see it: an order with a street and no Shopify id, into any book.
  lemma NoIdInstance(b: Book, read: seq<Entry>, reread: seq<Entry>)
    requires ValidBook(b) && ReadOf(read, b)
    requires ReadOf(reread, Import(b, Some(Address(None, "Main Street 1", "", "", "")), None, read))
    ensures var billing := Some(Address(None, "Main Street 1", "", "", ""));
            var b1 := Import(b, billing, None, read);
            Import(b1, billing, None, reread) != b1
  {
    var billing := Some(Address(None, "Main Street 1", "", "", ""));
    assert Incomings(billing, None)[0].address.stamp == None;
    ReimportIsFixedIff(b, billing, None, read, reread);
  }

  // Any number of imports of one order, each reading the book in whatever order it comes.
  function ImportAll(b: Book, billing: Option<Address>, shipping: Option<Address>, readings: seq<seq<Entry>>): Book
    decreases readings
  {
    if readings == [] then b else ImportAll(Import(b, billing, shipping, readings[0]), billing, shipping, readings[1..])
  }

  ghost predicate ReadsOf(b: Book, billing: Option<Address>, shipping: Option<Address>, readings: seq<seq<Entry>>)
    decreases readings
  {
    readings == [] ||
    (ReadOf(readings[0], b) && ReadsOf(Import(b, billing, shipping, readings[0]), billing, shipping, readings[1..]))
  }

  lemma {:induction false} RetriesSettleAtOnce(b: Book, billing: Option<Address>, shipping: Option<Address>,
                                               readings: seq<seq<Entry>>)
    requires ValidBook(b) && ReadsOf(b, billing, shipping, readings) && readings != []
    requires CarryIds(Incomings(billing, shipping))
    ensures ImportAll(b, billing, shipping, readings) == Import(b, billing, shipping, readings[0])
    decreases readings
  {
    var b1 := Import(b, billing, shipping, readings[0]);
    if |readings| > 1 {
      ReimportIsFixedIff(b, billing, shipping, readings[0], readings[1]);
      ImportKeepsValid(b, billing, shipping, readings[0]);
      RetriesSettleAtOnce(b1, billing, shipping, readings[1..]);
    }
  }

  // ----- the shape of what is sent -----

  function BillingDefaults(outs: seq<OutEntry>): nat {
    if outs == [] then 0
    else BillingDefaults(outs[..|outs| - 1]) + (if outs[|outs| - 1].defaultBilling then 1 else 0)
  }

  function ShippingDefaults(outs: seq<OutEntry>): nat {
    if outs == [] then 0
    else ShippingDefaults(outs[..|outs| - 1]) + (if outs[|outs| - 1].defaultShipping then 1 else 0)
  }

  // How often an existing entry is sent.
  function TimesSent(outs: seq<OutEntry>, i: nat): nat {
    if outs == [] then 0
    else TimesSent(outs[..|outs| - 1], i) + (if outs[|outs| - 1].id == Some(i) then 1 else 0)
  }

  ghost predicate DistinctIds(existing: seq<Entry>) {
    forall k, l :: 0 <= k < l < |existing| ==> existing[k].internalId != existing[l].internalId
  }

  ghost function IdsOf(existing: seq<Entry>): set<nat> {
    set e | e in existing :: e.internalId
  }

  lemma IdsOfLast(existing: seq<Entry>)
    requires existing != [] && DistinctIds(existing)
    ensures var n := |existing| - 1;
            && IdsOf(existing) == IdsOf(existing[..n]) + {existing[n].internalId}
            && existing[n].internalId !in IdsOf(existing[..n])
  {
    var n := |existing| - 1;
    assert existing == existing[..n] + [existing[n]];
  }

  // Preserved entries carry no default flag, are each sent once, and are all but the claimed.
  lemma {:induction false} PreservedShape(existing: seq<Entry>, claimed: set<nat>)
    requires DistinctIds(existing)
    ensures var outs := Preserved(existing, claimed);
            && BillingDefaults(outs) == 0 && ShippingDefaults(outs) == 0
            && (forall i :: TimesSent(outs, i) == if i in IdsOf(existing) && i !in claimed then 1 else 0)
  {
    if existing != [] {
      var n := |existing| - 1;
      PreservedShape(existing[..n], claimed);
      IdsOfLast(existing);
      var outs := Preserved(existing, claimed);
      if existing[n].internalId !in claimed {
        assert outs[..|outs| - 1] == Preserved(existing[..n], claimed);
      } else {
        assert outs == Preserved(existing[..n], claimed);
      }
    }
  }

  lemma {:induction false} PreservedSize(existing: seq<Entry>, claimed: set<nat>)
    requires DistinctIds(existing)
    ensures |Preserved(existing, claimed)| == |existing| - |claimed * IdsOf(existing)|
  {
    if existing == [] {
      assert claimed * IdsOf(existing) == {};
    } else {
      var n := |existing| - 1;
      var id := existing[n].internalId;
      PreservedSize(existing[..n], claimed);
      IdsOfLast(existing);
      var before := claimed * IdsOf(existing[..n]);
      assert claimed * IdsOf(existing) == if id in claimed then before + {id} else before;
    }
  }

  lemma {:induction false} ShapeAppend(xs: seq<OutEntry>, ys: seq<OutEntry>)
    ensures BillingDefaults(xs + ys) == BillingDefaults(xs) + BillingDefaults(ys)
    ensures ShippingDefaults(xs + ys) == ShippingDefaults(xs) + ShippingDefaults(ys)
  {
    if ys == [] {
      assert xs + ys == xs;
    } else {
      var n, all := |ys| - 1, xs + ys;
      ShapeAppend(xs, ys[..n]);
      assert all[..|all| - 1] == xs + ys[..n] && all[|all| - 1] == ys[n];
    }
  }

  lemma {:induction false} TimesAppend(xs: seq<OutEntry>, ys: seq<OutEntry>, i: nat)
    ensures TimesSent(xs + ys, i) == TimesSent(xs, i) + TimesSent(ys, i)
  {
    if ys == [] {
      assert xs + ys == xs;
    } else {
      var n, all := |ys| - 1, xs + ys;
      TimesAppend(xs, ys[..n], i);
      assert all[..|all| - 1] == xs + ys[..n] && all[|all| - 1] == ys[n];
    }
  }

  // The order's own entries carry one default of each kind.
  lemma DefaultsOfTwo(x: OutEntry, y: OutEntry)
    ensures BillingDefaults([x]) == (if x.defaultBilling then 1 else 0)
    ensures ShippingDefaults([x]) == (if x.defaultShipping then 1 else 0)
    ensures BillingDefaults([x, y]) == BillingDefaults([x]) + BillingDefaults([y])
    ensures ShippingDefaults([x, y]) == ShippingDefaults([x]) + ShippingDefaults([y])
  {
    assert [x][..0] == [] && [x, y] == [x] + [y];
    ShapeAppend([x], [y]);
  }

  lemma EmittedDefaults(existing: seq<Entry>, billing: Option<Address>, shipping: Option<Address>)
    requires Incomings(billing, shipping) != []
    ensures var outs := EmitAll(existing, Incomings(billing, shipping));
            BillingDefaults(outs) == 1 && ShippingDefaults(outs) == 1
  {
    var incs := Incomings(billing, shipping);
    var outs := EmitAll(existing, incs);
    if |incs| == 1 {
      assert outs == [outs[0]];
      DefaultsOfTwo(outs[0], outs[0]);
    } else {
      assert outs == [outs[0], outs[1]];
      DefaultsOfTwo(outs[0], outs[1]);
      DefaultsOfTwo(outs[1], outs[1]);
    }
  }

  lemma MatchEntry(existing: seq<Entry>, a: NsAddress)
    ensures Match(existing, a).Some? ==>
              exists e :: e in existing && e.internalId == Match(existing, a).value && e.shopifyId == a.stamp
  {
    if a.stamp.Some? {
      LastStampedHolds(existing, a.stamp.value);
    }
  }

  // Two different stamps match two different entries.
  lemma MatchesDiffer(existing: seq<Entry>, a: NsAddress, c: NsAddress)
    requires DistinctIds(existing) && a.stamp != c.stamp
    ensures Match(existing, a).Some? ==> Match(existing, a) != Match(existing, c)
  {
    MatchEntry(existing, a);
    MatchEntry(existing, c);
  }

  // The last address claims an entry that is there and that none of the others claims.
  lemma LastClaim(existing: seq<Entry>, incs: seq<Incoming>)
    requires DistinctIds(existing) && GoodStamps(incs) && incs != []
    ensures var n := |incs| - 1;
            var id := Match(existing, incs[n].address);
            id.Some? ==> id.value in IdsOf(existing) && id.value !in ClaimedIds(EmitAll(existing, incs[..n]))
  {
    var n := |incs| - 1;
    MatchEntry(existing, incs[n].address);
    forall k | 0 <= k < n && Match(existing, incs[n].address).Some?
      ensures Match(existing, incs[k].address) != Match(existing, incs[n].address)
    {
      MatchesDiffer(existing, incs[n].address, incs[k].address);
    }
  }

  // The order's own entries name each entry they claim once, and claim only existing ones.
  lemma {:induction false} EmittedIds(existing: seq<Entry>, incs: seq<Incoming>)
    requires DistinctIds(existing) && GoodStamps(incs)
    ensures var outs := EmitAll(existing, incs);
            && (forall i :: TimesSent(outs, i) == if i in ClaimedIds(outs) then 1 else 0)
            && ClaimedIds(outs) <= IdsOf(existing)
  {
    if incs != [] {
      var n := |incs| - 1;
      var outs := EmitAll(existing, incs);
      var init := outs[..n];
      assert init == EmitAll(existing, incs[..n]) && outs == init + [outs[n]];
      EmittedIds(existing, incs[..n]);
      ClaimedAppend(init, outs[n]);
      LastClaim(existing, incs);
    }
  }

  // When an address of the order has content, what is sent has exactly one billing default and
  // one shipping default, names every existing entry exactly once, and otherwise adds one new
  // entry for each address that matched none.
  lemma MergedBookShape(billing: Option<Address>, shipping: Option<Address>, existing: seq<Entry>)
    requires DistinctIds(existing)
    ensures var outs, incs := Merge(billing, shipping, existing), Incomings(billing, shipping);
            && (outs == [] <==> ToNs(billing).None? && ToNs(shipping).None?)
            && (outs != [] ==>
                  && BillingDefaults(outs) == 1 && ShippingDefaults(outs) == 1
                  && (forall i :: TimesSent(outs, i) == if i in IdsOf(existing) then 1 else 0)
                  && |outs| == |existing| + |incs| - |ClaimedIds(EmitAll(existing, incs))|)
  {
    var incs := Incomings(billing, shipping);
    if incs != [] {
      EmittedDefaults(existing, billing, shipping);
      IncomingStamps(billing, shipping);
      MergedShape(existing, incs);
    }
  }

  lemma MergedShape(existing: seq<Entry>, incs: seq<Incoming>)
    requires DistinctIds(existing) && GoodStamps(incs)
    ensures var emitted := EmitAll(existing, incs);
            var outs := emitted + Preserved(existing, ClaimedIds(emitted));
            && BillingDefaults(outs) == BillingDefaults(emitted) && ShippingDefaults(outs) == ShippingDefaults(emitted)
            && (forall i :: TimesSent(outs, i) == if i in IdsOf(existing) then 1 else 0)
            && |outs| == |existing| + |incs| - |ClaimedIds(emitted)|
  {
    var emitted := EmitAll(existing, incs);
    var claimed := ClaimedIds(emitted);
    var kept := Preserved(existing, claimed);
    EmittedIds(existing, incs);
    PreservedShape(existing, claimed);
    PreservedSize(existing, claimed);
    assert claimed * IdsOf(existing) == claimed;
    ShapeAppend(emitted, kept);
    forall i
      ensures TimesSent(emitted + kept, i) == if i in IdsOf(existing) then 1 else 0
    {
      TimesAppend(emitted, kept, i);
    }
  }
}
