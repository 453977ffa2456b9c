// What reaches the order upsert: eligibility (packages/mapping-engine/src/eligibility.ts), the
// payload (packages/netsuite-client/src/payload-builder.ts), balancing
// (packages/netsuite-client/src/balancing.ts) and item ids (packages/netsuite-client/src/item-resolver.ts),
// in the order apps/functions/src/triggers/order-import-handler.ts runs them.
module OrderPayload {
  import opened Common

  // ----- money -----

  // Whole cents, or what the source's number parser makes of other text.
  datatype Money = Cents(c: int) | NaN

  function Plus(a: Money, b: Money): Money {
    if a.Cents? && b.Cents? then Cents(a.c + b.c) else NaN
  }

  function Minus(a: Money, b: Money): Money {
    if a.Cents? && b.Cents? then Cents(a.c - b.c) else NaN
  }

  function Abs(x: int): nat {
    if x < 0 then -x else x
  }

  // No comparison with NaN is true.
  predicate Exceeds(m: Money, tolerance: nat) {
    m.Cents? && Abs(m.c) > tolerance
  }

  // ----- the order -----

  datatype FinancialStatus = Pending | Authorized | PartiallyPaid | Paid | PartiallyRefunded | Refunded | Voided

  datatype OrderLine = OrderLine(sku: Option<string>, discountedTotal: Money, details: string)

  datatype ShippingLine = ShippingLine(price: Money, title: string)

  datatype Order = Order(
    test: bool, fraudHold: bool, status: FinancialStatus, lines: seq<OrderLine>, shipping: seq<ShippingLine>,
    totalPrice: Money, totalTax: Money, totalDiscounts: Money)

  datatype Reason = TestOrder | FraudHold | VoidedOrder | PendingPayment | NoLineItems | DisallowedTopic

  datatype EligibilityOptions = EligibilityOptions(
    allowedTopics: Option<seq<string>>, allowedStatuses: Option<seq<FinancialStatus>>)

  const DEFAULT_STATUSES := [Paid, Authorized, PartiallyPaid]

  function Statuses(options: EligibilityOptions): seq<FinancialStatus> {
    if options.allowedStatuses.Some? then options.allowedStatuses.value else DEFAULT_STATUSES
  }

  // checkEligibility: why the order is not imported, if it is not.
  function CheckEligibility(order: Order, topic: string, options: EligibilityOptions): Option<Reason> {
    if order.test then Some(TestOrder)
    else if order.fraudHold then Some(FraudHold)
    else if order.status == Voided then Some(VoidedOrder)
    else if order.status !in Statuses(options) then Some(PendingPayment)
    else if |order.lines| == 0 then Some(NoLineItems)
    else if options.allowedTopics.Some? && topic !in options.allowedTopics.value then Some(DisallowedTopic)
    else None
  }

  // Whatever the options, test, held and voided orders are never imported.
  lemma EligibilityIff(order: Order, topic: string, options: EligibilityOptions)
    ensures CheckEligibility(order, topic, options) == None <==>
            && !order.test && !order.fraudHold && order.status != Voided && order.lines != []
            && (if options.allowedStatuses.Some? then order.status in options.allowedStatuses.value
                else order.status in {Paid, Authorized, PartiallyPaid})
            && (options.allowedTopics.Some? ==> topic in options.allowedTopics.value)
  {
    assert DEFAULT_STATUSES[0] == Paid && DEFAULT_STATUSES[1] == Authorized && DEFAULT_STATUSES[2] == PartiallyPaid;
  }

  // The reason given is true of the order, and none that ranks before it is.
  ghost predicate ReasonHolds(order: Order, reason: Reason) {
    match reason
    case TestOrder => order.test
    case FraudHold => order.fraudHold && !order.test
    case VoidedOrder => order.status == Voided && !order.test && !order.fraudHold
    case PendingPayment =>
      order.status in {Pending, PartiallyRefunded, Refunded} && !order.test && !order.fraudHold
    case NoLineItems => order.lines == [] && order.status in {Paid, Authorized, PartiallyPaid}
    case DisallowedTopic => false
  }

  ghost predicate Eligible(order: Order) {
    && !order.test && !order.fraudHold
    && order.status in {Paid, Authorized, PartiallyPaid}
    && order.lines != []
  }

  // ----- the payload -----

  // The `item` field of a line: absent or not an object, an object without an id, or an id with
  // the marker that says it is an internal id already.
  datatype ItemRef = NotAnObject | NoId(marked: bool) | Id(id: string, marked: bool)

  datatype LineAmount = Text(text: Money) | Number(number: Money) | OtherAmount

  datatype Line = Line(item: ItemRef, amount: LineAmount, rest: string)

  // Header fields other than the discount are kept together.
  datatype Payload = Payload(
    header: string, items: seq<Line>, shipping: Option<seq<Line>>,
    discountItem: Option<string>, discountRate: Option<int>)

  datatype Connection = Connection(
    shipItemId: Option<string>, discountItemId: Option<string>, defaultItemId: Option<string>)

  datatype Stage = MappingStage | BalancingStage | ItemStage(line: nat)

  datatype Stop = Ignored(reason: Reason) | ParkedAt(stage: Stage) | Throws

  // ----- building it -----

  // shopifyLineToItemLine, with the reference already wrapped.
  function ItemLine(line: OrderLine): Line {
    Line(Id(if line.sku.Some? then line.sku.value else "UNMAPPED-ITEM", false),
         Number(line.discountedTotal), line.details)
  }

  predicate Configured(id: Option<string>) {
    id.Some? && id.value != ""
  }

  // shopifyShippingToLine.
  function ShipLine(connection: Connection, line: ShippingLine): Line {
    Line(if Configured(connection.shipItemId) then Id(connection.shipItemId.value, true)
         else Id("SHIP-STANDARD", false),
         Number(line.price), line.title)
  }

  function ItemLines(order: Order): (r: seq<Line>)
    ensures |r| == |order.lines|
  {
    seq(|order.lines|, k requires 0 <= k < |order.lines| => ItemLine(order.lines[k]))
  }

  function ShipLines(connection: Connection, order: Order): (r: seq<Line>)
    ensures |r| == |order.shipping|
  {
    seq(|order.shipping|, k requires 0 <= k < |order.shipping| => ShipLine(connection, order.shipping[k]))
  }

  // mapOrderDiscount: the header fields of the order's discount, or a park when there is a
  // discount and no item to book it on.
  function MapOrderDiscount(connection: Connection, order: Order): Option<(Option<string>, Option<int>)> {
    var d := order.totalDiscounts;
    if d == NaN || d.c <= 0 then Some((None, None))
    else if !Configured(connection.discountItemId) then None
    else Some((connection.discountItemId, Some(-d.c)))
  }

  // buildOrderPayload. `header` is what the header mappings evaluate to, if they do not park and
  // yield the required fields.
  function BuildOrderPayload(connection: Connection, order: Order, header: Option<string>): Result<Payload, Stop> {
    if header.None? || |order.lines| == 0 then Err(ParkedAt(MappingStage))
    else
      match MapOrderDiscount(connection, order)
      case None => Err(ParkedAt(MappingStage))
      case Some(discount) =>
        Ok(Payload(header.value, ItemLines(order),
                   if order.shipping == [] then None else Some(ShipLines(connection, order)),
                   discount.0, discount.1))
  }

  // A draft is refused exactly when the header mappings stopped, nothing is left to sell, or a
  // discount has no item to be booked on.
  lemma DraftIff(connection: Connection, order: Order, header: Option<string>)
    ensures BuildOrderPayload(connection, order, header).Ok? <==>
            && header.Some? && order.lines != []
            && (order.totalDiscounts.Cents? && order.totalDiscounts.c > 0 ==> Configured(connection.discountItemId))
    ensures var r := BuildOrderPayload(connection, order, header);
            r.Ok? ==>
              && r.value.discountItem.Some? == r.value.discountRate.Some?
              && (r.value.discountRate.Some? ==>
                    r.value.discountRate.value < 0 && r.value.discountItem == connection.discountItemId)
              && (r.value.shipping.None? <==> order.shipping == [])
    ensures var r := BuildOrderPayload(connection, order, header); r.Err? ==> r.error == ParkedAt(MappingStage)
  {
  }

  // ----- adding up -----

  // parseAmount throws on text that is not a number; a number that is none slips through.
  predicate Unparsable(lines: seq<Line>) {
    exists k :: 0 <= k < |lines| && lines[k].amount == Text(NaN)
  }

  predicate HoldsNaN(lines: seq<Line>) {
    exists k :: 0 <= k < |lines| && lines[k].amount == Number(NaN)
  }

  function AmountOf(line: Line): int {
    match line.amount
    case Text(Cents(c)) => c
    case Number(Cents(c)) => c
    case _ => 0
  }

  function CentsOf(lines: seq<Line>): int {
    if lines == [] then 0 else CentsOf(lines[..|lines| - 1]) + AmountOf(lines[|lines| - 1])
  }

  // sumAmounts.
  method SumAmounts(lines: seq<Line>) returns (total: Option<Money>)
    ensures total.None? <==> Unparsable(lines)
    ensures total.Some? ==> total.value == if HoldsNaN(lines) then NaN else Cents(CentsOf(lines))
  {
    var sum := Cents(0);
    for i := 0 to |lines|
      invariant !Unparsable(lines[..i])
      invariant sum == if HoldsNaN(lines[..i]) then NaN else Cents(CentsOf(lines[..i]))
    {
      var line := lines[i];
      assert lines[..i + 1] == lines[..i] + [line] && lines[..i + 1][..i] == lines[..i];
      match line.amount {
        case Text(m) =>
          if m == NaN {
            assert lines[i].amount == Text(NaN);
            return None;
          }
          sum := Plus(sum, m);
        case Number(m) =>
          if m == NaN {
            assert lines[..i + 1][i].amount == Number(NaN);
          }
          sum := Plus(sum, m);
        case OtherAmount =>
      }
    }
    assert lines[..|lines|] == lines;
    return Some(sum);
  }

  function ShippingOf(p: Payload): seq<Line> {
    if p.shipping.Some? then p.shipping.value else []
  }

  // What the payload's lines and the order's tax and discount come to.
  function Total(p: Payload, order: Order): int {
    CentsOf(p.items) + CentsOf(ShippingOf(p))
    + (if order.totalTax.Cents? then order.totalTax.c else 0)
    - (if order.totalDiscounts.Cents? then order.totalDiscounts.c else 0)
  }

  predicate TotalsParse(order: Order) {
    order.totalPrice.Cents? && order.totalTax.Cents? && order.totalDiscounts.Cents?
  }

  predicate AllNumbers(p: Payload) {
    !HoldsNaN(p.items) && !HoldsNaN(ShippingOf(p))
  }

  const TOLERANCE := 5
  const BALANCING_ITEM := "6540"

  function BalancingLine(diff: Money): Line {
    Line(Id(BALANCING_ITEM, false), Number(diff), "Rounding adjustment")
  }

  // How far the payload is from the order's total; not a number as soon as one line is not.
  function Difference(p: Payload, order: Order): Money
    requires TotalsParse(order)
  {
    if AllNumbers(p) then Cents(order.totalPrice.c - Total(p, order)) else NaN
  }

  function Adjusted(p: Payload, diff: Money): Payload {
    if diff == Cents(0) then p else p.(items := p.items + [BalancingLine(diff)])
  }

  // What applyBalancing answers. The lines it was given come first, unchanged.
  function Balance(p: Payload, order: Order): Result<Payload, Stop> {
    if !TotalsParse(order) || Unparsable(p.items) || Unparsable(ShippingOf(p)) then Err(Throws)
    else if Exceeds(Difference(p, order), TOLERANCE) then Err(ParkedAt(BalancingStage))
    else Ok(Adjusted(p, Difference(p, order)))
  }

  // The sums of applyBalancing; None when one of them throws.
  method Reconcile(p: Payload, order: Order) returns (diff: Option<Money>)
    ensures diff.None? <==> !TotalsParse(order) || Unparsable(p.items) || Unparsable(ShippingOf(p))
    ensures diff.Some? ==> diff.value == Difference(p, order)
  {
    if order.totalPrice == NaN || order.totalTax == NaN {
      return None;
    }
    var nsShippingTotal := SumAmounts(ShippingOf(p));
    if nsShippingTotal.None? {
      return None;
    }
    var nsLinesTotal := SumAmounts(p.items);
    if nsLinesTotal.None? || order.totalDiscounts == NaN {
      return None;
    }
    var nsTotal := Minus(Plus(Plus(nsLinesTotal.value, nsShippingTotal.value), order.totalTax), order.totalDiscounts);
    diff := Some(Minus(order.totalPrice, nsTotal));
    SumsAre(p, order, nsLinesTotal.value, nsShippingTotal.value);
  }

  lemma SumsAre(p: Payload, order: Order, lines: Money, shipping: Money)
    requires TotalsParse(order)
    requires lines == if HoldsNaN(p.items) then NaN else Cents(CentsOf(p.items))
    requires shipping == if HoldsNaN(ShippingOf(p)) then NaN else Cents(CentsOf(ShippingOf(p)))
    ensures Minus(order.totalPrice, Minus(Plus(Plus(lines, shipping), order.totalTax), order.totalDiscounts)) ==
            Difference(p, order)
  {
  }

  method ApplyBalancing(p: Payload, order: Order) returns (r: Result<Payload, Stop>)
    ensures r == Balance(p, order)
  {
    var diff := Reconcile(p, order);
    if diff.None? {
      return Err(Throws);
    }
    if Exceeds(diff.value, TOLERANCE) {
      return Err(ParkedAt(BalancingStage));
    }
    if diff.value == Cents(0) {
      return Ok(p);
    }
    return Ok(p.(items := p.items + [BalancingLine(diff.value)]));
  }

  // Numbers and texts add their cents, and any other amount nothing.
  lemma CentsAppend(lines: seq<Line>, line: Line)
    ensures CentsOf(lines + [line]) == CentsOf(lines) + AmountOf(line) && CentsOf([]) == 0
    ensures forall c :: line.amount == Number(Cents(c)) || line.amount == Text(Cents(c)) ==> AmountOf(line) == c
    ensures line.amount == OtherAmount ==> AmountOf(line) == 0
    ensures HoldsNaN(lines + [line]) <==> HoldsNaN(lines) || line.amount == Number(NaN)
  {
    var all := lines + [line];
    assert all[..|lines|] == lines && all[|lines|] == line;
    if HoldsNaN(lines) {
      var k :| 0 <= k < |lines| && lines[k].amount == Number(NaN);
      assert all[k].amount == Number(NaN);
    }
  }

  // Balancing parks exactly the payloads that add up and miss the total by more than the tolerance.
  lemma ParksIff(p: Payload, order: Order)
    ensures Balance(p, order) == Err(ParkedAt(BalancingStage)) <==>
            && TotalsParse(order) && !Unparsable(p.items) && !Unparsable(ShippingOf(p)) && AllNumbers(p)
            && !(order.totalPrice.c - 5 <= Total(p, order) <= order.totalPrice.c + 5)
  {
  }

  // It throws exactly when one of the order's totals, or the text of an amount, is no number.
  lemma ThrowsIff(p: Payload, order: Order)
    ensures Balance(p, order) == Err(Throws) <==>
            || order.totalPrice == NaN || order.totalTax == NaN || order.totalDiscounts == NaN
            || (exists k :: 0 <= k < |p.items| && p.items[k].amount == Text(NaN))
            || (p.shipping.Some? && exists k :: 0 <= k < |p.shipping.value| && p.shipping.value[k].amount == Text(NaN))
  {
  }

  // A balanced payload comes to Shopify's total to the cent, if and only if no line held a NaN
  // to begin with.
  lemma BalancedIff(p: Payload, order: Order)
    requires Balance(p, order).Ok?
    ensures var q := Balance(p, order).value;
            AllNumbers(q) && Total(q, order) == order.totalPrice.c <==> AllNumbers(p)
  {
    CentsAppend(p.items, BalancingLine(Difference(p, order)));
  }

  // An order with a line that is not a number gets through, whatever its total.
  lemma NaNPasses(p: Payload, order: Order)
    requires TotalsParse(order) && !Unparsable(p.items) && !Unparsable(ShippingOf(p)) && !AllNumbers(p)
    ensures Balance(p, order).Ok? && !AllNumbers(Balance(p, order).value)
  {
    BalancedIff(p, order);
  }

  lemma NaNInstance()
    ensures var line := Line(Id("A", false), Number(NaN), "");
            var p := Payload("", [line], None, None, None);
            var order := Order(false, false, Paid, [OrderLine(Some("A"), NaN, "")], [],
                               Cents(100000), Cents(0), Cents(0));
            && Eligible(order)
            && Balance(p, order) == Ok(p.(items := [line, BalancingLine(NaN)]))
  {
    var line := Line(Id("A", false), Number(NaN), "");
    assert [line][0].amount == Number(NaN);
    assert [line] + [BalancingLine(NaN)] == [line, BalancingLine(NaN)];
  }

  // ----- item ids -----

  // The item record with this SKU, if NetSuite has one.
  type Catalogue = map<string, string>

  predicate Resolvable(line: Line, items: Catalogue, fallback: Option<string>) {
    line.item.Id? && !line.item.marked ==> line.item.id in items || fallback.Some?
  }

  function NewRef(ref: ItemRef, items: Catalogue, fallback: Option<string>): ItemRef {
    match ref
    case Id(id, true) => Id(id, false)
    case Id(id, false) =>
      if id in items then Id(items[id], false)
      else if fallback.Some? then Id(fallback.value, false)
      else ref
    case _ => ref
  }

  // Every line is where it was, and only its item has changed.
  ghost predicate ResolvedAs(lines: seq<Line>, out: seq<Line>, items: Catalogue, fallback: Option<string>) {
    && |out| == |lines|
    && forall k :: 0 <= k < |lines| ==>
         Resolvable(lines[k], items, fallback) && out[k] == lines[k].(item := NewRef(lines[k].item, items, fallback))
  }

  // The line named is the first that cannot be resolved.
  ghost predicate ParksAtFirst(lines: seq<Line>, items: Catalogue, fallback: Option<string>, stop: Stop) {
    && stop.ParkedAt? && stop.stage.ItemStage? && stop.stage.line < |lines|
    && !Resolvable(lines[stop.stage.line], items, fallback)
    && forall k :: 0 <= k < stop.stage.line ==> Resolvable(lines[k], items, fallback)
  }

  // resolveSublist: it stops at the first line it cannot resolve.
  method ResolveSublist(lines: seq<Line>, items: Catalogue, fallback: Option<string>)
    returns (r: Result<seq<Line>, Stop>)
    ensures r.Ok? ==> ResolvedAs(lines, r.value, items, fallback)
    ensures r.Err? ==> ParksAtFirst(lines, items, fallback, r.error)
  {
    var resolved := [];
    for i := 0 to |lines|
      invariant ResolvedAs(lines[..i], resolved, items, fallback)
    {
      var line := lines[i];
      if line.item.NotAnObject? || line.item.NoId? {
        resolved := resolved + [line];
        continue;
      }
      if line.item.marked {
        resolved := resolved + [line.(item := Id(line.item.id, false))];
        continue;
      }
      if line.item.id !in items {
        if fallback.Some? {
          resolved := resolved + [line.(item := Id(fallback.value, false))];
          continue;
        }
        return Err(ParkedAt(ItemStage(i)));
      }
      resolved := resolved + [line.(item := Id(items[line.item.id], false))];
    }
    assert lines[..|lines|] == lines;
    r := Ok(resolved);
  }

  // What resolveItemReferences leaves: the fallback is for item lines only.
  ghost predicate Resolves(p: Payload, q: Payload, items: Catalogue, fallback: Option<string>) {
    && q == p.(items := q.items, shipping := q.shipping)
    && ResolvedAs(p.items, q.items, items, fallback)
    && p.shipping.Some? == q.shipping.Some?
    && (p.shipping.Some? ==> ResolvedAs(p.shipping.value, q.shipping.value, items, None))
  }

  ghost predicate AllResolvable(lines: seq<Line>, items: Catalogue, fallback: Option<string>) {
    forall k :: 0 <= k < |lines| ==> Resolvable(lines[k], items, fallback)
  }

  method ResolveItemReferences(p: Payload, items: Catalogue, fallback: Option<string>)
    returns (r: Result<Payload, Stop>)
    ensures r.Ok? ==> Resolves(p, r.value, items, fallback)
    ensures r.Ok? <==> AllResolvable(p.items, items, fallback) && AllResolvable(ShippingOf(p), items, None)
    ensures r.Err? ==> r.error.ParkedAt? && r.error.stage.ItemStage?
  {
    var itemLines := ResolveSublist(p.items, items, fallback);
    if itemLines.Err? {
      return Err(itemLines.error);
    }
    var shippingLines: Option<seq<Line>> := None;
    if p.shipping.Some? {
      var result := ResolveSublist(p.shipping.value, items, None);
      if result.Err? {
        return Err(result.error);
      }
      shippingLines := Some(result.value);
    }
    r := Ok(p.(items := itemLines.value, shipping := shippingLines));
  }

  lemma {:induction false} ResolvingKeepsAmounts(lines: seq<Line>, out: seq<Line>, items: Catalogue,
                                                 fallback: Option<string>)
    requires ResolvedAs(lines, out, items, fallback)
    ensures CentsOf(out) == CentsOf(lines) && (HoldsNaN(out) <==> HoldsNaN(lines))
  {
    if lines != [] {
      var n := |lines| - 1;
      ResolvingKeepsAmounts(lines[..n], out[..n], items, fallback);
      assert lines == lines[..n] + [lines[n]] && out == out[..n] + [out[n]];
      CentsAppend(lines[..n], lines[n]);
      CentsAppend(out[..n], out[n]);
    }
  }

  // ----- the whole way -----

  // The first step that refuses says how the order ends, and one that nothing refuses goes on.
  ghost predicate StopsAsDue(connection: Connection, order: Order, header: Option<string>, items: Catalogue,
                             r: Result<Payload, Stop>) {
    match BuildOrderPayload(connection, order, header)
    case Err(e) => r == Err(e)
    case Ok(draft) =>
      match Balance(draft, order)
      case Err(e) => r == Err(e)
      case Ok(p) =>
        if AllResolvable(p.items, items, connection.defaultItemId) && AllResolvable(ShippingOf(p), items, None)
        then r.Ok?
        else r.Err? && r.error.ParkedAt? && r.error.stage.ItemStage?
  }

  // The handler's steps from eligibility to the final payload; the tax header touches neither
  // lines nor amounts.
  method PreparePayload(connection: Connection, order: Order, topic: string, header: Option<string>, items: Catalogue)
    returns (r: Result<Payload, Stop>)
    ensures r.Ok? ==> Prepared(connection, order, items, r.value) && header == Some(r.value.header)
    ensures r.Err? && r.error.Ignored? <==> !Eligible(order)
    ensures r.Err? && r.error.Ignored? ==> ReasonHolds(order, r.error.reason)
    ensures Eligible(order) ==> StopsAsDue(connection, order, header, items, r)
  {
    var elig := CheckEligibility(order, topic, EligibilityOptions(None, None));
    if elig.Some? {
      return Err(Ignored(elig.value));
    }
    var draft := BuildOrderPayload(connection, order, header);
    if draft.Err? {
      return Err(draft.error);
    }
    var balanced := ApplyBalancing(draft.value, order);
    if balanced.Err? {
      return Err(balanced.error);
    }
    r := ResolveItemReferences(balanced.value, items, connection.defaultItemId);
    if r.Ok? {
      PreparedFrom(connection, order, header, balanced.value, items, r.value);
    }
  }

  predicate NumbersOnly(order: Order) {
    && (forall k :: 0 <= k < |order.lines| ==> order.lines[k].discountedTotal.Cents?)
    && (forall k :: 0 <= k < |order.shipping| ==> order.shipping[k].price.Cents?)
  }

  // The reference is to the catalogue's item of this SKU, or to the fallback when it has none.
  ghost predicate Names(ref: ItemRef, sku: string, items: Catalogue, fallback: Option<string>) {
    && ref.Id? && !ref.marked
    && (sku in items ==> ref.id == items[sku])
    && (sku !in items ==> fallback == Some(ref.id))
  }

  ghost predicate SoldAs(line: Line, sold: OrderLine, items: Catalogue, fallback: Option<string>) {
    && Names(line.item, if sold.sku.Some? then sold.sku.value else "UNMAPPED-ITEM", items, fallback)
    && line.amount == Number(sold.discountedTotal) && line.rest == sold.details
  }

  // Shipping is booked on the connection's item, or on the catalogue's item of the standard SKU.
  ghost predicate ShippedAs(line: Line, sent: ShippingLine, shipItem: Option<string>, items: Catalogue) {
    && (if shipItem.Some? && shipItem.value != "" then line.item == Id(shipItem.value, false)
        else Names(line.item, "SHIP-STANDARD", items, None))
    && line.amount == Number(sent.price) && line.rest == sent.title
  }

  ghost predicate RoundingLine(line: Line, items: Catalogue, fallback: Option<string>) {
    Names(line.item, "6540", items, fallback) && line.amount.Number? && line.rest == "Rounding adjustment"
  }

  // The lines are the order's own, in order, each on the item of its own SKU, and at most one
  // more for at most the tolerance.
  ghost predicate LinesOf(order: Order, lines: seq<Line>, items: Catalogue, fallback: Option<string>) {
    var n := |order.lines|;
    && n <= |lines| <= n + 1
    && (forall k :: 0 <= k < n ==> SoldAs(lines[k], order.lines[k], items, fallback))
    && (|lines| > n ==> RoundingLine(lines[n], items, fallback))
    && (|lines| > n && NumbersOnly(order) ==> 0 < Abs(AmountOf(lines[n])) <= TOLERANCE)
  }

  ghost predicate ShippingLinesOf(order: Order, p: Payload, shipItem: Option<string>, items: Catalogue) {
    && (p.shipping.Some? <==> order.shipping != [])
    && |ShippingOf(p)| == |order.shipping|
    && forall k :: 0 <= k < |order.shipping| ==> ShippedAs(ShippingOf(p)[k], order.shipping[k], shipItem, items)
  }

  // A discount above zero is sent with its item, and no other.
  ghost predicate DiscountOf(order: Order, p: Payload, discountItem: Option<string>) {
    if order.totalDiscounts.Cents? && order.totalDiscounts.c > 0
    then p.discountRate == Some(-order.totalDiscounts.c) && p.discountItem.Some? && p.discountItem == discountItem
    else p.discountRate == None && p.discountItem == None
  }

  // The guarantee on every payload that reaches the upsert. It comes to the order's total to the
  // cent, if and only if the order's own amounts are numbers.
  ghost predicate Prepared(connection: Connection, order: Order, items: Catalogue, p: Payload) {
    && Eligible(order) && TotalsParse(order)
    && LinesOf(order, p.items, items, connection.defaultItemId)
    && ShippingLinesOf(order, p, connection.shipItemId, items)
    && DiscountOf(order, p, connection.discountItemId)
    && (AllNumbers(p) && Total(p, order) == order.totalPrice.c <==> NumbersOnly(order))
  }

  lemma DraftNumbers(connection: Connection, order: Order, header: Option<string>)
    requires BuildOrderPayload(connection, order, header).Ok?
    ensures AllNumbers(BuildOrderPayload(connection, order, header).value) <==> NumbersOnly(order)
  {
    var draft := BuildOrderPayload(connection, order, header).value;
    forall k | 0 <= k < |order.lines|
      ensures draft.items[k].amount == Number(order.lines[k].discountedTotal)
    {
    }
    forall k | 0 <= k < |order.shipping|
      ensures ShippingOf(draft)[k].amount == Number(order.shipping[k].price)
    {
    }
  }

  lemma ResolvedNames(line: Line, items: Catalogue, fallback: Option<string>)
    requires line.item.Id? && !line.item.marked && Resolvable(line, items, fallback)
    ensures Names(NewRef(line.item, items, fallback), line.item.id, items, fallback)
  {
  }

  lemma LinesFrom(order: Order, draft: Payload, balanced: Payload, out: seq<Line>,
                  items: Catalogue, fallback: Option<string>)
    requires draft.items == ItemLines(order) && Balance(draft, order) == Ok(balanced)
    requires AllNumbers(draft) <==> NumbersOnly(order)
    requires ResolvedAs(balanced.items, out, items, fallback)
    ensures LinesOf(order, out, items, fallback)
  {
    forall k | 0 <= k < |order.lines|
      ensures SoldAs(out[k], order.lines[k], items, fallback)
    {
      assert balanced.items[k] == draft.items[k] == ItemLine(order.lines[k]);
      ResolvedNames(balanced.items[k], items, fallback);
    }
    if |out| > |order.lines| {
      assert balanced.items[|order.lines|] == BalancingLine(Difference(draft, order));
      ResolvedNames(balanced.items[|order.lines|], items, fallback);
    }
  }

  lemma ShippingFrom(connection: Connection, order: Order, draft: seq<Line>, out: seq<Line>, items: Catalogue)
    requires draft == ShipLines(connection, order) && ResolvedAs(draft, out, items, None)
    ensures |out| == |order.shipping|
    ensures forall k :: 0 <= k < |out| ==> ShippedAs(out[k], order.shipping[k], connection.shipItemId, items)
  {
    forall k | 0 <= k < |out|
      ensures ShippedAs(out[k], order.shipping[k], connection.shipItemId, items)
    {
      assert draft[k] == ShipLine(connection, order.shipping[k]);
      if !draft[k].item.marked {
        ResolvedNames(draft[k], items, None);
      }
    }
  }

  lemma AtTotal(order: Order, draft: Payload, balanced: Payload, items: Catalogue, fallback: Option<string>, p: Payload)
    requires Balance(draft, order) == Ok(balanced) && Resolves(balanced, p, items, fallback)
    ensures AllNumbers(p) && Total(p, order) == order.totalPrice.c <==> AllNumbers(draft)
  {
    BalancedIff(draft, order);
    ResolvingKeepsAmounts(balanced.items, p.items, items, fallback);
    if p.shipping.Some? {
      ResolvingKeepsAmounts(balanced.shipping.value, p.shipping.value, items, None);
    }
  }

  lemma PreparedFrom(connection: Connection, order: Order, header: Option<string>,
                     balanced: Payload, items: Catalogue, p: Payload)
    requires Eligible(order) && BuildOrderPayload(connection, order, header).Ok?
    requires Balance(BuildOrderPayload(connection, order, header).value, order) == Ok(balanced)
    requires Resolves(balanced, p, items, connection.defaultItemId)
    ensures Prepared(connection, order, items, p)
  {
    var draft := BuildOrderPayload(connection, order, header).value;
    DraftNumbers(connection, order, header);
    LinesFrom(order, draft, balanced, p.items, items, connection.defaultItemId);
    AtTotal(order, draft, balanced, items, connection.defaultItemId, p);
    if p.shipping.Some? {
      ShippingFrom(connection, order, balanced.shipping.value, p.shipping.value, items);
    }
  }

  // What NetSuite makes of the payload: the discount only counts as far as a discount field
  // says so.
  function Rendered(p: Payload, order: Order): int
    requires TotalsParse(order)
  {
    CentsOf(p.items) + CentsOf(ShippingOf(p)) + order.totalTax.c
    + (if p.discountRate.Some? then p.discountRate.value else 0)
  }

  // That is the order's total if and only if the order's discount is not negative: balancing
  // subtracts any discount, the payload carries only a positive one.
  lemma RenderedAtTotalIff(connection: Connection, order: Order, items: Catalogue, p: Payload)
    requires Prepared(connection, order, items, p) && NumbersOnly(order)
    ensures Rendered(p, order) == order.totalPrice.c <==> order.totalDiscounts.c >= 0
  {
  }

  // A discount of minus one cent: the payload is balanced to 9.99 and rendered at 9.98.
  lemma NegativeDiscountInstance()
    ensures var connection := Connection(None, None, None);
            var order := Order(false, false, Paid, [OrderLine(Some("A"), Cents(998), "")], [],
                               Cents(999), Cents(0), Cents(-1));
            var p := Payload("", [Line(Id("7", false), Number(Cents(998)), "")], None, None, None);
            && Prepared(connection, order, map["A" := "7"], p)
            && Rendered(p, order) == 998 && order.totalPrice == Cents(999)
  {
    var lines := [Line(Id("7", false), Number(Cents(998)), "")];
    assert lines[..0] == [] && CentsOf(lines) == 998;
    assert "7" in map["A" := "7"].Values by {
      assert map["A" := "7"]["A"] == "7";
    }
  }

  // ----- the item cache -----

  predicate NoColon(s: string) {
    ':' !in s
  }

  function CacheKey(account: string, sku: string): string {
    account + "::" + sku
  }

  lemma CacheKeyInjective(a: string, s: string, b: string, t: string)
    requires NoColon(a) && NoColon(b) && CacheKey(a, s) == CacheKey(b, t)
    ensures a == b && s == t
  {
    var n := if |a| <= |b| then |a| else |b|;
    CacheKeyAt(a, s, n);
    CacheKeyAt(b, t, n);
    assert CacheKey(a, s)[..|a|] == a && CacheKey(b, t)[..|b|] == b;
    assert CacheKey(a, s)[|a| + 2..] == s && CacheKey(b, t)[|b| + 2..] == t;
  }

  lemma CacheKeyAt(account: string, sku: string, i: nat)
    requires i <= |account|
    ensures CacheKey(account, sku)[i] == if i < |account| then account[i] else ':'
  {
  }

  // Two accounts whose cache keys can be the same.
  predicate MayClash(a: string, b: string) {
    a != b && (a + "::" <= b + "::" || b + "::" <= a + "::")
  }

  // Two different accounts have a cache key in common, for some SKUs, if and only if one of them
  // followed by the separator begins the other followed by it.
  lemma ClashIff(a: string, b: string)
    requires a != b
    ensures (exists s, t :: CacheKey(a, s) == CacheKey(b, t)) <==> MayClash(a, b)
  {
    if s, t :| CacheKey(a, s) == CacheKey(b, t) {
      KeysClash(a, s, b, t);
    }
    if a + "::" <= b + "::" {
      ClashOnSku(a, b);
    }
    if b + "::" <= a + "::" {
      ClashOnSku(b, a);
    }
  }

  lemma KeysClash(a: string, s: string, b: string, t: string)
    requires a != b && CacheKey(a, s) == CacheKey(b, t)
    ensures MayClash(a, b)
  {
    var p, q, k := a + "::", b + "::", CacheKey(a, s);
    assert k == p + s && CacheKey(b, t) == q + t;
    assert p == k[..|p|] && q == k[..|q|];
    assert if |p| <= |q| then q[..|p|] == p else p[..|q|] == q;
  }

  lemma ClashOnSku(a: string, b: string)
    requires a + "::" <= b + "::"
    ensures CacheKey(a, (b + "::")[|a| + 2..]) == CacheKey(b, "")
  {
    assert b + "::" == a + "::" + (b + "::")[|a| + 2..];
  }

  lemma SameAccountKeys(a: string, s: string, t: string)
    requires CacheKey(a, s) == CacheKey(a, t)
    ensures s == t
  {
    assert CacheKey(a, s)[|a| + 2..] == s && CacheKey(a, t)[|a| + 2..] == t;
  }

  // Account ids without a colon never clash.
  lemma NoColonNeverClashes(a: string, b: string)
    requires NoColon(a) && NoColon(b)
    ensures !MayClash(a, b)
  {
    if a != b {
      ClashIff(a, b);
      forall s, t
        ensures CacheKey(a, s) != CacheKey(b, t)
      {
        if CacheKey(a, s) == CacheKey(b, t) {
          CacheKeyInjective(a, s, b, t);
        }
      }
    }
  }

  // resolveItemId of packages/netsuite-client/src/sdk-gateway.ts over a catalogue that does not
  // change while the process lives.
  class SdkItemIds {
    const query: (string, string) -> Option<string>
    var itemCache: map<string, Option<string>>
    ghost var accounts: set<string>

    constructor (query: (string, string) -> Option<string>)
      ensures Valid() && accounts == {} && itemCache == map[] && this.query == query
    {
      this.query := query;
      itemCache := map[];
      accounts := {};
    }

    // Each entry is the answer for some account and SKU that were asked for.
    ghost predicate Valid()
      reads this
    {
      forall k :: k in itemCache ==>
        exists a, s :: a in accounts && k == CacheKey(a, s) && itemCache[k] == query(a, s)
    }

    ghost predicate NoClash()
      reads this
    {
      forall a, b :: a in accounts && b in accounts ==> !MayClash(a, b)
    }

    // The answer is the uncached one while no two accounts that were asked for may clash.
    method ResolveItemId(account: string, sku: string) returns (id: Option<string>)
      requires Valid()
      modifies this
      ensures Valid() && accounts == old(accounts) + {account}
      ensures id == if CacheKey(account, sku) in old(itemCache) then old(itemCache)[CacheKey(account, sku)]
                    else query(account, sku)
      ensures itemCache == old(itemCache)[CacheKey(account, sku) := id]
      ensures NoClash() ==> id == query(account, sku)
    {
      var cacheKey := CacheKey(account, sku);
      accounts := accounts + {account};
      if cacheKey in itemCache {
        ghost var a, s :| a in old(accounts) && cacheKey == CacheKey(a, s) && itemCache[cacheKey] == query(a, s);
        if a == account {
          SameAccountKeys(a, s, sku);
        } else {
          KeysClash(a, s, account, sku);
        }
        id := itemCache[cacheKey];
        assert itemCache == itemCache[cacheKey := id];
        return;
      }
      id := query(account, sku);
      itemCache := itemCache[cacheKey := id];
    }
  }

  // Ask for one account's item, then for another's under the same key: the second answer is the
  // first account's.
  method AskTwice(query: (string, string) -> Option<string>, a: string, s: string, b: string, t: string)
    returns (first: Option<string>, second: Option<string>)
    requires CacheKey(a, s) == CacheKey(b, t)
    ensures first == second == query(a, s)
  {
    var ids := new SdkItemIds(query);
    first := ids.ResolveItemId(a, s);
    second := ids.ResolveItemId(b, t);
  }

  // Two accounts whose catalogues differ: asked in one order, account `a::b` is told account
  // `a`'s item, and asked in the other, `a` is told that of `a::b`.
  method WrongItem(query: (string, string) -> Option<string>) returns (wrong: Option<string>, reverse: Option<string>)
    requires query("a", "b::c") != query("a::b", "c")
    ensures wrong == query("a", "b::c") && wrong != query("a::b", "c")
    ensures reverse == query("a::b", "c") && reverse != query("a", "b::c")
  {
    assert CacheKey("a", "b::c") == "a::b::c" == CacheKey("a::b", "c");
    var _, second := AskTwice(query, "a", "b::c", "a::b", "c");
    var _, other := AskTwice(query, "a::b", "c", "a", "b::c");
    wrong, reverse := second, other;
  }
}
