// apps/functions/src/triggers/order-catchup-poller.ts: the watermark poller of one connection.
module CatchupPoller {
  import opened Common
  import opened XrefStore
  import opened OrderListing

  // Times are in one unit; `pageSize` is what Shopify is asked for.
  datatype PollConfig = PollConfig(bootstrapLookback: int, overlapOnEmpty: int, pageSize: nat)

  // The shipped defaults are 24 hours, 60 seconds and 50 orders. Nothing checks a config; without
  // this one, GapWithout shows what goes wrong.
  predicate ValidConfig(c: PollConfig) {
    0 <= c.overlapOnEmpty && c.pageSize > 0
  }

  function FromCursor(c: PollConfig, cursor: Option<int>, now: int): int {
    match cursor
    case Some(last) => last
    case None => now - c.bootstrapLookback
  }

  function NewCursor(c: PollConfig, page: seq<Summary>, now: int): int {
    if page != [] then page[|page| - 1].updatedAt else now - c.overlapOnEmpty
  }

  // Rows that have already been settled are not published again.
  predicate Terminal(status: Option<Status>) {
    status == Some(Synced) || status == Some(Ignored)
  }

  function StatusOf(rows: map<string, Status>, id: string): Option<Status> {
    if id in rows then Some(rows[id]) else None
  }

  function ToEnqueue(page: seq<Summary>, rows: map<string, Status>): seq<string> {
    if page == [] then []
    else
      ToEnqueue(page[..|page| - 1], rows) +
      (var o := page[|page| - 1]; if Terminal(StatusOf(rows, o.id)) then [] else [o.id])
  }

  predicate OnPage(page: seq<Summary>, id: string) {
    exists k :: 0 <= k < |page| && page[k].id == id
  }

  // Published are the orders of the page that have no row, or one that is pending or error.
  lemma {:induction false} EnqueuedIff(page: seq<Summary>, rows: map<string, Status>, id: string)
    ensures id in ToEnqueue(page, rows) <==>
            OnPage(page, id) && (id !in rows || rows[id] == Pending || rows[id] == Error)
  {
    if page != [] {
      var n := |page| - 1;
      EnqueuedIff(page[..n], rows, id);
      assert OnPage(page, id) <==> OnPage(page[..n], id) || page[n].id == id;
    }
  }

  // `more` is the ids of those orders of the page.
  ghost predicate OpenOnes(page: seq<Summary>, rows: map<string, Status>, more: seq<string>) {
    forall id :: id in more <==> OnPage(page, id) && (id !in rows || rows[id] == Pending || rows[id] == Error)
  }

  lemma EnqueuedAll(page: seq<Summary>, rows: map<string, Status>)
    ensures OpenOnes(page, rows, ToEnqueue(page, rows))
  {
    forall id
      ensures id in ToEnqueue(page, rows) <==>
              OnPage(page, id) && (id !in rows || rows[id] == Pending || rows[id] == Error)
    {
      EnqueuedIff(page, rows, id);
    }
  }

  // They are published in the order of the page: whatever comes first on it is published first.
  lemma {:induction false} EnqueuedInOrder(xs: seq<Summary>, ys: seq<Summary>, rows: map<string, Status>)
    ensures ToEnqueue(xs + ys, rows) == ToEnqueue(xs, rows) + ToEnqueue(ys, rows)
  {
    if ys == [] {
      assert xs + ys == xs;
    } else {
      var all, n := xs + ys, |ys| - 1;
      EnqueuedInOrder(xs, ys[..n], rows);
      assert all[..|all| - 1] == xs + ys[..n] && all[|all| - 1] == ys[n];
    }
  }

  datatype PollOutcome = Polled(observed: nat, enqueued: nat, fromCursor: int, newCursor: int)

  class Poller {
    const config: PollConfig
    var orders: seq<Summary>
    var rows: map<string, Status>
    var watermark: Option<int>
    var queue: seq<string>

    constructor (config: PollConfig)
      ensures this.config == config && orders == [] && rows == map[] && watermark == None && queue == []
    {
      this.config := config;
      orders, rows, watermark, queue := [], map[], None, [];
    }

    // The loop over the page.
    method EnqueuePage(page: seq<Summary>) returns (enqueued: nat)
      modifies this`queue
      ensures queue == old(queue) + ToEnqueue(page, rows)
      ensures enqueued == |ToEnqueue(page, rows)|
    {
      enqueued := 0;
      for i := 0 to |page|
        invariant queue == old(queue) + ToEnqueue(page[..i], rows)
        invariant enqueued == |ToEnqueue(page[..i], rows)|
      {
        assert page[..i + 1][..i] == page[..i];
        var id := page[i].id;
        if id in rows && (rows[id] == Synced || rows[id] == Ignored) {
          continue;
        }
        queue := queue + [id];
        enqueued := enqueued + 1;
      }
      assert page[..|page|] == page;
    }

    // pollOneConnection with nothing failing and nothing running beside it.
    method PollOneConnection(now: int) returns (r: PollOutcome)
      modifies this`watermark, this`queue
      ensures var since := FromCursor(config, old(watermark), now);
              var page := Page(orders, since, config.pageSize);
              && watermark == Some(NewCursor(config, page, now))
              && queue == old(queue) + ToEnqueue(page, rows)
              && r == Polled(|page|, |ToEnqueue(page, rows)|, since, NewCursor(config, page, now))
              && r.newCursor == (if page == [] then now - config.overlapOnEmpty else page[|page| - 1].updatedAt)
              && OpenOnes(page, rows, queue[|old(queue)|..])
    {
      var fromCursor := if watermark.Some? then watermark.value else now - config.bootstrapLookback;
      var page := Page(orders, fromCursor, config.pageSize);
      var enqueued := EnqueuePage(page);
      EnqueuedAll(page, rows);
      assert queue[|old(queue)|..] == ToEnqueue(page, rows);
      var newCursor := if |page| > 0 then page[|page| - 1].updatedAt else now - config.overlapOnEmpty;
      watermark := Some(newCursor);
      return Polled(|page|, enqueued, fromCursor, newCursor);
    }
  }

  // ----- polls interleaved with the shop, the importer and faults -----

  datatype Phase =
    | Idle
    | Started(now: int, since: int)
    | Looping(now: int, since: int, page: seq<Summary>, next: nat)
    | Enqueueing(now: int, since: int, page: seq<Summary>, next: nat)

  // `enqueued` are the versions, order and instant, that a poll has published, and `skipped` those
  // it passed over, with what it found in the order's row; `boot` is the cursor of the first poll
  // that finished.
  datatype World = World(
    orders: seq<Summary>,
    rows: map<string, Status>,
    clock: int,
    cursor: Option<int>,
    boot: int,
    lastNow: int,
    phase: Phase,
    enqueued: set<Summary>,
    skipped: map<Summary, Option<Status>>)

  datatype Event =
    | Tick(elapsed: nat)
    | OrderUpdated(id: string)
    | RowChanged(id: string, status: Option<Status>)
    | StartPoll
    | ListPage
    | LookupRow
    | Enqueue
    | SetWatermark
    | Fault

  // Orders are never deleted; an update stamps the order with the current time.
  function Updated(orders: seq<Summary>, id: string, now: int): seq<Summary> {
    if orders == [] then [Summary(id, now)]
    else if orders[0].id == id then [Summary(id, now)] + orders[1..]
    else [orders[0]] + Updated(orders[1..], id, now)
  }

  ghost predicate Enabled(w: World, e: Event) {
    match e
    case StartPoll => w.phase.Idle?
    case ListPage => w.phase.Started?
    case LookupRow => w.phase.Looping? && w.phase.next < |w.phase.page|
    case Enqueue => w.phase.Enqueueing? && w.phase.next < |w.phase.page|
    case SetWatermark => w.phase.Looping? && w.phase.next == |w.phase.page|
    case _ => true
  }

  ghost function Apply(c: PollConfig, w: World, e: Event): World
    requires Enabled(w, e)
  {
    var ph := w.phase;
    match e
    case Tick(d) => w.(clock := w.clock + d)
    case OrderUpdated(id) => w.(orders := Updated(w.orders, id, w.clock))
    case RowChanged(id, s) => w.(rows := if s.Some? then w.rows[id := s.value] else w.rows - {id})
    case StartPoll => w.(phase := Started(w.clock, FromCursor(c, w.cursor, w.clock)))
    case ListPage => w.(phase := Looping(ph.now, ph.since, Page(w.orders, ph.since, c.pageSize), 0))
    case LookupRow =>
      var o := ph.page[ph.next];
      if Terminal(StatusOf(w.rows, o.id))
      then w.(skipped := w.skipped[o := StatusOf(w.rows, o.id)],
              phase := Looping(ph.now, ph.since, ph.page, ph.next + 1))
      else w.(phase := Enqueueing(ph.now, ph.since, ph.page, ph.next))
    case Enqueue =>
      w.(enqueued := w.enqueued + {ph.page[ph.next]}, phase := Looping(ph.now, ph.since, ph.page, ph.next + 1))
    case SetWatermark =>
      w.(cursor := Some(NewCursor(c, ph.page, ph.now)),
         boot := if w.cursor.None? then ph.since else w.boot,
         lastNow := ph.now,
         phase := Idle)
    case Fault => w.(phase := Idle)
  }

  ghost predicate Legal(c: PollConfig, w: World, run: seq<Event>)
    decreases run
  {
    run == [] || (Enabled(w, run[0]) && Legal(c, Apply(c, w, run[0]), run[1..]))
  }

  ghost function Exec(c: PollConfig, w: World, run: seq<Event>): World
    requires Legal(c, w, run)
    decreases run
  {
    if run == [] then w else Exec(c, Apply(c, w, run[0]), run[1..])
  }

  // The connection before its first poll.
  ghost predicate Fresh(w: World) {
    && w.cursor.None? && w.phase.Idle? && w.enqueued == {} && w.skipped == map[]
    && (forall o :: o in w.orders ==> o.updatedAt <= w.clock)
  }

  ghost predicate Settled(w: World, o: Summary) {
    o in w.enqueued || o in w.skipped
  }

  // Every order between the first cursor and `upTo` has been seen at its present version.
  ghost predicate CoveredUpTo(w: World, from: int, upTo: int) {
    forall o :: o in w.orders && from <= o.updatedAt < upTo ==> Settled(w, o)
  }

  // Some order is at least this recent: orders are never deleted or turned back, so one that
  // set a cursor keeps the next page from being empty.
  ghost predicate StillThere(w: World, instant: int) {
    exists o :: o in w.orders && instant <= o.updatedAt
  }

  ghost predicate CursorInv(c: PollConfig, w: World) {
    w.cursor.Some? ==>
      var last := w.cursor.value;
      && last <= w.clock
      && w.lastNow <= w.clock
      && CoveredUpTo(w, w.boot, last)
      && (last <= w.lastNow - c.overlapOnEmpty || StillThere(w, last))
  }

  ghost predicate StartedInv(c: PollConfig, w: World, now: int, since: int) {
    && now <= w.clock
    && since == FromCursor(c, w.cursor, now)
    && (w.cursor.Some? ==> w.lastNow <= now)
  }

  ghost predicate PageInv(c: PollConfig, w: World, now: int, since: int, page: seq<Summary>, next: nat) {
    && next <= |page|
    && (forall o :: o in page ==> since <= o.updatedAt <= w.clock)
    && (forall j :: 0 <= j < next ==> Settled(w, page[j]))
    && (if page == [] then
          && (forall o :: o in w.orders && since <= o.updatedAt ==> now <= o.updatedAt)
          && (w.cursor.Some? ==> since <= w.lastNow - c.overlapOnEmpty)
        else
          && (forall o :: o in w.orders && since <= o.updatedAt < page[|page| - 1].updatedAt ==> o in page)
          && StillThere(w, page[|page| - 1].updatedAt))
  }

  ghost predicate PhaseInv(c: PollConfig, w: World) {
    match w.phase
    case Idle => true
    case Started(now, since) => StartedInv(c, w, now, since)
    case Looping(now, since, page, next) =>
      StartedInv(c, w, now, since) && PageInv(c, w, now, since, page, next)
    case Enqueueing(now, since, page, next) =>
      StartedInv(c, w, now, since) && PageInv(c, w, now, since, page, next)
  }

  ghost predicate Inv(c: PollConfig, w: World) {
    && (forall o :: o in w.orders ==> o.updatedAt <= w.clock)
    && CursorInv(c, w)
    && PhaseInv(c, w)
  }

  lemma {:induction false} UpdatedFacts(orders: seq<Summary>, id: string, now: int)
    ensures Summary(id, now) in Updated(orders, id, now)
    ensures forall o :: o in Updated(orders, id, now) ==> o in orders || o == Summary(id, now)
    ensures forall o :: o in orders ==> o in Updated(orders, id, now) || o.id == id
  {
    if orders != [] {
      assert orders == [orders[0]] + orders[1..];
      if orders[0].id != id {
        UpdatedFacts(orders[1..], id, now);
      }
    }
  }

  lemma UpdateKeepsInv(c: PollConfig, w: World, id: string)
    requires Inv(c, w)
    ensures Inv(c, Apply(c, w, OrderUpdated(id)))
  {
    var w' := Apply(c, w, OrderUpdated(id));
    UpdatedFacts(w.orders, id, w.clock);
    forall instant | StillThere(w, instant)
      ensures StillThere(w', instant)
    {
      assert Summary(id, w.clock) in w'.orders;
    }
  }

  lemma ListKeepsInv(c: PollConfig, w: World)
    requires ValidConfig(c) && Inv(c, w) && Enabled(w, ListPage)
    ensures Inv(c, Apply(c, w, ListPage))
  {
    var since := w.phase.since;
    var page := Page(w.orders, since, c.pageSize);
    PageElements(w.orders, since, c.pageSize);
    forall o | o in w.orders && since <= o.updatedAt
      ensures page != [] && (o.updatedAt < page[|page| - 1].updatedAt ==> o in page)
    {
      PageCovers(w.orders, since, c.pageSize, o);
    }
  }

  lemma SetKeepsInv(c: PollConfig, w: World)
    requires ValidConfig(c) && Inv(c, w) && Enabled(w, SetWatermark)
    ensures Inv(c, Apply(c, w, SetWatermark))
    ensures w.cursor.Some? ==> w.cursor.value <= NewCursor(c, w.phase.page, w.phase.now)
  {
    var ph, w' := w.phase, Apply(c, w, SetWatermark);
    var last := NewCursor(c, ph.page, ph.now);
    if ph.page != [] {
      assert ph.page[|ph.page| - 1] in ph.page;
    }
    forall o | o in w.orders && w'.boot <= o.updatedAt < last
      ensures Settled(w', o)
    {
      if ph.since <= o.updatedAt {
        assert o in ph.page;
      } else {
        assert w.cursor.Some? && Settled(w, o);
      }
    }
  }

  // A step of the loop settles one version more and leaves the orders as they are.
  ghost predicate OneMore(w: World, w': World) {
    && w'.orders == w.orders && w'.clock == w.clock && w'.cursor == w.cursor && w'.boot == w.boot
    && w'.lastNow == w.lastNow && forall o :: Settled(w, o) ==> Settled(w', o)
  }

  lemma OneMoreKeeps(c: PollConfig, w: World, w': World)
    requires Inv(c, w) && OneMore(w, w')
    ensures CursorInv(c, w') && forall instant :: StillThere(w, instant) ==> StillThere(w', instant)
  {
    assert forall instant :: StillThere(w, instant) ==> StillThere(w', instant);
    assert w.cursor.Some? ==> CoveredUpTo(w', w.boot, w.cursor.value);
  }

  lemma LookupKeepsInv(c: PollConfig, w: World)
    requires Inv(c, w) && Enabled(w, LookupRow)
    ensures Inv(c, Apply(c, w, LookupRow))
  {
    OneMoreKeeps(c, w, Apply(c, w, LookupRow));
  }

  lemma EnqueueKeepsInv(c: PollConfig, w: World)
    requires Inv(c, w) && Enabled(w, Enqueue)
    ensures Inv(c, Apply(c, w, Enqueue))
  {
    OneMoreKeeps(c, w, Apply(c, w, Enqueue));
  }

  lemma StepKeepsInv(c: PollConfig, w: World, e: Event)
    requires ValidConfig(c) && Inv(c, w) && Enabled(w, e)
    ensures Inv(c, Apply(c, w, e))
  {
    match e {
      case OrderUpdated(id) => UpdateKeepsInv(c, w, id);
      case ListPage => ListKeepsInv(c, w);
      case LookupRow => LookupKeepsInv(c, w);
      case Enqueue => EnqueueKeepsInv(c, w);
      case SetWatermark => SetKeepsInv(c, w);
      case _ => QuietStepKeepsInv(c, w, e);
    }
  }

  lemma QuietStepKeepsInv(c: PollConfig, w: World, e: Event)
    requires Inv(c, w) && Enabled(w, e) && (e.Tick? || e.RowChanged? || e.StartPoll? || e.Fault?)
    ensures Inv(c, Apply(c, w, e))
  {
    var w' := Apply(c, w, e);
    StillSettled(w, w');
  }

  lemma StillSettled(w: World, w': World)
    requires w'.orders == w.orders && w'.enqueued == w.enqueued && w'.skipped == w.skipped
    ensures forall o :: Settled(w, o) ==> Settled(w', o)
    ensures forall instant :: StillThere(w, instant) ==> StillThere(w', instant)
    ensures forall from, upTo :: CoveredUpTo(w, from, upTo) ==> CoveredUpTo(w', from, upTo)
  {
  }

  lemma {:induction false} RunKeepsInv(c: PollConfig, w: World, run: seq<Event>)
    requires ValidConfig(c) && Inv(c, w) && Legal(c, w, run)
    ensures Inv(c, Exec(c, w, run))
    ensures w.cursor.Some? ==>
              var w' := Exec(c, w, run);
              w'.cursor.Some? && w.cursor.value <= w'.cursor.value && w'.boot == w.boot
    decreases run
  {
    if run != [] {
      StepKeepsInv(c, w, run[0]);
      if run[0].SetWatermark? {
        SetKeepsInv(c, w);
      }
      RunKeepsInv(c, Apply(c, w, run[0]), run[1..]);
    }
  }

  // A version is passed over only with a row that is synced or ignored.
  ghost predicate SkippedSettled(w: World) {
    forall o :: o in w.skipped ==> w.skipped[o] == Some(Synced) || w.skipped[o] == Some(Ignored)
  }

  lemma {:induction false} RunSkipsSettled(c: PollConfig, w: World, run: seq<Event>)
    requires SkippedSettled(w) && Legal(c, w, run)
    ensures SkippedSettled(Exec(c, w, run))
    decreases run
  {
    if run != [] {
      RunSkipsSettled(c, Apply(c, w, run[0]), run[1..]);
    }
  }

  // The watermark leaves no gap, whatever is updated, imported or fails between any two steps
  // of any number of polls: it never moves back, and every order whose present version lies
  // between the first cursor and the watermark was listed at that version by a poll that either
  // published it or found its row synced or ignored.
  lemma WatermarkLeavesNoGap(c: PollConfig, w: World, run: seq<Event>, more: seq<Event>)
    requires ValidConfig(c) && Fresh(w) && Legal(c, w, run) && Legal(c, Exec(c, w, run), more)
    ensures var mid := Exec(c, w, run);
            var end := Exec(c, mid, more);
            && (mid.cursor.Some? ==> end.cursor.Some? && mid.cursor.value <= end.cursor.value && mid.boot == end.boot)
            && (end.cursor.Some? ==>
                  forall o :: o in end.orders && end.boot <= o.updatedAt < end.cursor.value ==>
                    || o in end.enqueued
                    || (o in end.skipped && (end.skipped[o] == Some(Synced) || end.skipped[o] == Some(Ignored))))
  {
    RunKeepsInv(c, w, run);
    RunKeepsInv(c, Exec(c, w, run), more);
    RunSkipsSettled(c, w, run);
    RunSkipsSettled(c, Exec(c, w, run), more);
  }

  // ----- the watermark alone, under any config -----

  // Either a poll that found nothing set the cursor, or an order that keeps the next page from
  // being empty.
  ghost predicate Backed(c: PollConfig, w: World, instant: int) {
    instant <= w.lastNow - c.overlapOnEmpty || (c.pageSize > 0 && StillThere(w, instant))
  }

  ghost predicate PollBacked(c: PollConfig, w: World, now: int, since: int) {
    now <= w.clock && (w.cursor.Some? ==> w.lastNow <= now && since == w.cursor.value)
  }

  ghost predicate PageBacked(c: PollConfig, w: World, since: int, page: seq<Summary>) {
    if page == [] then w.cursor.Some? ==> since <= w.lastNow - c.overlapOnEmpty
    else
      var last := page[|page| - 1].updatedAt;
      c.pageSize > 0 && since <= last && StillThere(w, last)
  }

  ghost predicate BackedInv(c: PollConfig, w: World) {
    && (w.cursor.Some? ==> w.lastNow <= w.clock && Backed(c, w, w.cursor.value))
    && (forall o :: o in w.orders ==> o.updatedAt <= w.clock)
    && match w.phase
       case Idle => true
       case Started(now, since) => PollBacked(c, w, now, since)
       case Looping(now, since, page, _) => PollBacked(c, w, now, since) && PageBacked(c, w, since, page)
       case Enqueueing(now, since, page, _) => PollBacked(c, w, now, since) && PageBacked(c, w, since, page)
  }

  lemma ListStaysBacked(c: PollConfig, w: World)
    requires BackedInv(c, w) && Enabled(w, ListPage)
    ensures BackedInv(c, Apply(c, w, ListPage))
  {
    var since := w.phase.since;
    var page := Page(w.orders, since, c.pageSize);
    PageElements(w.orders, since, c.pageSize);
    if page != [] {
      assert page[|page| - 1] in page;
    } else if c.pageSize > 0 {
      RecentOrderIsListed(w.orders, since, c.pageSize);
    }
  }

  lemma RecentOrderIsListed(orders: seq<Summary>, since: int, limit: nat)
    requires limit > 0
    ensures (exists o :: o in orders && since <= o.updatedAt) ==> Page(orders, since, limit) != []
  {
    if o :| o in orders && since <= o.updatedAt {
      PageCovers(orders, since, limit, o);
    }
  }

  lemma StepStaysBacked(c: PollConfig, w: World, e: Event)
    requires BackedInv(c, w) && Enabled(w, e)
    ensures BackedInv(c, Apply(c, w, e))
    ensures w.cursor.Some? ==>
              Apply(c, w, e).cursor.Some? && w.cursor.value <= Apply(c, w, e).cursor.value
  {
    var w' := Apply(c, w, e);
    if e.ListPage? {
      ListStaysBacked(c, w);
    } else {
      if e.OrderUpdated? {
        UpdatedFacts(w.orders, e.id, w.clock);
      }
      forall instant | StillThere(w, instant)
        ensures StillThere(w', instant)
      {
        if e.OrderUpdated? {
          assert Summary(e.id, w.clock) in w'.orders;
        }
      }
    }
  }

  lemma {:induction false} RunStaysBacked(c: PollConfig, w: World, run: seq<Event>)
    requires BackedInv(c, w) && Legal(c, w, run)
    ensures BackedInv(c, Exec(c, w, run))
    ensures w.cursor.Some? ==>
              Exec(c, w, run).cursor.Some? && w.cursor.value <= Exec(c, w, run).cursor.value
    decreases run
  {
    if run != [] {
      StepStaysBacked(c, w, run[0]);
      RunStaysBacked(c, Apply(c, w, run[0]), run[1..]);
    }
  }

  // The watermark never moves back, under any config, whatever is updated, imported or fails
  // between any two steps.
  lemma WatermarkNeverMovesBack(c: PollConfig, w: World, run: seq<Event>, more: seq<Event>)
    requires Fresh(w) && Legal(c, w, run) && Legal(c, Exec(c, w, run), more)
    ensures var mid, end := Exec(c, w, run), Exec(c, Exec(c, w, run), more);
            mid.cursor.Some? ==> end.cursor.Some? && mid.cursor.value <= end.cursor.value
  {
    RunStaysBacked(c, w, run);
    RunStaysBacked(c, Exec(c, w, run), more);
  }

  // ----- the config the theorem needs -----

  lemma {:induction false} RunsJoin(c: PollConfig, w: World, xs: seq<Event>, ys: seq<Event>)
    requires Legal(c, w, xs) && Legal(c, Exec(c, w, xs), ys)
    ensures Legal(c, w, xs + ys) && Exec(c, w, xs + ys) == Exec(c, Exec(c, w, xs), ys)
    decreases xs
  {
    if xs == [] {
      assert xs + ys == ys;
    } else {
      assert (xs + ys)[0] == xs[0] && (xs + ys)[1..] == xs[1..] + ys;
      RunsJoin(c, Apply(c, w, xs[0]), xs[1..], ys);
    }
  }

  lemma OneEvent(c: PollConfig, w: World, e: Event)
    requires Enabled(w, e)
    ensures Legal(c, w, [e]) && Exec(c, w, [e]) == Apply(c, w, e)
  {
    assert [e][1..] == [];
  }

  // A poll that lists nothing stores the present less the overlap.
  lemma EmptyPoll(c: PollConfig, w: World) returns (run: seq<Event>)
    requires w.phase.Idle? && Page(w.orders, FromCursor(c, w.cursor, w.clock), c.pageSize) == []
    ensures Legal(c, w, run)
    ensures Exec(c, w, run) ==
            w.(cursor := Some(w.clock - c.overlapOnEmpty), lastNow := w.clock,
               boot := if w.cursor.None? then w.clock - c.bootstrapLookback else w.boot)
  {
    var s1 := Apply(c, w, StartPoll);
    var s2 := Apply(c, s1, ListPage);
    OneEvent(c, w, StartPoll);
    OneEvent(c, s1, ListPage);
    OneEvent(c, s2, SetWatermark);
    RunsJoin(c, s1, [ListPage], [SetWatermark]);
    RunsJoin(c, w, [StartPoll], [ListPage] + [SetWatermark]);
    run := [StartPoll] + ([ListPage] + [SetWatermark]);
  }

  lemma Then(c: PollConfig, w: World, run: seq<Event>, e: Event) returns (longer: seq<Event>)
    requires Legal(c, w, run) && Enabled(Exec(c, w, run), e)
    ensures Legal(c, w, longer) && Exec(c, w, longer) == Apply(c, Exec(c, w, run), e)
  {
    OneEvent(c, Exec(c, w, run), e);
    RunsJoin(c, w, run, [e]);
    longer := run + [e];
  }

  lemma ThenEmptyPoll(c: PollConfig, w: World, run: seq<Event>) returns (longer: seq<Event>)
    requires Legal(c, w, run)
    requires var s := Exec(c, w, run);
             s.phase.Idle? && s.cursor.Some? && Page(s.orders, s.cursor.value, c.pageSize) == []
    ensures Legal(c, w, longer)
    ensures var s := Exec(c, w, run);
            Exec(c, w, longer) == s.(cursor := Some(s.clock - c.overlapOnEmpty), lastNow := s.clock)
  {
    var poll := EmptyPoll(c, Exec(c, w, run));
    RunsJoin(c, w, run, poll);
    longer := run + poll;
  }

  ghost predicate Gap(w: World, o: Summary) {
    && w.cursor.Some? && o in w.orders && w.boot <= o.updatedAt < w.cursor.value
    && !Settled(w, o)
  }

  // With any other config there is a run from a fresh connection that leaves a gap: an overlap
  // below zero puts the cursor past orders still to come, and a page of no orders is always
  // empty.
  lemma GapWithout(c: PollConfig, id: string) returns (w: World, run: seq<Event>, o: Summary)
    requires !ValidConfig(c)
    ensures Fresh(w) && Legal(c, w, run) && Gap(Exec(c, w, run), o)
  {
    w := World([], map[], 0, None, 0, 0, Idle, {}, map[]);
    run := EmptyPoll(c, w);
    run := Then(c, w, run, Tick(if c.bootstrapLookback < 0 then -c.bootstrapLookback else 0));
    var now := Exec(c, w, run).clock;
    o := Summary(id, now);
    if c.overlapOnEmpty < 0 {
      run := ThenEmptyPoll(c, w, run);
      run := Then(c, w, run, OrderUpdated(id));
    } else {
      run := Then(c, w, run, OrderUpdated(id));
      run := Then(c, w, run, Tick(c.overlapOnEmpty + 1));
      PageElements(Exec(c, w, run).orders, Exec(c, w, run).cursor.value, c.pageSize);
      run := ThenEmptyPoll(c, w, run);
    }
  }

  // The first cursor of an empty shop lies before the bootstrap instant it covers up from, if
  // and only if the overlap exceeds the lookback; the watermark has not moved back by that, as
  // there was none.
  lemma FirstCursorBeforeBootstrapIff(c: PollConfig, w: World) returns (run: seq<Event>)
    requires w.phase.Idle? && w.cursor.None? && w.orders == []
    ensures Legal(c, w, run)
    ensures var end := Exec(c, w, run);
            end.cursor.Some? && (end.cursor.value < end.boot <==> c.bootstrapLookback < c.overlapOnEmpty)
  {
    run := EmptyPoll(c, w);
  }
}
