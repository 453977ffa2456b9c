// packages/mapping-engine/src/evaluator.ts: lists of mappings applied to an output that is built in
// place, with the values read from the source stored by reference.
module MappingEvaluator {
  import opened Common
  import opened MappingCourse
  import opened MappingObjects
  import opened MappingRules

  // The value is stored at the target, below the output; an empty target stops.
  ghost predicate Assigns(mem: Memory, stop: Option<Stop>, made: seq<Obj>, after: Memory, out: Obj,
                          target: Path, value: Value) {
    if target == [] then stop == Some(EmptyTarget) && after == mem
    else
      var (d, k) := Reach(mem, out, target);
      stop == None && Stored(mem, after, d, made, target, k, value)
  }

  // One setPath as the effect of a mapping.
  method Assign(out: Obj, target: Path, value: Value, ghost mem: Memory)
    returns (stop: Option<Stop>, ghost made: seq<Obj>, ghost after: Memory)
    requires Holds(mem) && Closed(mem) && out in mem && ValueIn(value, mem)
    modifies mem.Keys
    ensures Holds(after) && Closed(after) && mem.Keys <= after.Keys && fresh(after.Keys - mem.Keys)
    ensures stop == StopOf(Write(target, value))
    ensures Moves(mem, Write(target, value), made, after, out)
  {
    var ok;
    ok, made, after := SetPath(out, target, value, mem);
    stop := if ok then None else Some(EmptyTarget);
    if !ok {
      made := [];
    }
  }

  method ApplyLookup(source: Value, m: Mapping, ctx: Context, out: Obj, ghost mem: Memory)
    returns (stop: Option<Stop>, ghost made: seq<Obj>, ghost after: Memory)
    requires Holds(mem) && Closed(mem) && out in mem && ValueIn(source, mem)
    requires m.Lookup?
    modifies mem.Keys
    ensures Holds(after) && Closed(after) && mem.Keys <= after.Keys && fresh(after.Keys - mem.Keys)
    ensures var e := EffectOf(Snapshot(mem, source), ctx, m);
            stop == StopOf(e) && Moves(mem, e, made, after, out)
    ensures var row := FoundRow(Snapshot(mem, source), ctx, m.table, m.fromKey);
            && (row.Some? ==> Assigns(mem, stop, made, after, out, m.target, Of(Str(row.value))))
            && (row.None? && m.required == Some(false) ==> Assigns(mem, stop, made, after, out, m.target, Of(Null)))
            && (row.None? && m.required != Some(false) ==>
                  && after == mem
                  && stop == Some(if KeyIsThere(Read(mem, source, m.fromKey)) then NoRow(m.table)
                                  else KeyMissing(m.fromKey)))
  {
    stop, made, after := None, [], mem;
    var key := GetPath(source, m.fromKey, mem);
    if key == Undefined || key == Of(Null) {
      if m.required != Some(false) {
        stop := Some(KeyMissing(m.fromKey));
      } else {
        stop, made, after := Assign(out, m.target, Of(Null), mem);
      }
      return;
    }
    var resolved := ctx.resolve(m.table, ctx.text(key));
    if resolved.None? {
      if m.required != Some(false) {
        stop := Some(NoRow(m.table));
      } else {
        stop, made, after := Assign(out, m.target, Of(Null), mem);
      }
      return;
    }
    stop, made, after := Assign(out, m.target, Of(Str(resolved.value)), mem);
  }

  // applyMapping, with the cases that are short: it stops as its effect does, and makes its
  // effect's one write.
  method ApplyMapping(source: Value, m: Mapping, ctx: Context, out: Obj, ghost mem: Memory)
    returns (stop: Option<Stop>, ghost made: seq<Obj>, ghost after: Memory)
    requires Holds(mem) && Closed(mem) && out in mem && ValueIn(source, mem) && DerivesIn(ctx, mem)
    modifies mem.Keys
    ensures Holds(after) && Closed(after) && mem.Keys <= after.Keys && fresh(after.Keys - mem.Keys)
    ensures var e := EffectOf(Snapshot(mem, source), ctx, m);
            stop == StopOf(e) && Moves(mem, e, made, after, out)
    ensures m.Direct? ==> Assigns(mem, stop, made, after, out, m.target, Read(mem, source, m.source))
    ensures m.Constant? ==> Assigns(mem, stop, made, after, out, m.target, Of(m.value))
    ensures m.Derive? && m.fn in ctx.derives ==>
              Assigns(mem, stop, made, after, out, m.target, ctx.derives[m.fn](m.args))
    ensures m.Derive? && m.fn !in ctx.derives ==> stop == Some(NotRegistered(m.fn)) && after == mem
    ensures m.Conditional? && Read(mem, source, m.path) == m.equals ==>
              var e := EffectOf(Snapshot(mem, source), ctx, m.onMatch);
              stop == StopOf(e) && Moves(mem, e, made, after, out)
    ensures m.Conditional? && Read(mem, source, m.path) != m.equals && m.otherwise.Some? ==>
              var e := EffectOf(Snapshot(mem, source), ctx, m.otherwise.value);
              stop == StopOf(e) && Moves(mem, e, made, after, out)
    ensures m.Conditional? && Read(mem, source, m.path) != m.equals && m.otherwise.None? ==>
              stop == None && after == mem
    decreases m
  {
    stop, made, after := None, [], mem;
    match m
    case Direct(from, target) =>
      var v := GetPath(source, from, mem);
      stop, made, after := Assign(out, target, v, mem);
    case Constant(value, target) =>
      stop, made, after := Assign(out, target, Of(value), mem);
    case Lookup(_, _, _, _) =>
      stop, made, after := ApplyLookup(source, m, ctx, out, mem);
    case Derive(fn, args, target) =>
      if fn !in ctx.derives {
        return Some(NotRegistered(fn)), made, after;
      }
      stop, made, after := Assign(out, target, ctx.derives[fn](args), mem);
    case Conditional(path, equals, onMatch, otherwise) =>
      var actual := GetPath(source, path, mem);
      if actual == equals {
        stop, made, after := ApplyMapping(source, onMatch, ctx, out, mem);
      } else if otherwise.Some? {
        stop, made, after := ApplyMapping(source, otherwise.value, ctx, out, mem);
      }
  }

  // evaluate. Afterwards every object holds what the moves of the mappings, one after the other,
  // make of it, and the moves stop where the result says. An object of the source is written if
  // and only if some mapping, reached without a stop, writes below a place where the tree so far
  // holds one; FirstWriteIs says what is written then, and UntouchedEnds what comes out otherwise.
  method Evaluate(source: Value, ms: seq<Mapping>, ctx: Context, ghost mem: Memory)
    returns (r: Result<Obj, Stop>, ghost ev: Evaluation)
    requires Holds(mem) && Closed(mem) && ValueIn(source, mem) && DerivesIn(ctx, mem)
    modifies mem.Keys
    ensures ev == Evaluation(source, ms, ctx, mem, ev.out, ev.course) && fresh(ev.out)
    ensures Given(ev) && Follows(ev) && Complete(ev, r) && Holds(MemAt(ev, |ev.course|))
    ensures mem.Keys <= MemAt(ev, |ev.course|).Keys
    ensures (exists j :: WritesSourceAt(ev, j)) <==> (exists i :: WritesBelowShared(Look(ev), ctx, ms, i))
    ensures NothingBelowShared(ms) ==> Holds(mem)
  {
    var out := new Obj();
    ghost var now := mem[out := map[]];
    ev := Evaluation(source, ms, ctx, mem, out, []);
    StartsFaithful(out, mem);
    for i := 0 to |ms|
      invariant |ev.course| == i && ev == Evaluation(source, ms, ctx, mem, out, ev.course)
      invariant Follows(ev) && now == MemAt(ev, i)
      invariant Holds(now) && Closed(now) && mem.Keys <= now.Keys && out in now && fresh(now.Keys - mem.Keys)
    {
      ghost var before, made := ev, [];
      var stop;
      stop, made, now := ApplyMapping(source, ms[i], ctx, out, now);
      if stop.Some? {
        r := Err(stop.value);
        EvaluationEnds(ev, r);
        return;
      }
      ev := ev.(course := ev.course + [Move(made, now)]);
      OneMoreMove(before, Move(made, now));
    }
    r := Ok(out);
    EvaluationEnds(ev, r);
  }

  // The customer is copied into the output and the note set below the copy: the order's customer
  // has the note.
  method CopyThenNote(ctx: Context) returns (order: Obj, customer: Obj)
    requires DerivesIn(ctx, map[])
    ensures fresh(order) && fresh(customer)
    ensures order.fields == map["customer" := Ref(customer)]
    ensures customer.fields == map["note" := Of(Str("vip"))]
  {
    order := new Obj();
    customer := new Obj();
    order.fields := map["customer" := Ref(customer)];
    ghost var mem: Memory := map[order := order.fields, customer := customer.fields];
    var ms := [Direct(["customer"], ["c"]), Constant(Str("vip"), ["c", "note"])];
    var r, ev := Evaluate(Ref(order), ms, ctx, mem);
    CopyThenNoteMoves(ev, r, order, customer);
  }

  // Two for one currency and one for any other: the branch follows the source.
  method ChooseSubsidiary(currency: Scalar, ctx: Context) returns (out: Obj)
    requires DerivesIn(ctx, map[])
    ensures fresh(out)
    ensures out.fields == map["subsidiary" := Of(Num(if currency == Str("EUR") then 2 else 1))]
  {
    var order := new Obj();
    order.fields := map["currency" := Of(currency)];
    ghost var mem: Memory := map[order := order.fields];
    var ms := [Conditional(["currency"], Of(Str("EUR")), Constant(Num(2), ["subsidiary"]),
                           Some(Constant(Num(1), ["subsidiary"])))];
    var r, ev := Evaluate(Ref(order), ms, ctx, mem);
    SubsidiaryMoves(ev, r, order, currency);
    out := r.value;
  }
}
